/** Which pulls of a reachable hub end in an error although both queries succeeded: the
    response schema is stricter than what the audit lets into the graph, and its caps are
    half of what a pull may ask for. */
module PullFailures {
  import opened Common
  import opened Timestamps
  import opened Schemas
  import opened PreAudit
  import opened Graph
  import opened GraphTheory
  import opened Pull
  import opened Hub
  import opened HubInvariants
  import opened AuditRuns
  import opened Abuse
  import opened Conservation
  import opened ClientRuns
  import RoundTrip
  import AbuseWitnesses
  import Sync

  // ---- When a pull is answered -------------------------------------------

  /** The types of both endpoints of a relation fit the response schema. */
  predicate TypesFit(g: Store, k: RelKey)
    requires k.subject in g.entities && k.obj in g.entities
  {
    Fits(g.entities[k.subject].typ, 128) && Fits(g.entities[k.obj].typ, 128)
  }

  lemma ReplyFits(rules: Rules, st: State, clock: Instant, s: Step, hubId: string)
    requires Inv(rules, st, clock) && Enabled(st, clock, s) && s.call.PullKnowledge?
    requires PullAnswers(st, s.call.apiKey, s.call.domains, s.call.limit)
    ensures JoinEndpointsExist(st.graph, s.call.page, s.call.keys)
    ensures ReplyTo(hubId, st, s).PullAnswer? <==>
      && |hubId| <= 64 && |s.call.page| <= 5000 && |s.call.keys| <= 5000
      && forall k :: k in s.call.keys ==> TypesFit(st.graph, k)
    ensures !ReplyTo(hubId, st, s).PullAnswer? ==> ReplyTo(hubId, st, s) == ServerError
  {
    hide IsPage, IsJoin, SchemaOk, Authenticate, BundleOf, AnswerOf, KnownDomains, Shaped, AuditedGraph, Iso, Micros;
    var g, page, keys, limit := st.graph, s.call.page, s.call.keys, PullLimit(s.call.limit);
    GraphOf(rules, st, clock);
    RowsExist(g, CursorString(s.call.since), s.call.domains, limit, page, keys);
    PulledBundleFits(rules, g, hubId, page, keys, limit, AnswerOf(g, page, keys, limit));
  }

  /** In every reachable state, a pull with a good key, known domains and a limit that is
      not negative is answered if and only if the hub id is short enough, the page and the
      join are within 5000 rows each, and every relation of the graph whose subject is on
      the page has endpoint types the schema accepts. Otherwise the reply is an error. */
  lemma ReachableReply(rules: Rules, hubId: string, clock: Instant, steps: seq<Step>, i: nat)
    requires ValidRun(rules, INITIAL, clock, steps) && i < |steps| && steps[i].call.PullKnowledge?
    requires PullAnswers(StateAt(rules, steps, i), steps[i].call.apiKey, steps[i].call.domains, steps[i].call.limit)
    ensures
      var g, s, reply := StateAt(rules, steps, i).graph, steps[i], ReplyTo(hubId, StateAt(rules, steps, i), steps[i]);
      && (reply.PullAnswer? <==>
            && |hubId| <= 64 && |s.call.page| <= 5000 && |s.call.keys| <= 5000
            && forall k :: k in g.relations && k.subject in s.call.page ==> WellPlaced(g, k) && TypesFit(g, k))
      && (!reply.PullAnswer? ==> reply == ServerError)
  {
    hide Inv, ValidRun, Run, ReplyTo, Authenticate, KnownDomains, Micros, Iso, StateAt;
    var st, now := StateAt(rules, steps, i), LastTime(clock, steps[..i]);
    PositionIsSound(rules, clock, steps, i);
    BetweenPositions(rules, clock, steps, i, i);
    ReplyFits(rules, st, now, steps[i], hubId);
    GraphOf(rules, st, now);
  }

  /** A pull may ask for 10000 entities, but no response may hold more than 5000: once more
      than 5000 entities match, every pull with a larger limit fails, and what the client
      would have to do is ask for less. */
  lemma LargePullFails(hubId: string, st: State, clock: Instant, s: Step)
    requires Enabled(st, clock, s) && s.call.PullKnowledge?
    requires PullAnswers(st, s.call.apiKey, s.call.domains, s.call.limit)
    requires |Matching(st.graph, CursorString(s.call.since), s.call.domains)| > 5000
    ensures |s.call.page| > 5000 <==> s.call.limit > 5000
    ensures s.call.limit > 5000 ==> ReplyTo(hubId, st, s) == ServerError
  {
    hide Authenticate, Iso, Micros, KnownDomains, Matching;
  }

  // ---- What one bad type does --------------------------------------------

  /** A relation of the graph with an endpoint whose type is missing or too long. */
  predicate BadEndpoints(g: Store, k: RelKey)
  {
    k in g.relations && k.subject in g.entities && k.obj in g.entities && !TypesFit(g, k)
  }

  /** From the moment a relation has an endpoint type the schema refuses, in that and every
      later state, every pull whose page lists its subject fails: attributes never change. */
  lemma BadTypeBreaksPulls(
    rules: Rules, hubId: string, clock: Instant, steps: seq<Step>, i: nat, j: nat, k: RelKey)
    requires ValidRun(rules, INITIAL, clock, steps) && i <= j < |steps|
    requires BadEndpoints(StateAt(rules, steps, i).graph, k)
    requires steps[j].call.PullKnowledge? && k.subject in steps[j].call.page
    requires PullAnswers(StateAt(rules, steps, j), steps[j].call.apiKey, steps[j].call.domains, steps[j].call.limit)
    ensures ReplyTo(hubId, StateAt(rules, steps, j), steps[j]) == ServerError
  {
    hide Inv, ValidRun, Run, ReplyTo, Authenticate, KnownDomains, Micros, Iso, StateAt, PullAnswers;
    BetweenPositions(rules, clock, steps, i, j);
    GrowsAlong(rules, StateAt(rules, steps, i), steps[i..j]);
    ReachableReply(rules, hubId, clock, steps, j);
  }

  lemma BadStepDeliversNothing(
    rules: Rules, hubId: string, st: State, clock: Instant, s: Step, key: string, domains: seq<string>,
    w: Sync.World, k: RelKey)
    requires Inv(rules, st, clock) && Enabled(st, clock, s) && BadEndpoints(st.graph, k)
    ensures BadEndpoints(Next(rules, st, s).graph, k)
    ensures k.subject in AfterEvent(w, domains, SyncStep(rules, hubId, st, s, key)).c.received ==>
      k.subject in w.c.received
  {
    hide Inv, Next, Iso, Micros, Authenticate, KnownDomains, SchemaOk, BundleOf, AnswerOf, CutOff, NextCursor, ApplyAll,
      StepWrites, IsPage;
    NextAppliesWrites(rules, st, s);
    ApplyGrows(st.graph, StepWrites(rules, st, s));
    if Delivered(hubId, st, s, key) {
      ReplyFits(rules, st, clock, s, hubId);
    }
  }

  lemma {:induction false} BadSubjectNotDelivered(
    rules: Rules, hubId: string, st: State, clock: Instant, steps: seq<Step>, key: string, domains: seq<string>,
    w: Sync.World, k: RelKey)
    requires Inv(rules, st, clock) && ValidRun(rules, st, clock, steps) && BadEndpoints(st.graph, k)
    ensures k.subject in Sync.Run(w, domains, Trace(rules, hubId, st, steps, key)).c.received ==>
      k.subject in w.c.received
    decreases |steps|
  {
    hide Inv, Next, Enabled, BadEndpoints, SyncStep, Sync.Next;
    if steps != [] {
      var s := steps[0];
      FirstOfTrace(rules, hubId, st, steps, key, domains, w);
      BadStepDeliversNothing(rules, hubId, st, clock, s, key, domains, w, k);
      NextKeepsInv(rules, st, clock, s);
      BadSubjectNotDelivered(rules, hubId, Next(rules, st, s), s.now, steps[1..], key, domains,
        AfterEvent(w, domains, SyncStep(rules, hubId, st, s, key)), k);
    }
  }

  lemma {:induction false} TraceSplits(rules: RuleSet, hubId: string, st: State, steps: seq<Step>, i: nat, key: string)
    requires i <= |steps|
    ensures Trace(rules, hubId, st, steps, key) ==
      Trace(rules, hubId, st, steps[..i], key) + Trace(rules, hubId, Run(rules, st, steps[..i]), steps[i..], key)
    decreases |steps|
  {
    hide Next, SyncStep;
    if i == 0 {
      assert steps[..0] == [] && steps[0..] == steps;
    } else {
      TraceSplits(rules, hubId, Next(rules, st, steps[0]), steps[1..], i - 1, key);
      assert steps[..i][1..] == steps[1..][..i - 1] && steps[i..] == steps[1..][i - 1..];
    }
  }

  /** The subject of such a relation is never handed to a client that does not have it yet.
      The client can get past it only by losing it to a page boundary that splits its tie;
      otherwise something is left above its cursor for good and it is never in sync. */
  lemma BadSubjectIsNeverDelivered(
    rules: Rules, hubId: string, clock: Instant, steps: seq<Step>, i: nat, key: string, domains: seq<string>, k: RelKey)
    requires ValidRun(rules, INITIAL, clock, steps) && StrictCommits(None, steps) && i <= |steps|
    requires Follows(rules, hubId, INITIAL, steps, key, domains, START)
    requires BadEndpoints(StateAt(rules, steps, i).graph, k)
    requires k.subject !in ClientAt(rules, hubId, steps, i, key, domains).received
    ensures
      var g := Run(rules, INITIAL, steps).graph;
      var c := ClientAt(rules, hubId, steps, |steps|, key, domains);
      && k.subject !in c.received
      && (k.subject in Matching(g, None, domains) && k.subject !in c.lost ==> Matching(g, c.cursor, domains) != {})
  {
    hide Inv, ValidRun, Run, StrictCommits, Follows, Trace, Sync.Run, BadEndpoints, Matching, Sync.NoSplitTies;
    var st := StateAt(rules, steps, i);
    PositionIsSound(rules, clock, steps, i);
    TraceSplits(rules, hubId, INITIAL, steps, i, key);
    var before, after := Trace(rules, hubId, INITIAL, steps[..i], key), Trace(rules, hubId, st, steps[i..], key);
    Sync.RunAppend(START, domains, before, after);
    BadSubjectNotDelivered(rules, hubId, st, LastTime(clock, steps[..i]), steps[i..], key, domains,
      Sync.Run(START, domains, before), k);
    ClientConverges(rules, hubId, clock, steps, key, domains);
    assert steps[..|steps|] == steps;
  }

  // ---- A bundle that does it ---------------------------------------------

  /** A one-relation bundle whose entity list gives the subject a null type. */
  function NullTypeBundle(origin: string): Bundle
  {
    Bundle(origin, [Item(Some("a"), Null, Absent, Absent)],
           [Triple("a", Some("T"), "IS_A", "b", Some("T"), 1.0, "general")])
  }

  const NULL_TYPE_KEY: RelKey := RelKey("a", "IS_A", "b")

  /** The two statements of that bundle. */
  function NullTypeStmts(): seq<Stmt>
  {
    [MergeEntity("a", None, Some("general")), MergeRelation(NULL_TYPE_KEY, Some("T"), Some("T"), 1.0, "general")]
  }

  lemma NullTypeBundleStmts(rules: Rules, origin: string)
    requires "IS_A" in rules.allowed
    ensures BundleStmts(rules, NullTypeBundle(origin)) == NullTypeStmts()
  {
    AllRelationsKept(rules, NullTypeBundle(origin).relations);
  }

  lemma NullTypeCommitted(rules: Rules, origin: string, at: string)
    requires "IS_A" in rules.allowed
    ensures var g := ApplyAll(EMPTY, Writes(BundleStmts(rules, NullTypeBundle(origin)), origin, at));
      && NULL_TYPE_KEY in g.relations
      && g.entities.Keys == {"a", "b"} && g.entities["a"].typ == None
      && |g.entities| == 2
  {
    hide BundleStmts;
    NullTypeBundleStmts(rules, origin);
    var first, second := NullTypeStmts()[0], NullTypeStmts()[1];
    var ws, g1 := Writes(NullTypeStmts(), origin, at), MergeNode(EMPTY, "a", Entity(None, Some("general"), origin, at));
    assert ws[..1] == [Write(first, origin, at)] && ws[..1][..0] == [];
    assert ApplyAll(EMPTY, ws[..1]) == g1;
    NullTypeEndpoint(g1, NULL_TYPE_KEY, origin, at);
  }

  lemma NullTypeEndpoint(g: Store, k: RelKey, origin: string, at: string)
    requires g.entities.Keys == {"a"} && g.relations == map[] && k == RelKey("a", "IS_A", "b")
    ensures var g' := Apply(g, Write(MergeRelation(k, Some("T"), Some("T"), 1.0, "general"), origin, at));
      && k in g'.relations && g'.entities.Keys == {"a", "b"} && g'.entities["a"] == g.entities["a"]
      && |g'.entities| == 2
  {
    var g' := Apply(g, Write(MergeRelation(k, Some("T"), Some("T"), 1.0, "general"), origin, at));
    assert "a" != "b";
    assert g'.entities.Keys == {"a", "b"};
    assert |g'.entities| == |g'.entities.Keys|;
  }

  /** The simplest case of the above: the bundle fits the schema, passes the pre-audit and
      is committed, and the very next full pull fails. */
  lemma NullTypeBreaksPull(
    rules: Rules, origin: string, now: Instant, hubId: string,
    page: seq<string>, keys: seq<RelKey>, p: Pulled)
    requires "IS_A" in rules.allowed && !rules.Sensitive("a") && !rules.Sensitive("b") && 0 < |origin| <= 64
    requires var g := ApplyAll(EMPTY, Writes(BundleStmts(rules, NullTypeBundle(origin)), origin, Iso(now)));
      && IsPage(g, None, [], 2, page) && IsJoin(g, page, keys)
      && JoinEndpointsExist(g, page, keys) && Answers(g, page, keys, 2, p)
    ensures SchemaOk(NullTypeBundle(origin)) && Passes(rules, NullTypeBundle(origin))
    ensures BadEndpoints(ApplyAll(EMPTY, Writes(BundleStmts(rules, NullTypeBundle(origin)), origin, Iso(now))),
      NULL_TYPE_KEY)
    ensures !SchemaOk(BundleOf(hubId, p))
  {
    hide Iso, IsPage, Answers, ApplyAll, BundleStmts;
    var b := NullTypeBundle(origin);
    NullTypeBundlePasses(rules, origin);
    NullTypeCommitted(rules, origin, Iso(now));
    CommitKeepsGraphOk(rules, EMPTY, now, b, origin, None);
    var g := ApplyAll(EMPTY, Writes(BundleStmts(rules, b), origin, Iso(now)));
    RoundTrip.FullPullIsComplete(g, 2, page, keys);
    assert NULL_TYPE_KEY in ToSet(keys);
    PulledBundleFits(rules, g, hubId, page, keys, 2, p);
  }

  lemma NullTypeBundlePasses(rules: Rules, origin: string)
    requires "IS_A" in rules.allowed && !rules.Sensitive("a") && !rules.Sensitive("b") && 0 < |origin| <= 64
    ensures SchemaOk(NullTypeBundle(origin)) && Passes(rules, NullTypeBundle(origin))
  {
    var b := NullTypeBundle(origin);
    assert forall t :: t in b.relations ==> t == b.relations[0];
    assert forall e :: e in b.entities ==> e == b.entities[0];
    assert rules.upper("IS_A") == "IS_A" && !rules.Sensitive("IS_A");
  }

  /** A node joins, pushes the bundle, and it is approved. */
  function NullTypeRun(now: Instant): seq<Step>
  {
    [Step(now, RequestHandshake("n")), Step(now, AcceptNode("n", "k")),
     Step(now, PushBundle(Some("k"), NullTypeBundle("n"), "id")), Step(now, ApproveEntry("id", None))]
  }

  lemma CleanPushQueued(rules: RuleSet, kv: KV, b: Bundle, now: Instant)
    requires RateChecked(kv, "n", Micros(now)).1 && Passes(rules, b)
    ensures var st' := PushFrom(rules, AbuseWitnesses.Hub1(kv), "n", b, "id", now).0;
      st'.graph == EMPTY && Lookup(st'.queue, "id") == Some(Entry("n", b, InReview, None))
  {
    hide Passes, Micros, RateChecked, StrikeRecorded, MustBlock, Credited;
  }

  lemma PushIsPushFrom(rules: RuleSet, kv: KV, b: Bundle, now: Instant)
    requires SchemaOk(b)
    ensures var st, s := AbuseWitnesses.Hub1(kv), Step(now, PushBundle(Some("k"), b, "id"));
      Enabled(st, now, s) && Next(rules, st, s) == PushFrom(rules, st, "n", b, "id", now).0
  {
    hide SchemaOk, PushFrom, Micros, Authenticate;
    AbuseWitnesses.KeyOpensN(kv);
  }

  lemma NullTypePushed(rules: Rules, st: State, now: Instant)
    requires st == AbuseWitnesses.Hub1(map[])
    requires "IS_A" in rules.allowed && !rules.Sensitive("a") && !rules.Sensitive("b")
    ensures Enabled(st, now, NullTypeRun(now)[2])
    ensures var st' := Next(rules, st, NullTypeRun(now)[2]);
      st'.graph == EMPTY && Lookup(st'.queue, "id") == Some(Entry("n", NullTypeBundle("n"), InReview, None))
  {
    hide NullTypeBundle, SchemaOk, Passes, Micros, RateChecked, PushFrom, Next, Enabled, AbuseWitnesses.Hub1;
    NullTypeBundlePasses(rules, "n");
    AbuseWitnesses.StruckFresh(Micros(now));
    PushIsPushFrom(rules, map[], NullTypeBundle("n"), now);
    CleanPushQueued(rules, map[], NullTypeBundle("n"), now);
  }

  lemma JoinsHub(rules: RuleSet, now: Instant)
    ensures
      var s0, s1 := NullTypeRun(now)[0], NullTypeRun(now)[1];
      && Enabled(INITIAL, now, s0) && Enabled(Next(rules, INITIAL, s0), now, s1)
      && Next(rules, Next(rules, INITIAL, s0), s1) == AbuseWitnesses.Hub1(map[])
  {
    hide Micros, NullTypeBundle;
  }

  lemma NullTypeApproved(rules: Rules, st: State, now: Instant)
    requires st.graph == EMPTY && Lookup(st.queue, "id") == Some(Entry("n", NullTypeBundle("n"), InReview, None))
    requires "IS_A" in rules.allowed
    ensures Enabled(st, now, NullTypeRun(now)[3])
    ensures BadEndpoints(Next(rules, st, NullTypeRun(now)[3]).graph, NULL_TYPE_KEY)
  {
    hide Iso, BundleStmts, ApplyAll, NullTypeBundle, Next;
    NullTypeCommitted(rules, "n", Iso(now));
    NextAppliesWrites(rules, st, NullTypeRun(now)[3]);
  }

  lemma FourSteps(rules: RuleSet, st: State, now: Instant, steps: seq<Step>)
    requires |steps| == 4 && forall i :: 0 <= i < 4 ==> steps[i].now == now
    requires
      var st1 := Next(rules, st, steps[0]);
      var st2 := Next(rules, st1, steps[1]);
      && Enabled(st, now, steps[0]) && Enabled(st1, now, steps[1]) && Enabled(st2, now, steps[2])
      && Enabled(Next(rules, st2, steps[2]), now, steps[3])
    ensures ValidRun(rules, st, now, steps)
    ensures Run(rules, st, steps) ==
      Next(rules, Next(rules, Next(rules, Next(rules, st, steps[0]), steps[1]), steps[2]), steps[3])
  {
    hide Next, Enabled;
    assert steps[1..][1..] == steps[2..] && steps[2..][1..] == steps[3..] && steps[3..][1..] == [];
    var st1 := Next(rules, st, steps[0]);
    var st2 := Next(rules, st1, steps[1]);
    var st3 := Next(rules, st2, steps[2]);
    assert Run(rules, st3, steps[3..]) == Next(rules, st3, steps[3]) && ValidRun(rules, st3, now, steps[3..]);
    assert Run(rules, st2, steps[2..]) == Next(rules, st3, steps[3]) && ValidRun(rules, st2, now, steps[2..]);
  }

  /** A hub gets there in four requests, whatever the time. */
  lemma BadTypeIsReachable(rules: Rules, now: Instant)
    requires "IS_A" in rules.allowed && !rules.Sensitive("a") && !rules.Sensitive("b")
    ensures ValidRun(rules, INITIAL, now, NullTypeRun(now))
    ensures BadEndpoints(Run(rules, INITIAL, NullTypeRun(now)).graph, NULL_TYPE_KEY)
  {
    hide Micros, Iso, NullTypeBundle, Next, Enabled, ValidRun, Run, BadEndpoints, AbuseWitnesses.Hub1;
    var steps, st2 := NullTypeRun(now), AbuseWitnesses.Hub1(map[]);
    JoinsHub(rules, now);
    NullTypePushed(rules, st2, now);
    NullTypeApproved(rules, Next(rules, st2, steps[2]), now);
    FourSteps(rules, INITIAL, now, steps);
  }
}
