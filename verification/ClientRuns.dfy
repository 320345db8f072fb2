/** A pulling client inside a run of the whole hub: incremental sync end to end, and what
    the bundles it is handed are worth at the next hub. */
module ClientRuns {
  import opened Common
  import opened Timestamps
  import opened Schemas
  import opened PreAudit
  import opened Graph
  import opened GraphTheory
  import opened Pull
  import opened Hub
  import opened HubInvariants
  import opened AuditRuns
  import opened Conservation
  import RoundTrip
  import Sync

  /** What the hub with this id answers to a pull request. */
  ghost function ReplyTo(hubId: string, st: State, s: Step): Reply
    requires s.call.PullKnowledge?
  {
    PullReply(hubId, st, s.call.apiKey, s.call.domains, s.call.limit, s.call.page, s.call.keys)
  }

  /** The step is a pull made with this key, and its answer reaches the client: a refused
      pull and one whose response does not fit the schema hand out nothing. */
  ghost predicate Delivered(hubId: string, st: State, s: Step, key: string)
  {
    s.call.PullKnowledge? && s.call.apiKey == Some(key) && ReplyTo(hubId, st, s).PullAnswer?
  }

  /** A hub step as the client's sync sees it: an approval attempt is a commit (of nothing,
      when the entry is not in review), an answered pull of the client is a page. */
  ghost function SyncStep(rules: RuleSet, hubId: string, st: State, s: Step, key: string): Option<Sync.Event>
  {
    if s.call.ApproveEntry? then Some(Sync.Commit(StepWrites(rules, st, s), Iso(s.now)))
    else if Delivered(hubId, st, s, key) then Some(Sync.PullPage(PullLimit(s.call.limit), s.call.page))
    else None
  }

  ghost function Trace(rules: RuleSet, hubId: string, st: State, steps: seq<Step>, key: string): seq<Sync.Event>
    decreases |steps|
  {
    if steps == [] then []
    else
      var e := SyncStep(rules, hubId, st, steps[0], key);
      (if e.Some? then [e.value] else []) + Trace(rules, hubId, Next(rules, st, steps[0]), steps[1..], key)
  }

  ghost function AfterEvent(w: Sync.World, domains: seq<string>, e: Option<Sync.Event>): Sync.World
  {
    if e.Some? then Sync.Next(w, domains, e.value) else w
  }

  /** The answered pulls of the client all ask for the same domains and send the last stamp
      the client received. A failed pull moves nothing; the client keeps its cursor. */
  ghost predicate Follows(
    rules: RuleSet, hubId: string, st: State, steps: seq<Step>, key: string, domains: seq<string>, w: Sync.World)
    decreases |steps|
  {
    steps != [] ==>
      && (Delivered(hubId, st, steps[0], key) ==>
            steps[0].call.domains == domains && CursorString(steps[0].call.since) == w.c.cursor)
      && Follows(rules, hubId, Next(rules, st, steps[0]), steps[1..], key, domains,
                 AfterEvent(w, domains, SyncStep(rules, hubId, st, steps[0], key)))
  }

  const START: Sync.World := Sync.World(EMPTY, Sync.NEW_CLIENT)

  /** What the client holds after the first i steps of a run of the hub. */
  ghost function ClientAt(
    rules: RuleSet, hubId: string, steps: seq<Step>, i: nat, key: string, domains: seq<string>): Sync.Client
    requires i <= |steps|
  {
    Sync.Run(START, domains, Trace(rules, hubId, INITIAL, steps[..i], key)).c
  }

  lemma EarlierThanNext(g: Store, last: Option<Instant>, now: Instant)
    requires StampedUpTo(g, last) && (last.Some? ==> Micros(last.value) < Micros(now))
    ensures Sync.AllBefore(g, Iso(now))
  {
    hide Micros, Iso;
    if last.Some? {
      IsoOrder(last.value, now);
      forall n | n in g.entities ensures StrLess(g.entities[n].approvedAt, Iso(now)) {
        StrOrder(g.entities[n].approvedAt, Iso(last.value), Iso(now));
      }
    }
  }

  /** One step: the sync event it is, if any, is enabled, and the graphs stay the same. */
  lemma StepIsSyncStep(
    rules: RuleSet, hubId: string, st: State, clock: Instant, s: Step, key: string, domains: seq<string>,
    w: Sync.World, last: Option<Instant>)
    requires Enabled(st, clock, s) && w.g == st.graph
    requires StampedUpTo(st.graph, last) && AttemptIsLater(last, s)
    requires Delivered(hubId, st, s, key) ==>
      s.call.domains == domains && CursorString(s.call.since) == w.c.cursor
    ensures var e := SyncStep(rules, hubId, st, s, key);
      && (e.Some? ==> Sync.Enabled(w, domains, e.value))
      && AfterEvent(w, domains, e).g == Next(rules, st, s).graph
  {
    hide Next, Micros, Iso, BundleStmts, Performed, Authenticate, StampedUpTo, SchemaOk, BundleOf, AnswerOf;
    NextAppliesWrites(rules, st, s);
    if s.call.ApproveEntry? {
      EarlierThanNext(st.graph, last, s.now);
    }
  }

  /** A hub run is a valid sync run of the client, on the same graph. */
  lemma {:induction false} RunIsSyncRun(
    rules: RuleSet, hubId: string, st: State, clock: Instant, steps: seq<Step>, key: string, domains: seq<string>,
    w: Sync.World, last: Option<Instant>)
    requires Inv(rules, st, clock) && ValidRun(rules, st, clock, steps)
    requires StampedUpTo(st.graph, last) && StrictCommits(last, steps)
    requires w.g == st.graph && Follows(rules, hubId, st, steps, key, domains, w)
    ensures Sync.ValidRun(w, domains, Trace(rules, hubId, st, steps, key))
    ensures Sync.Run(w, domains, Trace(rules, hubId, st, steps, key)).g == Run(rules, st, steps).graph
    decreases |steps|
  {
    hide Inv, Enabled, Next, SyncStep, Delivered, Micros, Sync.Enabled, Sync.Next, StampedUpTo, AttemptIsLater;
    if steps != [] {
      var s := steps[0];
      var e := SyncStep(rules, hubId, st, s, key);
      var st1, w1 := Next(rules, st, s), AfterEvent(w, domains, e);
      StepIsSyncStep(rules, hubId, st, clock, s, key, domains, w, last);
      NextStampedUpTo(rules, st, clock, s, last);
      NextKeepsInv(rules, st, clock, s);
      RunIsSyncRun(rules, hubId, st1, s.now, steps[1..], key, domains, w1, LastAttempt(last, s));
      var rest := Trace(rules, hubId, st1, steps[1..], key);
      if e.Some? {
        assert ([e.value] + rest)[1..] == rest;
      } else {
        assert [] + rest == rest;
      }
    }
  }

  /** Incremental sync, end to end. In any run of the whole hub in which approval attempts
      happen at strictly later times, a node that pulls with one domain filter and its last
      received stamp is never handed an entity twice; and when nothing is left above its
      cursor it holds exactly the matching entities of the hub's graph, unless a page
      boundary split a group of equal stamps, and then exactly the cut-off ones are missing.
      Pulls that end in an error hand out nothing and move nothing. */
  lemma ClientConverges(
    rules: RuleSet, hubId: string, clock: Instant, steps: seq<Step>, key: string, domains: seq<string>)
    requires ValidRun(rules, INITIAL, clock, steps) && StrictCommits(None, steps)
    requires Follows(rules, hubId, INITIAL, steps, key, domains, START)
    ensures
      var g := Run(rules, INITIAL, steps).graph;
      var c := ClientAt(rules, hubId, steps, |steps|, key, domains);
      && Distinct(c.received)
      && ToSet(c.received) !! c.lost
      && (Matching(g, c.cursor, domains) == {} ==>
            && ToSet(c.received) + c.lost == Matching(g, None, domains)
            && (ToSet(c.received) == Matching(g, None, domains) <==>
                  Sync.NoSplitTies(START, domains, Trace(rules, hubId, INITIAL, steps, key))))
  {
    hide ValidRun, Run, StrictCommits, Follows, Trace, Inv, Sync.ValidRun, Sync.Run, Sync.NoSplitTies;
    InitialInv(rules, clock);
    RunIsSyncRun(rules, hubId, INITIAL, clock, steps, key, domains, START, None);
    assert steps[..|steps|] == steps;
    var trace := Trace(rules, hubId, INITIAL, steps, key);
    Sync.SyncConverges(EMPTY, domains, trace);
    if Sync.Drained(Sync.Run(START, domains, trace), domains) {
      Sync.CompleteIffNoSplit(EMPTY, domains, trace);
    }
  }

  /** The client's world after the first i steps, and what the next step does to it. */
  lemma {:induction false} ClientStep(
    rules: RuleSet, hubId: string, st: State, clock: Instant, steps: seq<Step>, key: string, domains: seq<string>,
    w: Sync.World, last: Option<Instant>, i: nat)
    requires Inv(rules, st, clock) && ValidRun(rules, st, clock, steps) && i < |steps|
    requires StampedUpTo(st.graph, last) && StrictCommits(last, steps)
    requires w.g == st.graph && Follows(rules, hubId, st, steps, key, domains, w)
    ensures
      var st' := Run(rules, st, steps[..i]);
      var w' := Sync.Run(w, domains, Trace(rules, hubId, st, steps[..i], key));
      var e := SyncStep(rules, hubId, st', steps[i], key);
      && w'.g == st'.graph
      && (e.Some? ==> Sync.Enabled(w', domains, e.value))
      && Sync.Run(w, domains, Trace(rules, hubId, st, steps[..i + 1], key)) == AfterEvent(w', domains, e)
    decreases i
  {
    hide Inv, Enabled, Next, SyncStep, Delivered, Micros, Sync.Enabled, Sync.Next, StampedUpTo, AttemptIsLater;
    var s, rest := steps[0], steps[1..];
    var e, st1 := SyncStep(rules, hubId, st, s, key), Next(rules, st, s);
    StepIsSyncStep(rules, hubId, st, clock, s, key, domains, w, last);
    FirstOfTrace(rules, hubId, st, steps[..i + 1], key, domains, w);
    if i == 0 {
      assert steps[..1][1..] == [];
    } else {
      NextStampedUpTo(rules, st, clock, s, last);
      NextKeepsInv(rules, st, clock, s);
      ClientStep(rules, hubId, st1, s.now, rest, key, domains, AfterEvent(w, domains, e), LastAttempt(last, s), i - 1);
      FirstOfTrace(rules, hubId, st, steps[..i], key, domains, w);
      assert steps[..i][1..] == rest[..i - 1] && steps[..i + 1][1..] == rest[..i];
    }
  }

  lemma FirstOfTrace(
    rules: RuleSet, hubId: string, st: State, steps: seq<Step>, key: string, domains: seq<string>, w: Sync.World)
    requires steps != []
    ensures Sync.Run(w, domains, Trace(rules, hubId, st, steps, key)) ==
      Sync.Run(AfterEvent(w, domains, SyncStep(rules, hubId, st, steps[0], key)), domains,
               Trace(rules, hubId, Next(rules, st, steps[0]), steps[1..], key))
  {
    hide Next, SyncStep, Sync.Next;
    var e := SyncStep(rules, hubId, st, steps[0], key);
    var rest := Trace(rules, hubId, Next(rules, st, steps[0]), steps[1..], key);
    if e.Some? {
      assert ([e.value] + rest)[1..] == rest;
    } else {
      assert [] + rest == rest;
    }
  }

  function NamesIn(b: Bundle): seq<string>
  {
    seq(|b.entities|, i requires 0 <= i < |b.entities| => b.entities[i].Name())
  }

  /** What the client holds is what the hub's answers to it listed, in order: an answered
      pull adds the names in the bundle of the reply, and nothing else ever adds any. */
  lemma ReceivedIsReplied(
    rules: RuleSet, hubId: string, clock: Instant, steps: seq<Step>, i: nat, key: string, domains: seq<string>)
    requires ValidRun(rules, INITIAL, clock, steps) && StrictCommits(None, steps) && i < |steps|
    requires Follows(rules, hubId, INITIAL, steps, key, domains, START)
    ensures
      var st, s := StateAt(rules, steps, i), steps[i];
      var before := ClientAt(rules, hubId, steps, i, key, domains);
      var after := ClientAt(rules, hubId, steps, i + 1, key, domains);
      if s.call.PullKnowledge? && s.call.apiKey == Some(key) && ReplyTo(hubId, st, s).PullAnswer?
      then after.received == before.received + NamesIn(ReplyTo(hubId, st, s).bundle)
      else after.received == before.received && after.cursor == before.cursor
  {
    hide Inv, ValidRun, Run, StrictCommits, Follows, Trace, Sync.Run, SchemaOk, Authenticate, KnownDomains, ApplyAll;
    var st, s := StateAt(rules, steps, i), steps[i];
    InitialInv(rules, clock);
    ClientStep(rules, hubId, INITIAL, clock, steps, key, domains, START, None, i);
    if Delivered(hubId, st, s, key) {
      var p := AnswerOf(st.graph, s.call.page, s.call.keys, PullLimit(s.call.limit));
      PulledBundleParts(st.graph, hubId, s.call.page, s.call.keys, PullLimit(s.call.limit), p);
      assert NamesIn(BundleOf(hubId, p)) == s.call.page;
    }
  }

  /** An answered pull that says there is no more leaves nothing above the client's cursor,
      which is what ClientConverges asks for. */
  lemma LastReplyDrains(
    rules: RuleSet, hubId: string, clock: Instant, steps: seq<Step>, i: nat, key: string, domains: seq<string>)
    requires ValidRun(rules, INITIAL, clock, steps) && StrictCommits(None, steps) && i < |steps|
    requires Follows(rules, hubId, INITIAL, steps, key, domains, START)
    requires Delivered(hubId, StateAt(rules, steps, i), steps[i], key)
    requires !ReplyTo(hubId, StateAt(rules, steps, i), steps[i]).hasMore
    ensures Matching(StateAt(rules, steps, i + 1).graph,
                     ClientAt(rules, hubId, steps, i + 1, key, domains).cursor, domains) == {}
  {
    hide Inv, ValidRun, Run, StrictCommits, Follows, Trace, Sync.Run, SchemaOk, BundleOf, Authenticate, KnownDomains;
    var st, s := StateAt(rules, steps, i), steps[i];
    InitialInv(rules, clock);
    ClientStep(rules, hubId, INITIAL, clock, steps, key, domains, START, None, i);
    BetweenPositions(rules, clock, steps, i, i + 1);
    NextAppliesWrites(rules, st, s);
    var w := Sync.Run(START, domains, Trace(rules, hubId, INITIAL, steps[..i], key));
    Sync.LastPullDrains(w, domains, PullLimit(s.call.limit), s.call.page);
  }

  // ---- Audit-clean closure -----------------------------------------------

  /** In every reachable state, failed commits included, both endpoints of every relation
      exist and are stamped no later than it, no stamp is later than the clock, every name
      is nonempty, at most 512 long and not sensitive, and every relation type is allowed. */
  lemma ReachableGraphIsSound(rules: RuleSet, clock: Instant, steps: seq<Step>)
    requires ValidRun(rules, INITIAL, clock, steps)
    ensures var g := Run(rules, INITIAL, steps).graph;
      Shaped(g) && AuditedGraph(rules, g) && NotAfter(g, Iso(LastTime(clock, steps)))
  {
    hide ValidRun, Run, Inv;
    InitialInv(rules, clock);
    RunKeepsInv(rules, INITIAL, clock, steps);
    GraphOf(rules, Run(rules, INITIAL, steps), LastTime(clock, steps));
  }

  /** Whatever a pull of a reachable hub returns passes the pre-audit of the next hub
      exactly when the hub has an id and both lists are within the caps. */
  lemma ReachablePullPasses(
    rules: Rules, clock: Instant, steps: seq<Step>, hubId: string,
    page: seq<string>, keys: seq<RelKey>, limit: nat, p: Pulled)
    requires ValidRun(rules, INITIAL, clock, steps)
    requires
      var g := Run(rules, INITIAL, steps).graph;
      JoinEndpointsExist(g, page, keys) && Answers(g, page, keys, limit, p)
    ensures Passes(rules, BundleOf(hubId, p)) <==>
      hubId != "" && |page| <= MAX_BUNDLE_ENTITIES && |keys| <= MAX_BUNDLE_TRIPLES
  {
    hide ValidRun, Run, Answers, JoinEndpointsExist, Passes, BundleOf, Shaped, AuditedGraph;
    ReachableGraphIsSound(rules, clock, steps);
    PulledBundlePasses(rules, Run(rules, INITIAL, steps).graph, hubId, page, keys, limit, p);
  }

  /** Export and import between hubs: a full pull of any reachable hub, committed by an
      empty one, rebuilds the graph up to origin and stamp. */
  lemma ReachableExportRebuilds(
    rules: Rules, clock: Instant, steps: seq<Step>, hubId: string,
    page: seq<string>, keys: seq<RelKey>, limit: nat, p: Pulled, origin: string, at: string)
    requires ValidRun(rules, INITIAL, clock, steps)
    requires var g := Run(rules, INITIAL, steps).graph;
      && |g.entities| <= limit && IsPage(g, None, [], limit, page) && IsJoin(g, page, keys)
      && JoinEndpointsExist(g, page, keys) && Answers(g, page, keys, limit, p)
    ensures ApplyAll(EMPTY, Writes(BundleStmts(rules, BundleOf(hubId, p)), origin, at)) ==
      RoundTrip.Rebadged(Run(rules, INITIAL, steps).graph, origin, at)
  {
    hide ValidRun, Run, Answers, JoinEndpointsExist, BundleOf, IsPage, IsJoin, BundleStmts, ApplyAll, Shaped,
      AuditedGraph, RoundTrip.Rebadged;
    ReachableGraphIsSound(rules, clock, steps);
    RoundTrip.ImportRebuilds(rules, Run(rules, INITIAL, steps).graph, hubId, limit, page, keys, p, origin, at);
  }
}
