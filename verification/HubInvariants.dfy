/** What every reachable state of the hub satisfies. */
module HubInvariants {
  import opened Common
  import opened Timestamps
  import opened Schemas
  import opened PreAudit
  import opened Graph
  import opened GraphTheory
  import opened Pull
  import opened Abuse
  import opened Hub

  // ---- The invariants ----------------------------------------------------

  /** Keys are unique; a pending node has none, an accepted node has one. */
  ghost predicate KeysOk(nodes: map<string, Node>)
  {
    && (forall n :: n in nodes && nodes[n].status == Pending ==> nodes[n].apiKey == None)
    && (forall n :: n in nodes && nodes[n].status == Accepted ==> nodes[n].apiKey.Some?)
    && (forall m, n :: m in nodes && n in nodes && nodes[m].apiKey.Some? && nodes[m].apiKey == nodes[n].apiKey ==>
          m == n)
  }

  /** Only audited bundles of registered nodes are in the queue. */
  ghost predicate QueueOk(rules: RuleSet, nodes: map<string, Node>, queue: map<string, Entry>)
  {
    forall id :: id in queue ==>
      && queue[id].origin in nodes
      && Passes(rules, queue[id].bundle)
      && SchemaOk(queue[id].bundle)
  }

  /** The graph is well-shaped, has no stamp from the future and is clean. */
  ghost predicate GraphOk(rules: RuleSet, g: Store, clock: Instant)
  {
    Shaped(g) && NotAfter(g, Iso(clock)) && AuditedGraph(rules, g)
  }

  /** The whole bundle of an approved entry is in the graph. */
  ghost predicate ApprovedOk(rules: RuleSet, queue: map<string, Entry>, g: Store)
  {
    forall id :: id in queue && queue[id].status == Approved ==> CoversAll(g, BundleStmts(rules, queue[id].bundle))
  }

  predicate IsBlocked(nodes: map<string, Node>, n: string)
  {
    n in nodes && nodes[n].blocked
  }

  /** An unblocked node has at most 3 live security strikes. */
  ghost predicate StrikesOk(nodes: map<string, Node>, kv: KV, now: int)
  {
    forall n :: FewStrikes(kv, IsBlocked(nodes, n), n, now)
  }

  function EntriesOf(queue: map<string, Entry>, n: string): set<string>
  {
    set id | id in queue && queue[id].origin == n
  }

  function ApprovedOf(queue: map<string, Entry>, n: string): set<string>
  {
    set id | id in queue && queue[id].origin == n && queue[id].status == Approved
  }

  /** A node's push count is its queued entries plus its approved ones; its rejection
      count never moves. */
  ghost predicate StatsOk(nodes: map<string, Node>, queue: map<string, Entry>)
  {
    forall n :: n in nodes ==>
      && nodes[n].totalPushes == |EntriesOf(queue, n)| + |ApprovedOf(queue, n)|
      && nodes[n].triplesRejected == 0
  }

  ghost predicate Inv(rules: RuleSet, st: State, clock: Instant)
  {
    && KeysOk(st.nodes)
    && QueueOk(rules, st.nodes, st.queue)
    && GraphOk(rules, st.graph, clock)
    && ApprovedOk(rules, st.queue, st.graph)
    && SoundStore(st.kv, Micros(clock))
    && StrikesOk(st.nodes, st.kv, Micros(clock))
    && StatsOk(st.nodes, st.queue)
  }

  lemma KeysOf(rules: RuleSet, st: State, clock: Instant)
    requires Inv(rules, st, clock)
    ensures KeysOk(st.nodes)
  {
  }

  lemma GraphOf(rules: RuleSet, st: State, clock: Instant)
    requires Inv(rules, st, clock)
    ensures GraphOk(rules, st.graph, clock)
  {
  }

  lemma InitialInv(rules: RuleSet, clock: Instant)
    ensures Inv(rules, INITIAL, clock)
  {
    forall n ensures EntriesOf(INITIAL.queue, n) == {} && ApprovedOf(INITIAL.queue, n) == {} {
    }
  }

  // ---- Time --------------------------------------------------------------

  lemma InvLater(rules: RuleSet, st: State, clock: Instant, now: Instant)
    requires Inv(rules, st, clock) && Micros(clock) <= Micros(now)
    ensures Inv(rules, st, now)
  {
    GraphLater(st.graph, clock, now);
    SoundLater(st.kv, Micros(clock), Micros(now));
    forall n ensures FewStrikes(st.kv, IsBlocked(st.nodes, n), n, Micros(now)) {
      StrikeBudgetLater(st.kv, IsBlocked(st.nodes, n), n, Micros(clock), Micros(now), Micros(now));
    }
  }

  lemma GraphLater(g: Store, clock: Instant, now: Instant)
    requires NotAfter(g, Iso(clock)) && Micros(clock) <= Micros(now)
    ensures NotAfter(g, Iso(now))
  {
    IsoOrder(clock, now);
    forall n | n in g.entities ensures StrLeq(g.entities[n].approvedAt, Iso(now)) {
      StrOrder(g.entities[n].approvedAt, Iso(clock), Iso(now));
    }
    forall k | k in g.relations ensures StrLeq(g.relations[k].approvedAt, Iso(now)) {
      StrOrder(g.relations[k].approvedAt, Iso(clock), Iso(now));
    }
  }

  // ---- Node handlers -----------------------------------------------------

  /** Changing one record, while its origin role, counters and block flag stay, keeps the
      invariants that do not speak of keys. */
  lemma RecordChange(rules: RuleSet, st: State, clock: Instant, n: string, r: Node)
    requires Inv(rules, st, clock) && n in st.nodes
    requires r.totalPushes == st.nodes[n].totalPushes && r.triplesRejected == st.nodes[n].triplesRejected
    requires r.blocked == st.nodes[n].blocked || r.blocked
    requires KeysOk(st.nodes[n := r])
    ensures Inv(rules, st.(nodes := st.nodes[n := r]), clock)
  {
    hide KeysOk, GraphOk, ApprovedOk, SoundStore, Passes, SchemaOk, EntriesOf, ApprovedOf, Strikes;
    var nodes' := st.nodes[n := r];
    forall m ensures FewStrikes(st.kv, IsBlocked(nodes', m), m, Micros(clock)) {
      assert FewStrikes(st.kv, IsBlocked(st.nodes, m), m, Micros(clock));
    }
  }

  lemma AcceptKeepsInv(rules: RuleSet, st: State, clock: Instant, n: string, key: string)
    requires Inv(rules, st, clock)
    requires forall m :: m in st.nodes ==> st.nodes[m].apiKey != Some(key)
    ensures Inv(rules, AcceptEffect(st, n, key).0, clock)
  {
    hide QueueOk, GraphOk, ApprovedOk, SoundStore, StrikesOk, StatsOk;
    if n in st.nodes && st.nodes[n].status == Pending {
      RecordChange(rules, st, clock, n, st.nodes[n].(status := Accepted, apiKey := Some(key)));
    }
  }

  lemma RejectAndBlockKeepInv(rules: RuleSet, st: State, clock: Instant, n: string)
    requires Inv(rules, st, clock)
    ensures Inv(rules, RejectNodeEffect(st, n).0, clock)
    ensures Inv(rules, BlockEffect(st, n).0, clock)
  {
    hide QueueOk, GraphOk, ApprovedOk, SoundStore, StrikesOk, StatsOk;
    if n in st.nodes {
      RecordChange(rules, st, clock, n, st.nodes[n].(status := Rejected));
      RecordChange(rules, st, clock, n, st.nodes[n].(blocked := true));
    }
  }

  lemma HandshakeKeepsInv(rules: RuleSet, st: State, clock: Instant, n: string)
    requires Inv(rules, st, clock)
    ensures Inv(rules, HandshakeEffect(st, n).0, clock)
  {
    hide KeysOk, GraphOk, ApprovedOk, SoundStore, Passes, SchemaOk, Strikes, StatsOk;
    if n !in st.nodes {
      var nodes' := st.nodes[n := NEW_NODE];
      NewNodeIsBlank(rules, st.nodes, st.queue, n);
      forall m ensures FewStrikes(st.kv, IsBlocked(nodes', m), m, Micros(clock)) {
        assert FewStrikes(st.kv, IsBlocked(st.nodes, m), m, Micros(clock));
      }
    }
  }

  lemma NewNodeIsBlank(rules: RuleSet, nodes: map<string, Node>, queue: map<string, Entry>, n: string)
    requires KeysOk(nodes) && QueueOk(rules, nodes, queue) && StatsOk(nodes, queue) && n !in nodes
    ensures KeysOk(nodes[n := NEW_NODE]) && StatsOk(nodes[n := NEW_NODE], queue)
  {
    hide Passes, SchemaOk;
    assert EntriesOf(queue, n) == {} && ApprovedOf(queue, n) == {};
  }

  /** The block flag plays no part in keys, queue or statistics. */
  lemma BlockFlagIsApart(rules: RuleSet, nodes: map<string, Node>, queue: map<string, Entry>, n: string, blocked: bool)
    requires KeysOk(nodes) && QueueOk(rules, nodes, queue) && StatsOk(nodes, queue)
    ensures var nodes' := SetBlocked(nodes, n, blocked);
      KeysOk(nodes') && QueueOk(rules, nodes', queue) && StatsOk(nodes', queue)
  {
    hide KeysOk, Passes, SchemaOk, EntriesOf, ApprovedOf;
    BlockFlagKeepsKeys(nodes, n, blocked);
  }

  lemma BlockFlagKeepsKeys(nodes: map<string, Node>, n: string, blocked: bool)
    requires KeysOk(nodes)
    ensures KeysOk(SetBlocked(nodes, n, blocked))
  {
  }

  lemma ClearedStrikes(kv: KV, n: string, m: string, now: int)
    ensures Strikes(StrikesCleared(kv, n), m, Security, now) == if m == n then 0 else Strikes(kv, m, Security, now)
  {
  }

  lemma UnblockKeepsInv(rules: RuleSet, st: State, clock: Instant, n: string)
    requires Inv(rules, st, clock)
    ensures Inv(rules, UnblockEffect(st, n).0, clock)
  {
    hide KeysOk, QueueOk, GraphOk, ApprovedOk, StatsOk, SoundStore, StrikesCleared, Strikes;
    var st' := UnblockEffect(st, n).0;
    BlockFlagIsApart(rules, st.nodes, st.queue, n, false);
    StepsKeepSound(st.kv, n, Micros(clock));
    forall m ensures FewStrikes(st'.kv, IsBlocked(st'.nodes, m), m, Micros(clock)) {
      ClearedStrikes(st.kv, n, m, Micros(clock));
      assert FewStrikes(st.kv, IsBlocked(st.nodes, m), m, Micros(clock));
    }
  }

  lemma PullKeepsInv(
    rules: RuleSet, st: State, clock: Instant, apiKey: Option<string>, domains: seq<string>, limit: int,
    now: Instant)
    requires Inv(rules, st, clock)
    ensures Inv(rules, PullEffect(st, apiKey, domains, limit, now), clock)
  {
    hide QueueOk, GraphOk, ApprovedOk, SoundStore, StrikesOk, StatsOk;
    var c := Authenticate(st.nodes, apiKey);
    if c.Caller? {
      RecordChange(rules, st, clock, c.node, st.nodes[c.node].(lastPull := Some(now)));
    }
  }

  // ---- Push --------------------------------------------------------------

  /** Rate checks and strikes of one node leave every other node's strikes alone, and a
      rate check leaves all strikes alone. */
  lemma StrikeFrame(kv: KV, n: string, m: string, now: int)
    ensures Strikes(RateChecked(kv, n, now).0, m, Security, now) == Strikes(kv, m, Security, now)
    ensures m != n ==> Strikes(StrikeRecorded(kv, n, Security, now), m, Security, now) == Strikes(kv, m, Security, now)
  {
  }

  lemma QueuedCounts(queue: map<string, Entry>, id: string, e: Entry, m: string)
    requires id !in queue && e.status == InReview
    ensures |EntriesOf(queue[id := e], m)| == |EntriesOf(queue, m)| + (if m == e.origin then 1 else 0)
    ensures |ApprovedOf(queue[id := e], m)| == |ApprovedOf(queue, m)|
  {
    QueuedEntries(queue, id, e, m);
    assert ApprovedOf(queue[id := e], m) == ApprovedOf(queue, m);
  }

  lemma QueuedEntries(queue: map<string, Entry>, id: string, e: Entry, m: string)
    requires id !in queue
    ensures id !in EntriesOf(queue, m)
    ensures m == e.origin ==> EntriesOf(queue[id := e], m) == EntriesOf(queue, m) + {id}
    ensures m != e.origin ==> EntriesOf(queue[id := e], m) == EntriesOf(queue, m)
  {
  }

  lemma QueuedStats(nodes: map<string, Node>, queue: map<string, Entry>, n: string, id: string, e: Entry, now: Instant)
    requires StatsOk(nodes, queue) && n in nodes && id !in queue && e.origin == n && e.status == InReview
    ensures StatsOk(Credited(nodes, n, 0, 0, now), queue[id := e])
  {
    hide EntriesOf, ApprovedOf;
    forall m | m in nodes
      ensures |EntriesOf(queue[id := e], m)| == |EntriesOf(queue, m)| + (if m == n then 1 else 0)
      ensures |ApprovedOf(queue[id := e], m)| == |ApprovedOf(queue, m)|
    {
      QueuedCounts(queue, id, e, m);
    }
  }

  lemma CreditedKeepsRest(
    nodes: map<string, Node>, kv: KV, t: int, n: string, accepted: nat, rejected: nat, now: Instant)
    requires KeysOk(nodes) && StrikesOk(nodes, kv, t)
    ensures KeysOk(Credited(nodes, n, accepted, rejected, now))
    ensures StrikesOk(Credited(nodes, n, accepted, rejected, now), kv, t)
    ensures Credited(nodes, n, accepted, rejected, now).Keys == nodes.Keys
  {
    var nodes' := Credited(nodes, n, accepted, rejected, now);
    forall m ensures FewStrikes(kv, IsBlocked(nodes', m), m, t) {
      assert FewStrikes(kv, IsBlocked(nodes, m), m, t);
    }
  }

  lemma RateCheckKeepsInv(rules: RuleSet, st: State, now: Instant, n: string)
    requires Inv(rules, st, now)
    ensures Inv(rules, st.(kv := RateChecked(st.kv, n, Micros(now)).0), now)
  {
    hide KeysOk, QueueOk, GraphOk, ApprovedOk, StatsOk, RateChecked, SoundStore, Strikes;
    var t := Micros(now);
    StepsKeepSound(st.kv, n, t);
    forall m ensures FewStrikes(RateChecked(st.kv, n, t).0, IsBlocked(st.nodes, m), m, t) {
      StrikeFrame(st.kv, n, m, t);
      assert FewStrikes(st.kv, IsBlocked(st.nodes, m), m, t);
    }
  }

  /** A strike on an unblocked node, with the block it may bring. */
  lemma StrikeKeepsInv(rules: RuleSet, st: State, now: Instant, n: string)
    requires Inv(rules, st, now) && n in st.nodes && !st.nodes[n].blocked
    ensures
      var kv := StrikeRecorded(st.kv, n, Security, Micros(now));
      var nodes := if MustBlock(kv, n, Micros(now)) then SetBlocked(st.nodes, n, true) else st.nodes;
      Inv(rules, st.(kv := kv, nodes := nodes), now)
  {
    hide KeysOk, QueueOk, GraphOk, ApprovedOk, StatsOk, StrikeRecorded, SoundStore, Strikes;
    BlockFlagIsApart(rules, st.nodes, st.queue, n, true);
    var t := Micros(now);
    var kv := StrikeRecorded(st.kv, n, Security, t);
    var nodes := if MustBlock(kv, n, t) then SetBlocked(st.nodes, n, true) else st.nodes;
    StepsKeepSound(st.kv, n, t);
    assert FewStrikes(st.kv, IsBlocked(st.nodes, n), n, t);
    FourthStrikeBlocks(st.kv, n, t);
    forall m ensures FewStrikes(kv, IsBlocked(nodes, m), m, t) {
      StrikeFrame(st.kv, n, m, t);
      assert FewStrikes(st.kv, IsBlocked(st.nodes, m), m, t);
    }
  }

  lemma QueueKeepsInv(rules: RuleSet, st: State, now: Instant, n: string, id: string, b: Bundle)
    requires Inv(rules, st, now) && n in st.nodes && id !in st.queue && Passes(rules, b) && SchemaOk(b)
    ensures
      var queue', nodes' := st.queue[id := Entry(n, b, InReview, None)], Credited(st.nodes, n, 0, 0, now);
      Inv(rules, st.(queue := queue', nodes := nodes'), now)
  {
    hide KeysOk, GraphOk, SoundStore, StatsOk, StrikesOk, Passes, SchemaOk, CoversAll, BundleStmts, Credited;
    QueuedStats(st.nodes, st.queue, n, id, Entry(n, b, InReview, None), now);
    CreditedKeepsRest(st.nodes, st.kv, Micros(now), n, 0, 0, now);
  }

  lemma PushKeepsInv(rules: RuleSet, st: State, now: Instant, apiKey: Option<string>, b: Bundle, id: string)
    requires Inv(rules, st, now) && id !in st.queue
    ensures Inv(rules, PushEffect(rules, st, apiKey, b, id, now).0, now)
  {
    hide Inv, RateChecked, StrikeRecorded, MustBlock, Credited, Passes, SchemaOk;
    var c := Authenticate(st.nodes, apiKey);
    if c.Caller? && SchemaOk(b) {
      var (kv, admitted) := RateChecked(st.kv, c.node, Micros(now));
      var st1 := st.(kv := kv);
      RateCheckKeepsInv(rules, st, now, c.node);
      if admitted {
        if Passes(rules, b) {
          QueueKeepsInv(rules, st1, now, c.node, id, b);
        } else {
          StrikeKeepsInv(rules, st1, now, c.node);
        }
      }
    }
  }

  // ---- Approval ----------------------------------------------------------

  ghost predicate CleanName(rules: RuleSet, n: string)
  {
    0 < |n| <= MAX_ENTITY_NAME_LEN && !rules.Sensitive(n)
  }

  ghost predicate CleanStmt(rules: RuleSet, s: Stmt)
  {
    match s
    case MergeEntity(name, _, _) => CleanName(rules, name)
    case MergeRelation(key, _, _, confidence, domain) =>
      && CleanName(rules, key.subject) && CleanName(rules, key.obj) && key.pred in rules.allowed
      && 0.0 <= confidence <= 1.0 && |domain| <= 64
  }

  /** Every statement of an audited bundle is clean. */
  lemma AuditedStmtsAreClean(rules: RuleSet, b: Bundle, s: Stmt)
    requires Passes(rules, b) && SchemaOk(b) && s in BundleStmts(rules, b)
    ensures CleanStmt(rules, s)
  {
    if s in EntityStmts(b.entities) {
      var i :| 0 <= i < |b.entities| && s == EntityStmt(b.entities[i]);
      assert b.entities[i] in b.entities;
    } else {
      RelationStmtsFrom(rules, b.relations);
      var i :| 0 <= i < |b.relations| && rules.Allows(b.relations[i].pred) && s == RelationStmt(rules, b.relations[i]);
      var t := b.relations[i];
      assert t in b.relations;
      assert WellFormedTriple(t) && CleanTriple(rules, t) && TripleSchemaOk(t);
    }
  }

  lemma CleanWriteKeepsAudited(rules: RuleSet, g: Store, w: Write)
    requires AuditedGraph(rules, g) && CleanStmt(rules, w.stmt)
    ensures AuditedGraph(rules, Apply(g, w))
  {
  }

  lemma {:induction false} CleanWritesKeepAudited(rules: RuleSet, g: Store, ws: seq<Write>)
    requires AuditedGraph(rules, g)
    requires forall i :: 0 <= i < |ws| ==> CleanStmt(rules, ws[i].stmt)
    ensures AuditedGraph(rules, ApplyAll(g, ws))
  {
    if ws != [] {
      CleanWritesKeepAudited(rules, g, ws[..|ws| - 1]);
      CleanWriteKeepsAudited(rules, ApplyAll(g, ws[..|ws| - 1]), ws[|ws| - 1]);
    }
  }

  /** A commit of an audited bundle, whole or cut off, keeps the graph in order. */
  lemma CommitKeepsGraphOk(
    rules: RuleSet, g: Store, now: Instant, b: Bundle, origin: string, failure: Option<nat>)
    requires GraphOk(rules, g, now) && Passes(rules, b) && SchemaOk(b)
    ensures GraphOk(rules, ApplyAll(g, Writes(Performed(rules, b, failure), origin, Iso(now))), now)
  {
    var stmts := Performed(rules, b, failure);
    var ws := Writes(stmts, origin, Iso(now));
    PerformedStmts(rules, b, failure);
    forall i | 0 <= i < |ws| ensures CleanStmt(rules, ws[i].stmt) {
      assert stmts[i] in stmts;
      AuditedStmtsAreClean(rules, b, stmts[i]);
    }
    CleanWritesKeepAudited(rules, g, ws);
    ShapeKept(g, ws, Iso(now));
  }

  lemma GrowthKeepsCover(g: Store, g': Store, stmts: seq<Stmt>)
    requires Grows(g, g') && CoversAll(g, stmts)
    ensures CoversAll(g', stmts)
  {
    forall i | 0 <= i < |stmts| ensures Covers(g', stmts[i]) {
      assert Covers(g, stmts[i]);
    }
  }

  lemma GrowthKeepsApproved(rules: RuleSet, queue: map<string, Entry>, g: Store, g': Store)
    requires ApprovedOk(rules, queue, g) && Grows(g, g')
    ensures ApprovedOk(rules, queue, g')
  {
    forall id | id in queue && queue[id].status == Approved
      ensures CoversAll(g', BundleStmts(rules, queue[id].bundle))
    {
      GrowthKeepsCover(g, g', BundleStmts(rules, queue[id].bundle));
    }
  }

  /** Reviewing an entry keeps whose it is and changes the approved count if approved. */
  lemma ReviewedCounts(queue: map<string, Entry>, id: string, e: Entry, m: string)
    requires id in queue && queue[id].status == InReview && e.origin == queue[id].origin
    ensures |EntriesOf(queue[id := e], m)| == |EntriesOf(queue, m)|
    ensures |ApprovedOf(queue[id := e], m)| ==
      |ApprovedOf(queue, m)| + (if m == e.origin && e.status == Approved then 1 else 0)
  {
    var queue' := queue[id := e];
    assert EntriesOf(queue', m) == EntriesOf(queue, m);
    assert ApprovedOf(queue', m) == ApprovedOf(queue, m) + (if m == e.origin && e.status == Approved then {id} else {});
    assert id !in ApprovedOf(queue, m);
  }

  lemma ApprovedStats(
    nodes: map<string, Node>, queue: map<string, Entry>, id: string, e: Entry, accepted: nat, now: Instant)
    requires StatsOk(nodes, queue) && id in queue && queue[id].status == InReview
    requires e.origin == queue[id].origin && e.status == Approved
    ensures StatsOk(Credited(nodes, e.origin, accepted, 0, now), queue[id := e])
  {
    hide EntriesOf, ApprovedOf;
    forall m | m in nodes
      ensures |EntriesOf(queue[id := e], m)| == |EntriesOf(queue, m)|
      ensures |ApprovedOf(queue[id := e], m)| == |ApprovedOf(queue, m)| + (if m == e.origin then 1 else 0)
    {
      ReviewedCounts(queue, id, e, m);
    }
  }

  lemma RefusedStats(nodes: map<string, Node>, queue: map<string, Entry>, id: string, e: Entry)
    requires StatsOk(nodes, queue) && id in queue && queue[id].status == InReview
    requires e.origin == queue[id].origin && e.status == Refused
    ensures StatsOk(nodes, queue[id := e])
  {
    hide EntriesOf, ApprovedOf;
    forall m | m in nodes
      ensures |EntriesOf(queue[id := e], m)| == |EntriesOf(queue, m)|
      ensures |ApprovedOf(queue[id := e], m)| == |ApprovedOf(queue, m)|
    {
      ReviewedCounts(queue, id, e, m);
    }
  }

  lemma ApproveKeepsInv(rules: RuleSet, st: State, now: Instant, id: string, failure: Option<nat>)
    requires Inv(rules, st, now)
    ensures Inv(rules, ApproveEffect(rules, st, id, failure, now).0, now)
  {
    hide KeysOk, GraphOk, SoundStore, StatsOk, StrikesOk, Passes, SchemaOk, CoversAll, BundleStmts, Credited,
      Counters, ApplyAll, Grows;
    if id in st.queue && st.queue[id].status == InReview {
      var e := st.queue[id];
      var ws := ApprovalWrites(rules, st, id, failure, now);
      var g' := ApplyAll(st.graph, ws);
      CommitKeepsGraphOk(rules, st.graph, now, e.bundle, e.origin, failure);
      ApplyGrows(st.graph, ws);
      GrowthKeepsApproved(rules, st.queue, st.graph, g');
      if failure.None? {
        var stats := Counters(st.graph, ws);
        CommitCovers(st.graph, BundleStmts(rules, e.bundle), e.origin, Iso(now));
        ApprovedStats(st.nodes, st.queue, id, e.(status := Approved, committedAt := Some(now)),
          stats.entitiesCreated + stats.relationsCreated, now);
        CreditedKeepsRest(
          st.nodes, st.kv, Micros(now), e.origin, stats.entitiesCreated + stats.relationsCreated, 0, now);
      }
    }
  }

  lemma RefuseKeepsInv(rules: RuleSet, st: State, now: Instant, id: string)
    requires Inv(rules, st, now)
    ensures Inv(rules, RefuseEffect(st, id).0, now)
  {
    hide KeysOk, GraphOk, SoundStore, StrikesOk, StatsOk, Passes, SchemaOk, CoversAll, BundleStmts;
    if id in st.queue && st.queue[id].status == InReview {
      RefusedStats(st.nodes, st.queue, id, st.queue[id].(status := Refused));
    }
  }

  // ---- Every run ---------------------------------------------------------

  lemma NextKeepsInv(rules: RuleSet, st: State, clock: Instant, s: Step)
    requires Inv(rules, st, clock) && Enabled(st, clock, s)
    ensures Inv(rules, Next(rules, st, s), s.now)
  {
    hide Inv, HandshakeEffect, AcceptEffect, RejectNodeEffect, BlockEffect, UnblockEffect, PushEffect,
      PullEffect, ApproveEffect, RefuseEffect;
    InvLater(rules, st, clock, s.now);
    match s.call
    case RequestHandshake(n) => HandshakeKeepsInv(rules, st, s.now, n);
    case AcceptNode(n, key) => AcceptKeepsInv(rules, st, s.now, n, key);
    case RejectNode(n) => RejectAndBlockKeepInv(rules, st, s.now, n);
    case BlockNode(n) => RejectAndBlockKeepInv(rules, st, s.now, n);
    case UnblockNode(n) => UnblockKeepsInv(rules, st, s.now, n);
    case PushBundle(apiKey, b, id) => PushKeepsInv(rules, st, s.now, apiKey, b, id);
    case PullKnowledge(apiKey, _, domains, limit, _, _) =>
      PullKeepsInv(rules, st, s.now, apiKey, domains, limit, s.now);
    case ApproveEntry(id, failure) => ApproveKeepsInv(rules, st, s.now, id, failure);
    case RefuseEntry(id) => RefuseKeepsInv(rules, st, s.now, id);
  }

  lemma {:induction false} RunKeepsInv(rules: RuleSet, st: State, clock: Instant, steps: seq<Step>)
    requires Inv(rules, st, clock) && ValidRun(rules, st, clock, steps)
    ensures Inv(rules, Run(rules, st, steps), LastTime(clock, steps))
    decreases |steps|
  {
    hide Inv, Next, Enabled;
    if steps != [] {
      NextKeepsInv(rules, st, clock, steps[0]);
      RunKeepsInv(rules, Next(rules, st, steps[0]), steps[0].now, steps[1..]);
    }
  }

  // ---- Positions in a run ------------------------------------------------

  /** The state of a run from the initial one after its first i steps. */
  ghost function StateAt(rules: RuleSet, steps: seq<Step>, i: nat): State
    requires i <= |steps|
  {
    Run(rules, INITIAL, steps[..i])
  }

  lemma {:induction false} RunSplits(rules: RuleSet, st: State, clock: Instant, steps: seq<Step>, i: nat)
    requires ValidRun(rules, st, clock, steps) && i <= |steps|
    ensures ValidRun(rules, st, clock, steps[..i])
    ensures ValidRun(rules, Run(rules, st, steps[..i]), LastTime(clock, steps[..i]), steps[i..])
    ensures Run(rules, Run(rules, st, steps[..i]), steps[i..]) == Run(rules, st, steps)
    decreases |steps|
  {
    hide Next, Enabled;
    if i == 0 {
      assert steps[..0] == [] && steps[0..] == steps;
    } else {
      var s, rest := steps[0], steps[1..];
      RunSplits(rules, Next(rules, st, s), s.now, rest, i - 1);
      assert steps[..i][1..] == rest[..i - 1] && steps[i..] == rest[i - 1..];
    }
  }

  /** Every position of a run satisfies the invariants and starts a valid rest of the run. */
  lemma PositionIsSound(rules: RuleSet, clock: Instant, steps: seq<Step>, i: nat)
    requires ValidRun(rules, INITIAL, clock, steps) && i <= |steps|
    ensures Inv(rules, StateAt(rules, steps, i), LastTime(clock, steps[..i]))
    ensures ValidRun(rules, StateAt(rules, steps, i), LastTime(clock, steps[..i]), steps[i..])
    ensures Run(rules, StateAt(rules, steps, i), steps[i..]) == Run(rules, INITIAL, steps)
  {
    hide Inv, ValidRun, Run;
    InitialInv(rules, clock);
    RunSplits(rules, INITIAL, clock, steps, i);
    RunKeepsInv(rules, INITIAL, clock, steps[..i]);
  }

  /** From one position of a run to a later one, by the steps in between. */
  lemma BetweenPositions(rules: RuleSet, clock: Instant, steps: seq<Step>, i: nat, j: nat)
    requires ValidRun(rules, INITIAL, clock, steps) && i <= j <= |steps|
    ensures ValidRun(rules, StateAt(rules, steps, i), LastTime(clock, steps[..i]), steps[i..j])
    ensures Run(rules, StateAt(rules, steps, i), steps[i..j]) == StateAt(rules, steps, j)
    ensures i < |steps| ==> Enabled(StateAt(rules, steps, i), LastTime(clock, steps[..i]), steps[i])
    ensures i < j ==> StateAt(rules, steps, i + 1) == Next(rules, StateAt(rules, steps, i), steps[i])
  {
    hide Next, Enabled, Inv;
    RunSplits(rules, INITIAL, clock, steps, j);
    assert steps[..j][..i] == steps[..i] && steps[..j][i..] == steps[i..j];
    RunSplits(rules, INITIAL, clock, steps[..j], i);
    RunSplits(rules, INITIAL, clock, steps, i);
    if i < j {
      assert steps[..i + 1][..i] == steps[..i] && steps[..i + 1][i..] == [steps[i]];
      RunSplits(rules, INITIAL, clock, steps, i + 1);
      RunSplits(rules, INITIAL, clock, steps[..i + 1], i);
      assert Run(rules, StateAt(rules, steps, i), [steps[i]]) == Next(rules, StateAt(rules, steps, i), steps[i]);
    }
  }
}
