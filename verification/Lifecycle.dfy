/** Node records over whole runs: handshakes, keys, standing and statistics. */
module Lifecycle {
  import opened Common
  import opened Timestamps
  import opened Schemas
  import opened PreAudit
  import opened Graph
  import opened Abuse
  import opened Hub
  import opened HubInvariants
  import opened AbuseRuns

  /** pending < accepted < rejected */
  function Rank(h: Handshake): nat
  {
    match h
    case Pending => 0
    case Accepted => 1
    case Rejected => 2
  }

  /** The handshake never goes back, a key once set stays, and push counts do not fall. */
  predicate NodeEvolves(r: Node, r': Node)
  {
    && Rank(r.status) <= Rank(r'.status)
    && (r.apiKey.Some? ==> r'.apiKey == r.apiKey)
    && r.totalPushes <= r'.totalPushes && r.triplesAccepted <= r'.triplesAccepted
  }

  ghost predicate NodesEvolve(a: map<string, Node>, b: map<string, Node>)
  {
    forall n :: n in a ==> n in b && NodeEvolves(a[n], b[n])
  }

  lemma RecordEvolves(nodes: map<string, Node>, n: string, r: Node)
    requires n in nodes ==> NodeEvolves(nodes[n], r)
    ensures NodesEvolve(nodes, nodes) && NodesEvolve(nodes, nodes[n := r])
  {
  }

  lemma RecordsEvolve(nodes: map<string, Node>, n: string, blocked: bool, accepted: nat, now: Instant)
    ensures NodesEvolve(nodes, nodes)
    ensures NodesEvolve(nodes, SetBlocked(nodes, n, blocked))
    ensures NodesEvolve(nodes, Credited(nodes, n, accepted, 0, now))
  {
    hide NodesEvolve;
    if n in nodes {
      RecordEvolves(nodes, n, nodes[n].(blocked := blocked));
      RecordEvolves(nodes, n, Credited(nodes, n, accepted, 0, now)[n]);
    } else {
      RecordEvolves(nodes, n, NEW_NODE);
    }
  }

  lemma NextEvolvesNodes(rules: RuleSet, st: State, s: Step)
    requires KeysOk(st.nodes)
    ensures NodesEvolve(st.nodes, Next(rules, st, s).nodes)
  {
    hide NodesEvolve, Authenticate, SchemaOk, Passes, ApplyAll, Counters, ApprovalWrites, KnownDomains, StrikesCleared,
      SetBlocked, Credited, RateChecked, StrikeRecorded, MustBlock, Micros;
    RecordsEvolve(st.nodes, "", false, 0, s.now);
    match s.call
    case RequestHandshake(n) => RecordEvolves(st.nodes, n, if n in st.nodes then st.nodes[n] else NEW_NODE);
    case AcceptNode(n, key) =>
      if n in st.nodes && st.nodes[n].status == Pending {
        RecordEvolves(st.nodes, n, st.nodes[n].(status := Accepted, apiKey := Some(key)));
      }
    case RejectNode(n) =>
      if n in st.nodes {
        RecordEvolves(st.nodes, n, st.nodes[n].(status := Rejected));
      }
    case BlockNode(n) => RecordsEvolve(st.nodes, n, true, 0, s.now);
    case UnblockNode(n) => RecordsEvolve(st.nodes, n, false, 0, s.now);
    case PushBundle(apiKey, b, id) =>
      var c := Authenticate(st.nodes, apiKey);
      if c.Caller? {
        RecordsEvolve(st.nodes, c.node, true, 0, s.now);
      }
    case PullKnowledge(apiKey, _, domains, limit, _, _) =>
      var c := Authenticate(st.nodes, apiKey);
      if c.Caller? {
        RecordEvolves(st.nodes, c.node, st.nodes[c.node].(lastPull := Some(s.now)));
      }
    case ApproveEntry(id, failure) =>
      if id in st.queue {
        var stats := Counters(st.graph, ApprovalWrites(rules, st, id, failure, s.now));
        RecordsEvolve(st.nodes, st.queue[id].origin, false, stats.entitiesCreated + stats.relationsCreated, s.now);
      }
    case RefuseEntry(_) =>
  }

  lemma {:induction false} NodesEvolveFrom(rules: RuleSet, st: State, clock: Instant, steps: seq<Step>)
    requires Inv(rules, st, clock) && ValidRun(rules, st, clock, steps)
    ensures NodesEvolve(st.nodes, Run(rules, st, steps).nodes)
    decreases |steps|
  {
    hide Inv, Enabled, Next;
    if steps != [] {
      KeysOf(rules, st, clock);
      NextEvolvesNodes(rules, st, steps[0]);
      NextKeepsInv(rules, st, clock, steps[0]);
      NodesEvolveFrom(rules, Next(rules, st, steps[0]), steps[0].now, steps[1..]);
    }
  }

  /** From any state of a run to any later one nodes never disappear, their handshake rank
      never decreases and a key hash is set at most once. */
  lemma HandshakeNeverGoesBack(rules: RuleSet, clock: Instant, steps: seq<Step>, i: nat, j: nat)
    requires ValidRun(rules, INITIAL, clock, steps) && i <= j <= |steps|
    ensures NodesEvolve(StateAt(rules, steps, i).nodes, StateAt(rules, steps, j).nodes)
  {
    hide Inv, ValidRun, Run, Enabled, Next, NodesEvolve, StateAt;
    PositionIsSound(rules, clock, steps, i);
    BetweenPositions(rules, clock, steps, i, j);
    NodesEvolveFrom(rules, StateAt(rules, steps, i), LastTime(clock, steps[..i]), steps[i..j]);
  }

  /** A node in good standing: accepted and not blocked. */
  predicate GoodStanding(nodes: map<string, Node>, n: string)
  {
    n in nodes && nodes[n].status == Accepted && !nodes[n].blocked
  }

  /** What one push or pull may touch: the record of the node that made it, that node's
      keys in the store, and one new queue entry under its own name. */
  ghost predicate ConfinedTo(st: State, st': State, n: string)
  {
    && st'.graph == st.graph
    && (forall m :: m != n ==> Lookup(st'.nodes, m) == Lookup(st.nodes, m))
    && (forall k: Key :: k.node != n ==> Lookup(st'.kv, k) == Lookup(st.kv, k))
    && (forall id :: id in st'.queue && id !in st.queue ==>
          st'.queue[id].origin == n && st'.queue[id].status == InReview)
  }

  /** Pushes and pulls run only for nodes in good standing: such a request either changes
      nothing at all or was made by one, with its key, and is confined to it. The graph is
      not touched either way. */
  lemma OnlyGoodStandingActs(rules: RuleSet, st: State, clock: Instant, s: Step)
    requires Enabled(st, clock, s) && (s.call.PushBundle? || s.call.PullKnowledge?)
    ensures
      || Next(rules, st, s) == st
      || exists n ::
           && GoodStanding(st.nodes, n) && st.nodes[n].apiKey == s.call.apiKey
           && ConfinedTo(st, Next(rules, st, s), n)
  {
    hide SchemaOk, Passes, KnownDomains;
    var c := Authenticate(st.nodes, s.call.apiKey);
    if c.Caller? {
      if s.call.PushBundle? && SchemaOk(s.call.b) {
        PushIsConfined(rules, st, c.node, s.call.b, s.call.id, s.now);
        assert GoodStanding(st.nodes, c.node);
      } else {
        assert GoodStanding(st.nodes, c.node);
      }
    }
  }

  lemma PushIsConfined(rules: RuleSet, st: State, n: string, b: Bundle, id: string, now: Instant)
    ensures ConfinedTo(st, PushFrom(rules, st, n, b, id, now).0, n)
  {
    hide Passes, MustBlock, RateLimited;
  }

  /** A rejected node is out for good: none of its pushes ever reaches the rate check again. */
  lemma RejectedStaysOut(rules: RuleSet, clock: Instant, steps: seq<Step>, i: nat, j: nat, n: string)
    requires ValidRun(rules, INITIAL, clock, steps) && i <= j < |steps|
    requires n in StateAt(rules, steps, i).nodes && StateAt(rules, steps, i).nodes[n].status == Rejected
    ensures !PushOf(StateAt(rules, steps, j), steps[j], n)
  {
    hide ValidRun, Run, SchemaOk, StateAt;
    HandshakeNeverGoesBack(rules, clock, steps, i, j);
    assert NodeEvolves(StateAt(rules, steps, i).nodes[n], StateAt(rules, steps, j).nodes[n]);
  }

  /** Over all runs a node's push count is its queued entries plus its approved entries,
      and its rejected count is always 0. */
  lemma StatisticsMeaning(rules: RuleSet, clock: Instant, steps: seq<Step>, n: string)
    requires ValidRun(rules, INITIAL, clock, steps)
    requires n in Run(rules, INITIAL, steps).nodes
    ensures var st := Run(rules, INITIAL, steps);
      && st.nodes[n].totalPushes == |EntriesOf(st.queue, n)| + |ApprovedOf(st.queue, n)|
      && st.nodes[n].triplesRejected == 0
  {
    hide ValidRun, Run, EntriesOf, ApprovedOf;
    InitialInv(rules, clock);
    RunKeepsInv(rules, INITIAL, clock, steps);
  }
}
