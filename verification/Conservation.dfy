/** The accepted-triples statistic against what is in the graph, over whole runs. */
module Conservation {
  import opened Common
  import opened Timestamps
  import opened Schemas
  import opened PreAudit
  import opened Graph
  import opened GraphTheory
  import opened Hub
  import opened HubInvariants
  import opened AuditRuns

  // ---- The sum over all nodes --------------------------------------------

  ghost function Total(nodes: map<string, Node>): nat
    decreases |nodes|
  {
    if nodes == map[] then 0
    else
      var n :| n in nodes;
      nodes[n].triplesAccepted + Total(nodes - {n})
  }

  lemma {:induction false} TotalWithout(nodes: map<string, Node>, n: string)
    requires n in nodes
    ensures Total(nodes) == nodes[n].triplesAccepted + Total(nodes - {n})
    decreases |nodes|
  {
    var m :| m in nodes && Total(nodes) == nodes[m].triplesAccepted + Total(nodes - {m});
    if m != n {
      TotalWithout(nodes - {m}, n);
      TotalWithout(nodes - {n}, m);
      assert nodes - {m} - {n} == nodes - {n} - {m};
    }
  }

  lemma TotalAfterUpdate(nodes: map<string, Node>, n: string, r: Node)
    ensures Total(nodes[n := r]) ==
      Total(nodes) + r.triplesAccepted - (if n in nodes then nodes[n].triplesAccepted else 0)
  {
    TotalWithout(nodes[n := r], n);
    assert nodes[n := r] - {n} == nodes - {n};
    if n in nodes {
      TotalWithout(nodes, n);
    } else {
      assert nodes - {n} == nodes;
    }
  }

  // ---- One step ----------------------------------------------------------

  /** The part of the nodes' total a step adds: what an approval's counters say. */
  function Credit(rules: RuleSet, st: State, s: Step): nat
  {
    if StepApproves(st, s).Some? then
      var stats := Counters(st.graph, StepWrites(rules, st, s));
      stats.entitiesCreated + stats.relationsCreated
    else 0
  }

  lemma CreditedTotal(nodes: map<string, Node>, n: string, accepted: nat, now: Instant)
    ensures Total(Credited(nodes, n, accepted, 0, now)) == Total(nodes) + if n in nodes then accepted else 0
  {
    if n in nodes {
      TotalAfterUpdate(nodes, n, Credited(nodes, n, accepted, 0, now)[n]);
    }
  }

  lemma BlockedTotal(nodes: map<string, Node>, n: string, blocked: bool)
    ensures Total(SetBlocked(nodes, n, blocked)) == Total(nodes)
  {
    if n in nodes {
      TotalAfterUpdate(nodes, n, nodes[n].(blocked := blocked));
    }
  }

  lemma PushTotal(rules: RuleSet, st: State, apiKey: Option<string>, b: Bundle, id: string, now: Instant)
    ensures Total(PushEffect(rules, st, apiKey, b, id, now).0.nodes) == Total(st.nodes)
  {
    hide Total, Credited, SetBlocked, Passes, SchemaOk;
    var c := Authenticate(st.nodes, apiKey);
    if c.Caller? {
      CreditedTotal(st.nodes, c.node, 0, now);
      BlockedTotal(st.nodes, c.node, true);
    }
  }

  lemma RecordTotal(st: State, s: Step)
    requires s.call.RequestHandshake? || s.call.AcceptNode? || s.call.RejectNode? || s.call.PullKnowledge?
    ensures forall rules: RuleSet :: Total(Next(rules, st, s).nodes) == Total(st.nodes)
  {
    hide Total, SchemaOk;
    match s.call
    case RequestHandshake(n) => TotalAfterUpdate(st.nodes, n, NEW_NODE);
    case AcceptNode(n, key) =>
      if n in st.nodes {
        TotalAfterUpdate(st.nodes, n, st.nodes[n].(status := Accepted, apiKey := Some(key)));
      }
    case RejectNode(n) =>
      if n in st.nodes {
        TotalAfterUpdate(st.nodes, n, st.nodes[n].(status := Rejected));
      }
    case PullKnowledge(apiKey, _, _, _, _, _) =>
      var c := Authenticate(st.nodes, apiKey);
      if c.Caller? {
        TotalAfterUpdate(st.nodes, c.node, st.nodes[c.node].(lastPull := Some(s.now)));
      }
  }

  lemma ApproveTotal(rules: RuleSet, st: State, s: Step)
    requires s.call.ApproveEntry? && QueueOk(rules, st.nodes, st.queue)
    ensures Total(Next(rules, st, s).nodes) == Total(st.nodes) + Credit(rules, st, s)
  {
    hide Total, Credited, Counters, ApplyAll, Passes, SchemaOk;
    var id := s.call.id;
    if StepApproves(st, s).Some? {
      CreditedTotal(st.nodes, st.queue[id].origin, Credit(rules, st, s), s.now);
    }
  }

  lemma NextTotal(rules: RuleSet, st: State, s: Step)
    requires QueueOk(rules, st.nodes, st.queue)
    ensures Total(Next(rules, st, s).nodes) == Total(st.nodes) + Credit(rules, st, s)
  {
    hide Total, QueueOk, SetBlocked, Credited, StepWrites, Counters, PushEffect, PullEffect, HandshakeEffect,
      AcceptEffect, RejectNodeEffect, ApproveEffect;
    match s.call
    case PushBundle(apiKey, b, id) => PushTotal(rules, st, apiKey, b, id, s.now);
    case BlockNode(n) => BlockedTotal(st.nodes, n, true);
    case UnblockNode(n) => BlockedTotal(st.nodes, n, false);
    case ApproveEntry(_, _) => ApproveTotal(rules, st, s);
    case RefuseEntry(_) =>
    case _ => RecordTotal(st, s);
  }

  // ---- Runs --------------------------------------------------------------

  /** Entities a step creates through the bundle's entity list. */
  function StepListed(rules: RuleSet, st: State, s: Step): set<string>
  {
    ToSet(NewNames(st.graph, StepWrites(rules, st, s)))
  }

  /** How often a step counts an element it had counted already. */
  function Recounts(g: Store, ws: seq<Write>): int
  {
    |NewNames(g, ws)| - |ToSet(NewNames(g, ws))| + |NewKeys(g, ws)| - |ToSet(NewKeys(g, ws))|
  }

  ghost function Listed(rules: RuleSet, st: State, steps: seq<Step>): set<string>
    decreases |steps|
  {
    if steps == [] then {} else StepListed(rules, st, steps[0]) + Listed(rules, Next(rules, st, steps[0]), steps[1..])
  }

  ghost function RunRecounts(rules: RuleSet, st: State, steps: seq<Step>): int
    decreases |steps|
  {
    if steps == [] then 0
    else Recounts(st.graph, StepWrites(rules, st, steps[0])) + RunRecounts(rules, Next(rules, st, steps[0]), steps[1..])
  }

  /** Approval attempts happen at strictly increasing times; `last` is the latest so far. */
  ghost predicate StrictCommits(last: Option<Instant>, steps: seq<Step>)
    decreases |steps|
  {
    steps != [] ==>
      && AttemptIsLater(last, steps[0])
      && StrictCommits(LastAttempt(last, steps[0]), steps[1..])
  }

  predicate AttemptIsLater(last: Option<Instant>, s: Step)
  {
    s.call.ApproveEntry? && last.Some? ==> Micros(last.value) < Micros(s.now)
  }

  function LastAttempt(last: Option<Instant>, s: Step): Option<Instant>
  {
    if s.call.ApproveEntry? then Some(s.now) else last
  }

  /** No element is stamped later than the latest attempt. */
  ghost predicate StampedUpTo(g: Store, last: Option<Instant>)
  {
    if last.None? then g == EMPTY else NotAfter(g, Iso(last.value))
  }

  lemma NextStampedUpTo(rules: RuleSet, st: State, clock: Instant, s: Step, last: Option<Instant>)
    requires Inv(rules, st, clock) && Enabled(st, clock, s) && StampedUpTo(st.graph, last)
    ensures StampedUpTo(Next(rules, st, s).graph, LastAttempt(last, s))
  {
    hide Inv, Next, Enabled, NotAfter, Iso;
    NextAppliesWrites(rules, st, s);
    NextKeepsInv(rules, st, clock, s);
    GraphOf(rules, Next(rules, st, s), s.now);
  }

  lemma LaterStampIsUnused(g: Store, last: Option<Instant>, now: Instant)
    requires StampedUpTo(g, last) && (last.Some? ==> Micros(last.value) < Micros(now))
    ensures Unused(g, Iso(now))
  {
    hide Micros, Iso;
    if last.Some? {
      IsoOrder(last.value, now);
      StrOrder(Iso(now), Iso(now), Iso(now));
      forall n | n in g.entities ensures g.entities[n].approvedAt != Iso(now) {
        StrOrder(g.entities[n].approvedAt, Iso(last.value), Iso(now));
      }
      forall k | k in g.relations ensures g.relations[k].approvedAt != Iso(now) {
        StrOrder(g.relations[k].approvedAt, Iso(last.value), Iso(now));
      }
    }
  }

  /** A successful approval credits one for every relation and every listed entity it
      creates, and one more for each repetition of such an element in the bundle. */
  lemma CreditIsCreation(rules: RuleSet, st: State, last: Option<Instant>, s: Step)
    requires StampedUpTo(st.graph, last) && AttemptIsLater(last, s)
    requires s.call.ApproveEntry? ==> s.call.failure.None?
    ensures var ws := StepWrites(rules, st, s);
      && Credit(rules, st, s) ==
           |ApplyAll(st.graph, ws).relations| - |st.graph.relations|
             + |StepListed(rules, st, s)| + Recounts(st.graph, ws)
      && StepListed(rules, st, s) !! st.graph.entities.Keys
      && StepListed(rules, st, s) <= ApplyAll(st.graph, ws).entities.Keys
  {
    hide Micros, Iso, BundleStmts, NotAfter, Unused;
    var ws := StepWrites(rules, st, s);
    KeysAfter(st.graph, ws);
    assert |ApplyAll(st.graph, ws).relations| == |ApplyAll(st.graph, ws).relations.Keys|;
    assert |st.graph.relations| == |st.graph.relations.Keys|;
    if StepApproves(st, s).Some? {
      LaterStampIsUnused(st.graph, last, s.now);
      FreshCounters(st.graph, ws, Iso(s.now));
    }
  }

  /** Accepted-count conservation. Over a run without failed commits, with strictly
      increasing commit times, the nodes' accepted counts grow by exactly the relations and
      the entity-list entities created, plus the repeated mentions counted twice. */
  lemma {:induction false} AcceptedIsConserved(
    rules: RuleSet, st: State, clock: Instant, steps: seq<Step>, last: Option<Instant>)
    requires Inv(rules, st, clock) && ValidRun(rules, st, clock, steps)
    requires NoFailures(steps) && StampedUpTo(st.graph, last) && StrictCommits(last, steps)
    ensures var st' := Run(rules, st, steps);
      && Total(st'.nodes) - Total(st.nodes) ==
           |st'.graph.relations| - |st.graph.relations| + |Listed(rules, st, steps)| + RunRecounts(rules, st, steps)
      && Listed(rules, st, steps) !! st.graph.entities.Keys
      && Listed(rules, st, steps) <= st'.graph.entities.Keys
    decreases |steps|
  {
    hide Inv, Enabled, Next, StepWrites, StepListed, Recounts, Credit, Micros, Total, ApplyAll, StampedUpTo,
      AttemptIsLater;
    if steps != [] {
      var s := steps[0];
      var st1 := Next(rules, st, s);
      QueueOf(rules, st, clock);
      NextTotal(rules, st, s);
      CreditIsCreation(rules, st, last, s);
      NextAppliesWrites(rules, st, s);
      NextKeepsInv(rules, st, clock, s);
      NextStampedUpTo(rules, st, clock, s, last);
      assert NoFailures(steps[1..]) by {
        assert forall j :: 0 <= j < |steps[1..]| ==> steps[1..][j] == steps[j + 1];
      }
      AcceptedIsConserved(rules, st1, s.now, steps[1..], LastAttempt(last, s));
      GrowsAlong(rules, st1, steps[1..]);
      GrowsAlong(rules, st, [s]);
      assert StepListed(rules, st, s) !! Listed(rules, st1, steps[1..]);
    }
  }

  lemma QueueOf(rules: RuleSet, st: State, clock: Instant)
    requires Inv(rules, st, clock)
    ensures QueueOk(rules, st.nodes, st.queue)
  {
  }

  /** The graph only grows, and no attribute ever changes. */
  lemma GrowsAlong(rules: RuleSet, st: State, steps: seq<Step>)
    ensures Grows(st.graph, Run(rules, st, steps).graph)
    ensures st.graph.entities.Keys <= Run(rules, st, steps).graph.entities.Keys
  {
    hide Run, RunWrites, ApplyAll;
    GraphIsFold(rules, st, steps);
    ApplyGrows(st.graph, RunWrites(rules, st, steps));
  }

  // ---- When nothing is counted twice -------------------------------------

  /** No approval's bundle names a new entity or a new relation key twice. */
  ghost predicate NoRepeats(rules: RuleSet, st: State, steps: seq<Step>)
    decreases |steps|
  {
    steps != [] ==>
      && Distinct(NewNames(st.graph, StepWrites(rules, st, steps[0])))
      && Distinct(NewKeys(st.graph, StepWrites(rules, st, steps[0])))
      && NoRepeats(rules, Next(rules, st, steps[0]), steps[1..])
  }

  /** The recounts of a run are never negative, and zero exactly when no approved bundle
      repeats a new element. */
  lemma {:induction false} NoRecountsIffNoRepeats(rules: RuleSet, st: State, steps: seq<Step>)
    ensures RunRecounts(rules, st, steps) >= 0
    ensures RunRecounts(rules, st, steps) == 0 <==> NoRepeats(rules, st, steps)
    decreases |steps|
  {
    hide Next, StepWrites, NewNames, NewKeys, ToSet, Distinct;
    if steps != [] {
      var ws := StepWrites(rules, st, steps[0]);
      SizeOfToSet(NewNames(st.graph, ws));
      SizeOfToSet(NewKeys(st.graph, ws));
      NoRecountsIffNoRepeats(rules, Next(rules, st, steps[0]), steps[1..]);
    }
  }

  /** From an empty hub: the accepted counts add up to the relations and the entities
      created by entity-list statements exactly when no approved bundle repeats a new element. */
  lemma AcceptedMatchesGraph(rules: RuleSet, clock: Instant, steps: seq<Step>)
    requires ValidRun(rules, INITIAL, clock, steps) && NoFailures(steps) && StrictCommits(None, steps)
    ensures var st := Run(rules, INITIAL, steps);
      Total(st.nodes) == |st.graph.relations| + |Listed(rules, INITIAL, steps)| <==> NoRepeats(rules, INITIAL, steps)
  {
    hide Inv, ValidRun, Run, StrictCommits, Listed, NoRepeats, RunRecounts;
    InitialInv(rules, clock);
    AcceptedIsConserved(rules, INITIAL, clock, steps, None);
    NoRecountsIffNoRepeats(rules, INITIAL, steps);
    assert Total(INITIAL.nodes) == 0;
  }

  // ---- Bundles without duplicates ----------------------------------------

  /** The bundle lists no entity name twice and no relation twice, predicates upper-cased. */
  predicate DuplicateFree(rules: RuleSet, b: Bundle)
  {
    && (forall i, j :: 0 <= i < j < |b.entities| ==> b.entities[i].Name() != b.entities[j].Name())
    && (forall i, j :: 0 <= i < j < |b.relations| ==>
          RelationStmt(rules, b.relations[i]).key != RelationStmt(rules, b.relations[j]).key)
  }

  predicate SameTarget(a: Stmt, b: Stmt)
  {
    (a.MergeEntity? && b.MergeEntity? && a.name == b.name) || (a.MergeRelation? && b.MergeRelation? && a.key == b.key)
  }

  ghost predicate DistinctTargets(stmts: seq<Stmt>)
  {
    forall i, j :: 0 <= i < j < |stmts| ==> !SameTarget(stmts[i], stmts[j])
  }

  lemma {:induction false} DistinctRelationStmts(rules: RuleSet, ts: seq<Triple>)
    requires forall i, j :: 0 <= i < j < |ts| ==> RelationStmt(rules, ts[i]).key != RelationStmt(rules, ts[j]).key
    ensures DistinctTargets(RelationStmts(rules, ts))
    ensures forall s :: s in RelationStmts(rules, ts) ==> s.MergeRelation?
  {
    if ts != [] {
      var front := ts[..|ts| - 1];
      DistinctRelationStmts(rules, front);
      RelationStmtsFrom(rules, front);
      forall s | s in RelationStmts(rules, front) ensures !SameTarget(s, RelationStmt(rules, ts[|ts| - 1])) {
        var i :| 0 <= i < |front| && rules.Allows(front[i].pred) && s == RelationStmt(rules, front[i]);
        assert front[i] == ts[i];
      }
      var all := RelationStmts(rules, ts);
      forall i, j | 0 <= i < j < |all| ensures !SameTarget(all[i], all[j]) {
        assert all[i] in RelationStmts(rules, front);
      }
    }
  }

  lemma DuplicateFreeStmts(rules: RuleSet, b: Bundle, failure: Option<nat>)
    requires DuplicateFree(rules, b)
    ensures DistinctTargets(Performed(rules, b, failure))
  {
    DistinctRelationStmts(rules, b.relations);
    var heads, tails := EntityStmts(b.entities), RelationStmts(rules, b.relations);
    forall i, j | 0 <= i < j < |heads + tails| ensures !SameTarget((heads + tails)[i], (heads + tails)[j]) {
      if |heads| <= i {
        assert !SameTarget(tails[i - |heads|], tails[j - |heads|]);
      } else if |heads| <= j {
        assert tails[j - |heads|] in tails;
      }
    }
  }

  /** Statements with distinct targets name nothing new twice. */
  lemma {:induction false} DistinctIsNoRepeat(g: Store, stmts: seq<Stmt>, origin: string, at: string)
    requires DistinctTargets(stmts)
    ensures var ws := Writes(stmts, origin, at);
      && Distinct(NewNames(g, ws)) && Distinct(NewKeys(g, ws))
      && (forall n :: n in NewNames(g, ws) ==>
            exists j :: 0 <= j < |stmts| && stmts[j].MergeEntity? && stmts[j].name == n)
      && (forall k :: k in NewKeys(g, ws) ==>
            exists j :: 0 <= j < |stmts| && stmts[j].MergeRelation? && stmts[j].key == k)
  {
    if stmts != [] {
      var front, last, ws := stmts[..|stmts| - 1], stmts[|stmts| - 1], Writes(stmts, origin, at);
      DistinctIsNoRepeat(g, front, origin, at);
      assert ws[..|ws| - 1] == Writes(front, origin, at);
      var names, keys := NewNames(g, Writes(front, origin, at)), NewKeys(g, Writes(front, origin, at));
      forall n | n in names ensures !(last.MergeEntity? && last.name == n) {
        var j :| 0 <= j < |front| && front[j].MergeEntity? && front[j].name == n;
        assert !SameTarget(stmts[j], stmts[|stmts| - 1]);
      }
      forall k | k in keys ensures !(last.MergeRelation? && last.key == k) {
        var j :| 0 <= j < |front| && front[j].MergeRelation? && front[j].key == k;
        assert !SameTarget(stmts[j], stmts[|stmts| - 1]);
      }
      if last.MergeEntity? && last.name !in g.entities {
        DistinctSnoc(names, last.name);
      } else if last.MergeRelation? && last.key !in g.relations {
        DistinctSnoc(keys, last.key);
      }
      assert forall j :: 0 <= j < |front| ==> front[j] == stmts[j];
    }
  }

  /** When no bundle of the queue has duplicates, no approval of the run repeats anything. */
  lemma {:induction false} DuplicateFreeIsNoRepeats(rules: RuleSet, st: State, clock: Instant, steps: seq<Step>)
    requires ValidRun(rules, st, clock, steps)
    requires forall id :: id in Run(rules, st, steps).queue ==>
      DuplicateFree(rules, Run(rules, st, steps).queue[id].bundle)
    ensures NoRepeats(rules, st, steps)
    decreases |steps|
  {
    hide Enabled, Next, DuplicateFree, NewNames, NewKeys, Performed, Writes, Iso;
    if steps != [] {
      var s := steps[0];
      ReviewIsFinal(rules, st, clock, steps);
      DuplicateFreeIsNoRepeats(rules, Next(rules, st, s), s.now, steps[1..]);
      if StepWrites(rules, st, s) != [] {
        var e := st.queue[s.call.id];
        assert EntryEvolves(e, Run(rules, st, steps).queue[s.call.id]);
        DuplicateFreeStmts(rules, e.bundle, s.call.failure);
        DistinctIsNoRepeat(st.graph, Performed(rules, e.bundle, s.call.failure), e.origin, Iso(s.now));
      } else {
        NothingIsNew(st.graph);
      }
    }
  }

  lemma NothingIsNew(g: Store)
    ensures NewNames(g, []) == [] && NewKeys(g, []) == []
  {
  }

  /** So in a hub whose bundles are free of duplicates, the accepted counts add up to the
      relations and the entities created by entity-list statements. */
  lemma AcceptedOfDuplicateFree(rules: RuleSet, clock: Instant, steps: seq<Step>)
    requires ValidRun(rules, INITIAL, clock, steps) && NoFailures(steps) && StrictCommits(None, steps)
    requires forall id :: id in Run(rules, INITIAL, steps).queue ==>
      DuplicateFree(rules, Run(rules, INITIAL, steps).queue[id].bundle)
    ensures var st := Run(rules, INITIAL, steps);
      && Total(st.nodes) == |st.graph.relations| + |Listed(rules, INITIAL, steps)|
      && (AllListEndpoints(rules, INITIAL, steps) ==>
            Total(st.nodes) == |st.graph.relations| + |st.graph.entities|)
  {
    hide ValidRun, Run, StrictCommits, Listed, NoRepeats, AllListEndpoints, Total, DuplicateFree;
    DuplicateFreeIsNoRepeats(rules, INITIAL, clock, steps);
    AcceptedMatchesGraph(rules, clock, steps);
    if AllListEndpoints(rules, INITIAL, steps) {
      AcceptedMatchesWholeGraph(rules, clock, steps);
    }
  }

  // ---- When every entity is listed ---------------------------------------

  /** Every endpoint of every relation statement is also in the entity list. */
  ghost predicate ListsEndpoints(ws: seq<Write>)
  {
    forall i :: 0 <= i < |ws| && ws[i].stmt.MergeRelation? ==>
      NamedIn(ws, ws[i].stmt.key.subject) && NamedIn(ws, ws[i].stmt.key.obj)
  }

  ghost predicate NamedIn(ws: seq<Write>, name: string)
  {
    exists j :: 0 <= j < |ws| && ws[j].stmt.MergeEntity? && ws[j].stmt.name == name
  }

  lemma {:induction false} NamedIsNew(g: Store, ws: seq<Write>, name: string)
    requires NamedIn(ws, name) && name !in g.entities
    ensures name in NewNames(g, ws)
  {
    var j :| 0 <= j < |ws| && ws[j].stmt.MergeEntity? && ws[j].stmt.name == name;
    if j < |ws| - 1 {
      assert ws[..|ws| - 1][j] == ws[j];
      NamedIsNew(g, ws[..|ws| - 1], name);
    }
  }

  lemma ListedAreAll(g: Store, ws: seq<Write>)
    requires ListsEndpoints(ws)
    ensures ApplyAll(g, ws).entities.Keys == g.entities.Keys + ToSet(NewNames(g, ws))
  {
    hide NewKeys, NewNames, ApplyAll, NamedIn;
    var g' := ApplyAll(g, ws);
    KeysAfter(g, ws);
    ApplyGrows(g, ws);
    LookupAfter(g, ws);
    forall n | n in g'.entities && n !in g.entities ensures n in ToSet(NewNames(g, ws)) {
      assert Lookup(g'.entities, n) == OrElse(Lookup(g.entities, n), FirstEntity(ws, n));
      FirstEntityIs(ws, n);
      var i: nat :| FirstMentionAt(ws, n, i);
      MentionedIsNamed(ws, n, i);
      NamedIsNew(g, ws, n);
    }
  }

  lemma MentionedIsNamed(ws: seq<Write>, n: string, i: nat)
    requires ListsEndpoints(ws) && i < |ws| && MentionOf(ws[i], n).Some?
    ensures NamedIn(ws, n)
  {
    match ws[i].stmt
    case MergeEntity(_, _, _) => assert ws[i].stmt.name == n;
    case MergeRelation(_, _, _, _, _) => assert NamedIn(ws, ws[i].stmt.key.subject) && NamedIn(ws, ws[i].stmt.key.obj);
  }

  ghost predicate AllListEndpoints(rules: RuleSet, st: State, steps: seq<Step>)
    decreases |steps|
  {
    steps != [] ==>
      && ListsEndpoints(StepWrites(rules, st, steps[0]))
      && AllListEndpoints(rules, Next(rules, st, steps[0]), steps[1..])
  }

  /** When every approved bundle also lists its relations' endpoints, the entities created
      by entity-list statements are all the entities created. */
  lemma {:induction false} EverythingIsListed(rules: RuleSet, st: State, steps: seq<Step>)
    requires AllListEndpoints(rules, st, steps)
    ensures Run(rules, st, steps).graph.entities.Keys == st.graph.entities.Keys + Listed(rules, st, steps)
    decreases |steps|
  {
    hide Next, StepWrites, NewNames, ApplyAll, ListsEndpoints;
    if steps != [] {
      NextAppliesWrites(rules, st, steps[0]);
      ListedAreAll(st.graph, StepWrites(rules, st, steps[0]));
      EverythingIsListed(rules, Next(rules, st, steps[0]), steps[1..]);
    }
  }

  /** With every endpoint listed as well, the accepted counts add up to all relations and
      all entities of the graph, again exactly when nothing new is repeated. */
  lemma AcceptedMatchesWholeGraph(rules: RuleSet, clock: Instant, steps: seq<Step>)
    requires ValidRun(rules, INITIAL, clock, steps) && NoFailures(steps) && StrictCommits(None, steps)
    requires AllListEndpoints(rules, INITIAL, steps)
    ensures var st := Run(rules, INITIAL, steps);
      Total(st.nodes) == |st.graph.relations| + |st.graph.entities| <==> NoRepeats(rules, INITIAL, steps)
  {
    hide ValidRun, Run, StrictCommits, Listed, NoRepeats, AllListEndpoints, Total;
    AcceptedMatchesGraph(rules, clock, steps);
    EverythingIsListed(rules, INITIAL, steps);
    var g := Run(rules, INITIAL, steps).graph;
    assert g.entities.Keys == Listed(rules, INITIAL, steps);
    assert |g.entities| == |g.entities.Keys|;
  }

  /** What a failed commit wrote is never credited: the approval that later goes through
      counts only statements whose element the failed attempt had not created, wherever it
      was cut off; nothing at all, if that was after the last statement. The `no failed
      commits` condition is needed. */
  lemma FailedCommitIsNotCredited(
    rules: RuleSet, st: State, id: string, k: nat, failed: Instant, s: Step)
    requires id in st.queue && st.queue[id].status == InReview
    requires NotAfter(st.graph, Iso(failed))
    requires s.call == ApproveEntry(id, None) && Micros(failed) < Micros(s.now)
    ensures
      var stmts := BundleStmts(rules, st.queue[id].bundle);
      var mid := ApproveEffect(rules, st, id, Some(k), failed).0;
      var ws := StepWrites(rules, mid, s);
      && Credit(rules, mid, s) == |NewNames(mid.graph, ws)| + |NewKeys(mid.graph, ws)|
      && ToSet(NewNames(mid.graph, ws)) !! mid.graph.entities.Keys
      && ToSet(NewKeys(mid.graph, ws)) !! mid.graph.relations.Keys
      && CoversAll(mid.graph, Prefix(stmts, k))
      && (k >= |stmts| ==> Credit(rules, mid, s) == 0)
  {
    hide BundleStmts, ApplyAll, Counters, NotAfter, Iso, Micros, Unused, Covers, NewNames, NewKeys;
    var e := st.queue[id];
    var stmts := BundleStmts(rules, e.bundle);
    var part := Prefix(stmts, k);
    var mid := ApproveEffect(rules, st, id, Some(k), failed).0;
    var ws := Writes(stmts, e.origin, Iso(s.now));
    assert mid.graph == ApplyAll(st.graph, Writes(part, e.origin, Iso(failed)));
    CommitCovers(st.graph, part, e.origin, Iso(failed));
    StampsUpToAttempt(st.graph, part, e.origin, failed);
    LaterStampIsUnused(mid.graph, Some(failed), s.now);
    FreshCounters(mid.graph, ws, Iso(s.now));
    KeysAfter(mid.graph, ws);
    if k >= |stmts| {
      RecommitDoesNothing(st.graph, stmts, e.origin, Iso(failed), e.origin, Iso(s.now));
    }
  }

  /** Statements stamped `at` leave no stamp later than `at`. */
  lemma StampsUpToAttempt(g: Store, stmts: seq<Stmt>, origin: string, at: Instant)
    requires NotAfter(g, Iso(at))
    ensures NotAfter(ApplyAll(g, Writes(stmts, origin, Iso(at))), Iso(at))
  {
    hide Iso;
    var ws := Writes(stmts, origin, Iso(at));
    var g' := ApplyAll(g, ws);
    LookupAfter(g, ws);
    FirstCarriesStamp(ws, Iso(at));
    forall n | n in g'.entities ensures StrLeq(g'.entities[n].approvedAt, Iso(at)) {
      assert Lookup(g'.entities, n) == OrElse(Lookup(g.entities, n), FirstEntity(ws, n));
    }
    forall k | k in g'.relations ensures StrLeq(g'.relations[k].approvedAt, Iso(at)) {
      assert Lookup(g'.relations, k) == OrElse(Lookup(g.relations, k), FirstRelation(ws, k));
    }
  }
}
