/** Whole runs of the audit workflow: what approval means for the queue and the graph. */
module AuditRuns {
  import opened Common
  import opened Timestamps
  import opened Schemas
  import opened PreAudit
  import opened Graph
  import opened GraphTheory
  import opened Abuse
  import opened Hub
  import opened HubInvariants

  // ---- The queue ---------------------------------------------------------

  /** An entry keeps its origin and bundle; once reviewed it does not change at all. */
  predicate EntryEvolves(e: Entry, e': Entry)
  {
    && e'.origin == e.origin && e'.bundle == e.bundle
    && (e.status != InReview ==> e' == e)
  }

  ghost predicate QueueEvolves(q: map<string, Entry>, q': map<string, Entry>)
  {
    forall id :: id in q ==> id in q' && EntryEvolves(q[id], q'[id])
  }

  lemma NextEvolvesQueue(rules: RuleSet, st: State, clock: Instant, s: Step)
    requires Enabled(st, clock, s)
    ensures QueueEvolves(st.queue, Next(rules, st, s).queue)
  {
    hide Authenticate, SchemaOk, Passes, Credited, ApplyAll, Counters;
  }

  /** Approved and refused are absorbing, and no entry ever disappears. */
  lemma {:induction false} ReviewIsFinal(rules: RuleSet, st: State, clock: Instant, steps: seq<Step>)
    requires ValidRun(rules, st, clock, steps)
    ensures QueueEvolves(st.queue, Run(rules, st, steps).queue)
    decreases |steps|
  {
    hide Enabled, Next;
    if steps != [] {
      NextEvolvesQueue(rules, st, clock, steps[0]);
      ReviewIsFinal(rules, Next(rules, st, steps[0]), steps[0].now, steps[1..]);
    }
  }

  /** Once an entry is approved, its whole bundle is in the graph in that and every later
      state of the run, and the entry stays as it is. */
  lemma ApprovedStaysInGraph(
    rules: RuleSet, clock: Instant, steps: seq<Step>, i: nat, j: nat, id: string)
    requires ValidRun(rules, INITIAL, clock, steps) && i <= j <= |steps|
    requires Lookup(StateAt(rules, steps, i).queue, id).Some? && StateAt(rules, steps, i).queue[id].status == Approved
    ensures Lookup(StateAt(rules, steps, j).queue, id) == Lookup(StateAt(rules, steps, i).queue, id)
    ensures CoversAll(StateAt(rules, steps, j).graph, BundleStmts(rules, StateAt(rules, steps, i).queue[id].bundle))
  {
    hide Inv, Enabled, Next, StateAt, CoversAll, ValidRun, Run;
    var st, st' := StateAt(rules, steps, i), StateAt(rules, steps, j);
    BetweenPositions(rules, clock, steps, i, j);
    ReviewIsFinal(rules, st, LastTime(clock, steps[..i]), steps[i..j]);
    assert EntryEvolves(st.queue[id], st'.queue[id]);
    PositionIsSound(rules, clock, steps, j);
    ApprovedIsCovered(rules, st', LastTime(clock, steps[..j]), id);
  }

  lemma ApprovedIsCovered(rules: RuleSet, st: State, clock: Instant, id: string)
    requires Inv(rules, st, clock) && id in st.queue && st.queue[id].status == Approved
    ensures CoversAll(st.graph, BundleStmts(rules, st.queue[id].bundle))
  {
  }

  // ---- The graph is the fold of the attempts -----------------------------

  /** The statements a step performs on the graph. */
  function StepWrites(rules: RuleSet, st: State, s: Step): seq<Write>
  {
    if s.call.ApproveEntry? then ApprovalWrites(rules, st, s.call.id, s.call.failure, s.now) else []
  }

  ghost function RunWrites(rules: RuleSet, st: State, steps: seq<Step>): seq<Write>
    decreases |steps|
  {
    if steps == [] then []
    else StepWrites(rules, st, steps[0]) + RunWrites(rules, Next(rules, st, steps[0]), steps[1..])
  }

  lemma NextAppliesWrites(rules: RuleSet, st: State, s: Step)
    ensures Next(rules, st, s).graph == ApplyAll(st.graph, StepWrites(rules, st, s))
  {
    hide Authenticate, SchemaOk, Passes, Credited, Counters, Performed, Writes;
  }

  /** Only approval attempts write to the graph, in the order they are made. */
  lemma {:induction false} GraphIsFold(rules: RuleSet, st: State, steps: seq<Step>)
    ensures Run(rules, st, steps).graph == ApplyAll(st.graph, RunWrites(rules, st, steps))
    decreases |steps|
  {
    hide Next, StepWrites;
    if steps != [] {
      var st1 := Next(rules, st, steps[0]);
      NextAppliesWrites(rules, st, steps[0]);
      GraphIsFold(rules, st1, steps[1..]);
      ApplyAppend(st.graph, StepWrites(rules, st, steps[0]), RunWrites(rules, st1, steps[1..]));
    }
  }

  /** The write was performed by an approval attempt of the run: it is a statement of that
      entry's bundle, under that entry's origin, stamped with the time of the attempt. */
  ghost predicate FromAttempt(rules: RuleSet, queue: map<string, Entry>, steps: seq<Step>, w: Write)
  {
    exists j :: 0 <= j < |steps| && AttemptOf(rules, queue, steps[j], w)
  }

  ghost predicate AttemptOf(rules: RuleSet, queue: map<string, Entry>, s: Step, w: Write)
  {
    && s.call.ApproveEntry? && s.call.id in queue
    && w.origin == queue[s.call.id].origin && w.at == Iso(s.now)
    && w.stmt in BundleStmts(rules, queue[s.call.id].bundle)
  }

  lemma StepWritesFromAttempt(rules: RuleSet, st: State, s: Step, queue': map<string, Entry>, w: Write)
    requires w in StepWrites(rules, st, s) && QueueEvolves(st.queue, queue')
    ensures AttemptOf(rules, queue', s, w)
  {
    var id, failure := s.call.id, s.call.failure;
    var stmts := Performed(rules, st.queue[id].bundle, failure);
    PerformedStmts(rules, st.queue[id].bundle, failure);
    var i :| 0 <= i < |stmts| && w == Write(stmts[i], st.queue[id].origin, Iso(s.now));
    assert stmts[i] in stmts;
    assert EntryEvolves(st.queue[id], queue'[id]);
  }

  lemma {:induction false} WritesComeFromAttempts(rules: RuleSet, st: State, clock: Instant, steps: seq<Step>, w: Write)
    requires ValidRun(rules, st, clock, steps) && w in RunWrites(rules, st, steps)
    ensures FromAttempt(rules, Run(rules, st, steps).queue, steps, w)
    decreases |steps|
  {
    hide Next, StepWrites, Enabled, AttemptOf;
    var st1, rest := Next(rules, st, steps[0]), steps[1..];
    var queue' := Run(rules, st, steps).queue;
    if w in StepWrites(rules, st, steps[0]) {
      ReviewIsFinal(rules, st, clock, steps);
      StepWritesFromAttempt(rules, st, steps[0], queue', w);
      assert AttemptOf(rules, queue', steps[0], w);
    } else {
      WritesComeFromAttempts(rules, st1, steps[0].now, rest, w);
      var j :| 0 <= j < |rest| && AttemptOf(rules, queue', rest[j], w);
      assert AttemptOf(rules, queue', steps[j + 1], w);
    }
  }

  /** The step queued this entry: an admitted push of the node its key authenticates, of a
      bundle that passed the audit. */
  ghost predicate QueuedBy(rules: RuleSet, st: State, s: Step, id: string, e: Entry)
  {
    && s.call.PushBundle? && s.call.id == id && s.call.b == e.bundle
    && Authenticate(st.nodes, s.call.apiKey) == Caller(e.origin)
    && RateChecked(st.kv, e.origin, Micros(s.now)).1 && Passes(rules, e.bundle)
  }

  ghost predicate WasPushed(rules: RuleSet, steps: seq<Step>, id: string, e: Entry)
  {
    exists i :: 0 <= i < |steps| && QueuedBy(rules, StateAt(rules, steps, i), steps[i], id, e)
  }

  lemma NextQueues(rules: RuleSet, st: State, clock: Instant, s: Step, id: string)
    requires Enabled(st, clock, s) && id in Next(rules, st, s).queue
    ensures
      var e := Next(rules, st, s).queue[id];
      || (id in st.queue && e.origin == st.queue[id].origin && e.bundle == st.queue[id].bundle)
      || QueuedBy(rules, st, s, id, e)
  {
    hide Authenticate, SchemaOk, Passes, Credited, ApplyAll, Counters, RateChecked, StrikeRecorded, MustBlock, Micros;
  }

  lemma {:induction false} EntryWasPushed(rules: RuleSet, clock: Instant, steps: seq<Step>, j: nat, id: string)
    returns (i: nat)
    requires ValidRun(rules, INITIAL, clock, steps) && j <= |steps|
    requires id in StateAt(rules, steps, j).queue
    ensures i < j && QueuedBy(rules, StateAt(rules, steps, i), steps[i], id, StateAt(rules, steps, j).queue[id])
    decreases j
  {
    hide Next, Enabled, ValidRun, Run, Authenticate, Passes, StateAt;
    if j == 0 {
      NothingQueuedFirst(rules, steps);
      assert false;
    } else {
      BetweenPositions(rules, clock, steps, j - 1, j);
      NextQueues(rules, StateAt(rules, steps, j - 1), LastTime(clock, steps[..j - 1]), steps[j - 1], id);
      if QueuedBy(rules, StateAt(rules, steps, j - 1), steps[j - 1], id, StateAt(rules, steps, j).queue[id]) {
        i := j - 1;
      } else {
        i := EntryWasPushed(rules, clock, steps, j - 1, id);
      }
    }
  }

  lemma NothingQueuedFirst(rules: RuleSet, steps: seq<Step>)
    ensures StateAt(rules, steps, 0).queue == map[]
  {
    assert steps[..0] == [];
  }

  /** Every entry a run of the hub ends with was queued by an audited push of the node that
      its origin names, as authenticated at that moment. */
  lemma EntriesComeFromPushes(rules: RuleSet, clock: Instant, steps: seq<Step>, id: string)
    requires ValidRun(rules, INITIAL, clock, steps) && id in Run(rules, INITIAL, steps).queue
    ensures WasPushed(rules, steps, id, Run(rules, INITIAL, steps).queue[id])
  {
    hide ValidRun, Run, QueuedBy;
    assert steps[..|steps|] == steps;
    var i := EntryWasPushed(rules, clock, steps, |steps|, id);
  }

  /** Provenance: every entity and every relation of a hub that started empty was written
      by an approval attempt, and carries that entry's origin and the attempt's time. That
      entry was queued by a push its origin authenticated for, whatever the bundle claims. */
  lemma EveryElementHasProvenance(rules: RuleSet, clock: Instant, steps: seq<Step>)
    requires ValidRun(rules, INITIAL, clock, steps)
    ensures var st := Run(rules, INITIAL, steps);
      && (forall n :: n in st.graph.entities ==>
            exists w :: FromAttempt(rules, st.queue, steps, w) && MentionOf(w, n) == Some(st.graph.entities[n]))
      && (forall k :: k in st.graph.relations ==>
            exists w :: FromAttempt(rules, st.queue, steps, w) && RelationOf(w, k) == Some(st.graph.relations[k]))
      && (forall id :: id in st.queue ==> WasPushed(rules, steps, id, st.queue[id]))
  {
    hide ValidRun, Run, RunWrites, FromAttempt, MentionOf, RelationOf, WasPushed;
    forall id | id in Run(rules, INITIAL, steps).queue
      ensures WasPushed(rules, steps, id, Run(rules, INITIAL, steps).queue[id])
    {
      EntriesComeFromPushes(rules, clock, steps, id);
    }
    var st := Run(rules, INITIAL, steps);
    var ws := RunWrites(rules, INITIAL, steps);
    GraphIsFold(rules, INITIAL, steps);
    forall n | n in st.graph.entities
      ensures exists w :: FromAttempt(rules, st.queue, steps, w) && MentionOf(w, n) == Some(st.graph.entities[n])
    {
      FirstWriterWins(ws, n);
      var i: nat :| FirstMentionAt(ws, n, i);
      assert Lookup(st.graph.entities, n) == MentionOf(ws[i], n);
      WritesComeFromAttempts(rules, INITIAL, clock, steps, ws[i]);
    }
    forall k | k in st.graph.relations
      ensures exists w :: FromAttempt(rules, st.queue, steps, w) && RelationOf(w, k) == Some(st.graph.relations[k])
    {
      FirstRelationWins(ws, k);
      var i: nat :| FirstRelationAt(ws, k, i);
      assert Lookup(st.graph.relations, k) == RelationOf(ws[i], k);
      WritesComeFromAttempts(rules, INITIAL, clock, steps, ws[i]);
    }
  }

  // ---- Runs without failed commits ---------------------------------------

  ghost predicate NoFailures(steps: seq<Step>)
  {
    forall j :: 0 <= j < |steps| && steps[j].call.ApproveEntry? ==> steps[j].call.failure.None?
  }

  /** The entry this step approves, if it approves one. */
  function StepApproves(st: State, s: Step): Option<string>
  {
    if s.call.ApproveEntry? && s.call.failure.None? && s.call.id in st.queue && st.queue[s.call.id].status == InReview
    then Some(s.call.id)
    else None
  }

  datatype Approval = Approval(id: string, now: Instant)

  /** The approvals of a run, in order. */
  ghost function Approvals(rules: RuleSet, st: State, steps: seq<Step>): seq<Approval>
    decreases |steps|
  {
    if steps == [] then []
    else
      var rest := Approvals(rules, Next(rules, st, steps[0]), steps[1..]);
      var a := StepApproves(st, steps[0]);
      if a.Some? then [Approval(a.value, steps[0].now)] + rest else rest
  }

  /** Committing the approved bundles of a queue one after the other. */
  function Replay(rules: RuleSet, queue: map<string, Entry>, approvals: seq<Approval>): seq<Write>
  {
    if approvals == [] then []
    else
      var a := approvals[0];
      (if a.id in queue then Writes(BundleStmts(rules, queue[a.id].bundle), queue[a.id].origin, Iso(a.now)) else [])
        + Replay(rules, queue, approvals[1..])
  }

  lemma StepReplays(rules: RuleSet, st: State, s: Step, queue': map<string, Entry>)
    requires QueueEvolves(st.queue, queue')
    requires s.call.ApproveEntry? ==> s.call.failure.None?
    ensures var a := StepApproves(st, s);
      StepWrites(rules, st, s) ==
        if a.Some? && a.value in queue'
        then Writes(BundleStmts(rules, queue'[a.value].bundle), queue'[a.value].origin, Iso(s.now))
        else []
    ensures StepApproves(st, s).Some? ==> StepApproves(st, s).value in queue'
  {
    if StepApproves(st, s).Some? {
      assert EntryEvolves(st.queue[s.call.id], queue'[s.call.id]);
    }
  }

  lemma {:induction false} RunReplays(rules: RuleSet, st: State, clock: Instant, steps: seq<Step>)
    requires ValidRun(rules, st, clock, steps) && NoFailures(steps)
    ensures RunWrites(rules, st, steps) == Replay(rules, Run(rules, st, steps).queue, Approvals(rules, st, steps))
    decreases |steps|
  {
    hide Next, StepWrites, Enabled, StepApproves;
    if steps != [] {
      var st1 := Next(rules, st, steps[0]);
      ReviewIsFinal(rules, st, clock, steps);
      StepReplays(rules, st, steps[0], Run(rules, st, steps).queue);
      RunReplays(rules, st1, steps[0].now, steps[1..]);
      var rest := Approvals(rules, st1, steps[1..]);
      var a := StepApproves(st, steps[0]);
      if a.Some? {
        assert ([Approval(a.value, steps[0].now)] + rest)[1..] == rest;
      }
    }
  }

  /** With no failed commit, the graph is the fold of the approved entries' bundles in the
      order of their approval, starting from the empty graph. */
  lemma GraphIsApprovedFold(rules: RuleSet, clock: Instant, steps: seq<Step>)
    requires ValidRun(rules, INITIAL, clock, steps) && NoFailures(steps)
    ensures var st := Run(rules, INITIAL, steps);
      st.graph == ApplyAll(EMPTY, Replay(rules, st.queue, Approvals(rules, INITIAL, steps)))
  {
    GraphIsFold(rules, INITIAL, steps);
    RunReplays(rules, INITIAL, clock, steps);
  }

  function ApprovedIds(queue: map<string, Entry>): set<string>
  {
    set id | id in queue && queue[id].status == Approved
  }

  lemma NextApproves(rules: RuleSet, st: State, clock: Instant, s: Step)
    requires Enabled(st, clock, s)
    ensures var a := StepApproves(st, s);
      && ApprovedIds(Next(rules, st, s).queue) == ApprovedIds(st.queue) + (if a.Some? then {a.value} else {})
      && (a.Some? ==> a.value !in ApprovedIds(st.queue))
  {
    hide Authenticate, SchemaOk, Passes, Credited, ApplyAll, Counters, Performed, Writes;
  }

  function IdsOf(approvals: seq<Approval>): seq<string>
  {
    seq(|approvals|, i requires 0 <= i < |approvals| => approvals[i].id)
  }

  /** The approvals of a run name exactly the entries it turned approved, each once. */
  lemma {:induction false} ApprovalsAreTheApproved(rules: RuleSet, st: State, clock: Instant, steps: seq<Step>)
    requires ValidRun(rules, st, clock, steps)
    ensures var ids := IdsOf(Approvals(rules, st, steps));
      && Distinct(ids)
      && ToSet(ids) !! ApprovedIds(st.queue)
      && ApprovedIds(Run(rules, st, steps).queue) == ApprovedIds(st.queue) + ToSet(ids)
    decreases |steps|
  {
    hide Next, StepApproves, Enabled, ApprovedIds;
    if steps != [] {
      var st1 := Next(rules, st, steps[0]);
      NextApproves(rules, st, clock, steps[0]);
      ApprovalsAreTheApproved(rules, st1, steps[0].now, steps[1..]);
      var rest := IdsOf(Approvals(rules, st1, steps[1..]));
      var ids := IdsOf(Approvals(rules, st, steps));
      var a := StepApproves(st, steps[0]);
      if a.Some? {
        assert ids == [a.value] + rest;
        assert ToSet(ids) == {a.value} + ToSet(rest);
        assert a.value !in ToSet(rest);
      } else {
        assert ids == rest;
      }
    } else {
      assert ToSet(IdsOf(Approvals(rules, st, steps))) == {};
    }
  }

  // ---- Failed approvals --------------------------------------------------

  predicate FailedAttempt(s: Step, id: string)
  {
    s.call.ApproveEntry? && s.call.id == id && s.call.failure.Some?
  }

  /** Between crash and retry: failed attempts at this entry, and any steps at all that
      write nothing to the graph. */
  ghost predicate OnlyRetries(rules: RuleSet, st: State, steps: seq<Step>, id: string)
    decreases |steps|
  {
    steps != [] ==>
      && (FailedAttempt(steps[0], id) || StepWrites(rules, st, steps[0]) == [])
      && OnlyRetries(rules, Next(rules, st, steps[0]), steps[1..], id)
  }

  lemma FailedAttemptWrites(rules: RuleSet, st: State, s: Step, id: string)
    requires FailedAttempt(s, id)
    ensures StepWrites(rules, st, s) ==
      if id in st.queue && st.queue[id].status == InReview
      then
        var e := st.queue[id];
        Writes(Prefix(BundleStmts(rules, e.bundle), s.call.failure.value), e.origin, Iso(s.now))
      else []
  {
    hide BundleStmts, Prefix, Writes;
  }

  lemma {:induction false} RetriesStayOnTheWay(
    rules: RuleSet, g: Store, st: State, clock: Instant, steps: seq<Step>, id: string)
    requires ValidRun(rules, st, clock, steps) && OnlyRetries(rules, st, steps, id) && id in st.queue
    requires OnTheWay(g, st.graph, BundleStmts(rules, st.queue[id].bundle), st.queue[id].origin)
    ensures OnTheWay(g, Run(rules, st, steps).graph, BundleStmts(rules, st.queue[id].bundle), st.queue[id].origin)
    decreases |steps|
  {
    hide BundleStmts, ApplyAll, Prefix, Writes, Next, Enabled, OnTheWay, StepWrites, Iso;
    if steps != [] {
      var s, e := steps[0], st.queue[id];
      NextAppliesWrites(rules, st, s);
      NextEvolvesQueue(rules, st, clock, s);
      assert EntryEvolves(e, Next(rules, st, s).queue[id]);
      if FailedAttempt(s, id) && e.status == InReview {
        FailedAttemptWrites(rules, st, s, id);
        AttemptStaysOnTheWay(g, st.graph, BundleStmts(rules, e.bundle), e.origin, s.call.failure.value, Iso(s.now));
      } else {
        if FailedAttempt(s, id) {
          FailedAttemptWrites(rules, st, s, id);
        }
        NothingWritten(st.graph);
      }
      RetriesStayOnTheWay(rules, g, Next(rules, st, s), s.now, steps[1..], id);
    }
  }

  lemma NothingWritten(g: Store)
    ensures ApplyAll(g, []) == g
  {
  }

  /** Retrying an approval until it goes through leaves the graph that one successful
      approval would have left, up to `approved_at`, however often and wherever the
      attempts before it were cut off, and whatever else happened in between as long as
      nothing else was committed. */
  lemma RetriedApprovalConverges(
    rules: RuleSet, st: State, clock: Instant, steps: seq<Step>, id: string, now: Instant, now': Instant)
    requires ValidRun(rules, st, clock, steps) && OnlyRetries(rules, st, steps, id) && id in st.queue
    requires id in Run(rules, st, steps).queue && Run(rules, st, steps).queue[id].status == InReview
    ensures SameButStamps(
      ApproveEffect(rules, Run(rules, st, steps), id, None, now).0.graph,
      ApproveEffect(rules, st, id, None, now').0.graph)
    ensures Lookup(ApproveEffect(rules, Run(rules, st, steps), id, None, now).0.queue, id) ==
      Some(st.queue[id].(status := Approved, committedAt := Some(now)))
  {
    hide BundleStmts, ApplyAll, SameButStamps, Counters, Credited, Run, ValidRun, OnlyRetries, OnTheWay, Iso;
    var e := st.queue[id];
    ReviewIsFinal(rules, st, clock, steps);
    assert EntryEvolves(e, Run(rules, st, steps).queue[id]);
    NothingIsOnTheWay(st.graph, BundleStmts(rules, e.bundle), e.origin);
    RetriesStayOnTheWay(rules, st.graph, st, clock, steps, id);
    CompletionConverges(
      st.graph, Run(rules, st, steps).graph, BundleStmts(rules, e.bundle), e.origin, Iso(now), Iso(now'));
  }

  lemma NothingIsOnTheWay(g: Store, stmts: seq<Stmt>, origin: string)
    ensures OnTheWay(g, g, stmts, origin)
  {
  }

  /** What a run commits apart from the attempts at one entry. */
  ghost function OtherWrites(rules: RuleSet, st: State, steps: seq<Step>, id: string): seq<Write>
    decreases |steps|
  {
    if steps == [] then []
    else
      (if steps[0].call.ApproveEntry? && steps[0].call.id == id then [] else StepWrites(rules, st, steps[0]))
        + OtherWrites(rules, Next(rules, st, steps[0]), steps[1..], id)
  }

  /** An attempt at the entry, whole or cut off, mentions only what its bundle mentions. */
  lemma AttemptMentions(rules: RuleSet, st: State, s: Step, id: string, at: string)
    requires s.call.ApproveEntry? && s.call.id == id && id in st.queue
    ensures
      var ws, all := StepWrites(rules, st, s), Writes(BundleStmts(rules, st.queue[id].bundle), st.queue[id].origin, at);
      && (forall n :: FirstEntity(ws, n).Some? ==> FirstEntity(all, n).Some?)
      && (forall k :: FirstRelation(ws, k).Some? ==> FirstRelation(all, k).Some?)
  {
    hide BundleStmts, FirstEntity, FirstRelation, Iso;
    var e, ws := st.queue[id], StepWrites(rules, st, s);
    var stmts := BundleStmts(rules, e.bundle);
    var dated, all := Writes(stmts, e.origin, Iso(s.now)), Writes(stmts, e.origin, at);
    if e.status == InReview {
      assert ws == dated[..|ws|];
      FirstOfPrefix(dated, |ws|);
    } else {
      assert ws == dated[..0];
      FirstOfPrefix(dated, 0);
    }
    FirstIgnoresStamp(stmts, e.origin, Iso(s.now), at);
    forall n ensures FirstEntity(dated, n).Some? ==> FirstEntity(all, n).Some? {
      assert NoStamp(FirstEntity(dated, n)) == NoStamp(FirstEntity(all, n));
    }
    forall k ensures FirstRelation(dated, k).Some? ==> FirstRelation(all, k).Some? {
      assert NoRelStamp(FirstRelation(dated, k)) == NoRelStamp(FirstRelation(all, k));
    }
  }

  /** The graph after any steps lies between what the others committed and that together
      with all the entry's bundle mentions. */
  lemma {:induction false} AmongOthers(
    rules: RuleSet, st: State, clock: Instant, steps: seq<Step>, id: string, at: string)
    requires ValidRun(rules, st, clock, steps) && id in st.queue
    ensures
      var g, g', others := st.graph, Run(rules, st, steps).graph, OtherWrites(rules, st, steps, id);
      var all := Writes(BundleStmts(rules, st.queue[id].bundle), st.queue[id].origin, at);
      && (forall n :: n in g.entities || FirstEntity(others, n).Some? ==> n in g'.entities)
      && (forall n :: n in g'.entities ==>
            n in g.entities || FirstEntity(all, n).Some? || FirstEntity(others, n).Some?)
      && (forall k :: k in g.relations || FirstRelation(others, k).Some? ==> k in g'.relations)
      && (forall k :: k in g'.relations ==>
            k in g.relations || FirstRelation(all, k).Some? || FirstRelation(others, k).Some?)
    decreases |steps|
  {
    hide BundleStmts, ApplyAll, FirstEntity, FirstRelation, Next, Enabled, StepWrites, Writes;
    if steps != [] {
      var s, e := steps[0], st.queue[id];
      var st1, ws := Next(rules, st, s), StepWrites(rules, st, s);
      var rest := OtherWrites(rules, st1, steps[1..], id);
      NextAppliesWrites(rules, st, s);
      NextEvolvesQueue(rules, st, clock, s);
      assert EntryEvolves(e, st1.queue[id]);
      AmongOthers(rules, st1, s.now, steps[1..], id, at);
      KeysOfStream(st.graph, ws);
      if s.call.ApproveEntry? && s.call.id == id {
        AttemptMentions(rules, st, s, id, at);
        assert [] + rest == rest;
      } else {
        MentionsAppend(ws, rest);
      }
    } else {
      KeysOfStream(st.graph, []);
      MentionsNothing();
    }
  }

  /** With other entries committed between the failures and the retry, the attributes may
      be the others'; the entity names and relation keys are still those of approving the
      entry at once and committing the others after it. */
  lemma RetryAmongOthers(
    rules: RuleSet, st: State, clock: Instant, steps: seq<Step>, id: string, now: Instant, now': Instant)
    requires ValidRun(rules, st, clock, steps) && id in st.queue
    requires id in Run(rules, st, steps).queue && Run(rules, st, steps).queue[id].status == InReview
    ensures
      var retried := ApproveEffect(rules, Run(rules, st, steps), id, None, now).0.graph;
      var atOnce := ApplyAll(ApproveEffect(rules, st, id, None, now').0.graph, OtherWrites(rules, st, steps, id));
      && retried.entities.Keys == atOnce.entities.Keys
      && retried.relations.Keys == atOnce.relations.Keys
  {
    hide BundleStmts, ApplyAll, Counters, Credited, Run, ValidRun, OtherWrites, FirstEntity, FirstRelation, Iso, Writes;
    var e, others := st.queue[id], OtherWrites(rules, st, steps, id);
    ReviewIsFinal(rules, st, clock, steps);
    assert EntryEvolves(e, Run(rules, st, steps).queue[id]);
    var stmts := BundleStmts(rules, e.bundle);
    var late, early := Writes(stmts, e.origin, Iso(now)), Writes(stmts, e.origin, Iso(now'));
    AmongOthers(rules, st, clock, steps, id, Iso(now));
    KeysOfStream(Run(rules, st, steps).graph, late);
    KeysOfStream(st.graph, early);
    KeysOfStream(ApplyAll(st.graph, early), others);
    FirstIgnoresStamp(stmts, e.origin, Iso(now), Iso(now'));
    forall n ensures FirstEntity(late, n).Some? <==> FirstEntity(early, n).Some? {
      assert NoStamp(FirstEntity(late, n)) == NoStamp(FirstEntity(early, n));
    }
    forall k ensures FirstRelation(late, k).Some? <==> FirstRelation(early, k).Some? {
      assert NoRelStamp(FirstRelation(late, k)) == NoRelStamp(FirstRelation(early, k));
    }
  }

  /** Audit agrees with commit: no relation of a bundle that passed is skipped. */
  lemma PassedBundleSkipsNothing(rules: RuleSet, b: Bundle)
    requires Passes(rules, b)
    ensures |BundleStmts(rules, b)| == |b.entities| + |b.relations|
    ensures forall i :: 0 <= i < |b.relations| ==>
      BundleStmts(rules, b)[|b.entities| + i] == RelationStmt(rules, b.relations[i])
  {
    hide WellFormed, Clean;
    AllRelationsKept(rules, b.relations);
  }

  /** An approval can fail after every statement took effect; refusing the entry then leaves
      its whole bundle in the graph, where every later state still has it. */
  lemma RefusedBundleCanStay(
    rules: RuleSet, st: State, id: string, failed: Step, refused: Step, steps: seq<Step>)
    requires id in st.queue && st.queue[id].status == InReview
    requires failed.call == ApproveEntry(id, Some(|BundleStmts(rules, st.queue[id].bundle)|))
    requires refused.call == RefuseEntry(id)
    requires ValidRun(rules, Next(rules, Next(rules, st, failed), refused), refused.now, steps)
    ensures var st' := Run(rules, Next(rules, Next(rules, st, failed), refused), steps);
      && Lookup(st'.queue, id) == Some(st.queue[id].(status := Refused))
      && CoversAll(st'.graph, BundleStmts(rules, st.queue[id].bundle))
  {
    hide BundleStmts, ApplyAll, Counters, Credited, Covers, ValidRun, Run, Iso;
    var stmts, e := BundleStmts(rules, st.queue[id].bundle), st.queue[id];
    var mid := Next(rules, Next(rules, st, failed), refused);
    assert mid.graph == ApplyAll(st.graph, Writes(stmts, e.origin, Iso(failed.now)));
    CommitCovers(st.graph, stmts, e.origin, Iso(failed.now));
    ReviewIsFinal(rules, mid, refused.now, steps);
    assert EntryEvolves(mid.queue[id], Run(rules, mid, steps).queue[id]);
    GraphIsFold(rules, mid, steps);
    ApplyGrows(mid.graph, RunWrites(rules, mid, steps));
    GrowthKeepsCover(mid.graph, Run(rules, mid, steps).graph, stmts);
  }
}
