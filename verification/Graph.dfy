/** The global graph: MERGE statements, bundle commits and what streams of them amount to. */
module Graph {
  import opened Common
  import opened Schemas

  // ---- State -------------------------------------------------------------

  datatype Entity = Entity(typ: Option<string>, domain: Option<string>, origin: string, approvedAt: string)

  datatype RelKey = RelKey(subject: string, pred: string, obj: string)

  datatype Relation = Relation(confidence: real, domain: string, origin: string, approvedAt: string)

  /** One entity per name, one relation per (subject, type, object). */
  datatype Store = Store(entities: map<string, Entity>, relations: map<RelKey, Relation>)

  const EMPTY: Store := Store(map[], map[])

  // ---- Statements --------------------------------------------------------

  /** The two auto-commit statements `commit_bundle` issues. */
  datatype Stmt =
    | MergeEntity(name: string, typ: Option<string>, domain: Option<string>)
    | MergeRelation(key: RelKey, subjectType: Option<string>, objectType: Option<string>,
                    confidence: real, relDomain: string)

  /** A statement with the two parameters one commit shares. */
  datatype Write = Write(stmt: Stmt, origin: string, at: string)

  /** MERGE an entity: attributes are set only when the statement creates it. */
  function MergeNode(g: Store, name: string, e: Entity): Store
  {
    if name in g.entities then g else g.(entities := g.entities[name := e])
  }

  /** The effect of one statement: subject, then object, then the relation. */
  function Apply(g: Store, w: Write): Store
  {
    match w.stmt
    case MergeEntity(name, typ, domain) =>
      MergeNode(g, name, Entity(typ, domain, w.origin, w.at))
    case MergeRelation(key, subjectType, objectType, confidence, domain) =>
      var g1 := MergeNode(g, key.subject, Entity(subjectType, None, w.origin, w.at));
      var g2 := MergeNode(g1, key.obj, Entity(objectType, None, w.origin, w.at));
      if key in g2.relations then g2
      else g2.(relations := g2.relations[key := Relation(confidence, domain, w.origin, w.at)])
  }

  function ApplyAll(g: Store, ws: seq<Write>): Store
  {
    if ws == [] then g else Apply(ApplyAll(g, ws[..|ws| - 1]), ws[|ws| - 1])
  }

  /** The `created` flag of a statement: its element carries the commit's stamp. */
  function Stamped(g: Store, w: Write): bool
  {
    match w.stmt
    case MergeEntity(name, _, _) => name in g.entities && g.entities[name].approvedAt == w.at
    case MergeRelation(key, _, _, _, _) => key in g.relations && g.relations[key].approvedAt == w.at
  }

  /** The two counters of a commit. */
  datatype Stats = Stats(entitiesCreated: nat, relationsCreated: nat)

  function Count(s: Stats, g: Store, w: Write): Stats
  {
    if !Stamped(g, w) then s
    else if w.stmt.MergeEntity? then s.(entitiesCreated := s.entitiesCreated + 1)
    else s.(relationsCreated := s.relationsCreated + 1)
  }

  function Counters(g: Store, ws: seq<Write>): Stats
  {
    if ws == [] then Stats(0, 0)
    else Count(Counters(g, ws[..|ws| - 1]), ApplyAll(g, ws), ws[|ws| - 1])
  }

  // ---- Statements of a bundle --------------------------------------------

  function EntityStmt(e: Item): Stmt
  {
    MergeEntity(e.Name(), e.typ.Get("Unknown"), e.domain.Get("general"))
  }

  function RelationStmt(rules: RuleSet, t: Triple): Stmt
  {
    MergeRelation(RelKey(t.subject, rules.upper(t.pred), t.obj), t.subjectType, t.objectType, t.confidence, t.domain)
  }

  function EntityStmts(items: seq<Item>): (r: seq<Stmt>)
    ensures |r| == |items|
    ensures forall i :: 0 <= i < |r| ==> r[i] == EntityStmt(items[i])
  {
    seq(|items|, i requires 0 <= i < |items| => EntityStmt(items[i]))
  }

  /** Relations whose upper-cased predicate is not allowed are skipped. */
  function RelationStmts(rules: RuleSet, ts: seq<Triple>): seq<Stmt>
  {
    if ts == [] then []
    else
      var front := RelationStmts(rules, ts[..|ts| - 1]);
      var t := ts[|ts| - 1];
      if rules.Allows(t.pred) then front + [RelationStmt(rules, t)] else front
  }

  /** The statements a commit of this bundle issues, in order. */
  function BundleStmts(rules: RuleSet, b: Bundle): seq<Stmt>
  {
    EntityStmts(b.entities) + RelationStmts(rules, b.relations)
  }

  function Writes(stmts: seq<Stmt>, origin: string, at: string): (ws: seq<Write>)
    ensures |ws| == |stmts|
    ensures forall i :: 0 <= i < |ws| ==> ws[i] == Write(stmts[i], origin, at)
  {
    seq(|stmts|, i requires 0 <= i < |stmts| => Write(stmts[i], origin, at))
  }

  /** The first n statements, or all of them when there are fewer. */
  function Prefix(stmts: seq<Stmt>, n: nat): seq<Stmt>
  {
    if n < |stmts| then stmts[..n] else stmts
  }

  // ---- The store ---------------------------------------------------------

  datatype CommitError = CommitFailed

  class GraphStore {
    var entities: map<string, Entity>
    var relations: map<RelKey, Relation>

    constructor ()
      ensures Contents() == EMPTY
    {
      entities, relations := map[], map[];
    }

    ghost function Contents(): Store
      reads this
    {
      Store(entities, relations)
    }

    /** MERGE (e:Entity {name}) ON CREATE SET ... */
    method MergeName(name: string, e: Entity)
      modifies this
      ensures Contents() == MergeNode(old(Contents()), name, e)
    {
      if name !in entities {
        entities := entities[name := e];
      }
    }

    /** One statement of a commit; `created` compares stamps, as its RETURN does. */
    method Run(w: Write) returns (created: bool)
      modifies this
      ensures Contents() == Apply(old(Contents()), w)
      ensures created == Stamped(Contents(), w)
    {
      match w.stmt
      case MergeEntity(name, typ, domain) =>
        MergeName(name, Entity(typ, domain, w.origin, w.at));
        created := entities[name].approvedAt == w.at;
      case MergeRelation(key, subjectType, objectType, confidence, domain) =>
        MergeName(key.subject, Entity(subjectType, None, w.origin, w.at));
        MergeName(key.obj, Entity(objectType, None, w.origin, w.at));
        if key !in relations {
          relations := relations[key := Relation(confidence, domain, w.origin, w.at)];
        }
        created := relations[key].approvedAt == w.at;
    }

    /** The store and the counters after the statements `done` of a commit on g0. */
    ghost predicate Reached(g0: Store, done: seq<Stmt>, origin: string, at: string, stats: Stats)
      reads this
    {
      var ws := Writes(done, origin, at);
      Contents() == ApplyAll(g0, ws) && stats == Counters(g0, ws)
    }

    /** Run one statement and count it. */
    method RunCounted(s: Stmt, origin: string, at: string, stats: Stats, ghost g0: Store, ghost done: seq<Stmt>)
      returns (stats': Stats)
      requires Reached(g0, done, origin, at, stats)
      modifies this
      ensures Reached(g0, done + [s], origin, at, stats')
    {
      var created := Run(Write(s, origin, at));
      WritesSnoc(g0, done, s, origin, at);
      stats' := stats;
      if created {
        if s.MergeEntity? {
          stats' := stats.(entitiesCreated := stats.entitiesCreated + 1);
        } else {
          stats' := stats.(relationsCreated := stats.relationsCreated + 1);
        }
      }
    }

    /** The entity loop; stops when the driver raises. */
    method CommitEntities(items: seq<Item>, origin: string, at: string, failure: Option<nat>)
      returns (stats: Stats, ghost done: seq<Stmt>)
      modifies this
      ensures Reached(old(Contents()), done, origin, at, stats)
      ensures done == if failure.Some? then Prefix(EntityStmts(items), failure.value) else EntityStmts(items)
    {
      ghost var g0 := Contents();
      done := [];
      stats := Stats(0, 0);
      for i := 0 to |items|
        invariant done == EntityStmts(items)[..i]
        invariant Reached(g0, done, origin, at, stats)
        invariant failure.Some? ==> i <= failure.value
      {
        if failure == Some(i) {
          return;
        }
        stats := RunCounted(EntityStmt(items[i]), origin, at, stats, g0, done);
        done := done + [EntityStmt(items[i])];
      }
    }

    /** The relation loop; `budget` is what is left of the driver's statements. */
    method CommitRelations(rules: RuleSet, ts: seq<Triple>, origin: string, at: string, budget: Option<nat>,
                           stats0: Stats, ghost g0: Store, ghost head: seq<Stmt>)
      returns (stats: Stats, ghost done: seq<Stmt>)
      requires Reached(g0, head, origin, at, stats0)
      modifies this
      ensures Reached(g0, head + done, origin, at, stats)
      ensures done == if budget.Some? then Prefix(RelationStmts(rules, ts), budget.value) else RelationStmts(rules, ts)
    {
      hide Apply, ApplyAll, Counters, RelationStmt;
      done := [];
      stats := stats0;
      var issued := 0;
      assert head + done == head;
      for i := 0 to |ts|
        invariant done == RelationStmts(rules, ts[..i])
        invariant issued == |done|
        invariant Reached(g0, head + done, origin, at, stats)
        invariant budget.Some? ==> issued <= budget.value
      {
        assert ts[..i + 1][..i] == ts[..i];
        RelationStmtsPrefix(rules, ts, i);
        if rules.upper(ts[i].pred) !in rules.allowed {
          continue;
        }
        if budget == Some(issued) {
          return;
        }
        stats := RunCounted(RelationStmt(rules, ts[i]), origin, at, stats, g0, head + done);
        assert head + done + [RelationStmt(rules, ts[i])] == head + (done + [RelationStmt(rules, ts[i])]);
        done := done + [RelationStmt(rules, ts[i])];
        issued := issued + 1;
      }
      assert ts[..|ts|] == ts;
    }

    /** Commit a bundle statement by statement. `failure` is the driver's choice:
        None when every statement succeeds, Some(k) when it raises after k
        statements took effect (after all of them when there are fewer). */
    method CommitBundle(rules: RuleSet, b: Bundle, origin: string, at: string, failure: Option<nat>)
      returns (r: Result<Stats, CommitError>)
      modifies this
      ensures Contents() == ApplyAll(old(Contents()), Writes(Performed(rules, b, failure), origin, at))
      ensures failure.Some? ==> r == Err(CommitFailed)
      ensures failure.None? ==> r == Ok(Counters(old(Contents()), Writes(BundleStmts(rules, b), origin, at)))
    {
      var stats, heads := CommitEntities(b.entities, origin, at, failure);
      if failure.Some? && failure.value < |b.entities| {
        assert heads == Performed(rules, b, failure);
        return Err(CommitFailed);
      }
      var left := if failure.Some? then Some(failure.value - |b.entities|) else None;
      ghost var tails;
      stats, tails := CommitRelations(rules, b.relations, origin, at, left, stats, old(Contents()), heads);
      assert heads + tails == Performed(rules, b, failure);
      if failure.Some? {
        return Err(CommitFailed);
      }
      return Ok(stats);
    }
  }

  /** The statements that take effect: all of the bundle's, or the first k. */
  function Performed(rules: RuleSet, b: Bundle, failure: Option<nat>): seq<Stmt>
  {
    if failure.Some? then Prefix(BundleStmts(rules, b), failure.value) else BundleStmts(rules, b)
  }

  lemma WritesSnoc(g: Store, done: seq<Stmt>, s: Stmt, origin: string, at: string)
    ensures Writes(done + [s], origin, at) == Writes(done, origin, at) + [Write(s, origin, at)]
    ensures ApplyAll(g, Writes(done + [s], origin, at)) ==
            Apply(ApplyAll(g, Writes(done, origin, at)), Write(s, origin, at))
    ensures Counters(g, Writes(done + [s], origin, at)) ==
            Count(Counters(g, Writes(done, origin, at)),
                  ApplyAll(g, Writes(done + [s], origin, at)), Write(s, origin, at))
  {
    var ws := Writes(done + [s], origin, at);
    assert ws == Writes(done, origin, at) + [Write(s, origin, at)];
    assert ws[..|ws| - 1] == Writes(done, origin, at);
  }

  lemma {:induction false} RelationStmtsPrefix(rules: RuleSet, ts: seq<Triple>, i: nat)
    requires i <= |ts|
    ensures RelationStmts(rules, ts[..i]) <= RelationStmts(rules, ts)
  {
    if i < |ts| {
      assert ts[..|ts| - 1][..i] == ts[..i];
      RelationStmtsPrefix(rules, ts[..|ts| - 1], i);
    } else {
      assert ts[..i] == ts;
    }
  }
}
