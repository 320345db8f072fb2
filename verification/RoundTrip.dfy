/** Export and import: pulling a whole graph and committing the bundle elsewhere. */
module RoundTrip {
  import opened Common
  import opened Schemas
  import opened Graph
  import opened GraphTheory
  import opened Pull

  /** The same graph under another origin and stamp. */
  function Rebadged(g: Store, origin: string, at: string): Store
  {
    Store(
      map n | n in g.entities :: g.entities[n].(origin := origin, approvedAt := at),
      map k | k in g.relations :: g.relations[k].(origin := origin, approvedAt := at))
  }

  /** An unfiltered pull with a limit no smaller than the graph returns all of it. */
  lemma FullPullIsComplete(g: Store, limit: nat, page: seq<string>, keys: seq<RelKey>)
    requires Shaped(g) && |g.entities| <= limit
    requires IsPage(g, None, [], limit, page) && IsJoin(g, page, keys)
    ensures ToSet(page) == g.entities.Keys && |page| == |g.entities|
    ensures ToSet(keys) == g.relations.Keys && |keys| == |g.relations|
  {
    assert Matching(g, None, []) == g.entities.Keys;
    HasMoreMeans(g, None, [], limit, page);
    assert |g.entities| == |g.entities.Keys|;
    forall k | k in g.relations ensures k in keys {
      assert WellPlaced(g, k);
      assert k.subject in ToSet(page);
    }
    assert ToSet(keys) == g.relations.Keys;
    SizeOfToSet(keys);
    assert |g.relations| == |g.relations.Keys|;
  }

  /** The statement that re-creates a name, with a missing domain staying missing. */
  function NameStmt(g: Store, n: string): Stmt
    requires n in g.entities
  {
    MergeEntity(n, g.entities[n].typ, g.entities[n].domain)
  }

  function KeyStmt(g: Store, k: RelKey): Stmt
    requires k in g.relations && k.subject in g.entities && k.obj in g.entities
  {
    MergeRelation(k, g.entities[k.subject].typ, g.entities[k.obj].typ, g.relations[k].confidence, g.relations[k].domain)
  }

  lemma ExportedName(g: Store, n: string)
    requires n in g.entities
    ensures EntityStmt(ItemOf(RowOf(g, n))) == NameStmt(g, n)
  {
  }

  lemma ExportedKey(rules: Rules, g: Store, k: RelKey)
    requires AuditedGraph(rules, g) && k in g.relations && k.subject in g.entities && k.obj in g.entities
    ensures var t := TripleOf(RelationRowOf(g, k)); rules.Allows(t.pred) && RelationStmt(rules, t) == KeyStmt(g, k)
  {
  }

  /** The statements an exported bundle turns into on import. */
  lemma ExportedStmts(
    rules: Rules, g: Store, hubId: string, page: seq<string>, keys: seq<RelKey>, limit: nat, p: Pulled)
    requires AuditedGraph(rules, g)
    requires JoinEndpointsExist(g, page, keys) && Answers(g, page, keys, limit, p)
    ensures var stmts := BundleStmts(rules, BundleOf(hubId, p));
      && |stmts| == |page| + |keys|
      && (forall i :: 0 <= i < |page| ==> page[i] in g.entities && stmts[i] == NameStmt(g, page[i]))
      && (forall i :: 0 <= i < |keys| ==> keys[i] in keys && stmts[|page| + i] == KeyStmt(g, keys[i]))
  {
    hide Answers, BundleOf, AuditedGraph, NameStmt, KeyStmt, EntityStmt, RelationStmt, RelationStmts, ItemOf, TripleOf,
      RowOf, RelationRowOf, RuleSet.Allows, RuleSet.Sound;
    var b := BundleOf(hubId, p);
    var heads, tails := EntityStmts(b.entities), RelationStmts(rules, b.relations);
    PulledBundleParts(g, hubId, page, keys, limit, p);
    forall i | 0 <= i < |keys|
      ensures rules.Allows(b.relations[i].pred) && RelationStmt(rules, b.relations[i]) == KeyStmt(g, keys[i])
    {
      assert keys[i] in keys;
      ExportedKey(rules, g, keys[i]);
    }
    AllRelationsKept(rules, b.relations);
    forall i | 0 <= i < |page| ensures page[i] in g.entities && EntityStmt(b.entities[i]) == NameStmt(g, page[i]) {
      assert page[i] in page;
      ExportedName(g, page[i]);
    }
    assert BundleStmts(rules, b) == heads + tails;
    assert forall i :: 0 <= i < |keys| ==> (heads + tails)[|page| + i] == tails[i];
  }

  /** A stream that first names every entity of g once and then every relation once. */
  ghost predicate Rebuilds(g: Store, page: seq<string>, keys: seq<RelKey>, ws: seq<Write>, origin: string, at: string)
  {
    && |ws| == |page| + |keys|
    && (forall i :: 0 <= i < |page| ==> page[i] in g.entities && ws[i] == Write(NameStmt(g, page[i]), origin, at))
    && (forall i :: 0 <= i < |keys| ==>
          && keys[i] in g.relations && keys[i].subject in g.entities && keys[i].obj in g.entities
          && ws[|page| + i] == Write(KeyStmt(g, keys[i]), origin, at))
  }

  /** What one statement of the stream says of an entity: the part that names entities is
      about the one it names, the rest mentions only entities of g. */
  lemma StreamMention(
    g: Store, page: seq<string>, keys: seq<RelKey>, ws: seq<Write>, origin: string, at: string, n: string, i: nat)
    requires Rebuilds(g, page, keys, ws, origin, at) && i < |ws|
    ensures i < |page| ==>
      MentionOf(ws[i], n) == if page[i] == n then Lookup(Rebadged(g, origin, at).entities, n) else None
    ensures i < |page| ==> page[i] in g.entities
    ensures i >= |page| && n !in g.entities ==> MentionOf(ws[i], n) == None
  {
    if i >= |page| {
      assert ws[|page| + (i - |page|)] == Write(KeyStmt(g, keys[i - |page|]), origin, at);
    }
  }

  lemma RebuiltEntity(
    g: Store, page: seq<string>, keys: seq<RelKey>, ws: seq<Write>, origin: string, at: string, n: string)
    requires Distinct(page) && ToSet(page) == g.entities.Keys && Rebuilds(g, page, keys, ws, origin, at)
    ensures Lookup(ApplyAll(EMPTY, ws).entities, n) == Lookup(Rebadged(g, origin, at).entities, n)
  {
    assert |page| <= |ws|;
    hide ApplyAll, MentionOf, Rebuilds;
    FirstWriterWins(ws, n);
    forall i: nat | i < |ws| && (i < |page| || n !in g.entities)
      ensures n !in g.entities ==> MentionOf(ws[i], n) == None
      ensures i < |page| ==>
        MentionOf(ws[i], n) == if page[i] == n then Lookup(Rebadged(g, origin, at).entities, n) else None
    {
      StreamMention(g, page, keys, ws, origin, at, n, i);
    }
    if n in g.entities {
      assert n in ToSet(page);
      var i: nat :| i < |page| && page[i] == n;
      assert FirstMentionAt(ws, n, i);
    }
  }

  lemma RebuiltRelation(
    g: Store, page: seq<string>, keys: seq<RelKey>, ws: seq<Write>, origin: string, at: string, k: RelKey)
    requires Distinct(keys) && ToSet(keys) == g.relations.Keys && Rebuilds(g, page, keys, ws, origin, at)
    ensures Lookup(ApplyAll(EMPTY, ws).relations, k) == Lookup(Rebadged(g, origin, at).relations, k)
  {
    hide ApplyAll;
    FirstRelationWins(ws, k);
    forall i: nat | |page| <= i < |ws|
      ensures i - |page| < |keys| && ws[i] == Write(KeyStmt(g, keys[i - |page|]), origin, at)
    {
      assert ws[|page| + (i - |page|)] == Write(KeyStmt(g, keys[i - |page|]), origin, at);
    }
    if k in g.relations {
      assert k in ToSet(keys);
      var i: nat :| i < |keys| && keys[i] == k;
      assert FirstRelationAt(ws, k, |page| + i);
    } else {
      forall i: nat | i < |ws| ensures RelationOf(ws[i], k).None? {
      }
    }
  }

  /** Export/import round trip: the bundle of a full pull, committed into an empty graph,
      rebuilds every entity and relation with all attributes; only `origin_node_id` and
      `approved_at` are the importing hub's. Entities without a domain stay without one. */
  lemma ImportRebuilds(
    rules: Rules, g: Store, hubId: string, limit: nat, page: seq<string>, keys: seq<RelKey>,
    p: Pulled, origin: string, at: string)
    requires Shaped(g) && AuditedGraph(rules, g) && |g.entities| <= limit
    requires IsPage(g, None, [], limit, page) && IsJoin(g, page, keys)
    requires JoinEndpointsExist(g, page, keys) && Answers(g, page, keys, limit, p)
    ensures ApplyAll(EMPTY, Writes(BundleStmts(rules, BundleOf(hubId, p)), origin, at)) == Rebadged(g, origin, at)
  {
    FullPullIsComplete(g, limit, page, keys);
    ExportedStmts(rules, g, hubId, page, keys, limit, p);
    var ws := Writes(BundleStmts(rules, BundleOf(hubId, p)), origin, at);
    assert Rebuilds(g, page, keys, ws, origin, at);
    forall n ensures Lookup(ApplyAll(EMPTY, ws).entities, n) == Lookup(Rebadged(g, origin, at).entities, n) {
      RebuiltEntity(g, page, keys, ws, origin, at, n);
    }
    forall k ensures Lookup(ApplyAll(EMPTY, ws).relations, k) == Lookup(Rebadged(g, origin, at).relations, k) {
      RebuiltRelation(g, page, keys, ws, origin, at, k);
    }
    StoresEqual(ApplyAll(EMPTY, ws), Rebadged(g, origin, at));
  }
}
