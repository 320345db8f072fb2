/**
 What streams of statements amount to: the first writer of every element wins.
 Retries, repeated commits, commit order and the shape of the graph follow.
 */
module GraphTheory {
  import opened Common
  import opened Timestamps
  import opened Schemas
  import opened Graph

  // ---- Mentions ----------------------------------------------------------

  /** The entity a single statement would create under this name, if it mentions it.
      An endpoint gets no domain, and a self-loop takes the subject's type. */
  function MentionOf(w: Write, name: string): Option<Entity>
  {
    match w.stmt
    case MergeEntity(n, typ, domain) =>
      if n == name then Some(Entity(typ, domain, w.origin, w.at)) else None
    case MergeRelation(key, subjectType, objectType, _, _) =>
      if key.subject == name then Some(Entity(subjectType, None, w.origin, w.at))
      else if key.obj == name then Some(Entity(objectType, None, w.origin, w.at))
      else None
  }

  function RelationOf(w: Write, key: RelKey): Option<Relation>
  {
    if w.stmt.MergeRelation? && w.stmt.key == key
    then Some(Relation(w.stmt.confidence, w.stmt.relDomain, w.origin, w.at))
    else None
  }

  function FirstEntity(ws: seq<Write>, name: string): Option<Entity>
  {
    if ws == [] then None
    else OrElse(FirstEntity(ws[..|ws| - 1], name), MentionOf(ws[|ws| - 1], name))
  }

  function FirstRelation(ws: seq<Write>, key: RelKey): Option<Relation>
  {
    if ws == [] then None
    else OrElse(FirstRelation(ws[..|ws| - 1], key), RelationOf(ws[|ws| - 1], key))
  }

  lemma LookupAfterOne(g: Store, w: Write)
    ensures forall n :: Lookup(Apply(g, w).entities, n) == OrElse(Lookup(g.entities, n), MentionOf(w, n))
    ensures forall k :: Lookup(Apply(g, w).relations, k) == OrElse(Lookup(g.relations, k), RelationOf(w, k))
  {
  }

  /** Every lookup after the stream is the old one, or else the first mention. */
  lemma {:induction false} LookupAfter(g: Store, ws: seq<Write>)
    ensures forall n :: Lookup(ApplyAll(g, ws).entities, n) == OrElse(Lookup(g.entities, n), FirstEntity(ws, n))
    ensures forall k :: Lookup(ApplyAll(g, ws).relations, k) == OrElse(Lookup(g.relations, k), FirstRelation(ws, k))
  {
    hide Apply, MentionOf, RelationOf;
    if ws != [] {
      LookupAfter(g, ws[..|ws| - 1]);
      LookupAfterOne(ApplyAll(g, ws[..|ws| - 1]), ws[|ws| - 1]);
    }
  }

  ghost predicate FirstMentionAt(ws: seq<Write>, name: string, i: nat)
  {
    && i < |ws| && MentionOf(ws[i], name).Some?
    && forall j :: 0 <= j < i ==> MentionOf(ws[j], name).None?
  }

  ghost predicate FirstRelationAt(ws: seq<Write>, key: RelKey, i: nat)
  {
    && i < |ws| && RelationOf(ws[i], key).Some?
    && forall j :: 0 <= j < i ==> RelationOf(ws[j], key).None?
  }

  lemma {:induction false} FirstEntityIs(ws: seq<Write>, name: string)
    ensures FirstEntity(ws, name).None? <==> forall j :: 0 <= j < |ws| ==> MentionOf(ws[j], name).None?
    ensures forall i: nat :: FirstMentionAt(ws, name, i) ==> FirstEntity(ws, name) == MentionOf(ws[i], name)
    ensures FirstEntity(ws, name).Some? ==> exists i: nat :: FirstMentionAt(ws, name, i)
  {
    if ws != [] {
      var front := ws[..|ws| - 1];
      FirstEntityIs(front, name);
      if FirstEntity(front, name).Some? {
        var i: nat :| FirstMentionAt(front, name, i);
        assert FirstMentionAt(ws, name, i);
        assert forall k: nat :: FirstMentionAt(ws, name, k) ==> k == i;
      } else if MentionOf(ws[|ws| - 1], name).Some? {
        assert FirstMentionAt(ws, name, |ws| - 1);
      }
    }
  }

  lemma {:induction false} FirstRelationIs(ws: seq<Write>, key: RelKey)
    ensures FirstRelation(ws, key).None? <==> forall j :: 0 <= j < |ws| ==> RelationOf(ws[j], key).None?
    ensures forall i: nat :: FirstRelationAt(ws, key, i) ==> FirstRelation(ws, key) == RelationOf(ws[i], key)
    ensures FirstRelation(ws, key).Some? ==> exists i: nat :: FirstRelationAt(ws, key, i)
  {
    if ws != [] {
      var front := ws[..|ws| - 1];
      FirstRelationIs(front, key);
      if FirstRelation(front, key).Some? {
        var i: nat :| FirstRelationAt(front, key, i);
        assert FirstRelationAt(ws, key, i);
        assert forall k: nat :: FirstRelationAt(ws, key, k) ==> k == i;
      } else if RelationOf(ws[|ws| - 1], key).Some? {
        assert FirstRelationAt(ws, key, |ws| - 1);
      }
    }
  }

  /** First-writer refinement: from the empty graph, an entity exists exactly when some
      statement mentions it, and it is the one the first such statement describes. */
  lemma FirstWriterWins(ws: seq<Write>, name: string)
    ensures name in ApplyAll(EMPTY, ws).entities <==> exists i: nat :: FirstMentionAt(ws, name, i)
    ensures forall i: nat :: FirstMentionAt(ws, name, i) ==>
      Lookup(ApplyAll(EMPTY, ws).entities, name) == MentionOf(ws[i], name)
  {
    LookupAfter(EMPTY, ws);
    FirstEntityIs(ws, name);
    assert Lookup(ApplyAll(EMPTY, ws).entities, name) == FirstEntity(ws, name);
  }

  lemma FirstRelationWins(ws: seq<Write>, key: RelKey)
    ensures key in ApplyAll(EMPTY, ws).relations <==> exists i: nat :: FirstRelationAt(ws, key, i)
    ensures forall i: nat :: FirstRelationAt(ws, key, i) ==>
      Lookup(ApplyAll(EMPTY, ws).relations, key) == RelationOf(ws[i], key)
  {
    LookupAfter(EMPTY, ws);
    FirstRelationIs(ws, key);
    assert Lookup(ApplyAll(EMPTY, ws).relations, key) == FirstRelation(ws, key);
  }

  lemma StoresEqual(a: Store, b: Store)
    requires forall n :: Lookup(a.entities, n) == Lookup(b.entities, n)
    requires forall k :: Lookup(a.relations, k) == Lookup(b.relations, k)
    ensures a == b
  {
    LookupsDecide(a.entities, b.entities);
    LookupsDecide(a.relations, b.relations);
  }

  // ---- Concatenation and growth ------------------------------------------

  lemma {:induction false} ApplyAppend(g: Store, a: seq<Write>, b: seq<Write>)
    ensures ApplyAll(g, a + b) == ApplyAll(ApplyAll(g, a), b)
  {
    if b == [] {
      assert a + b == a;
    } else {
      var front := b[..|b| - 1];
      assert (a + b)[..|a + b| - 1] == a + front;
      ApplyAppend(g, a, front);
    }
  }

  /** Nothing disappears and no attribute changes. */
  ghost predicate Grows(g: Store, g': Store)
  {
    && (forall n :: n in g.entities ==> n in g'.entities && g'.entities[n] == g.entities[n])
    && (forall k :: k in g.relations ==> k in g'.relations && g'.relations[k] == g.relations[k])
  }

  lemma ApplyGrows(g: Store, ws: seq<Write>)
    ensures Grows(g, ApplyAll(g, ws))
  {
    LookupAfter(g, ws);
    var g' := ApplyAll(g, ws);
    forall n | n in g.entities ensures n in g'.entities && g'.entities[n] == g.entities[n] {
      assert Lookup(g'.entities, n) == Lookup(g.entities, n);
    }
    forall k | k in g.relations ensures k in g'.relations && g'.relations[k] == g.relations[k] {
      assert Lookup(g'.relations, k) == Lookup(g.relations, k);
    }
  }

  // ---- Repeating a commit ------------------------------------------------

  /** Everything the statement mentions is in the graph. */
  predicate Covers(g: Store, s: Stmt)
  {
    match s
    case MergeEntity(name, _, _) => name in g.entities
    case MergeRelation(key, _, _, _, _) =>
      key.subject in g.entities && key.obj in g.entities && key in g.relations
  }

  predicate CoversAll(g: Store, stmts: seq<Stmt>)
  {
    forall i :: 0 <= i < |stmts| ==> Covers(g, stmts[i])
  }

  lemma {:induction false} WritesAreCovered(g: Store, ws: seq<Write>)
    ensures forall i :: 0 <= i < |ws| ==> Covers(ApplyAll(g, ws), ws[i].stmt)
  {
    if ws != [] {
      var front := ws[..|ws| - 1];
      WritesAreCovered(g, front);
      var g1 := ApplyAll(g, front);
      forall i | 0 <= i < |ws| ensures Covers(ApplyAll(g, ws), ws[i].stmt) {
        if i < |front| {
          assert Covers(g1, front[i].stmt);
        }
      }
    }
  }

  lemma CommitCovers(g: Store, stmts: seq<Stmt>, origin: string, at: string)
    ensures CoversAll(ApplyAll(g, Writes(stmts, origin, at)), stmts)
  {
    var ws := Writes(stmts, origin, at);
    WritesAreCovered(g, ws);
    forall i | 0 <= i < |stmts| ensures Covers(ApplyAll(g, ws), stmts[i]) {
      assert ws[i].stmt == stmts[i];
    }
  }

  lemma {:induction false} CoveredWritesDoNothing(g: Store, ws: seq<Write>)
    requires forall i :: 0 <= i < |ws| ==> Covers(g, ws[i].stmt)
    ensures ApplyAll(g, ws) == g
    ensures Counters(g, ws) == Stats(0, 0) <==> forall i :: 0 <= i < |ws| ==> !Stamped(g, ws[i])
  {
    if ws != [] {
      var front, w := ws[..|ws| - 1], ws[|ws| - 1];
      CoveredWritesDoNothing(g, front);
      assert Covers(g, w.stmt);
      assert forall i :: 0 <= i < |front| ==> front[i] == ws[i];
    }
  }

  /** No element of the graph carries the stamp. */
  ghost predicate Unused(g: Store, at: string)
  {
    && (forall n :: n in g.entities ==> g.entities[n].approvedAt != at)
    && (forall k :: k in g.relations ==> g.relations[k].approvedAt != at)
  }

  /** Committing again, by anyone at any time, leaves the graph as it is. The counters
      are (0, 0) exactly when no element of the bundle carries the new stamp. */
  lemma RecommitDoesNothing(
    g: Store, stmts: seq<Stmt>, origin: string, at: string, origin': string, at': string)
    ensures
      var g1 := ApplyAll(g, Writes(stmts, origin, at));
      var ws := Writes(stmts, origin', at');
      && ApplyAll(g1, ws) == g1
      && (Counters(g1, ws) == Stats(0, 0) <==> forall i :: 0 <= i < |ws| ==> !Stamped(g1, ws[i]))
      && (Unused(g1, at') ==> Counters(g1, ws) == Stats(0, 0))
  {
    var g1 := ApplyAll(g, Writes(stmts, origin, at));
    var ws := Writes(stmts, origin', at');
    CommitCovers(g, stmts, origin, at);
    forall i | 0 <= i < |ws| ensures Covers(g1, ws[i].stmt) {
      assert Covers(g1, stmts[i]);
    }
    CoveredWritesDoNothing(g1, ws);
  }

  /** A repeat within the same tick counts everything a second time: the stamp test
      does not tell a new element from one the same tick created. */
  lemma SameTickCountsTwice(origin: string, at: string)
    ensures
      var ws := Writes([MergeEntity("Python", Some("Language"), Some("general"))], origin, at);
      Counters(ApplyAll(EMPTY, ws), ws) == Stats(1, 0)
  {
    var ws := Writes([MergeEntity("Python", Some("Language"), Some("general"))], origin, at);
    assert ws[..0] == [];
    var g1 := ApplyAll(EMPTY, ws);
    assert "Python" in g1.entities;
    assert ApplyAll(g1, ws) == Apply(ApplyAll(g1, []), ws[0]) == g1;
  }

  /** Two streams in either order leave the same names and the same relation keys. */
  lemma OrderDoesNotMatter(g: Store, a: seq<Write>, b: seq<Write>)
    ensures ApplyAll(g, a + b).entities.Keys == ApplyAll(g, b + a).entities.Keys
    ensures ApplyAll(g, a + b).relations.Keys == ApplyAll(g, b + a).relations.Keys
  {
    KeysOfBoth(g, a, b);
    KeysOfBoth(g, b, a);
  }

  /** The names and keys after a stream: the old ones and those it mentions. */
  lemma KeysOfStream(g: Store, ws: seq<Write>)
    ensures forall n :: n in ApplyAll(g, ws).entities <==> n in g.entities || FirstEntity(ws, n).Some?
    ensures forall k :: k in ApplyAll(g, ws).relations <==> k in g.relations || FirstRelation(ws, k).Some?
  {
    LookupAfter(g, ws);
    var g' := ApplyAll(g, ws);
    forall n ensures n in g'.entities <==> n in g.entities || FirstEntity(ws, n).Some? {
      assert Lookup(g'.entities, n) == OrElse(Lookup(g.entities, n), FirstEntity(ws, n));
    }
    forall k ensures k in g'.relations <==> k in g.relations || FirstRelation(ws, k).Some? {
      assert Lookup(g'.relations, k) == OrElse(Lookup(g.relations, k), FirstRelation(ws, k));
    }
  }

  lemma MentionsAppend(a: seq<Write>, b: seq<Write>)
    ensures forall n :: FirstEntity(a + b, n).Some? <==> FirstEntity(a, n).Some? || FirstEntity(b, n).Some?
    ensures forall k :: FirstRelation(a + b, k).Some? <==> FirstRelation(a, k).Some? || FirstRelation(b, k).Some?
  {
    ApplyAppend(EMPTY, a, b);
    KeysOfStream(EMPTY, a);
    KeysOfStream(ApplyAll(EMPTY, a), b);
    KeysOfStream(EMPTY, a + b);
  }

  lemma MentionsNothing()
    ensures forall n :: FirstEntity([], n).None?
    ensures forall k :: FirstRelation([], k).None?
  {
  }

  lemma KeysOfBoth(g: Store, a: seq<Write>, b: seq<Write>)
    ensures forall n :: n in ApplyAll(g, a + b).entities <==>
      n in g.entities || FirstEntity(a, n).Some? || FirstEntity(b, n).Some?
    ensures forall k :: k in ApplyAll(g, a + b).relations <==>
      k in g.relations || FirstRelation(a, k).Some? || FirstRelation(b, k).Some?
  {
    ApplyAppend(g, a, b);
    KeysOfStream(g, a);
    KeysOfStream(ApplyAll(g, a), b);
  }

  // ---- Crash and retry ---------------------------------------------------

  function NoStamp(e: Option<Entity>): Option<Entity>
  {
    if e.Some? then Some(e.value.(approvedAt := "")) else None
  }

  function NoRelStamp(r: Option<Relation>): Option<Relation>
  {
    if r.Some? then Some(r.value.(approvedAt := "")) else None
  }

  /** Same names, keys and attributes; only `approved_at` may differ. */
  ghost predicate SameButStamps(a: Store, b: Store)
  {
    && (forall n :: NoStamp(Lookup(a.entities, n)) == NoStamp(Lookup(b.entities, n)))
    && (forall k :: NoRelStamp(Lookup(a.relations, k)) == NoRelStamp(Lookup(b.relations, k)))
  }

  lemma {:induction false} FirstIgnoresStamp(stmts: seq<Stmt>, origin: string, at: string, at': string)
    ensures forall n :: NoStamp(FirstEntity(Writes(stmts, origin, at), n)) ==
                        NoStamp(FirstEntity(Writes(stmts, origin, at'), n))
    ensures forall k :: NoRelStamp(FirstRelation(Writes(stmts, origin, at), k)) ==
                        NoRelStamp(FirstRelation(Writes(stmts, origin, at'), k))
  {
    if stmts != [] {
      var front := stmts[..|stmts| - 1];
      var ws, ws' := Writes(stmts, origin, at), Writes(stmts, origin, at');
      assert ws[..|ws| - 1] == Writes(front, origin, at);
      assert ws'[..|ws'| - 1] == Writes(front, origin, at');
      FirstIgnoresStamp(front, origin, at, at');
    }
  }

  lemma {:induction false} FirstOfPrefix(ws: seq<Write>, k: nat)
    requires k <= |ws|
    ensures forall n :: FirstEntity(ws[..k], n).Some? ==> FirstEntity(ws, n) == FirstEntity(ws[..k], n)
    ensures forall r :: FirstRelation(ws[..k], r).Some? ==> FirstRelation(ws, r) == FirstRelation(ws[..k], r)
  {
    if k == |ws| {
      assert ws[..k] == ws;
    } else {
      var front := ws[..|ws| - 1];
      assert front[..k] == ws[..k];
      FirstOfPrefix(front, k);
    }
  }

  /** A failed attempt: how many statements took effect, and when. */
  datatype Attempt = Attempt(performed: nat, at: string)

  function AfterAttempts(g: Store, stmts: seq<Stmt>, origin: string, tries: seq<Attempt>): Store
  {
    if tries == [] then g
    else
      var t := tries[|tries| - 1];
      ApplyAll(AfterAttempts(g, stmts, origin, tries[..|tries| - 1]),
               Writes(Prefix(stmts, t.performed), origin, t.at))
  }

  /** Where failed attempts can have brought the graph: old elements are untouched and
      new ones look as a full commit would make them. */
  ghost predicate OnTheWay(g: Store, mid: Store, stmts: seq<Stmt>, origin: string)
  {
    var full := Writes(stmts, origin, "");
    && Grows(g, mid)
    && (forall n :: n in mid.entities && n !in g.entities ==>
          NoStamp(Some(mid.entities[n])) == NoStamp(FirstEntity(full, n)))
    && (forall k :: k in mid.relations && k !in g.relations ==>
          NoRelStamp(Some(mid.relations[k])) == NoRelStamp(FirstRelation(full, k)))
  }

  lemma AttemptStaysOnTheWay(
    g: Store, mid: Store, stmts: seq<Stmt>, origin: string, performed: nat, at: string)
    requires OnTheWay(g, mid, stmts, origin)
    ensures OnTheWay(g, ApplyAll(mid, Writes(Prefix(stmts, performed), origin, at)), stmts, origin)
  {
    var part := Writes(Prefix(stmts, performed), origin, at);
    var full, dated := Writes(stmts, origin, ""), Writes(stmts, origin, at);
    assert part == dated[..|part|];
    FirstOfPrefix(dated, |part|);
    FirstIgnoresStamp(stmts, origin, at, "");
    LookupAfter(mid, part);
    ApplyGrows(mid, part);
    var after := ApplyAll(mid, part);
    forall n | n in after.entities && n !in g.entities
      ensures NoStamp(Some(after.entities[n])) == NoStamp(FirstEntity(full, n))
    {
      assert Lookup(after.entities, n) == OrElse(Lookup(mid.entities, n), FirstEntity(part, n));
    }
    forall k | k in after.relations && k !in g.relations
      ensures NoRelStamp(Some(after.relations[k])) == NoRelStamp(FirstRelation(full, k))
    {
      assert Lookup(after.relations, k) == OrElse(Lookup(mid.relations, k), FirstRelation(part, k));
    }
  }

  lemma {:induction false} AttemptsStayOnTheWay(g: Store, stmts: seq<Stmt>, origin: string, tries: seq<Attempt>)
    ensures OnTheWay(g, AfterAttempts(g, stmts, origin, tries), stmts, origin)
  {
    if tries != [] {
      var front, t := tries[..|tries| - 1], tries[|tries| - 1];
      AttemptsStayOnTheWay(g, stmts, origin, front);
      AttemptStaysOnTheWay(g, AfterAttempts(g, stmts, origin, front), stmts, origin, t.performed, t.at);
    }
  }

  lemma CompletionConverges(
    g: Store, mid: Store, stmts: seq<Stmt>, origin: string, at: string, at': string)
    requires OnTheWay(g, mid, stmts, origin)
    ensures SameButStamps(ApplyAll(mid, Writes(stmts, origin, at)), ApplyAll(g, Writes(stmts, origin, at')))
  {
    var ws, ws' := Writes(stmts, origin, at), Writes(stmts, origin, at');
    LookupAfter(mid, ws);
    LookupAfter(g, ws');
    FirstIgnoresStamp(stmts, origin, at, "");
    FirstIgnoresStamp(stmts, origin, at', "");
    var a, b := ApplyAll(mid, ws), ApplyAll(g, ws');
    forall n ensures NoStamp(Lookup(a.entities, n)) == NoStamp(Lookup(b.entities, n)) {
      assert Lookup(a.entities, n) == OrElse(Lookup(mid.entities, n), FirstEntity(ws, n));
      assert Lookup(b.entities, n) == OrElse(Lookup(g.entities, n), FirstEntity(ws', n));
    }
    forall k ensures NoRelStamp(Lookup(a.relations, k)) == NoRelStamp(Lookup(b.relations, k)) {
      assert Lookup(a.relations, k) == OrElse(Lookup(mid.relations, k), FirstRelation(ws, k));
      assert Lookup(b.relations, k) == OrElse(Lookup(g.relations, k), FirstRelation(ws', k));
    }
  }

  /** Crash-retry convergence: any number of failed attempts, each cut off anywhere and
      made at any time, followed by one that completes, give the graph of a single
      uninterrupted commit, up to `approved_at`. */
  lemma RetryConverges(
    g: Store, stmts: seq<Stmt>, origin: string, tries: seq<Attempt>, at: string, at': string)
    ensures SameButStamps(
      ApplyAll(AfterAttempts(g, stmts, origin, tries), Writes(stmts, origin, at)),
      ApplyAll(g, Writes(stmts, origin, at')))
  {
    AttemptsStayOnTheWay(g, stmts, origin, tries);
    CompletionConverges(g, AfterAttempts(g, stmts, origin, tries), stmts, origin, at, at');
  }

  // ---- Counters ----------------------------------------------------------

  /** Names of entity statements that were not in the graph before, with repetition. */
  function NewNames(g: Store, ws: seq<Write>): seq<string>
  {
    if ws == [] then []
    else
      var front, s := NewNames(g, ws[..|ws| - 1]), ws[|ws| - 1].stmt;
      if s.MergeEntity? && s.name !in g.entities then front + [s.name] else front
  }

  function NewKeys(g: Store, ws: seq<Write>): seq<RelKey>
  {
    if ws == [] then []
    else
      var front, s := NewKeys(g, ws[..|ws| - 1]), ws[|ws| - 1].stmt;
      if s.MergeRelation? && s.key !in g.relations then front + [s.key] else front
  }

  ghost predicate AllAt(ws: seq<Write>, at: string)
  {
    forall i :: 0 <= i < |ws| ==> ws[i].at == at
  }

  lemma {:induction false} FirstCarriesStamp(ws: seq<Write>, at: string)
    requires AllAt(ws, at)
    ensures forall n :: FirstEntity(ws, n).Some? ==> FirstEntity(ws, n).value.approvedAt == at
    ensures forall k :: FirstRelation(ws, k).Some? ==> FirstRelation(ws, k).value.approvedAt == at
  {
    if ws != [] {
      FirstCarriesStamp(ws[..|ws| - 1], at);
    }
  }

  /** With a stamp no element carries, the counters are the numbers of statements whose
      own element was not there before the commit. */
  lemma {:induction false} FreshCounters(g: Store, ws: seq<Write>, at: string)
    requires AllAt(ws, at) && Unused(g, at)
    ensures Counters(g, ws) == Stats(|NewNames(g, ws)|, |NewKeys(g, ws)|)
  {
    if ws != [] {
      var front, w := ws[..|ws| - 1], ws[|ws| - 1];
      FreshCounters(g, front, at);
      FirstCarriesStamp(ws, at);
      LookupAfter(g, ws);
      WritesAreCovered(g, ws);
      var g' := ApplyAll(g, ws);
      assert Covers(g', w.stmt);
      match w.stmt
      case MergeEntity(name, _, _) =>
        assert Lookup(g'.entities, name) == OrElse(Lookup(g.entities, name), FirstEntity(ws, name));
      case MergeRelation(key, _, _, _, _) =>
        assert Lookup(g'.relations, key) == OrElse(Lookup(g.relations, key), FirstRelation(ws, key));
    }
  }

  /** The relations after a stream: the old keys and the new ones. */
  lemma {:induction false} KeysAfter(g: Store, ws: seq<Write>)
    ensures ApplyAll(g, ws).relations.Keys == g.relations.Keys + ToSet(NewKeys(g, ws))
    ensures ToSet(NewKeys(g, ws)) !! g.relations.Keys
    ensures ToSet(NewNames(g, ws)) !! g.entities.Keys
    ensures ToSet(NewNames(g, ws)) <= ApplyAll(g, ws).entities.Keys
  {
    if ws == [] {
      assert ToSet(NewKeys(g, ws)) == {} && ToSet(NewNames(g, ws)) == {};
    } else {
      var front, s := ws[..|ws| - 1], ws[|ws| - 1].stmt;
      KeysAfter(g, front);
      if s.MergeRelation? && s.key !in g.relations {
        assert ToSet(NewKeys(g, ws)) == ToSet(NewKeys(g, front)) + {s.key};
      } else if s.MergeEntity? && s.name !in g.entities {
        assert ToSet(NewNames(g, ws)) == ToSet(NewNames(g, front)) + {s.name};
      }
    }
  }

  /** What the counters promise to be, the number of elements created, they are exactly
      when the bundle lists no new entity and no new relation twice. */
  lemma CountersAreCreations(g: Store, ws: seq<Write>, at: string)
    requires AllAt(ws, at) && Unused(g, at)
    ensures Counters(g, ws).entitiesCreated >= |ToSet(NewNames(g, ws))|
    ensures Counters(g, ws).entitiesCreated == |ToSet(NewNames(g, ws))| <==> Distinct(NewNames(g, ws))
    ensures Counters(g, ws).relationsCreated >= |ApplyAll(g, ws).relations| - |g.relations|
    ensures Counters(g, ws).relationsCreated == |ApplyAll(g, ws).relations| - |g.relations| <==>
      Distinct(NewKeys(g, ws))
  {
    FreshCounters(g, ws, at);
    KeysAfter(g, ws);
    SizeOfToSet(NewNames(g, ws));
    SizeOfToSet(NewKeys(g, ws));
    assert |ApplyAll(g, ws).relations| == |ApplyAll(g, ws).relations.Keys|;
    assert |g.relations| == |g.relations.Keys|;
  }

  // ---- Shape -------------------------------------------------------------

  /** No element is stamped later than `at`. */
  ghost predicate NotAfter(g: Store, at: string)
  {
    && (forall n :: n in g.entities ==> StrLeq(g.entities[n].approvedAt, at))
    && (forall k :: k in g.relations ==> StrLeq(g.relations[k].approvedAt, at))
  }

  /** Both endpoints exist and are stamped no later than the relation. */
  ghost predicate WellPlaced(g: Store, k: RelKey)
    requires k in g.relations
  {
    && k.subject in g.entities && k.obj in g.entities
    && StrLeq(g.entities[k.subject].approvedAt, g.relations[k].approvedAt)
    && StrLeq(g.entities[k.obj].approvedAt, g.relations[k].approvedAt)
  }

  ghost predicate Shaped(g: Store)
  {
    forall k :: k in g.relations ==> WellPlaced(g, k)
  }

  predicate AllowedStmt(rules: RuleSet, s: Stmt)
  {
    s.MergeRelation? ==> s.key.pred in rules.allowed
  }

  /** Every statement of a bundle comes from one of its items or allowed relations. */
  lemma {:induction false} RelationStmtsFrom(rules: RuleSet, ts: seq<Triple>)
    ensures forall s :: s in RelationStmts(rules, ts) <==>
      exists i :: 0 <= i < |ts| && rules.Allows(ts[i].pred) && s == RelationStmt(rules, ts[i])
  {
    if ts != [] {
      var front := ts[..|ts| - 1];
      RelationStmtsFrom(rules, front);
      assert forall i :: 0 <= i < |front| ==> front[i] == ts[i];
    }
  }

  lemma {:induction false} AllRelationsKept(rules: RuleSet, ts: seq<Triple>)
    requires forall i :: 0 <= i < |ts| ==> rules.Allows(ts[i].pred)
    ensures |RelationStmts(rules, ts)| == |ts|
    ensures forall i :: 0 <= i < |ts| ==> RelationStmts(rules, ts)[i] == RelationStmt(rules, ts[i])
  {
    if ts != [] {
      AllRelationsKept(rules, ts[..|ts| - 1]);
    }
  }

  lemma PerformedStmts(rules: RuleSet, b: Bundle, failure: Option<nat>)
    ensures forall s :: s in Performed(rules, b, failure) ==> AllowedStmt(rules, s) && s in BundleStmts(rules, b)
    ensures Performed(rules, b, failure) <= BundleStmts(rules, b)
    ensures failure.Some? && failure.value <= |BundleStmts(rules, b)| ==>
      |Performed(rules, b, failure)| == failure.value
    ensures failure.None? || failure.value > |BundleStmts(rules, b)| ==>
      Performed(rules, b, failure) == BundleStmts(rules, b)
  {
    var all := BundleStmts(rules, b);
    RelationStmtsFrom(rules, b.relations);
    forall s | s in Performed(rules, b, failure) ensures AllowedStmt(rules, s) && s in all {
      var i :| 0 <= i < |all| && all[i] == s;
      if i < |b.entities| {
        assert s == EntityStmt(b.entities[i]);
      } else {
        assert s in RelationStmts(rules, b.relations);
      }
    }
  }

  lemma MergeNodeKeepsShape(g: Store, name: string, e: Entity, at: string)
    requires Shaped(g) && NotAfter(g, at) && e.approvedAt == at
    ensures Shaped(MergeNode(g, name, e)) && NotAfter(MergeNode(g, name, e), at)
  {
    var g' := MergeNode(g, name, e);
    forall k | k in g'.relations ensures WellPlaced(g', k) {
      assert WellPlaced(g, k);
    }
  }

  lemma AddingKeepsShape(g: Store, key: RelKey, r: Relation, at: string)
    requires Shaped(g) && NotAfter(g, at) && r.approvedAt == at
    requires key.subject in g.entities && key.obj in g.entities && key !in g.relations
    ensures var g' := g.(relations := g.relations[key := r]); Shaped(g') && NotAfter(g', at)
  {
    hide StrLess;
    var g' := g.(relations := g.relations[key := r]);
    forall k | k in g'.relations ensures WellPlaced(g', k) {
      assert k in g.relations ==> WellPlaced(g, k);
    }
  }

  lemma WriteKeepsShape(g: Store, w: Write, at: string)
    requires Shaped(g) && NotAfter(g, at) && w.at == at
    ensures Shaped(Apply(g, w)) && NotAfter(Apply(g, w), at)
  {
    hide Shaped, NotAfter;
    match w.stmt
    case MergeEntity(name, typ, domain) =>
      MergeNodeKeepsShape(g, name, Entity(typ, domain, w.origin, at), at);
    case MergeRelation(key, subjectType, objectType, confidence, domain) =>
      var s, o := Entity(subjectType, None, w.origin, at), Entity(objectType, None, w.origin, at);
      var g1 := MergeNode(g, key.subject, s);
      MergeNodeKeepsShape(g, key.subject, s, at);
      MergeNodeKeepsShape(g1, key.obj, o, at);
      var g2 := MergeNode(g1, key.obj, o);
      if key !in g2.relations {
        AddingKeepsShape(g2, key, Relation(confidence, domain, w.origin, at), at);
      }
  }

  lemma {:induction false} ShapeKept(g: Store, ws: seq<Write>, at: string)
    requires Shaped(g) && NotAfter(g, at) && AllAt(ws, at)
    ensures Shaped(ApplyAll(g, ws)) && NotAfter(ApplyAll(g, ws), at)
  {
    if ws != [] {
      var front, w := ws[..|ws| - 1], ws[|ws| - 1];
      ShapeKept(g, front, at);
      WriteKeepsShape(ApplyAll(g, front), w, at);
    }
  }
}
