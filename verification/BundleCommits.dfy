/** What committing a bundle leaves in the graph, over the raw fields of its items and
    relations: which default stands in for which key, and whose types endpoints get. */
module BundleCommits {
  import opened Common
  import opened Schemas
  import opened Graph
  import opened GraphTheory

  // ---- First mentions in a bundle ----------------------------------------

  /** The item is about this name; a missing name is the empty one. */
  predicate ItemNamed(e: Item, n: string)
  {
    e.name == Some(n) || (e.name == None && n == "")
  }

  /** The relation is committed and this name is one of its endpoints. */
  predicate Naming(rules: RuleSet, t: Triple, n: string)
  {
    rules.upper(t.pred) in rules.allowed && (t.subject == n || t.obj == n)
  }

  /** The relation is committed under this key. */
  predicate Stating(rules: RuleSet, t: Triple, k: RelKey)
  {
    rules.upper(t.pred) in rules.allowed && k == RelKey(t.subject, rules.upper(t.pred), t.obj)
  }

  ghost predicate FirstItem(b: Bundle, n: string, i: nat)
  {
    i < |b.entities| && ItemNamed(b.entities[i], n) && forall j :: 0 <= j < i ==> !ItemNamed(b.entities[j], n)
  }

  ghost predicate FirstNaming(rules: RuleSet, b: Bundle, n: string, i: nat)
  {
    && i < |b.relations| && Naming(rules, b.relations[i], n)
    && forall j :: 0 <= j < i ==> !Naming(rules, b.relations[j], n)
  }

  ghost predicate FirstStating(rules: RuleSet, b: Bundle, k: RelKey, i: nat)
  {
    && i < |b.relations| && Stating(rules, b.relations[i], k)
    && forall j :: 0 <= j < i ==> !Stating(rules, b.relations[j], k)
  }

  /** The default stands in for a missing key only; null is kept as nothing. */
  predicate Filled(value: Option<string>, field: Field, default: string)
  {
    match field
    case Absent => value == Some(default)
    case Null => value == None
    case Text(text) => value == Some(text)
  }

  // ---- Where the statements are ------------------------------------------

  /** The statement of an allowed relation comes after those of the relations before it. */
  lemma RelationPosition(rules: RuleSet, ts: seq<Triple>, i: nat)
    requires i < |ts| && rules.upper(ts[i].pred) in rules.allowed
    ensures
      var p := |RelationStmts(rules, ts[..i])|;
      && p < |RelationStmts(rules, ts)| && RelationStmts(rules, ts)[p] == RelationStmt(rules, ts[i])
      && RelationStmts(rules, ts)[..p] == RelationStmts(rules, ts[..i])
  {
    RelationStmtsPrefix(rules, ts, i + 1);
    assert ts[..i + 1][..i] == ts[..i] && ts[..i + 1][i] == ts[i];
  }

  lemma ItemMentions(e: Item, origin: string, at: string, n: string)
    ensures
      var m := MentionOf(Write(EntityStmt(e), origin, at), n);
      && (m.Some? <==> ItemNamed(e, n))
      && (m.Some? ==>
            && Filled(m.value.typ, e.typ, "Unknown") && Filled(m.value.domain, e.domain, "general")
            && m.value.origin == origin && m.value.approvedAt == at)
  {
  }

  lemma RelationMentions(rules: RuleSet, t: Triple, origin: string, at: string, n: string, k: RelKey)
    requires rules.upper(t.pred) in rules.allowed
    ensures
      var w := Write(RelationStmt(rules, t), origin, at);
      && MentionOf(w, n) ==
           (if !Naming(rules, t, n) then None
            else Some(Entity(if t.subject == n then t.subjectType else t.objectType, None, origin, at)))
      && RelationOf(w, k) ==
           (if Stating(rules, t, k) then Some(Relation(t.confidence, t.domain, origin, at)) else None)
  {
  }

  /** The relations among the first i mention nothing that none of them names or states. */
  lemma EarlierRelations(rules: RuleSet, ts: seq<Triple>, i: nat, origin: string, at: string, n: string, k: RelKey)
    requires i <= |ts|
    ensures (forall j :: 0 <= j < i ==> !Naming(rules, ts[j], n)) ==>
      forall s :: s in RelationStmts(rules, ts[..i]) ==> MentionOf(Write(s, origin, at), n).None?
    ensures (forall j :: 0 <= j < i ==> !Stating(rules, ts[j], k)) ==>
      forall s :: s in RelationStmts(rules, ts[..i]) ==> RelationOf(Write(s, origin, at), k).None?
  {
    RelationStmtsFrom(rules, ts[..i]);
    forall s | s in RelationStmts(rules, ts[..i])
      ensures exists j :: 0 <= j < i && rules.Allows(ts[j].pred) && s == RelationStmt(rules, ts[j])
    {
      var j :| 0 <= j < i && rules.Allows(ts[..i][j].pred) && s == RelationStmt(rules, ts[..i][j]);
      assert ts[..i][j] == ts[j];
    }
    forall j | 0 <= j < i && rules.Allows(ts[j].pred)
      ensures MentionOf(Write(RelationStmt(rules, ts[j]), origin, at), n).None? || Naming(rules, ts[j], n)
      ensures RelationOf(Write(RelationStmt(rules, ts[j]), origin, at), k).None? || Stating(rules, ts[j], k)
    {
      RelationMentions(rules, ts[j], origin, at, n, k);
    }
  }

  /** Statements of items mention exactly the names of the items, and no relation. */
  lemma ItemsMention(b: Bundle, rules: RuleSet, origin: string, at: string, n: string, k: RelKey)
    ensures
      var ws := Writes(BundleStmts(rules, b), origin, at);
      forall i :: 0 <= i < |b.entities| ==>
        (MentionOf(ws[i], n).Some? <==> ItemNamed(b.entities[i], n)) && RelationOf(ws[i], k).None?
  {
    forall i | 0 <= i < |b.entities|
      ensures MentionOf(Write(EntityStmt(b.entities[i]), origin, at), n).Some? <==> ItemNamed(b.entities[i], n)
    {
      ItemMentions(b.entities[i], origin, at, n);
    }
  }

  // ---- Entities ----------------------------------------------------------

  lemma FirstItemMention(rules: RuleSet, b: Bundle, origin: string, at: string, n: string, i: nat)
    requires FirstItem(b, n, i)
    ensures var ws := Writes(BundleStmts(rules, b), origin, at);
      FirstEntity(ws, n) == MentionOf(Write(EntityStmt(b.entities[i]), origin, at), n)
  {
    hide MentionOf, ItemNamed, EntityStmt, FirstEntity, RelationOf;
    var ws := Writes(BundleStmts(rules, b), origin, at);
    ItemsMention(b, rules, origin, at, n, RelKey("", "", ""));
    assert FirstMentionAt(ws, n, i);
    FirstEntityIs(ws, n);
  }

  /** The statements before that of relation i are those of the items and of earlier ones. */
  lemma BeforeRelation(rules: RuleSet, b: Bundle, i: nat) returns (p: nat)
    requires i < |b.relations| && rules.upper(b.relations[i].pred) in rules.allowed
    ensures |b.entities| <= p < |BundleStmts(rules, b)|
    ensures BundleStmts(rules, b)[p] == RelationStmt(rules, b.relations[i])
    ensures forall q :: |b.entities| <= q < p ==> BundleStmts(rules, b)[q] in RelationStmts(rules, b.relations[..i])
  {
    RelationPosition(rules, b.relations, i);
    var front := RelationStmts(rules, b.relations[..i]);
    p := |b.entities| + |front|;
    forall q | |b.entities| <= q < p ensures BundleStmts(rules, b)[q] in front {
      assert BundleStmts(rules, b)[q] == RelationStmts(rules, b.relations)[..|front|][q - |b.entities|];
    }
  }

  lemma FirstNamingMention(rules: RuleSet, b: Bundle, origin: string, at: string, n: string, i: nat)
    requires FirstNaming(rules, b, n, i) && forall e :: e in b.entities ==> !ItemNamed(e, n)
    ensures var ws := Writes(BundleStmts(rules, b), origin, at);
      FirstEntity(ws, n) == MentionOf(Write(RelationStmt(rules, b.relations[i]), origin, at), n)
  {
    hide MentionOf, ItemNamed, RelationStmt, RelationStmts, FirstEntity, RelationOf, BundleStmts;
    var ws := Writes(BundleStmts(rules, b), origin, at);
    var k := RelKey("", "", "");
    ItemsMention(b, rules, origin, at, n, k);
    EarlierRelations(rules, b.relations, i, origin, at, n, k);
    RelationMentions(rules, b.relations[i], origin, at, n, k);
    var p := BeforeRelation(rules, b, i);
    forall q | 0 <= q < p ensures MentionOf(ws[q], n).None? {
      assert ws[q] == Write(BundleStmts(rules, b)[q], origin, at);
    }
    assert FirstMentionAt(ws, n, p);
    FirstEntityIs(ws, n);
  }

  lemma UnnamedNotMentioned(rules: RuleSet, b: Bundle, origin: string, at: string, n: string)
    requires forall e :: e in b.entities ==> !ItemNamed(e, n)
    requires forall t :: t in b.relations ==> !Naming(rules, t, n)
    ensures FirstEntity(Writes(BundleStmts(rules, b), origin, at), n) == None
  {
    hide MentionOf, ItemNamed, FirstEntity, Naming, RelationOf;
    var ws := Writes(BundleStmts(rules, b), origin, at);
    var k := RelKey("", "", "");
    ItemsMention(b, rules, origin, at, n, k);
    EarlierRelations(rules, b.relations, |b.relations|, origin, at, n, k);
    assert b.relations[..|b.relations|] == b.relations;
    forall q | 0 <= q < |ws| ensures MentionOf(ws[q], n).None? {
      if q >= |b.entities| {
        assert BundleStmts(rules, b)[q] in RelationStmts(rules, b.relations);
      }
    }
    FirstEntityIs(ws, n);
  }

  /** First writer wins, from the bundle itself. An entity the graph had stays as it was.
      A new one named by an item has the type and domain of the first such item, with
      "Unknown" and "general" for missing keys and nothing for a null. One named only by
      relations has the type the first of them gives it, and no domain. No other is made. */
  lemma CommittedEntity(rules: RuleSet, g: Store, b: Bundle, origin: string, at: string, n: string)
    ensures
      var made := Lookup(ApplyAll(g, Writes(BundleStmts(rules, b), origin, at)).entities, n);
      && (n in g.entities ==> made == Some(g.entities[n]))
      && (n !in g.entities ==>
            && (forall i: nat :: FirstItem(b, n, i) ==>
                  && made.Some?
                  && Filled(made.value.typ, b.entities[i].typ, "Unknown")
                  && Filled(made.value.domain, b.entities[i].domain, "general")
                  && made.value.origin == origin && made.value.approvedAt == at)
            && ((forall e :: e in b.entities ==> !ItemNamed(e, n)) ==>
                  && (forall i: nat :: FirstNaming(rules, b, n, i) ==>
                        var t := b.relations[i];
                        made == Some(Entity(if t.subject == n then t.subjectType else t.objectType, None, origin, at)))
                  && ((forall t :: t in b.relations ==> !Naming(rules, t, n)) ==> made == None)))
  {
    hide MentionOf, ItemNamed, RelationStmts, FirstEntity, BundleStmts, ApplyAll, FirstItem, EntityStmt, RelationStmt;
    var ws := Writes(BundleStmts(rules, b), origin, at);
    LookupAfter(g, ws);
    assert Lookup(ApplyAll(g, ws).entities, n) == OrElse(Lookup(g.entities, n), FirstEntity(ws, n));
    if n !in g.entities {
      forall i: nat | FirstItem(b, n, i)
        ensures i < |b.entities| && FirstEntity(ws, n).Some?
        ensures Filled(FirstEntity(ws, n).value.typ, b.entities[i].typ, "Unknown")
        ensures Filled(FirstEntity(ws, n).value.domain, b.entities[i].domain, "general")
        ensures FirstEntity(ws, n).value.origin == origin && FirstEntity(ws, n).value.approvedAt == at
      {
        FirstItemIsNamed(b, n, i);
        FirstItemMention(rules, b, origin, at, n, i);
        ItemMentions(b.entities[i], origin, at, n);
      }
      if forall e :: e in b.entities ==> !ItemNamed(e, n) {
        forall i: nat | FirstNaming(rules, b, n, i)
          ensures FirstEntity(ws, n) == MentionOf(Write(RelationStmt(rules, b.relations[i]), origin, at), n)
          ensures MentionOf(Write(RelationStmt(rules, b.relations[i]), origin, at), n) == Some(Entity(
            if b.relations[i].subject == n then b.relations[i].subjectType else b.relations[i].objectType,
            None, origin, at))
        {
          FirstNamingMention(rules, b, origin, at, n, i);
          RelationMentions(rules, b.relations[i], origin, at, n, RelKey("", "", ""));
        }
        if forall t :: t in b.relations ==> !Naming(rules, t, n) {
          UnnamedNotMentioned(rules, b, origin, at, n);
        }
      }
    }
  }

  lemma FirstItemIsNamed(b: Bundle, n: string, i: nat)
    requires FirstItem(b, n, i)
    ensures i < |b.entities| && ItemNamed(b.entities[i], n)
  {
  }

  // ---- Relations ---------------------------------------------------------

  lemma FirstStatingRelation(rules: RuleSet, b: Bundle, origin: string, at: string, k: RelKey, i: nat)
    requires FirstStating(rules, b, k, i)
    ensures FirstRelation(Writes(BundleStmts(rules, b), origin, at), k) ==
      Some(Relation(b.relations[i].confidence, b.relations[i].domain, origin, at))
  {
    hide MentionOf, RelationOf, RelationStmt, RelationStmts, FirstRelation, BundleStmts, ItemNamed;
    var ws := Writes(BundleStmts(rules, b), origin, at);
    ItemsMention(b, rules, origin, at, "", k);
    EarlierRelations(rules, b.relations, i, origin, at, "", k);
    RelationMentions(rules, b.relations[i], origin, at, "", k);
    var p := BeforeRelation(rules, b, i);
    forall q | 0 <= q < p ensures RelationOf(ws[q], k).None? {
      assert ws[q] == Write(BundleStmts(rules, b)[q], origin, at);
    }
    assert FirstRelationAt(ws, k, p);
    FirstRelationIs(ws, k);
  }

  lemma UnstatedNotMade(rules: RuleSet, b: Bundle, origin: string, at: string, k: RelKey)
    requires forall t :: t in b.relations ==> !Stating(rules, t, k)
    ensures FirstRelation(Writes(BundleStmts(rules, b), origin, at), k) == None
  {
    hide MentionOf, RelationOf, FirstRelation, Stating, ItemNamed;
    var ws := Writes(BundleStmts(rules, b), origin, at);
    ItemsMention(b, rules, origin, at, "", k);
    EarlierRelations(rules, b.relations, |b.relations|, origin, at, "", k);
    assert b.relations[..|b.relations|] == b.relations;
    forall q | 0 <= q < |ws| ensures RelationOf(ws[q], k).None? {
      if q >= |b.entities| {
        assert BundleStmts(rules, b)[q] in RelationStmts(rules, b.relations);
      }
    }
    FirstRelationIs(ws, k);
  }

  /** The same for relations, keyed by subject, upper-cased predicate and object; one whose
      predicate is not allowed makes nothing. */
  lemma CommittedRelation(rules: RuleSet, g: Store, b: Bundle, origin: string, at: string, k: RelKey)
    ensures
      var made := Lookup(ApplyAll(g, Writes(BundleStmts(rules, b), origin, at)).relations, k);
      && (k in g.relations ==> made == Some(g.relations[k]))
      && (k !in g.relations ==>
            && (forall i: nat :: FirstStating(rules, b, k, i) ==>
                  made == Some(Relation(b.relations[i].confidence, b.relations[i].domain, origin, at)))
            && ((forall t :: t in b.relations ==> !Stating(rules, t, k)) ==> made == None))
  {
    hide RelationStmts, FirstRelation, BundleStmts, ApplyAll, RelationStmt;
    var ws := Writes(BundleStmts(rules, b), origin, at);
    LookupAfter(g, ws);
    assert Lookup(ApplyAll(g, ws).relations, k) == OrElse(Lookup(g.relations, k), FirstRelation(ws, k));
    if k !in g.relations {
      forall i: nat | FirstStating(rules, b, k, i)
        ensures FirstRelation(ws, k) ==
          Some(Relation(b.relations[i].confidence, b.relations[i].domain, origin, at))
      {
        FirstStatingRelation(rules, b, origin, at, k, i);
      }
      if forall t :: t in b.relations ==> !Stating(rules, t, k) {
        UnstatedNotMade(rules, b, origin, at, k);
      }
    }
  }
}
