/** Delta pull: filter, order, limit, the relation join and the completeness flag. */
module Pull {
  import opened Common
  import opened Timestamps
  import opened Schemas
  import opened PreAudit
  import opened Graph
  import opened GraphTheory

  // ---- The entity query --------------------------------------------------

  /** `e.approved_at > $since`, on strings; no cursor matches everything. */
  predicate After(since: Option<string>, at: string)
  {
    since.None? || StrLess(since.value, at)
  }

  /** `e.domain IN $domains`; an empty list is no filter, and a missing domain is in no list. */
  predicate InDomains(domains: seq<string>, e: Entity)
  {
    domains == [] || (e.domain.Some? && e.domain.value in domains)
  }

  function Matching(g: Store, since: Option<string>, domains: seq<string>): set<string>
  {
    set n | n in g.entities && After(since, g.entities[n].approvedAt) && InDomains(domains, g.entities[n])
  }

  predicate NoLater(g: Store, m: string, n: string)
    requires m in g.entities && n in g.entities
  {
    StrLeq(g.entities[m].approvedAt, g.entities[n].approvedAt)
  }

  /** An answer the database may give: matching names in ascending stamp order, ties in
      any order, as many as the limit allows, none left out that is earlier than one listed. */
  ghost predicate IsPage(g: Store, since: Option<string>, domains: seq<string>, limit: nat, page: seq<string>)
  {
    var all := Matching(g, since, domains);
    && Distinct(page)
    && (forall i :: 0 <= i < |page| ==> page[i] in all)
    && |page| == (if limit < |all| then limit else |all|)
    && (forall i, j :: 0 <= i < j < |page| ==> NoLater(g, page[i], page[j]))
    && (forall i, n :: 0 <= i < |page| && n in all && n !in page ==> NoLater(g, page[i], n))
  }

  /** `(s)-[r]->(o) WHERE s.name IN $names`: each such relation once, in any order. */
  ghost predicate IsJoin(g: Store, page: seq<string>, keys: seq<RelKey>)
  {
    && Distinct(keys)
    && forall k :: k in keys <==> k in g.relations && k.subject in page
  }

  lemma {:induction false} Earliest(g: Store, s: set<string>) returns (m: string)
    requires s != {} && s <= g.entities.Keys
    ensures m in s && forall n :: n in s ==> NoLater(g, m, n)
  {
    var first :| first in s;
    var rest := s - {first};
    assert forall n :: n in s ==> n == first || n in rest;
    m := first;
    if rest != {} {
      var r := Earliest(g, rest);
      var atFirst, atR := g.entities[first].approvedAt, g.entities[r].approvedAt;
      StrOrder(atR, atFirst, atFirst);
      if !NoLater(g, first, r) {
        m := r;
      } else {
        forall n | n in rest ensures NoLater(g, first, n) {
          StrOrder(atFirst, atR, g.entities[n].approvedAt);
        }
      }
    }
  }

  /** A page that leaves matches out can be extended by the earliest of them. */
  lemma PageExtends(g: Store, since: Option<string>, domains: seq<string>, limit: nat, page: seq<string>, m: string)
    requires IsPage(g, since, domains, limit, page)
    requires m in Matching(g, since, domains) - ToSet(page)
    requires forall n :: n in Matching(g, since, domains) - ToSet(page) ==> NoLater(g, m, n)
    ensures IsPage(g, since, domains, limit + 1, page + [m])
  {
    var all, longer := Matching(g, since, domains), page + [m];
    SizeOfToSet(page);
    SubsetSize(ToSet(page), all);
    forall i, n | 0 <= i < |longer| && n in all && n !in longer ensures NoLater(g, longer[i], n) {
      assert n in all - ToSet(page);
    }
  }

  lemma CompletePageStays(g: Store, since: Option<string>, domains: seq<string>, limit: nat, page: seq<string>)
    requires IsPage(g, since, domains, limit, page)
    requires Matching(g, since, domains) == ToSet(page)
    ensures IsPage(g, since, domains, limit + 1, page)
  {
    SizeOfToSet(page);
  }

  /** Every query has an answer, so IsPage asks nothing impossible of the database. */
  lemma {:induction false} PageExists(g: Store, since: Option<string>, domains: seq<string>, limit: nat)
    returns (page: seq<string>)
    ensures IsPage(g, since, domains, limit, page)
  {
    page := [];
    if limit != 0 {
      page := PageExists(g, since, domains, limit - 1);
      var rest := Matching(g, since, domains) - ToSet(page);
      if Matching(g, since, domains) == ToSet(page) {
        CompletePageStays(g, since, domains, limit - 1, page);
      } else {
        SubsetSize(ToSet(page), Matching(g, since, domains));
        var m := Earliest(g, rest);
        PageExtends(g, since, domains, limit - 1, page, m);
        page := page + [m];
      }
    }
  }

  // ---- Completeness and the cursor ---------------------------------------

  predicate HasMore(page: seq<string>, limit: nat)
  {
    |page| >= limit
  }

  /** `has_more` false means the page holds every match. It is exact about the limit: it
      is raised exactly when at least `limit` entities match, also when precisely that many do. */
  lemma HasMoreMeans(g: Store, since: Option<string>, domains: seq<string>, limit: nat, page: seq<string>)
    requires IsPage(g, since, domains, limit, page)
    ensures HasMore(page, limit) <==> |Matching(g, since, domains)| >= limit
    ensures !HasMore(page, limit) ==> ToSet(page) == Matching(g, since, domains)
    ensures ToSet(page) == Matching(g, since, domains) <==> |Matching(g, since, domains)| <= limit
  {
    SizeOfToSet(page);
    SubsetSize(ToSet(page), Matching(g, since, domains));
  }

  /** The cursor a client sends next: the last `approved_at` of the page, if there is one. */
  function NextCursor(g: Store, since: Option<string>, page: seq<string>): Option<string>
  {
    if page == [] then since
    else Lookup(map n | n in g.entities :: g.entities[n].approvedAt, page[|page| - 1])
  }

  /** Matches that tie with the last listed entity but were cut off the page. */
  function CutOff(g: Store, since: Option<string>, domains: seq<string>, page: seq<string>): set<string>
  {
    set n | n in Matching(g, since, domains) && n !in page && page != []
            && Some(g.entities[n].approvedAt) == NextCursor(g, since, page)
  }

  /** Moving the cursor splits the matches in three: listed, cut off, and still to come. */
  lemma CursorSplits(g: Store, since: Option<string>, domains: seq<string>, limit: nat, page: seq<string>)
    requires IsPage(g, since, domains, limit, page) && page != []
    ensures
      var next := Matching(g, NextCursor(g, since, page), domains);
      var cut := CutOff(g, since, domains, page);
      && Matching(g, since, domains) == ToSet(page) + cut + next
      && ToSet(page) !! cut && ToSet(page) !! next && cut !! next
  {
    var all := Matching(g, since, domains);
    var last := page[|page| - 1];
    var c := g.entities[last].approvedAt;
    var next := Matching(g, Some(c), domains);
    forall n | n in g.entities
      ensures n in next ==> n in all && n !in page
      ensures n in all && n !in page ==> n in next || g.entities[n].approvedAt == c
      ensures n in next ==> g.entities[n].approvedAt != c
    {
      var at := g.entities[n].approvedAt;
      StrLessIrreflexive(c);
      if n in next {
        if since.Some? {
          StrLessTransitive(since.value, c, at);
        }
        if n in page {
          var i :| 0 <= i < |page| && page[i] == n;
          assert i < |page| - 1 ==> NoLater(g, page[i], page[|page| - 1]);
          StrOrder(at, c, at);
        }
      }
      if n in all && n !in page {
        assert NoLater(g, last, n);
      }
    }
  }

  /** With a positive limit, `has_more` brings a nonempty page and strictly fewer matches
      above the new cursor: at least `limit` fewer. */
  lemma DrainShrinks(g: Store, since: Option<string>, domains: seq<string>, limit: nat, page: seq<string>)
    requires limit >= 1 && IsPage(g, since, domains, limit, page) && HasMore(page, limit)
    ensures page != []
    ensures |Matching(g, NextCursor(g, since, page), domains)| + limit <= |Matching(g, since, domains)|
  {
    CursorSplits(g, since, domains, limit, page);
    SizeOfToSet(page);
    var next := Matching(g, NextCursor(g, since, page), domains);
    SubsetSize(ToSet(page) + next, Matching(g, since, domains));
  }

  /** The pages of a client that pulls from a fixed graph until told there is no more. */
  ghost predicate Drains(g: Store, since: Option<string>, domains: seq<string>, limit: nat, pages: seq<seq<string>>)
    decreases |pages|
  {
    pages != [] ==>
      && IsPage(g, since, domains, limit, pages[0])
      && HasMore(pages[0], limit)
      && Drains(g, NextCursor(g, since, pages[0]), domains, limit, pages[1..])
  }

  /** The pull loop ends on a fixed graph: n pulls in a row can only all say `has_more`
      when there are n * limit matches to hand out. */
  lemma {:induction false} DrainEnds(
    g: Store, since: Option<string>, domains: seq<string>, limit: nat, pages: seq<seq<string>>)
    requires limit >= 1 && Drains(g, since, domains, limit, pages)
    ensures |pages| * limit <= |Matching(g, since, domains)|
    ensures |pages| <= |Matching(g, since, domains)|
    decreases |pages|
  {
    if pages != [] {
      DrainShrinks(g, since, domains, limit, pages[0]);
      DrainEnds(g, NextCursor(g, since, pages[0]), domains, limit, pages[1..]);
      assert |pages| * limit == |pages[1..]| * limit + limit;
    }
  }

  /** With limit 0 the flag stays up on an empty page and the cursor never moves: any
      number of such pulls in a row all say `has_more`. DrainEnds needs its positive limit. */
  lemma {:induction false} ZeroLimitNeverEnds(
    g: Store, since: Option<string>, domains: seq<string>, pages: seq<seq<string>>)
    requires forall i :: 0 <= i < |pages| ==> pages[i] == []
    ensures Drains(g, since, domains, 0, pages)
    decreases |pages|
  {
    if pages != [] {
      assert IsPage(g, since, domains, 0, pages[0]);
      ZeroLimitNeverEnds(g, since, domains, pages[1..]);
    }
  }

  // ---- Rows --------------------------------------------------------------

  datatype EntityRow = EntityRow(
    name: string, typ: Option<string>, domain: Option<string>, origin: string, approvedAt: string)

  datatype RelationRow = RelationRow(
    subject: string, subjectType: Option<string>, pred: string, obj: string, objectType: Option<string>,
    confidence: real, domain: string, origin: string, approvedAt: string)

  datatype Pulled = Pulled(entities: seq<EntityRow>, relations: seq<RelationRow>, total: nat, hasMore: bool)

  function RowOf(g: Store, n: string): EntityRow
    requires n in g.entities
  {
    var e := g.entities[n];
    EntityRow(n, e.typ, e.domain, e.origin, e.approvedAt)
  }

  function RelationRowOf(g: Store, k: RelKey): RelationRow
    requires k in g.relations && k.subject in g.entities && k.obj in g.entities
  {
    var r := g.relations[k];
    RelationRow(k.subject, g.entities[k.subject].typ, k.pred, k.obj, g.entities[k.obj].typ,
                r.confidence, r.domain, r.origin, r.approvedAt)
  }

  /** What a pull answers, given the names and keys the two queries returned. */
  ghost predicate Answers(g: Store, page: seq<string>, keys: seq<RelKey>, limit: nat, p: Pulled)
    requires forall n :: n in page ==> n in g.entities
    requires forall k :: k in keys ==> k in g.relations && k.subject in g.entities && k.obj in g.entities
  {
    && |p.entities| == |page| && (forall i :: 0 <= i < |page| ==> p.entities[i] == RowOf(g, page[i]))
    && |p.relations| == |keys| && (forall i :: 0 <= i < |keys| ==> p.relations[i] == RelationRowOf(g, keys[i]))
    && p.total == |page| + |keys|
    && p.hasMore == HasMore(page, limit)
  }

  datatype PullError = QueryFailed

  function CursorString(since: Option<Instant>): Option<string>
  {
    if since.Some? then Some(Iso(since.value)) else None
  }

  /** The entity is stamped after the cursor, if there is one, and its domain is on the
      list, if that is not empty; an entity without a domain is on no list. */
  predicate Wanted(since: Option<string>, domains: seq<string>, domain: Option<string>, at: string)
  {
    && (since == None || StrLess(since.value, at))
    && (domains != [] ==> exists i :: 0 <= i < |domains| && domain == Some(domains[i]))
  }

  predicate Lists(p: Pulled, n: string)
  {
    exists i :: 0 <= i < |p.entities| && p.entities[i].name == n
  }

  function KeyOf(row: RelationRow): RelKey
  {
    RelKey(row.subject, row.pred, row.obj)
  }

  /** The entity rows are wanted entities of the graph as it has them, each once, oldest
      first and no more than the limit; one that is wanted but not listed is no older than
      any that is, and is left out only when the limit is reached. */
  ghost predicate ServesEntities(g: Store, since: Option<string>, domains: seq<string>, limit: nat, p: Pulled)
  {
    && |p.entities| <= limit
    && (forall i :: 0 <= i < |p.entities| ==>
          var row := p.entities[i];
          && row.name in g.entities
          && g.entities[row.name] == Entity(row.typ, row.domain, row.origin, row.approvedAt)
          && Wanted(since, domains, row.domain, row.approvedAt))
    && (forall i, j :: 0 <= i < j < |p.entities| ==>
          && p.entities[i].name != p.entities[j].name
          && StrLeq(p.entities[i].approvedAt, p.entities[j].approvedAt))
    && (forall n :: n in g.entities && Wanted(since, domains, g.entities[n].domain, g.entities[n].approvedAt) ==>
          || Lists(p, n)
          || (&& |p.entities| == limit
              && forall i :: 0 <= i < |p.entities| ==> StrLeq(p.entities[i].approvedAt, g.entities[n].approvedAt)))
  }

  /** The relation rows are exactly the relations whose subject is listed, each once, as
      the graph has them and with the types its entities have now. */
  ghost predicate ServesRelations(g: Store, p: Pulled)
  {
    && (forall i :: 0 <= i < |p.relations| ==>
          var row := p.relations[i];
          && Lists(p, row.subject) && KeyOf(row) in g.relations
          && g.relations[KeyOf(row)] == Relation(row.confidence, row.domain, row.origin, row.approvedAt)
          && row.subject in g.entities && g.entities[row.subject].typ == row.subjectType
          && row.obj in g.entities && g.entities[row.obj].typ == row.objectType)
    && (forall i, j :: 0 <= i < j < |p.relations| ==> KeyOf(p.relations[i]) != KeyOf(p.relations[j]))
    && (forall k :: k in g.relations && Lists(p, k.subject) ==>
          exists i :: 0 <= i < |p.relations| && KeyOf(p.relations[i]) == k)
  }

  ghost predicate Serves(g: Store, since: Option<string>, domains: seq<string>, limit: nat, p: Pulled)
  {
    && ServesEntities(g, since, domains, limit, p) && ServesRelations(g, p)
    && p.total == |p.entities| + |p.relations| && (p.hasMore <==> |p.entities| == limit)
  }

  lemma PageServes(
    g: Store, since: Option<string>, domains: seq<string>, limit: nat,
    page: seq<string>, keys: seq<RelKey>, p: Pulled)
    requires IsPage(g, since, domains, limit, page) && JoinEndpointsExist(g, page, keys)
    requires Answers(g, page, keys, limit, p)
    ensures ServesEntities(g, since, domains, limit, p)
    ensures forall n :: Lists(p, n) <==> n in page
  {
    hide StrLess, StrLeq;
    forall n ensures Lists(p, n) <==> n in page {
      assert forall i :: 0 <= i < |page| ==> p.entities[i].name == page[i];
    }
    forall n | n in g.entities
      ensures n in Matching(g, since, domains) <==>
        Wanted(since, domains, g.entities[n].domain, g.entities[n].approvedAt)
    {
      var domain := g.entities[n].domain;
      assert domain.Some? ==>
        (domain.value in domains <==> exists i :: 0 <= i < |domains| && domain == Some(domains[i]));
    }
    if |page| < limit {
      HasMoreMeans(g, since, domains, limit, page);
      assert ToSet(page) == Matching(g, since, domains);
    }
    forall n | n in Matching(g, since, domains) && n !in page
      ensures |page| == limit
      ensures forall i :: 0 <= i < |page| ==> StrLeq(p.entities[i].approvedAt, g.entities[n].approvedAt)
    {
      assert |page| < limit ==> n in ToSet(page);
      assert forall i :: 0 <= i < |page| ==> NoLater(g, page[i], n);
    }
    forall i, j | 0 <= i < j < |page| ensures StrLeq(p.entities[i].approvedAt, p.entities[j].approvedAt) {
      assert NoLater(g, page[i], page[j]);
    }
  }

  lemma JoinServes(g: Store, page: seq<string>, keys: seq<RelKey>, limit: nat, p: Pulled)
    requires IsJoin(g, page, keys) && JoinEndpointsExist(g, page, keys) && Answers(g, page, keys, limit, p)
    requires forall n :: Lists(p, n) <==> n in page
    ensures ServesRelations(g, p)
  {
    hide Lists;
    forall i | 0 <= i < |keys| ensures KeyOf(p.relations[i]) == keys[i] && keys[i] in keys {
    }
    forall k | k in g.relations && Lists(p, k.subject)
      ensures exists i :: 0 <= i < |p.relations| && KeyOf(p.relations[i]) == k
    {
      var i :| 0 <= i < |keys| && keys[i] == k;
      assert KeyOf(p.relations[i]) == k;
    }
  }

  /** The answer made of a page and its join is the one the request asked for. */
  lemma AnswerServes(
    g: Store, since: Option<string>, domains: seq<string>, limit: nat,
    page: seq<string>, keys: seq<RelKey>, p: Pulled)
    requires IsPage(g, since, domains, limit, page) && IsJoin(g, page, keys)
    requires JoinEndpointsExist(g, page, keys) && Answers(g, page, keys, limit, p)
    ensures Serves(g, since, domains, limit, p)
  {
    hide ServesEntities, ServesRelations, Lists, IsJoin;
    PageServes(g, since, domains, limit, page, keys, p);
    JoinServes(g, page, keys, limit, p);
  }

  /** Pull from the store. `page` and `keys` are the database's answers to the two queries;
      the relation query is not sent for an empty page, and a negative LIMIT makes the
      entity query fail. */
  method PullSince(db: GraphStore, since: Option<Instant>, domains: seq<string>, limit: int,
                   page: seq<string>, keys: seq<RelKey>)
    returns (r: Result<Pulled, PullError>)
    requires Shaped(db.Contents())
    requires limit >= 0 ==> IsPage(db.Contents(), CursorString(since), domains, limit, page)
    requires limit >= 0 ==> IsJoin(db.Contents(), page, keys)
    ensures r.Err? <==> limit < 0
    ensures limit >= 0 ==>
      && JoinEndpointsExist(db.Contents(), page, keys)
      && Answers(db.Contents(), page, keys, limit, r.value)
      && Serves(db.Contents(), if since.Some? then Some(Iso(since.value)) else None, domains, limit, r.value)
  {
    if limit < 0 {
      return Err(QueryFailed);
    }
    ghost var g := db.Contents();
    var entities: seq<EntityRow> := [];
    for i := 0 to |page|
      invariant |entities| == i && forall j :: 0 <= j < i ==> entities[j] == RowOf(g, page[j])
    {
      var e := db.entities[page[i]];
      entities := entities + [EntityRow(page[i], e.typ, e.domain, e.origin, e.approvedAt)];
    }
    var relations: seq<RelationRow> := [];
    assert JoinEndpointsExist(g, page, keys);
    if entities != [] {
      for i := 0 to |keys|
        invariant |relations| == i && forall j :: 0 <= j < i ==> relations[j] == RelationRowOf(g, keys[j])
      {
        var k := keys[i];
        assert k in keys && WellPlaced(g, k);
        var r := db.relations[k];
        relations := relations + [RelationRow(k.subject, db.entities[k.subject].typ, k.pred, k.obj,
          db.entities[k.obj].typ, r.confidence, r.domain, r.origin, r.approvedAt)];
      }
    } else {
      SizeOfToSet(keys);
      assert ToSet(keys) == {};
    }
    r := Ok(Pulled(entities, relations, |entities| + |relations|, |entities| >= limit));
    AnswerServes(g, CursorString(since), domains, limit, page, keys, r.value);
  }

  /** The names and keys a page and its join list are all in the graph. */
  predicate JoinEndpointsExist(g: Store, page: seq<string>, keys: seq<RelKey>)
  {
    && (forall n :: n in page ==> n in g.entities)
    && (forall k :: k in keys ==> k in g.relations && k.subject in g.entities && k.obj in g.entities)
  }

  lemma RowsExist(
    g: Store, since: Option<string>, domains: seq<string>, limit: nat, page: seq<string>, keys: seq<RelKey>)
    requires Shaped(g) && IsPage(g, since, domains, limit, page) && IsJoin(g, page, keys)
    ensures JoinEndpointsExist(g, page, keys)
  {
    forall k | k in keys ensures k.subject in g.entities && k.obj in g.entities {
      assert WellPlaced(g, k);
    }
  }

  /** The answer made of these names and keys. */
  function AnswerOf(g: Store, page: seq<string>, keys: seq<RelKey>, limit: nat): (p: Pulled)
    requires JoinEndpointsExist(g, page, keys)
    ensures Answers(g, page, keys, limit, p)
  {
    Pulled(
      seq(|page|, i requires 0 <= i < |page| => assert page[i] in page; RowOf(g, page[i])),
      seq(|keys|, i requires 0 <= i < |keys| => assert keys[i] in keys; RelationRowOf(g, keys[i])),
      |page| + |keys|, HasMore(page, limit))
  }

  lemma AnswerIsUnique(g: Store, page: seq<string>, keys: seq<RelKey>, limit: nat, p: Pulled)
    requires JoinEndpointsExist(g, page, keys) && Answers(g, page, keys, limit, p)
    ensures p == AnswerOf(g, page, keys, limit)
  {
    var q := AnswerOf(g, page, keys, limit);
    assert p.entities == q.entities && p.relations == q.relations;
  }

  /** Exact relation delivery: a relation of the graph is left out of an answer precisely
      when its subject is not on the page, however new the relation is. */
  lemma RelationsFollowSubjects(g: Store, page: seq<string>, keys: seq<RelKey>, limit: nat, p: Pulled, k: RelKey)
    requires Shaped(g) && IsJoin(g, page, keys) && JoinEndpointsExist(g, page, keys) && Answers(g, page, keys, limit, p)
    requires k in g.relations
    ensures (exists i :: 0 <= i < |p.relations| &&
               RelKey(p.relations[i].subject, p.relations[i].pred, p.relations[i].obj) == k)
            <==> (exists i :: 0 <= i < |p.entities| && p.entities[i].name == k.subject)
  {
    if k.subject in page {
      var i :| 0 <= i < |page| && page[i] == k.subject;
      assert p.entities[i].name == k.subject;
      var j :| 0 <= j < |keys| && keys[j] == k;
      assert RelKey(p.relations[j].subject, p.relations[j].pred, p.relations[j].obj) == k;
    } else {
      forall i | 0 <= i < |p.relations|
        ensures RelKey(p.relations[i].subject, p.relations[i].pred, p.relations[i].obj) != k
      {
        assert keys[i] in keys;
      }
      forall i | 0 <= i < |p.entities| ensures p.entities[i].name != k.subject {
        assert page[i] in page;
      }
    }
  }

  // ---- The pulled bundle -------------------------------------------------

  function FieldOf(o: Option<string>): Field
  {
    if o.Some? then Text(o.value) else Null
  }

  function ItemOf(row: EntityRow): Item
  {
    Item(Some(row.name), FieldOf(row.typ), FieldOf(row.domain), Absent)
  }

  function TripleOf(row: RelationRow): Triple
  {
    Triple(row.subject, row.subjectType, row.pred, row.obj, row.objectType, row.confidence, row.domain)
  }

  /** The bundle a hub wraps an answer in, under its own id. */
  function BundleOf(hubId: string, p: Pulled): Bundle
  {
    Bundle(hubId,
      seq(|p.entities|, i requires 0 <= i < |p.entities| => ItemOf(p.entities[i])),
      seq(|p.relations|, i requires 0 <= i < |p.relations| => TripleOf(p.relations[i])))
  }

  /** What auditing leaves in the graph. */
  ghost predicate AuditedGraph(rules: RuleSet, g: Store)
  {
    && (forall n :: n in g.entities ==> 0 < |n| <= MAX_ENTITY_NAME_LEN && !rules.Sensitive(n))
    && (forall k :: k in g.relations ==>
          k.pred in rules.allowed && 0.0 <= g.relations[k].confidence <= 1.0 && |g.relations[k].domain| <= 64)
  }

  lemma AuditedRowIsClean(rules: Rules, g: Store, n: string)
    requires AuditedGraph(rules, g) && n in g.entities
    ensures var e := ItemOf(RowOf(g, n));
      0 < |e.Name()| <= MAX_ENTITY_NAME_LEN && CleanText(rules, e.Name()) && CleanText(rules, DescriptionText(e))
  {
  }

  lemma AuditedRelationIsClean(rules: Rules, g: Store, k: RelKey)
    requires AuditedGraph(rules, g) && k in g.relations && WellPlaced(g, k)
    ensures var t := TripleOf(RelationRowOf(g, k));
      && WellFormedTriple(t) && CleanTriple(rules, t) && rules.Allows(t.pred)
      && (TripleSchemaOk(t) <==> Fits(g.entities[k.subject].typ, 128) && Fits(g.entities[k.obj].typ, 128))
  {
    assert k.subject in g.entities && k.obj in g.entities;
  }

  /** The items and triples of a pulled bundle, back to the names and keys they come from. */
  lemma PulledBundleParts(g: Store, hubId: string, page: seq<string>, keys: seq<RelKey>, limit: nat, p: Pulled)
    requires JoinEndpointsExist(g, page, keys) && Answers(g, page, keys, limit, p)
    ensures var b := BundleOf(hubId, p);
      && |b.entities| == |page| && (forall i :: 0 <= i < |page| ==> b.entities[i] == ItemOf(RowOf(g, page[i])))
      && |b.relations| == |keys|
      && (forall i :: 0 <= i < |keys| ==> b.relations[i] == TripleOf(RelationRowOf(g, keys[i])))
  {
  }

  /** A bundle pulled from an audited graph passes the pre-audit of the next hub exactly
      when this hub has an id and both lists are within the caps. */
  lemma PulledBundlePasses(
    rules: Rules, g: Store, hubId: string, page: seq<string>, keys: seq<RelKey>, limit: nat, p: Pulled)
    requires Shaped(g) && AuditedGraph(rules, g)
    requires JoinEndpointsExist(g, page, keys) && Answers(g, page, keys, limit, p)
    ensures Passes(rules, BundleOf(hubId, p)) <==>
      hubId != "" && |page| <= MAX_BUNDLE_ENTITIES && |keys| <= MAX_BUNDLE_TRIPLES
  {
    var b := BundleOf(hubId, p);
    PulledBundleParts(g, hubId, page, keys, limit, p);
    forall e | e in b.entities
      ensures 0 < |e.Name()| <= MAX_ENTITY_NAME_LEN
      ensures CleanText(rules, e.Name()) && CleanText(rules, DescriptionText(e))
    {
      var i :| 0 <= i < |b.entities| && e == b.entities[i];
      assert page[i] in page;
      AuditedRowIsClean(rules, g, page[i]);
    }
    forall t | t in b.relations
      ensures WellFormedTriple(t) && CleanTriple(rules, t) && rules.Allows(t.pred)
    {
      var i :| 0 <= i < |b.relations| && t == b.relations[i];
      assert keys[i] in keys;
      AuditedRelationIsClean(rules, g, keys[i]);
    }
  }

  /** The answer fits the response schema exactly when the hub id and the lists are short
      enough and every listed relation has endpoint types the schema accepts. */
  lemma PulledBundleFits(
    rules: Rules, g: Store, hubId: string, page: seq<string>, keys: seq<RelKey>, limit: nat, p: Pulled)
    requires Shaped(g) && AuditedGraph(rules, g)
    requires JoinEndpointsExist(g, page, keys) && Answers(g, page, keys, limit, p)
    ensures SchemaOk(BundleOf(hubId, p)) <==>
      && |hubId| <= 64 && |page| <= 5000 && |keys| <= 5000
      && forall k :: k in keys ==> Fits(g.entities[k.subject].typ, 128) && Fits(g.entities[k.obj].typ, 128)
  {
    var b := BundleOf(hubId, p);
    PulledBundleParts(g, hubId, page, keys, limit, p);
    forall i | 0 <= i < |keys|
      ensures TripleSchemaOk(b.relations[i]) <==>
        Fits(g.entities[keys[i].subject].typ, 128) && Fits(g.entities[keys[i].obj].typ, 128)
    {
      assert keys[i] in keys;
      AuditedRelationIsClean(rules, g, keys[i]);
    }
  }
}
