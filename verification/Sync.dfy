/**
 Incremental sync: one client pulling with the last `approved_at` it received as its
 cursor, while the hub goes on committing.
 */
module Sync {
  import opened Common
  import opened Timestamps
  import opened Graph
  import opened GraphTheory
  import opened Pull

  /** What happens, in order: the hub applies one commit's statements (all of them, or the
      part a failed attempt performed), or the client gets the answer to a pull. */
  datatype Event =
    | Commit(writes: seq<Write>, at: string)
    | PullPage(limit: nat, page: seq<string>)

  /** The client's cursor, what it was handed, and two bookkeeping sets that no code keeps:
      tied entities cut off a page, and relations added after their subject had gone by. */
  datatype Client = Client(cursor: Option<string>, received: seq<string>, relations: set<RelKey>,
                           lost: set<string>, missed: set<RelKey>)

  const NEW_CLIENT: Client := Client(None, [], {}, {}, {})

  datatype World = World(g: Store, c: Client)

  /** Every stamp in the graph is strictly earlier. */
  ghost predicate AllBefore(g: Store, at: string)
  {
    forall n :: n in g.entities ==> StrLess(g.entities[n].approvedAt, at)
  }

  function Joined(g: Store, page: seq<string>): set<RelKey>
  {
    set k | k in g.relations && k.subject in page
  }

  /** Entities the cursor has passed: delivered or lost. */
  function Passed(c: Client): set<string>
  {
    ToSet(c.received) + c.lost
  }

  ghost predicate Enabled(w: World, domains: seq<string>, e: Event)
  {
    match e
    case Commit(writes, at) => AllAt(writes, at) && AllBefore(w.g, at)
    case PullPage(limit, page) => IsPage(w.g, w.c.cursor, domains, limit, page)
  }

  function Next(w: World, domains: seq<string>, e: Event): World
  {
    match e
    case Commit(writes, at) =>
      var g' := ApplyAll(w.g, writes);
      var late := set k | k in g'.relations && k !in w.g.relations && k.subject in Passed(w.c);
      World(g', w.c.(missed := w.c.missed + late))
    case PullPage(limit, page) =>
      var cut := CutOff(w.g, w.c.cursor, domains, page);
      World(w.g, Client(NextCursor(w.g, w.c.cursor, page),
                        w.c.received + page,
                        w.c.relations + Joined(w.g, page),
                        w.c.lost + cut,
                        w.c.missed + (set k | k in w.g.relations && k.subject in cut)))
  }

  ghost predicate ValidRun(w: World, domains: seq<string>, es: seq<Event>)
    decreases |es|
  {
    es != [] ==> Enabled(w, domains, es[0]) && ValidRun(Next(w, domains, es[0]), domains, es[1..])
  }

  function Run(w: World, domains: seq<string>, es: seq<Event>): World
    decreases |es|
  {
    if es == [] then w else Run(Next(w, domains, es[0]), domains, es[1..])
  }

  lemma {:induction false} RunAppend(w: World, domains: seq<string>, a: seq<Event>, b: seq<Event>)
    ensures Run(w, domains, a + b) == Run(Run(w, domains, a), domains, b)
    decreases |a|
  {
    if a == [] {
      assert a + b == b;
    } else {
      assert (a + b)[1..] == a[1..] + b;
      RunAppend(Next(w, domains, a[0]), domains, a[1..], b);
    }
  }

  // ---- The invariant -----------------------------------------------------

  /** Matching entities the cursor has reached. */
  function Behind(g: Store, cursor: Option<string>, domains: seq<string>): set<string>
  {
    if cursor.None? then {} else Matching(g, None, domains) - Matching(g, cursor, domains)
  }

  ghost predicate Consistent(w: World, domains: seq<string>)
  {
    && Distinct(w.c.received)
    && ToSet(w.c.received) !! w.c.lost
    && Passed(w.c) == Behind(w.g, w.c.cursor, domains)
    && (w.c.cursor.Some? ==> exists n :: n in w.g.entities && w.g.entities[n].approvedAt == w.c.cursor.value)
    && (forall k :: k in w.c.relations <==>
          k in w.g.relations && k.subject in Passed(w.c) && k !in w.c.missed)
    && (forall k :: k in w.c.missed ==> k in w.g.relations && k.subject in Passed(w.c))
  }

  lemma StartIsConsistent(g: Store, domains: seq<string>)
    ensures Consistent(World(g, NEW_CLIENT), domains)
  {
  }

  /** A commit adds nothing behind the cursor. */
  lemma CommitLeavesBehind(g: Store, cursor: Option<string>, domains: seq<string>, writes: seq<Write>, at: string)
    requires AllAt(writes, at) && AllBefore(g, at)
    requires cursor.Some? ==> exists n :: n in g.entities && g.entities[n].approvedAt == cursor.value
    ensures Behind(ApplyAll(g, writes), cursor, domains) == Behind(g, cursor, domains)
  {
    var g' := ApplyAll(g, writes);
    ApplyGrows(g, writes);
    LookupAfter(g, writes);
    FirstCarriesStamp(writes, at);
    if cursor.Some? {
      var m :| m in g.entities && g.entities[m].approvedAt == cursor.value;
      assert StrLess(cursor.value, at);
      forall n ensures n in Behind(g', cursor, domains) <==> n in Behind(g, cursor, domains) {
        if n in g'.entities && n !in g.entities {
          assert Lookup(g'.entities, n) == OrElse(Lookup(g.entities, n), FirstEntity(writes, n));
          assert g'.entities[n].approvedAt == at;
        }
      }
    }
  }

  lemma CommitKeepsConsistent(w: World, domains: seq<string>, writes: seq<Write>, at: string)
    requires Consistent(w, domains) && Enabled(w, domains, Commit(writes, at))
    ensures Consistent(Next(w, domains, Commit(writes, at)), domains)
  {
    CommitLeavesBehind(w.g, w.c.cursor, domains, writes, at);
    ApplyGrows(w.g, writes);
  }

  lemma SplitBehind<T>(all: set<T>, ahead: set<T>, listed: set<T>, cut: set<T>, next: set<T>)
    requires ahead <= all && ahead == listed + cut + next
    requires listed !! next && cut !! next
    ensures all - next == all - ahead + listed + cut
    ensures all - ahead !! listed + cut
  {
  }

  /** A nonempty page moves everything up to its last stamp behind the cursor. */
  lemma PullMovesBehind(g: Store, cursor: Option<string>, domains: seq<string>, limit: nat, page: seq<string>)
    requires IsPage(g, cursor, domains, limit, page) && page != []
    ensures
      var cut := CutOff(g, cursor, domains, page);
      && Behind(g, NextCursor(g, cursor, page), domains) == Behind(g, cursor, domains) + ToSet(page) + cut
      && Behind(g, cursor, domains) !! ToSet(page) + cut
      && ToSet(page) !! cut
  {
    CursorSplits(g, cursor, domains, limit, page);
    CursorNarrows(g, cursor, domains);
    assert NextCursor(g, cursor, page).Some?;
    hide CutOff, Matching, IsPage, NextCursor, ToSet;
    SplitBehind(Matching(g, None, domains), Matching(g, cursor, domains), ToSet(page), CutOff(g, cursor, domains, page),
      Matching(g, NextCursor(g, cursor, page), domains));
  }

  lemma CursorNarrows(g: Store, cursor: Option<string>, domains: seq<string>)
    ensures Matching(g, cursor, domains) <= Matching(g, None, domains)
  {
  }

  lemma PullKeepsConsistent(w: World, domains: seq<string>, limit: nat, page: seq<string>)
    requires Consistent(w, domains) && Enabled(w, domains, PullPage(limit, page))
    ensures Consistent(Next(w, domains, PullPage(limit, page)), domains)
  {
    var w' := Next(w, domains, PullPage(limit, page));
    var cut := CutOff(w.g, w.c.cursor, domains, page);
    if page == [] {
      assert cut == {} && Joined(w.g, page) == {};
      assert w'.c == w.c.(received := w.c.received + []);
      assert w'.c.received == w.c.received;
    } else {
      PullMovesBehind(w.g, w.c.cursor, domains, limit, page);
      assert ToSet(w'.c.received) == ToSet(w.c.received) + ToSet(page);
      forall i, j | 0 <= i < j < |w'.c.received| ensures w'.c.received[i] != w'.c.received[j] {
        if i < |w.c.received| <= j {
          assert w'.c.received[i] in ToSet(w.c.received);
          assert w'.c.received[j] in ToSet(page);
        }
      }
      var last := page[|page| - 1];
      assert last in w.g.entities && w.g.entities[last].approvedAt == w'.c.cursor.value;
    }
  }

  lemma {:induction false} RunKeepsConsistent(w: World, domains: seq<string>, es: seq<Event>)
    requires Consistent(w, domains) && ValidRun(w, domains, es)
    ensures Consistent(Run(w, domains, es), domains)
    ensures Grows(w.g, Run(w, domains, es).g)
    decreases |es|
  {
    if es != [] {
      match es[0] {
        case Commit(writes, at) =>
          CommitKeepsConsistent(w, domains, writes, at);
          ApplyGrows(w.g, writes);
        case PullPage(limit, page) =>
          PullKeepsConsistent(w, domains, limit, page);
      }
      RunKeepsConsistent(Next(w, domains, es[0]), domains, es[1..]);
    }
  }

  // ---- Page boundaries ---------------------------------------------------

  /** No pull of the run cut a group of equal stamps at its page boundary. */
  ghost predicate NoSplitTies(w: World, domains: seq<string>, es: seq<Event>)
    decreases |es|
  {
    es != [] ==>
      && (es[0].PullPage? ==> CutOff(w.g, w.c.cursor, domains, es[0].page) == {})
      && NoSplitTies(Next(w, domains, es[0]), domains, es[1..])
  }

  /** Something is lost exactly when some page boundary split a group of equal stamps. */
  lemma {:induction false} LostOnlyBySplits(w: World, domains: seq<string>, es: seq<Event>)
    ensures w.c.lost <= Run(w, domains, es).c.lost
    ensures Run(w, domains, es).c.lost == w.c.lost && w.c.lost == {} ==> NoSplitTies(w, domains, es)
    ensures NoSplitTies(w, domains, es) ==> Run(w, domains, es).c.lost == w.c.lost
    decreases |es|
  {
    if es != [] {
      LostOnlyBySplits(Next(w, domains, es[0]), domains, es[1..]);
    }
  }

  /** Nothing that matches lies ahead of the client's cursor. */
  ghost predicate Drained(w: World, domains: seq<string>)
  {
    Matching(w.g, w.c.cursor, domains) == {}
  }

  /** A pull that says there is no more drains the client and cuts nothing off. */
  lemma LastPullDrains(w: World, domains: seq<string>, limit: nat, page: seq<string>)
    requires Enabled(w, domains, PullPage(limit, page)) && !HasMore(page, limit)
    ensures Drained(Next(w, domains, PullPage(limit, page)), domains)
    ensures CutOff(w.g, w.c.cursor, domains, page) == {}
  {
    HasMoreMeans(w.g, w.c.cursor, domains, limit, page);
    if page != [] {
      CursorSplits(w.g, w.c.cursor, domains, limit, page);
    } else {
      assert ToSet(page) == {};
    }
  }

  // ---- The theorem -------------------------------------------------------

  /** Incremental sync converges. Over any interleaving of commits with ever later stamps
      and pulls from the client's cursor: no entity is delivered twice, what was delivered
      keeps the attributes it was delivered with, and for a drained client the matching
      entities are exactly those delivered and those lost, which are never delivered. */
  lemma SyncConverges(g: Store, domains: seq<string>, es: seq<Event>)
    requires ValidRun(World(g, NEW_CLIENT), domains, es)
    ensures var w := Run(World(g, NEW_CLIENT), domains, es);
      && Distinct(w.c.received)
      && ToSet(w.c.received) !! w.c.lost
      && ToSet(w.c.received) + w.c.lost <= Matching(w.g, None, domains)
      && (Drained(w, domains) ==> ToSet(w.c.received) + w.c.lost == Matching(w.g, None, domains))
      && Grows(g, w.g)
  {
    var start := World(g, NEW_CLIENT);
    StartIsConsistent(g, domains);
    RunKeepsConsistent(start, domains, es);
    var w := Run(start, domains, es);
    assert Passed(w.c) == Behind(w.g, w.c.cursor, domains);
  }

  /** A drained client holds exactly the matching entities if and only if no page boundary
      of the run split a group of equal `approved_at`. */
  lemma CompleteIffNoSplit(g: Store, domains: seq<string>, es: seq<Event>)
    requires ValidRun(World(g, NEW_CLIENT), domains, es)
    requires Drained(Run(World(g, NEW_CLIENT), domains, es), domains)
    ensures
      var w := Run(World(g, NEW_CLIENT), domains, es);
      ToSet(w.c.received) == Matching(w.g, None, domains) <==> NoSplitTies(World(g, NEW_CLIENT), domains, es)
  {
    hide Run, Matching, NoSplitTies, ValidRun, Drained;
    SyncConverges(g, domains, es);
    LostOnlyBySplits(World(g, NEW_CLIENT), domains, es);
  }

  /** When everything above the cursor came from one commit and exceeds the limit, one pull
      hands out `limit` entities, says there is more, and loses all the others: the next
      cursor is their own stamp. */
  lemma BigCommitLosesRest(w: World, domains: seq<string>, limit: nat, page: seq<string>, at: string)
    requires limit >= 1 && Enabled(w, domains, PullPage(limit, page))
    requires limit < |Matching(w.g, w.c.cursor, domains)|
    requires forall n :: n in Matching(w.g, w.c.cursor, domains) ==> w.g.entities[n].approvedAt == at
    ensures HasMore(page, limit)
    ensures var cut := CutOff(w.g, w.c.cursor, domains, page);
      && |cut| == |Matching(w.g, w.c.cursor, domains)| - limit
      && cut <= Next(w, domains, PullPage(limit, page)).c.lost
    ensures Drained(Next(w, domains, PullPage(limit, page)), domains)
  {
    var all, cut := Matching(w.g, w.c.cursor, domains), CutOff(w.g, w.c.cursor, domains, page);
    CursorSplits(w.g, w.c.cursor, domains, limit, page);
    StrLessIrreflexive(at);
    SizeOfToSet(page);
    assert all == ToSet(page) + cut;
    assert |all| == |ToSet(page)| + |cut|;
  }

  /** Relations: the client holds exactly those whose subject its cursor has passed and
      which were there when it did. One added later, between entities it already has,
      is missed, and stays missed in every continuation. */
  lemma LateRelationsNeverArrive(
    g: Store, domains: seq<string>, es: seq<Event>, more: seq<Event>, k: RelKey)
    requires ValidRun(World(g, NEW_CLIENT), domains, es)
    requires ValidRun(Run(World(g, NEW_CLIENT), domains, es), domains, more)
    requires k.subject in Passed(Run(World(g, NEW_CLIENT), domains, es).c)
    requires k !in Run(World(g, NEW_CLIENT), domains, es).g.relations
    ensures k !in Run(Run(World(g, NEW_CLIENT), domains, es), domains, more).c.relations
  {
    var start := World(g, NEW_CLIENT);
    StartIsConsistent(g, domains);
    RunKeepsConsistent(start, domains, es);
    PassedSubjectGetsNothing(Run(start, domains, es), domains, more, k);
  }

  lemma {:induction false} PassedSubjectGetsNothing(w: World, domains: seq<string>, es: seq<Event>, k: RelKey)
    requires Consistent(w, domains) && ValidRun(w, domains, es)
    requires k.subject in Passed(w.c) && k !in w.c.relations
    ensures k !in Run(w, domains, es).c.relations
    decreases |es|
  {
    if es != [] {
      match es[0] {
        case Commit(writes, at) =>
          CommitKeepsConsistent(w, domains, writes, at);
        case PullPage(limit, page) =>
          PullKeepsConsistent(w, domains, limit, page);
          if page != [] {
            PullMovesBehind(w.g, w.c.cursor, domains, limit, page);
            assert k.subject !in ToSet(page);
          }
      }
      PassedSubjectGetsNothing(Next(w, domains, es[0]), domains, es[1..], k);
    }
  }
}
