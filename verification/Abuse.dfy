/** Strike counters and rate limits in a key-value store whose keys expire. */
module Abuse {
  import opened Common

  // ---- Configuration (times in microseconds) -----------------------------

  const STRIKE_SOFT_LIMIT: nat := 3
  const STRIKE_HARD_LIMIT: nat := 10
  const STRIKE_WINDOW: int := 86_400_000_000
  const RATE_WINDOW: int := 3_600_000_000
  const RATE_MAX: nat := 60

  // ---- Keys --------------------------------------------------------------

  datatype Category = Syntax | Security | General

  datatype Key = StrikeKey(node: string, category: Category) | RateKey(node: string)

  function CategoryName(c: Category): string
  {
    match c
    case Syntax => "syntax"
    case Security => "security"
    case General => "general"
  }

  /** The key as the store sees it. */
  function KeyName(k: Key): string
  {
    match k
    case StrikeKey(node, c) => "libris:strikes:" + (CategoryName(c) + (":" + node))
    case RateKey(node) => "libris:ratelimit:" + node
  }

  /** No two keys share a name, whatever characters a node id holds. */
  lemma KeyNamesDistinct(a: Key, b: Key)
    requires KeyName(a) == KeyName(b)
    ensures a == b
  {
    assert KeyName(a)[7] == KeyName(b)[7];
    if a.RateKey? && b.RateKey? {
      assert KeyName(a)[17..] == a.node && KeyName(b)[17..] == b.node;
    } else if a.StrikeKey? && b.StrikeKey? {
      var x, y := CategoryName(a.category) + (":" + a.node), CategoryName(b.category) + (":" + b.node);
      assert KeyName(a)[15..] == x && KeyName(b)[15..] == y;
      assert x[0] == y[0] && x[1] == y[1];
      assert a.category == b.category;
      var n := |CategoryName(a.category)| + 1;
      assert x[n..] == a.node && y[n..] == b.node;
    }
  }

  // ---- The store ---------------------------------------------------------

  /** A counter and the time it expires, if it has one. */
  datatype Cell = Cell(value: nat, expires: Option<int>)

  type KV = map<Key, Cell>

  predicate Live(kv: KV, k: Key, now: int)
  {
    k in kv && (kv[k].expires.Some? ==> now < kv[k].expires.value)
  }

  /** GET as a number; a missing key counts 0. */
  function Value(kv: KV, k: Key, now: int): nat
  {
    if Live(kv, k, now) then kv[k].value else 0
  }

  function Incremented(kv: KV, k: Key, now: int): KV
  {
    kv[k := if Live(kv, k, now) then kv[k].(value := kv[k].value + 1) else Cell(1, None)]
  }

  function Expiring(kv: KV, k: Key, now: int, ttl: int): KV
  {
    if Live(kv, k, now) then kv[k := kv[k].(expires := Some(now + ttl))] else kv
  }

  class Valkey {
    var data: KV

    constructor ()
      ensures data == map[]
    {
      data := map[];
    }

    method Get(k: Key, now: int) returns (n: nat)
      ensures n == Value(data, k, now)
    {
      n := if Live(data, k, now) then data[k].value else 0;
    }

    method Exists(k: Key, now: int) returns (b: bool)
      ensures b == Live(data, k, now)
    {
      b := k in data && (data[k].expires.Some? ==> now < data[k].expires.value);
    }

    method Incr(k: Key, now: int) returns (count: nat)
      modifies this
      ensures data == Incremented(old(data), k, now)
      ensures count == Value(data, k, now)
    {
      var live := Exists(k, now);
      if live {
        data := data[k := data[k].(value := data[k].value + 1)];
      } else {
        data := data[k := Cell(1, None)];
      }
      count := data[k].value;
    }

    method Expire(k: Key, now: int, ttl: int)
      modifies this
      ensures data == Expiring(old(data), k, now, ttl)
    {
      var live := Exists(k, now);
      if live {
        data := data[k := data[k].(expires := Some(now + ttl))];
      }
    }

    method SetEx(k: Key, now: int, ttl: int, value: nat)
      modifies this
      ensures data == old(data)[k := Cell(value, Some(now + ttl))]
    {
      data := data[k := Cell(value, Some(now + ttl))];
    }

    method Delete(k: Key)
      modifies this
      ensures data == old(data) - {k}
    {
      data := data - {k};
    }
  }

  // ---- Strikes -----------------------------------------------------------

  function StrikeRecorded(kv: KV, node: string, c: Category, now: int): KV
  {
    var k := StrikeKey(node, c);
    var kv' := Incremented(kv, k, now);
    if Value(kv', k, now) == 1 then Expiring(kv', k, now, STRIKE_WINDOW) else kv'
  }

  function Strikes(kv: KV, node: string, c: Category, now: int): nat
  {
    Value(kv, StrikeKey(node, c), now)
  }

  predicate RateLimited(kv: KV, node: string, now: int)
  {
    Strikes(kv, node, Syntax, now) + Strikes(kv, node, Security, now) + Strikes(kv, node, General, now)
      >= STRIKE_SOFT_LIMIT
  }

  /** Security strikes weigh three times as much. */
  predicate MustBlock(kv: KV, node: string, now: int)
  {
    Strikes(kv, node, Syntax, now) + Strikes(kv, node, General, now) + 3 * Strikes(kv, node, Security, now)
      >= STRIKE_HARD_LIMIT
  }

  function StrikesCleared(kv: KV, node: string): KV
  {
    kv - {StrikeKey(node, Syntax), StrikeKey(node, Security), StrikeKey(node, General)}
  }

  method RecordStrike(vk: Valkey, node: string, c: Category, now: int) returns (count: nat)
    modifies vk
    ensures vk.data == StrikeRecorded(old(vk.data), node, c, now)
    ensures count == Strikes(vk.data, node, c, now) == Strikes(old(vk.data), node, c, now) + 1
  {
    var k := StrikeKey(node, c);
    count := vk.Incr(k, now);
    if count == 1 {
      vk.Expire(k, now, STRIKE_WINDOW);
    }
  }

  method GetAllStrikes(vk: Valkey, node: string, now: int) returns (syntax: nat, security: nat, general: nat)
    ensures syntax == Strikes(vk.data, node, Syntax, now)
    ensures security == Strikes(vk.data, node, Security, now)
    ensures general == Strikes(vk.data, node, General, now)
  {
    syntax := vk.Get(StrikeKey(node, Syntax), now);
    security := vk.Get(StrikeKey(node, Security), now);
    general := vk.Get(StrikeKey(node, General), now);
  }

  method ShouldRateLimit(vk: Valkey, node: string, now: int) returns (b: bool)
    ensures b == RateLimited(vk.data, node, now)
  {
    var syntax, security, general := GetAllStrikes(vk, node, now);
    b := syntax + security + general >= STRIKE_SOFT_LIMIT;
  }

  method ShouldBlock(vk: Valkey, node: string, now: int) returns (b: bool)
    ensures b == MustBlock(vk.data, node, now)
  {
    var syntax, security, general := GetAllStrikes(vk, node, now);
    var weighted := syntax + general + security * 3;
    b := weighted >= STRIKE_HARD_LIMIT;
  }

  /** Delete the three counters, one category after the other. */
  method ClearStrikes(vk: Valkey, node: string)
    modifies vk
    ensures vk.data == StrikesCleared(old(vk.data), node)
  {
    var categories := [Syntax, Security, General];
    for i := 0 to |categories|
      invariant vk.data == old(vk.data) - (set j | 0 <= j < i :: StrikeKey(node, categories[j]))
    {
      vk.Delete(StrikeKey(node, categories[i]));
    }
    assert (set j | 0 <= j < |categories| :: StrikeKey(node, categories[j])) ==
      {StrikeKey(node, categories[0]), StrikeKey(node, categories[1]), StrikeKey(node, categories[2])};
  }

  // ---- Rate limit --------------------------------------------------------

  /** The store and the verdict after one rate check. Both modes use one key. */
  function RateChecked(kv: KV, node: string, now: int): (KV, bool)
  {
    var k := RateKey(node);
    if RateLimited(kv, node, now) then
      if Live(kv, k, now) then (kv, false) else (kv[k := Cell(1, Some(now + RATE_WINDOW))], true)
    else
      var kv' := Incremented(kv, k, now);
      var count := Value(kv', k, now);
      (if count == 1 then Expiring(kv', k, now, RATE_WINDOW) else kv', count <= RATE_MAX)
  }

  method CheckRateLimit(vk: Valkey, node: string, now: int) returns (allowed: bool)
    modifies vk
    ensures (vk.data, allowed) == RateChecked(old(vk.data), node, now)
  {
    var k := RateKey(node);
    var limited := ShouldRateLimit(vk, node, now);
    if limited {
      var exists_ := vk.Exists(k, now);
      if exists_ {
        return false;
      }
      vk.SetEx(k, now, RATE_WINDOW, 1);
      return true;
    }
    var count := vk.Incr(k, now);
    if count == 1 {
      vk.Expire(k, now, RATE_WINDOW);
    }
    return count <= RATE_MAX;
  }

  // ---- What strikes weigh ------------------------------------------------

  /** The store after k strikes of one category at one moment, starting from none. */
  function Repeated(node: string, c: Category, now: int, k: nat): KV
  {
    if k == 0 then map[] else StrikeRecorded(Repeated(node, c, now, k - 1), node, c, now)
  }

  /** Strikes of any category limit a node from the third on; security strikes block it from
      the fourth on, the others from the tenth. */
  lemma {:induction false} StrikesWeigh(node: string, c: Category, now: int, k: nat)
    ensures var kv := Repeated(node, c, now, k);
      && kv.Keys <= {StrikeKey(node, c)} && Strikes(kv, node, c, now) == k
      && (RateLimited(kv, node, now) <==> k >= 3)
      && (MustBlock(kv, node, now) <==> k >= if c == Security then 4 else 10)
  {
    if k != 0 {
      StrikesWeigh(node, c, now, k - 1);
      var kv := Repeated(node, c, now, k);
      assert Strikes(kv, node, c, now) == k;
      assert forall d: Category :: d != c ==> Strikes(kv, node, d, now) == 0;
    }
  }

  // ---- What every store state looks like ----------------------------------

  /** Every key expires, no more than its window ahead, and counts at least once; only
      the security category is ever used. */
  ghost predicate SoundStore(kv: KV, now: int)
  {
    forall k :: k in kv ==>
      && kv[k].value >= 1 && kv[k].expires.Some?
      && kv[k].expires.value <= now + (if k.RateKey? then RATE_WINDOW else STRIKE_WINDOW)
      && (k.StrikeKey? ==> k.category == Security)
  }

  lemma SoundLater(kv: KV, now: int, later: int)
    requires SoundStore(kv, now) && now <= later
    ensures SoundStore(kv, later)
  {
  }

  lemma StepsKeepSound(kv: KV, node: string, now: int)
    requires SoundStore(kv, now)
    ensures SoundStore(StrikeRecorded(kv, node, Security, now), now)
    ensures SoundStore(RateChecked(kv, node, now).0, now)
    ensures SoundStore(StrikesCleared(kv, node), now)
  {
  }

  // ---- Admissions --------------------------------------------------------

  /** The most admissions node can still get at times from `now` to `hi`: what is left of
      the running window, and a full window for each that can start before `hi`. */
  function RateBudget(kv: KV, node: string, now: int, hi: int): int
  {
    var k := RateKey(node);
    if hi < now then 0
    else if Live(kv, k, now) && kv[k].expires.Some? then
      var e := kv[k].expires.value;
      (if kv[k].value < RATE_MAX then RATE_MAX - kv[k].value else 0)
        + (if e <= hi then RATE_MAX * ((hi - e) / RATE_WINDOW + 1) else 0)
    else RATE_MAX * ((hi - now) / RATE_WINDOW + 1)
  }

  lemma RateBudgetLater(kv: KV, node: string, now: int, later: int, hi: int)
    requires SoundStore(kv, now) && now <= later
    ensures 0 <= RateBudget(kv, node, later, hi) <= RateBudget(kv, node, now, hi)
  {
  }

  /** An admission uses up budget; a refusal adds none. */
  lemma RateCheckSpends(kv: KV, node: string, now: int, hi: int)
    requires SoundStore(kv, now) && now <= hi
    ensures
      var (kv', admitted) := RateChecked(kv, node, now);
      RateBudget(kv', node, now, hi) + (if admitted then 1 else 0) <= RateBudget(kv, node, now, hi)
  {
    var k := RateKey(node);
    var (kv', admitted) := RateChecked(kv, node, now);
    if !Live(kv, k, now) {
      assert kv'[k] == Cell(1, Some(now + RATE_WINDOW));
      assert (hi - (now + RATE_WINDOW)) / RATE_WINDOW == (hi - now) / RATE_WINDOW - 1;
    }
  }

  /** From any moment of a closed interval of n hours, at most 60 (n + 1) admissions are left. */
  lemma RateBudgetBound(kv: KV, node: string, now: int, lo: int, n: nat)
    requires SoundStore(kv, now) && lo <= now
    ensures RateBudget(kv, node, now, lo + n * RATE_WINDOW) <= RATE_MAX * (n + 1)
  {
    var hi := lo + n * RATE_WINDOW;
    var k := RateKey(node);
    if now <= hi {
      if Live(kv, k, now) {
        var e := kv[k].expires.value;
        if e <= hi {
          assert (hi - e) / RATE_WINDOW <= n - 1;
        }
      } else {
        assert (hi - now) / RATE_WINDOW <= n;
      }
    }
  }

  /** k rate checks of one node at one moment, and how many were admitted. */
  function Burst(kv: KV, node: string, now: int, k: nat): (KV, nat)
  {
    if k == 0 then (kv, 0)
    else
      var (kv1, count) := Burst(kv, node, now, k - 1);
      var (kv2, admitted) := RateChecked(kv1, node, now);
      (kv2, if admitted then count + 1 else count)
  }

  lemma {:induction false} FreshBurst(kv: KV, node: string, now: int, k: nat)
    requires k <= RATE_MAX && !RateLimited(kv, node, now) && !Live(kv, RateKey(node), now)
    ensures Burst(kv, node, now, k) ==
      (if k == 0 then kv else kv[RateKey(node) := Cell(k, Some(now + RATE_WINDOW))], k)
  {
    if k != 0 {
      FreshBurst(kv, node, now, k - 1);
      var kv1, e := Burst(kv, node, now, k - 1).0, Some(now + RATE_WINDOW);
      assert !RateLimited(kv1, node, now);
      assert RateChecked(kv1, node, now).0 == kv1[RateKey(node) := Cell(k, e)];
      assert kv1[RateKey(node) := Cell(k, e)] == kv[RateKey(node) := Cell(k, e)];
    }
  }

  /** The bound of 120 in an hour is reached: a full window at its start and a full one the
      moment it ends are all admitted, so `60 pushes per hour` is not what is enforced. */
  lemma RateBoundIsTight(node: string, now: int)
    ensures var (kv, first) := Burst(map[], node, now, 60);
      first + Burst(kv, node, now + 3_600_000_000, 60).1 == 120
  {
    FreshBurst(map[], node, now, RATE_MAX);
    FreshBurst(Burst(map[], node, now, RATE_MAX).0, node, now + RATE_WINDOW, RATE_MAX);
  }

  // ---- Failed pushes -----------------------------------------------------

  /** The strike window is fixed, not sliding: a strike moves the counter's expiry to a full
      window ahead exactly when no counter was running (or it already ended there); later
      strikes leave the expiry where the first one put it. */
  lemma StrikeWindowIsFixed(kv: KV, node: string, c: Category, now: int)
    requires var k := StrikeKey(node, c); Live(kv, k, now) ==> kv[k].value >= 1
    ensures
      var k, full := StrikeKey(node, c), Some(now + 86_400_000_000);
      var kv' := StrikeRecorded(kv, node, c, now);
      && k in kv'
      && (kv'[k].expires == full <==> !Live(kv, k, now) || kv[k].expires == full)
      && (Live(kv, k, now) ==> kv'[k].expires == kv[k].expires)
  {
    var k := StrikeKey(node, c);
    var kv' := Incremented(kv, k, now);
    assert Value(kv', k, now) == 1 <==> !Live(kv, k, now);
  }

  /** The failed pushes that fit in the rest of the time when no strike is running and
      `left` is how long that is: three in every window that starts and ends in it, then
      three more, and the one that blocks unless the last window starts at the very end. */
  function FreshBudget(left: int): int
  {
    3 * (left / STRIKE_WINDOW) + (if left % STRIKE_WINDOW == 0 then 3 else 4)
  }

  /** The most failed pushes node can still make from `now` to `hi` if nobody unblocks it. */
  function StrikeBudget(kv: KV, blocked: bool, node: string, now: int, hi: int): int
  {
    var k := StrikeKey(node, Security);
    if blocked || hi < now then 0
    else if Live(kv, k, now) && kv[k].expires.Some? then
      var e := kv[k].expires.value;
      if e <= hi then 3 - kv[k].value + FreshBudget(hi - e)
      else if e == hi + STRIKE_WINDOW then 3 - kv[k].value
      else 4 - kv[k].value
    else FreshBudget(hi - now)
  }

  /** An unblocked node has at most 3 live security strikes. */
  predicate FewStrikes(kv: KV, blocked: bool, node: string, now: int)
  {
    !blocked ==> Strikes(kv, node, Security, now) <= 3
  }

  /** Strikes of this very moment come with a rate key: the failed push was admitted. */
  predicate Rated(kv: KV, node: string, now: int)
  {
    var k := StrikeKey(node, Security);
    k in kv && kv[k].expires == Some(now + STRIKE_WINDOW) ==> Live(kv, RateKey(node), now)
  }

  lemma FreshBudgetGrows(a: int, b: int)
    requires 0 <= a <= b
    ensures 3 <= FreshBudget(a) <= FreshBudget(b)
  {
    if a / STRIKE_WINDOW < b / STRIKE_WINDOW {
      assert 3 * (a / STRIKE_WINDOW) + 3 <= 3 * (b / STRIKE_WINDOW);
    } else {
      assert a / STRIKE_WINDOW == b / STRIKE_WINDOW;
      assert a == STRIKE_WINDOW * (a / STRIKE_WINDOW) + a % STRIKE_WINDOW;
      assert b == STRIKE_WINDOW * (b / STRIKE_WINDOW) + b % STRIKE_WINDOW;
    }
  }

  lemma FreshBudgetNext(left: int)
    requires STRIKE_WINDOW <= left
    ensures FreshBudget(left) == FreshBudget(left - STRIKE_WINDOW) + 3
  {
    assert left / STRIKE_WINDOW == (left - STRIKE_WINDOW) / STRIKE_WINDOW + 1;
    assert left % STRIKE_WINDOW == (left - STRIKE_WINDOW) % STRIKE_WINDOW;
  }

  lemma StrikeBudgetLater(kv: KV, blocked: bool, node: string, now: int, later: int, hi: int)
    requires SoundStore(kv, now) && FewStrikes(kv, blocked, node, now) && now <= later
    ensures 0 <= StrikeBudget(kv, blocked, node, later, hi) <= StrikeBudget(kv, blocked, node, now, hi)
    ensures FewStrikes(kv, blocked, node, later)
  {
    hide FreshBudget;
    var k := StrikeKey(node, Security);
    if !blocked && later <= hi {
      FreshBudgetGrows(hi - later, hi - now);
      if Live(kv, k, now) && kv[k].expires.value <= later {
        FreshBudgetGrows(hi - later, hi - kv[k].expires.value);
      } else if Live(kv, k, now) && kv[k].expires.value <= hi {
        FreshBudgetGrows(hi - kv[k].expires.value, hi - now);
      }
    } else if !blocked && now <= hi {
      FreshBudgetGrows(hi - now, hi - now);
      if Live(kv, k, now) && kv[k].expires.value <= hi {
        FreshBudgetGrows(hi - kv[k].expires.value, hi - now);
      }
    }
  }

  /** A strike on an unblocked node blocks it exactly when it had three already, and the
      strike count of an unblocked node stays in bounds. */
  lemma FourthStrikeBlocks(kv: KV, node: string, now: int)
    requires SoundStore(kv, now) && FewStrikes(kv, false, node, now)
    ensures
      var kv' := StrikeRecorded(kv, node, Security, now);
      var blocks := MustBlock(kv', node, now);
      && (blocks <==> Strikes(kv, node, Security, now) == 3)
      && FewStrikes(kv', blocks, node, now)
      && Strikes(kv', node, Security, now) == Strikes(kv, node, Security, now) + 1
  {
    var kv' := StrikeRecorded(kv, node, Security, now);
    assert Strikes(kv', node, Security, now) == Strikes(kv, node, Security, now) + 1;
    assert Strikes(kv', node, Syntax, now) == 0 && Strikes(kv', node, General, now) == 0;
  }

  /** An admission leaves the rate key running and the strikes alone, and under the soft
      limit there was no rate key before. */
  lemma AdmissionMeans(kv: KV, node: string, now: int)
    requires SoundStore(kv, now) && RateChecked(kv, node, now).1
    ensures
      var kv' := RateChecked(kv, node, now).0;
      && SoundStore(kv', now) && Live(kv', RateKey(node), now)
      && Lookup(kv', StrikeKey(node, Security)) == Lookup(kv, StrikeKey(node, Security))
    ensures Strikes(kv, node, Security, now) >= 3 ==> !Live(kv, RateKey(node), now)
  {
    StepsKeepSound(kv, node, now);
  }

  /** A failed push of an unblocked node, from the rate check to the strike, uses up a
      bounded budget. The fourth failure of a window never comes in the moment the window
      opened: the node is under the soft limit by then and its rate key is still there. */
  lemma FailedPushSpends(kv: KV, node: string, now: int, hi: int)
    requires SoundStore(kv, now) && FewStrikes(kv, false, node, now) && Rated(kv, node, now)
    requires RateChecked(kv, node, now).1 && now <= hi
    ensures
      var kv' := StrikeRecorded(RateChecked(kv, node, now).0, node, Security, now);
      var blocks := MustBlock(kv', node, now);
      && Rated(kv', node, now)
      && StrikeBudget(kv', blocks, node, now, hi) + 1 <= StrikeBudget(kv, false, node, now, hi)
  {
    hide RateChecked, MustBlock, FreshBudget;
    var k := StrikeKey(node, Security);
    var kv1 := RateChecked(kv, node, now).0;
    var kv' := StrikeRecorded(kv1, node, Security, now);
    AdmissionMeans(kv, node, now);
    FourthStrikeBlocks(kv1, node, now);
    if !Live(kv, k, now) {
      assert kv'[k] == Cell(1, Some(now + STRIKE_WINDOW));
      if now + STRIKE_WINDOW <= hi {
        FreshBudgetNext(hi - now);
      } else {
        LastWindow(hi - now);
      }
    } else {
      assert kv'[k] == kv[k].(value := kv[k].value + 1);
      if kv[k].expires.value <= hi {
        FreshBudgetGrows(hi - kv[k].expires.value, hi - now);
      }
    }
  }

  lemma LastWindow(left: int)
    requires 0 <= left < STRIKE_WINDOW
    ensures FreshBudget(left) == if left == 0 then 3 else 4
  {
  }

  /** From any moment of a closed interval of n days, at most 3 n + 3 failed pushes are left. */
  lemma StrikeBudgetBound(kv: KV, blocked: bool, node: string, now: int, lo: int, n: nat)
    requires SoundStore(kv, now) && FewStrikes(kv, blocked, node, now) && lo <= now
    ensures StrikeBudget(kv, blocked, node, now, lo + n * STRIKE_WINDOW) <= 3 * n + 3
  {
    var hi := lo + n * STRIKE_WINDOW;
    var k := StrikeKey(node, Security);
    if !blocked && now <= hi {
      assert (n * STRIKE_WINDOW) / STRIKE_WINDOW == n && (n * STRIKE_WINDOW) % STRIKE_WINDOW == 0;
      FreshBudgetGrows(hi - now, n * STRIKE_WINDOW);
      if Live(kv, k, now) && kv[k].expires.value <= hi {
        assert (hi - kv[k].expires.value) / STRIKE_WINDOW <= n - 1;
      }
    }
  }
}
