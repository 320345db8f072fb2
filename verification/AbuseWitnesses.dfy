/** Runs of the hub that reach the bounds on failed pushes, and one that shows what the
    fixed strike window lets through. */
module AbuseWitnesses {
  import opened Common
  import opened Timestamps
  import opened Schemas
  import opened Graph
  import opened Abuse
  import opened Hub
  import opened HubInvariants
  import opened AbuseRuns

  // ---- One node that only sends bad bundles ------------------------------

  /** A hub with one accepted node, nothing queued and nothing committed. */
  function Hub1(kv: KV): State
  {
    State(map["n" := NEW_NODE.(status := Accepted, apiKey := Some("k"))], map[], EMPTY, kv)
  }

  /** A push that fits the schema and fails the pre-audit: it names no origin. */
  function BadPush(now: Instant): Step
  {
    Step(now, PushBundle(Some("k"), Bundle("", [], []), "id"))
  }

  /** The key-value store after a failed push. */
  function Struck(kv: KV, now: int): KV
  {
    StrikeRecorded(RateChecked(kv, "n", now).0, "n", Security, now)
  }

  lemma KeyOpensN(kv: KV)
    ensures Authenticate(Hub1(kv).nodes, Some("k")) == Caller("n")
  {
    assert HoldsKey(Hub1(kv).nodes, "k", "n");
  }

  lemma BadPushFails(rules: RuleSet, kv: KV, now: Instant)
    requires RateChecked(kv, "n", Micros(now)).1 && !MustBlock(Struck(kv, Micros(now)), "n", Micros(now))
    ensures FailedPush(rules, Hub1(kv), BadPush(now), "n")
    ensures Next(rules, Hub1(kv), BadPush(now)) == Hub1(Struck(kv, Micros(now)))
  {
    hide RateChecked, MustBlock, StrikeRecorded, Micros, Authenticate;
    KeyOpensN(kv);
  }

  /** Bad pushes at these times, in order, are all admitted and none of them blocks. */
  ghost predicate AllAdmitted(kv: KV, times: seq<Instant>)
    decreases |times|
  {
    times != [] ==>
      var t := Micros(times[0]);
      && RateChecked(kv, "n", t).1 && !MustBlock(Struck(kv, t), "n", t)
      && (|times| > 1 ==> t <= Micros(times[1]))
      && AllAdmitted(Struck(kv, t), times[1..])
  }

  lemma AdmitFirst(kv: KV, time: Instant, times: seq<Instant>)
    requires RateChecked(kv, "n", Micros(time)).1 && !MustBlock(Struck(kv, Micros(time)), "n", Micros(time))
    requires AllAdmitted(Struck(kv, Micros(time)), times)
    requires times != [] ==> Micros(time) <= Micros(times[0])
    ensures AllAdmitted(kv, [time] + times)
  {
    hide Micros, RateChecked, MustBlock, Struck;
    assert ([time] + times)[1..] == times;
  }

  function Pushes(times: seq<Instant>): seq<Step>
  {
    if times == [] then [] else [BadPush(times[0])] + Pushes(times[1..])
  }

  function Within(times: seq<Instant>, lo: int, hi: int): nat
  {
    if times == [] then 0
    else (if lo <= Micros(times[0]) <= hi then 1 else 0) + Within(times[1..], lo, hi)
  }

  lemma {:induction false} PushesFail(
    rules: RuleSet, kv: KV, clock: Instant, times: seq<Instant>, lo: int, hi: int)
    requires AllAdmitted(kv, times) && (times != [] ==> Micros(clock) <= Micros(times[0]))
    ensures ValidRun(rules, Hub1(kv), clock, Pushes(times))
    ensures Failures(rules, Hub1(kv), Pushes(times), "n", lo, hi) == Within(times, lo, hi)
    ensures !IsBlocked(Run(rules, Hub1(kv), Pushes(times)).nodes, "n")
    decreases |times|
  {
    hide Micros, RateChecked, MustBlock, Struck, Next, FailedPush;
    if times != [] {
      BadPushFails(rules, kv, times[0]);
      PushesFail(rules, Struck(kv, Micros(times[0])), times[0], times[1..], lo, hi);
      assert Pushes(times)[1..] == Pushes(times[1..]);
    }
  }

  /** The node joins and then sends the bad bundles. */
  function BadRun(times: seq<Instant>): seq<Step>
    requires times != []
  {
    [Step(times[0], RequestHandshake("n")), Step(times[0], AcceptNode("n", "k"))] + Pushes(times)
  }

  lemma BadRunFails(rules: RuleSet, times: seq<Instant>, lo: int, hi: int)
    requires times != [] && AllAdmitted(map[], times)
    ensures ValidRun(rules, INITIAL, times[0], BadRun(times))
    ensures Failures(rules, INITIAL, BadRun(times), "n", lo, hi) == Within(times, lo, hi)
    ensures !IsBlocked(Run(rules, INITIAL, BadRun(times)).nodes, "n")
    ensures NoUnblock(BadRun(times), "n", lo, hi)
  {
    hide Micros, AllAdmitted, Within;
    var steps := BadRun(times);
    var st1 := Next(rules, INITIAL, steps[0]);
    assert steps[1..][1..] == Pushes(times);
    assert Next(rules, st1, steps[1]) == Hub1(map[]);
    PushesFail(rules, map[], times[0], times, lo, hi);
    OnlyPushes(times);
  }

  lemma {:induction false} OnlyPushes(times: seq<Instant>)
    ensures forall j :: 0 <= j < |Pushes(times)| ==> Pushes(times)[j].call.PushBundle?
  {
    if times != [] {
      OnlyPushes(times[1..]);
    }
  }

  // ---- The store, push by push -------------------------------------------

  /** c strikes that end at `e` and r admissions in a rate window that ends at `f`. */
  function Cells(c: nat, e: int, r: nat, f: int): KV
  {
    map[StrikeKey("n", Security) := Cell(c, Some(e)), RateKey("n") := Cell(r, Some(f))]
  }

  /** A failed push of a node with fewer than three strikes. */
  lemma StruckCells(c: nat, e: int, r: nat, f: int, now: int)
    requires c >= 1 && r >= 1 && (now < e ==> c < 3) && (now < f ==> r < RATE_MAX)
    ensures RateChecked(Cells(c, e, r, f), "n", now).1
    ensures Struck(Cells(c, e, r, f), now) ==
      Cells(if now < e then c + 1 else 1, if now < e then e else now + STRIKE_WINDOW,
            if now < f then r + 1 else 1, if now < f then f else now + RATE_WINDOW)
    ensures !MustBlock(Struck(Cells(c, e, r, f), now), "n", now)
  {
    var kv := Cells(c, e, r, f);
    var kv1 := RateChecked(kv, "n", now).0;
    assert kv1[RateKey("n")] == if now < f then Cell(r + 1, Some(f)) else Cell(1, Some(now + RATE_WINDOW));
    assert kv1 == Cells(c, e, if now < f then r + 1 else 1, if now < f then f else now + RATE_WINDOW);
  }

  lemma StruckFresh(now: int)
    ensures RateChecked(map[], "n", now).1
    ensures Struck(map[], now) == Cells(1, now + STRIKE_WINDOW, 1, now + RATE_WINDOW)
    ensures !MustBlock(Struck(map[], now), "n", now)
  {
  }

  /** No strike and no rate window is running. */
  ghost predicate Idle(kv: KV, now: int)
  {
    kv == map[] || exists c: nat, e, r: nat, f :: IdleCells(kv, c, e, r, f, now)
  }

  predicate IdleCells(kv: KV, c: nat, e: int, r: nat, f: int, now: int)
  {
    kv == Cells(c, e, r, f) && c >= 1 && r >= 1 && e <= now && f <= now
  }

  // ---- The bound is reached ----------------------------------------------

  /** Three times a day. */
  function Thrice(days: seq<Instant>): seq<Instant>
  {
    if days == [] then [] else [days[0], days[0], days[0]] + Thrice(days[1..])
  }

  /** Each time is exactly one strike window after the one before. */
  ghost predicate Daily(days: seq<Instant>)
  {
    forall i :: 0 < i < |days| ==> Micros(days[i]) == Micros(days[i - 1]) + STRIKE_WINDOW
  }

  lemma {:induction false} ThriceAdmitted(kv: KV, days: seq<Instant>)
    requires Daily(days) && (days != [] ==> Idle(kv, Micros(days[0])))
    ensures AllAdmitted(kv, Thrice(days))
    decreases |days|
  {
    hide Micros, RateChecked, MustBlock, Struck, Cells, AllAdmitted;
    if days != [] {
      var day, t, rest := days[0], Micros(days[0]), Thrice(days[1..]);
      var e, f := t + STRIKE_WINDOW, t + RATE_WINDOW;
      if kv == map[] {
        StruckFresh(t);
      } else {
        var c: nat, e0, r: nat, f0 :| IdleCells(kv, c, e0, r, f0, t);
        StruckCells(c, e0, r, f0, t);
      }
      StruckCells(1, e, 1, f, t);
      StruckCells(2, e, 2, f, t);
      var kv' := Cells(3, e, 3, f);
      if |days| > 1 {
        assert IdleCells(kv', 3, e, 3, f, Micros(days[1]));
        assert Thrice(days[1..])[0] == days[1];
      }
      ThriceAdmitted(kv', days[1..]);
      AdmitFirst(Cells(2, e, 2, f), day, rest);
      AdmitFirst(Cells(1, e, 1, f), day, [day] + rest);
      AdmitFirst(kv, day, [day] + ([day] + rest));
      assert Thrice(days) == [day] + ([day] + ([day] + rest));
    } else {
      NoneAdmitted(kv);
    }
  }

  lemma NoneAdmitted(kv: KV)
    ensures AllAdmitted(kv, [])
  {
  }

  lemma {:induction false} ThriceWithin(days: seq<Instant>, lo: int, hi: int)
    requires Daily(days) && (days != [] ==> lo <= Micros(days[0]) && Micros(days[|days| - 1]) <= hi)
    ensures Within(Thrice(days), lo, hi) == 3 * |days|
  {
    hide Micros;
    if days != [] {
      var times := Thrice(days);
      DaysGrow(days);
      ThriceWithin(days[1..], lo, hi);
      assert times[1..][1..][1..] == Thrice(days[1..]);
      assert Within(times[1..][1..], lo, hi) == 1 + Within(Thrice(days[1..]), lo, hi);
      assert Within(times[1..], lo, hi) == 2 + Within(Thrice(days[1..]), lo, hi);
    }
  }

  lemma {:induction false} DaysGrow(days: seq<Instant>)
    requires Daily(days) && days != []
    ensures Micros(days[|days| - 1]) == Micros(days[0]) + (|days| - 1) * STRIKE_WINDOW
  {
    hide Micros;
    if |days| > 1 {
      DaysGrow(days[..|days| - 1]);
    }
  }

  /** The bound 3 d + 3 is reached for every number of days: three bad pushes at each end
      of each day are all admitted and all fail, and the node is never blocked. */
  lemma FailureBoundIsTight(rules: RuleSet, days: seq<Instant>, d: nat)
    requires |days| == d + 1 && Daily(days)
    ensures
      var steps, lo := BadRun(Thrice(days)), Micros(days[0]);
      && ValidRun(rules, INITIAL, days[0], steps)
      && NoUnblock(steps, "n", lo, lo + d * 86_400_000_000)
      && Failures(rules, INITIAL, steps, "n", lo, lo + d * 86_400_000_000) == 3 * d + 3
      && !IsBlocked(Run(rules, INITIAL, steps).nodes, "n")
  {
    hide Micros, AllAdmitted, Within, ValidRun, Run, Failures, NoUnblock;
    var lo := Micros(days[0]);
    DaysGrow(days);
    ThriceAdmitted(map[], days);
    ThriceWithin(days, lo, lo + d * STRIKE_WINDOW);
    BadRunFails(rules, Thrice(days), lo, lo + d * STRIKE_WINDOW);
  }

  // ---- The window does not slide -----------------------------------------

  /** A window that slid with every strike would block the fourth failure within a day.
      Here five come within one second, and six within a day, and the node stays
      unblocked: the first strike, a day before, had set when all of them expire. */
  lemma FiveFailuresInOneSecond(rules: RuleSet)
    ensures
      var first, late, next := DateTime(2026, 1, 1, 0, 0, 0, 0), DateTime(2026, 1, 1, 23, 59, 59, 0),
        DateTime(2026, 1, 2, 0, 0, 0, 0);
      var steps := BadRun([first, late, late, next, next, next]);
      && ValidRun(rules, INITIAL, first, steps)
      && Failures(rules, INITIAL, steps, "n", Micros(late), Micros(late) + 1_000_000) == 5
      && Failures(rules, INITIAL, steps, "n", Micros(first), Micros(first) + 86_400_000_000) == 6
      && !IsBlocked(Run(rules, INITIAL, steps).nodes, "n")
  {
    hide RateChecked, MustBlock, Struck, Cells, ValidRun, Run, Failures, IsBlocked, Micros, AllAdmitted, NoUnblock;
    var first, late, next := DateTime(2026, 1, 1, 0, 0, 0, 0), DateTime(2026, 1, 1, 23, 59, 59, 0),
      DateTime(2026, 1, 2, 0, 0, 0, 0);
    var a := Micros(first);
    var b, c := a + STRIKE_WINDOW - MICROS_PER_SECOND, a + STRIKE_WINDOW;
    DayApart(first, late, next);
    SixAdmitted(first, late, next);
    var times := [first, late, late, next, next, next];
    BadRunFails(rules, times, b, c);
    BadRunFails(rules, times, a, c);
    SixWithin(first, late, next, a, c);
    SixWithin(first, late, next, b, c);
  }

  lemma DayApart(first: Instant, late: Instant, next: Instant)
    requires first == DateTime(2026, 1, 1, 0, 0, 0, 0) && late == DateTime(2026, 1, 1, 23, 59, 59, 0)
    requires next == DateTime(2026, 1, 2, 0, 0, 0, 0)
    ensures Micros(next) == Micros(first) + STRIKE_WINDOW == Micros(late) + MICROS_PER_SECOND
  {
    hide DaysBeforeYear;
  }

  lemma SixWithin(first: Instant, late: Instant, next: Instant, lo: int, hi: int)
    requires Micros(first) < Micros(late) < Micros(next) <= hi && lo <= Micros(late)
    ensures Within([first, late, late, next, next, next], lo, hi) == if lo <= Micros(first) then 6 else 5
  {
    hide Micros;
    var times := [first, late, late, next, next, next];
    assert times[3..][1..] == times[4..] && times[4..][1..] == times[5..] && times[5..][1..] == [];
    assert Within(times[5..], lo, hi) == 1;
    assert Within(times[4..], lo, hi) == 2;
    assert Within(times[3..], lo, hi) == 3;
    assert times[1..][1..] == times[2..] && times[2..][1..] == times[3..];
    assert Within(times[1..], lo, hi) == 5;
  }

  lemma SixAdmitted(first: Instant, late: Instant, next: Instant)
    requires Micros(first) + RATE_WINDOW <= Micros(late) < Micros(next) == Micros(first) + STRIKE_WINDOW
    requires Micros(next) < Micros(late) + RATE_WINDOW
    ensures AllAdmitted(map[], [first, late, late, next, next, next])
  {
    hide Micros, RateChecked, MustBlock, Struck, Cells, AllAdmitted;
    var a, b, c := Micros(first), Micros(late), Micros(next);
    StruckFresh(a);
    StruckCells(1, c, 1, a + RATE_WINDOW, b);
    StruckCells(2, c, 1, b + RATE_WINDOW, b);
    StruckCells(3, c, 2, b + RATE_WINDOW, c);
    StruckCells(1, c + STRIKE_WINDOW, 3, b + RATE_WINDOW, c);
    StruckCells(2, c + STRIKE_WINDOW, 4, b + RATE_WINDOW, c);
    var k3, k2, k1 := Cells(3, c, 2, b + RATE_WINDOW), Cells(2, c, 1, b + RATE_WINDOW), Cells(1, c, 1, a + RATE_WINDOW);
    var k4, k5 := Cells(1, c + STRIKE_WINDOW, 3, b + RATE_WINDOW), Cells(2, c + STRIKE_WINDOW, 4, b + RATE_WINDOW);
    var t5, t4, t3 := [next] + [], [next] + ([next] + []), [next] + ([next] + ([next] + []));
    var t2 := [late] + t3;
    var t1 := [late] + t2;
    NoneAdmitted(Struck(k5, c));
    AdmitFirst(k5, next, []);
    AdmitFirst(k4, next, t5);
    AdmitFirst(k3, next, t4);
    AdmitFirst(k2, late, t3);
    AdmitFirst(k1, late, t2);
    AdmitFirst(map[], first, t1);
    assert [first] + t1 == [first, late, late, next, next, next];
  }
}
