/** Bounds on what one node can get through over any timed run of the whole hub. */
module AbuseRuns {
  import opened Common
  import opened Timestamps
  import opened Schemas
  import opened PreAudit
  import opened Abuse
  import opened Hub
  import opened HubInvariants

  // ---- Pushes of one node ------------------------------------------------

  /** The step is a push of node n that reaches the rate check. */
  ghost predicate PushOf(st: State, s: Step, n: string)
  {
    s.call.PushBundle? && Authenticate(st.nodes, s.call.apiKey) == Caller(n) && SchemaOk(s.call.b)
  }

  /** A push of n that the rate check lets through. */
  ghost predicate Admission(st: State, s: Step, n: string)
  {
    PushOf(st, s, n) && RateChecked(st.kv, n, Micros(s.now)).1
  }

  /** An admission while n is under its soft limit's penalty. */
  ghost predicate LimitedAdmission(st: State, s: Step, n: string)
  {
    Admission(st, s, n) && RateLimited(st.kv, n, Micros(s.now))
  }

  /** A push of n that was admitted and failed the pre-audit. */
  ghost predicate FailedPush(rules: RuleSet, st: State, s: Step, n: string)
  {
    Admission(st, s, n) && !Passes(rules, s.call.b)
  }

  ghost function Admissions(rules: RuleSet, st: State, steps: seq<Step>, n: string, lo: int, hi: int): nat
    decreases |steps|
  {
    if steps == [] then 0
    else
      (if Admission(st, steps[0], n) && lo <= Micros(steps[0].now) <= hi then 1 else 0)
        + Admissions(rules, Next(rules, st, steps[0]), steps[1..], n, lo, hi)
  }

  ghost function Failures(rules: RuleSet, st: State, steps: seq<Step>, n: string, lo: int, hi: int): nat
    decreases |steps|
  {
    if steps == [] then 0
    else
      (if FailedPush(rules, st, steps[0], n) && lo <= Micros(steps[0].now) <= hi then 1 else 0)
        + Failures(rules, Next(rules, st, steps[0]), steps[1..], n, lo, hi)
  }

  // ---- One step ----------------------------------------------------------

  /** What a step does to the rate key of n: a push of n runs the rate check, everything
      else leaves the key alone. */
  lemma RateKeyAfter(rules: RuleSet, st: State, s: Step, n: string)
    ensures Lookup(Next(rules, st, s).kv, RateKey(n)) ==
      if PushOf(st, s, n) then Lookup(RateChecked(st.kv, n, Micros(s.now)).0, RateKey(n)) else Lookup(st.kv, RateKey(n))
  {
    hide Authenticate, SchemaOk, Passes, Credited, SetBlocked, Micros, RateLimited, MustBlock;
  }

  lemma RateBudgetFrame(kv: KV, kv': KV, n: string, now: int, hi: int)
    requires Lookup(kv', RateKey(n)) == Lookup(kv, RateKey(n))
    ensures RateBudget(kv', n, now, hi) == RateBudget(kv, n, now, hi)
  {
  }

  lemma NextSpendsRate(rules: RuleSet, st: State, clock: Instant, s: Step, n: string, hi: int)
    requires Inv(rules, st, clock) && Enabled(st, clock, s)
    requires Micros(s.now) <= hi
    ensures RateBudget(Next(rules, st, s).kv, n, Micros(s.now), hi) + (if Admission(st, s, n) then 1 else 0)
      <= RateBudget(st.kv, n, Micros(clock), hi)
  {
    hide Next, RateBudget, RateChecked, PushOf, Micros, KeysOk, QueueOk, GraphOk, ApprovedOk, StrikesOk, StatsOk;
    var t := Micros(s.now);
    SoundLater(st.kv, Micros(clock), t);
    RateBudgetLater(st.kv, n, Micros(clock), t, hi);
    RateKeyAfter(rules, st, s, n);
    if PushOf(st, s, n) {
      RateCheckSpends(st.kv, n, t, hi);
      RateBudgetFrame(RateChecked(st.kv, n, t).0, Next(rules, st, s).kv, n, t, hi);
    } else {
      RateBudgetFrame(st.kv, Next(rules, st, s).kv, n, t, hi);
    }
  }

  lemma {:induction false} AdmissionsWithinBudget(
    rules: RuleSet, st: State, clock: Instant, steps: seq<Step>, n: string, lo: int, hi: int)
    requires Inv(rules, st, clock) && ValidRun(rules, st, clock, steps)
    ensures Admissions(rules, st, steps, n, lo, hi) <= RateBudget(st.kv, n, Micros(clock), hi)
    decreases |steps|
  {
    hide Inv, Next, Admission, RateBudget, Micros;
    BudgetsNotNegative(rules, st, clock, n, hi);
    if steps != [] {
      var s := steps[0];
      NextKeepsInv(rules, st, clock, s);
      AdmissionsWithinBudget(rules, Next(rules, st, s), s.now, steps[1..], n, lo, hi);
      if Micros(s.now) <= hi {
        NextSpendsRate(rules, st, clock, s, n, hi);
      } else {
        NoBudgetAfter(Next(rules, st, s), s.now, n, hi);
      }
    }
  }

  lemma BudgetsNotNegative(rules: RuleSet, st: State, clock: Instant, n: string, hi: int)
    requires Inv(rules, st, clock)
    ensures RateBudget(st.kv, n, Micros(clock), hi) >= 0
    ensures StrikeBudget(st.kv, IsBlocked(st.nodes, n), n, Micros(clock), hi) >= 0
  {
    hide KeysOk, QueueOk, GraphOk, ApprovedOk, StatsOk, RateBudget, StrikeBudget, FewStrikes, Micros, IsBlocked;
    RateBudgetLater(st.kv, n, Micros(clock), Micros(clock), hi);
    assert FewStrikes(st.kv, IsBlocked(st.nodes, n), n, Micros(clock));
    StrikeBudgetLater(st.kv, IsBlocked(st.nodes, n), n, Micros(clock), Micros(clock), hi);
  }

  lemma NoBudgetAfter(st: State, now: Instant, n: string, hi: int)
    requires hi < Micros(now)
    ensures RateBudget(st.kv, n, Micros(now), hi) == 0
    ensures StrikeBudget(st.kv, IsBlocked(st.nodes, n), n, Micros(now), hi) == 0
  {
  }

  // ---- The rate bound ----------------------------------------------------

  /** The bound, from any state that satisfies the invariants. */
  lemma {:induction false} RateBoundFrom(
    rules: RuleSet, st: State, clock: Instant, steps: seq<Step>, n: string, lo: int, h: nat)
    requires Inv(rules, st, clock) && ValidRun(rules, st, clock, steps)
    ensures Admissions(rules, st, steps, n, lo, lo + h * RATE_WINDOW) <= RATE_MAX * (h + 1)
    decreases |steps|
  {
    hide Inv, Next, Admission, RateBudget, Micros;
    if steps != [] {
      var s := steps[0];
      var hi := lo + h * RATE_WINDOW;
      if Micros(s.now) < lo {
        NextKeepsInv(rules, st, clock, s);
        RateBoundFrom(rules, Next(rules, st, s), s.now, steps[1..], n, lo, h);
      } else {
        InvLater(rules, st, clock, s.now);
        assert ValidRun(rules, st, s.now, steps);
        AdmissionsWithinBudget(rules, st, s.now, steps, n, lo, hi);
        SoundOf(rules, st, s.now);
        RateBudgetBound(st.kv, n, Micros(s.now), lo, h);
      }
    }
  }

  /** In any run, any closed interval of h hours sees at most 60 (h + 1) admitted pushes of
      one node, in whatever mix of normal and limited mode: at most 120 in one hour. */
  lemma RateBound(rules: RuleSet, clock: Instant, steps: seq<Step>, n: string, lo: int, h: nat)
    requires ValidRun(rules, INITIAL, clock, steps)
    ensures Admissions(rules, INITIAL, steps, n, lo, lo + h * 3_600_000_000) <= 60 * (h + 1)
  {
    hide Inv, ValidRun, Admissions;
    InitialInv(rules, clock);
    RateBoundFrom(rules, INITIAL, clock, steps, n, lo, h);
  }

  lemma SoundOf(rules: RuleSet, st: State, clock: Instant)
    requires Inv(rules, st, clock)
    ensures SoundStore(st.kv, Micros(clock))
  {
  }

  // ---- Spacing under the soft limit --------------------------------------

  /** The rate key of n is there and expires at e. */
  predicate RateKeyUntil(kv: KV, n: string, e: int)
  {
    RateKey(n) in kv && kv[RateKey(n)].expires == Some(e)
  }

  /** An admission under the penalty starts a window of an hour. */
  lemma LimitedAdmissionStartsWindow(rules: RuleSet, st: State, s: Step, n: string)
    requires LimitedAdmission(st, s, n)
    ensures RateKeyUntil(Next(rules, st, s).kv, n, Micros(s.now) + RATE_WINDOW)
  {
    hide Next, SoundStore, Micros, Authenticate, SchemaOk;
    RateKeyAfter(rules, st, s, n);
  }

  /** While the key lasts it keeps its expiry, and no push under the penalty gets through. */
  lemma WindowHolds(rules: RuleSet, st: State, s: Step, n: string, e: int)
    requires RateKeyUntil(st.kv, n, e) && Micros(s.now) < e
    requires st.kv[RateKey(n)].value >= 1
    ensures !LimitedAdmission(st, s, n)
    ensures RateKeyUntil(Next(rules, st, s).kv, n, e)
    ensures Next(rules, st, s).kv[RateKey(n)].value >= 1
  {
    hide Next, Micros, Authenticate, SchemaOk, RateLimited;
    RateKeyAfter(rules, st, s, n);
  }

  lemma {:induction false} NoneInsideWindow(
    rules: RuleSet, st: State, clock: Instant, steps: seq<Step>, n: string, e: int)
    requires ValidRun(rules, st, clock, steps) && steps != []
    requires RateKeyUntil(st.kv, n, e) && st.kv[RateKey(n)].value >= 1
    requires LimitedAdmission(Run(rules, st, steps[..|steps| - 1]), steps[|steps| - 1], n)
    ensures e <= Micros(steps[|steps| - 1].now)
    decreases |steps|
  {
    hide Next, LimitedAdmission, Micros;
    var s, rest := steps[0], steps[1..];
    assert rest == [] ==> Run(rules, st, steps[..|steps| - 1]) == st;
    if Micros(s.now) < e {
      WindowHolds(rules, st, s, n, e);
      if rest != [] {
        assert steps[..|steps| - 1][1..] == rest[..|rest| - 1];
        NoneInsideWindow(rules, Next(rules, st, s), s.now, rest, n, e);
      }
    } else {
      TimesOnlyGrow(rules, st, clock, steps);
    }
  }

  lemma {:induction false} TimesOnlyGrow(rules: RuleSet, st: State, clock: Instant, steps: seq<Step>)
    requires ValidRun(rules, st, clock, steps) && steps != []
    ensures Micros(clock) <= Micros(steps[0].now) <= Micros(steps[|steps| - 1].now)
    decreases |steps|
  {
    hide Next, Micros;
    if |steps| > 1 {
      TimesOnlyGrow(rules, Next(rules, st, steps[0]), steps[0].now, steps[1..]);
    }
  }

  lemma SpacedFrom(rules: RuleSet, st: State, clock: Instant, s: Step, steps: seq<Step>, n: string)
    requires Inv(rules, st, clock) && Enabled(st, clock, s) && LimitedAdmission(st, s, n)
    requires ValidRun(rules, Next(rules, st, s), s.now, steps) && steps != []
    requires LimitedAdmission(Run(rules, Next(rules, st, s), steps[..|steps| - 1]), steps[|steps| - 1], n)
    ensures Micros(s.now) + RATE_WINDOW <= Micros(steps[|steps| - 1].now)
  {
    hide Inv, Next, LimitedAdmission, Micros, ValidRun, Run, Enabled;
    var st' := Next(rules, st, s);
    LimitedAdmissionStartsWindow(rules, st, s, n);
    NextKeepsInv(rules, st, clock, s);
    SoundOf(rules, st', s.now);
    NoneInsideWindow(rules, st', s.now, steps, n, Micros(s.now) + RATE_WINDOW);
  }

  /** Any two pushes of a node admitted under the soft limit's penalty are at least an hour
      apart, with anything at all in between. */
  lemma LimitedAdmissionsAreSpaced(
    rules: RuleSet, clock: Instant, steps: seq<Step>, n: string, i: nat, j: nat)
    requires ValidRun(rules, INITIAL, clock, steps) && i < j < |steps|
    requires LimitedAdmission(StateAt(rules, steps, i), steps[i], n)
    requires LimitedAdmission(StateAt(rules, steps, j), steps[j], n)
    ensures Micros(steps[i].now) + 3_600_000_000 <= Micros(steps[j].now)
  {
    hide Inv, LimitedAdmission, Micros, Enabled, Next, StateAt;
    var st, mid := StateAt(rules, steps, i), steps[i..j + 1];
    PositionIsSound(rules, clock, steps, i);
    BetweenPositions(rules, clock, steps, i, j + 1);
    BetweenPositions(rules, clock, steps, i + 1, j);
    var rest := steps[i + 1..j + 1];
    assert mid[1..] == rest;
    assert |rest| == j - i && rest[..j - i - 1] == steps[i + 1..j];
    SpacedFrom(rules, st, LastTime(clock, steps[..i]), steps[i], rest, n);
  }

  // ---- One window --------------------------------------------------------

  /** The push opens a rate window: it finds no rate key running. */
  ghost predicate Opens(st: State, s: Step, n: string)
  {
    PushOf(st, s, n) && !Live(st.kv, RateKey(n), Micros(s.now))
  }

  /** Where a rate key comes from: the push that opened its window, or the state before. */
  lemma WindowOfKey(rules: RuleSet, st: State, s: Step, n: string, e: int)
    requires RateKey(n) in st.kv ==> st.kv[RateKey(n)].value >= 1
    requires RateKeyUntil(Next(rules, st, s).kv, n, e)
    ensures RateKeyUntil(st.kv, n, e) || (Opens(st, s, n) && Micros(s.now) + RATE_WINDOW == e)
  {
    hide Next, Micros, Authenticate, SchemaOk, RateLimited;
    RateKeyAfter(rules, st, s, n);
  }

  lemma {:induction false} WindowWasOpened(rules: RuleSet, clock: Instant, steps: seq<Step>, n: string, j: nat, e: int)
    returns (i: nat)
    requires ValidRun(rules, INITIAL, clock, steps) && j <= |steps|
    requires RateKeyUntil(StateAt(rules, steps, j).kv, n, e)
    ensures i < j && Opens(StateAt(rules, steps, i), steps[i], n) && Micros(steps[i].now) + RATE_WINDOW == e
    decreases j
  {
    hide Micros, Next, Opens, ValidRun, Run, Enabled, StateAt, Inv;
    if j == 0 {
      InitialHasNoKeys(rules, steps, n, e);
      assert false;
    } else {
      PositionIsSound(rules, clock, steps, j - 1);
      BetweenPositions(rules, clock, steps, j - 1, j);
      SoundOf(rules, StateAt(rules, steps, j - 1), LastTime(clock, steps[..j - 1]));
      WindowOfKey(rules, StateAt(rules, steps, j - 1), steps[j - 1], n, e);
      if RateKeyUntil(StateAt(rules, steps, j - 1).kv, n, e) {
        i := WindowWasOpened(rules, clock, steps, n, j - 1, e);
      } else {
        i := j - 1;
      }
    }
  }

  lemma InitialHasNoKeys(rules: RuleSet, steps: seq<Step>, n: string, e: int)
    ensures !RateKeyUntil(StateAt(rules, steps, 0).kv, n, e)
  {
    assert steps[..0] == [];
  }

  lemma OpeningBudget(kv: KV, n: string, now: int)
    requires !Live(kv, RateKey(n), now)
    ensures RateBudget(kv, n, now, now + RATE_WINDOW - 1) == RATE_MAX
  {
  }

  /** One window of the rate key: whenever a state has a rate key that expires at e, some
      push before opened its window, at e less an hour, and from that push on at most 60
      are admitted before e, itself included, in whatever mix of modes. */
  lemma WindowBound(rules: RuleSet, clock: Instant, steps: seq<Step>, n: string, j: nat, e: int)
    requires ValidRun(rules, INITIAL, clock, steps) && j <= |steps|
    requires RateKeyUntil(StateAt(rules, steps, j).kv, n, e)
    ensures exists i ::
      && 0 <= i < j && Opens(StateAt(rules, steps, i), steps[i], n) && Micros(steps[i].now) + 3_600_000_000 == e
      && Admissions(rules, StateAt(rules, steps, i), steps[i..], n, e - 3_600_000_000, e - 1) <= 60
  {
    hide Inv, ValidRun, Run, StateAt, Admissions, Micros, RateKeyUntil, Enabled, Next, RateBudget;
    var i := WindowWasOpened(rules, clock, steps, n, j, e);
    var st, s := StateAt(rules, steps, i), steps[i];
    PositionIsSound(rules, clock, steps, i);
    BetweenPositions(rules, clock, steps, i, j);
    FromItsOwnTime(rules, st, LastTime(clock, steps[..i]), steps[i..]);
    AdmissionsWithinBudget(rules, st, s.now, steps[i..], n, e - RATE_WINDOW, e - 1);
    OpeningBudget(st.kv, n, Micros(s.now));
  }

  /** A run can be taken to start when its first step does. */
  lemma FromItsOwnTime(rules: RuleSet, st: State, clock: Instant, steps: seq<Step>)
    requires Inv(rules, st, clock) && ValidRun(rules, st, clock, steps) && steps != []
    ensures Inv(rules, st, steps[0].now) && ValidRun(rules, st, steps[0].now, steps)
  {
    hide Inv, Next, Micros;
    InvLater(rules, st, clock, steps[0].now);
  }

  /** The push counts in its window: it opens it, or finds the node below three strikes. */
  ghost predicate Counted(st: State, s: Step, n: string)
  {
    PushOf(st, s, n) && (Opens(st, s, n) || Strikes(st.kv, n, Security, Micros(s.now)) < 3)
  }

  ghost function CountedPushes(rules: RuleSet, st: State, steps: seq<Step>, n: string): nat
    decreases |steps|
  {
    if steps == [] then 0
    else (if Counted(st, steps[0], n) then 1 else 0) + CountedPushes(rules, Next(rules, st, steps[0]), steps[1..], n)
  }

  lemma LimitedMeans(kv: KV, n: string, now: int)
    requires SoundStore(kv, now)
    ensures RateLimited(kv, n, now) <==> Strikes(kv, n, Security, now) >= 3
  {
  }

  /** One step of a running window, and the step that opens one. */
  lemma WindowStep(rules: RuleSet, st: State, s: Step, n: string)
    requires SoundStore(st.kv, Micros(s.now))
    ensures Live(st.kv, RateKey(n), Micros(s.now)) ==>
      Lookup(Next(rules, st, s).kv, RateKey(n)) ==
        var cell := st.kv[RateKey(n)];
        Some(cell.(value := cell.value + if Counted(st, s, n) then 1 else 0))
    ensures Opens(st, s, n) ==>
      Lookup(Next(rules, st, s).kv, RateKey(n)) == Some(Cell(1, Some(Micros(s.now) + RATE_WINDOW)))
  {
    hide Next, Micros, Authenticate, SchemaOk, RateLimited;
    RateKeyAfter(rules, st, s, n);
    LimitedMeans(st.kv, n, Micros(s.now));
  }

  lemma {:induction false} WindowCounts(
    rules: RuleSet, st: State, clock: Instant, steps: seq<Step>, n: string, e: int)
    requires Inv(rules, st, clock) && ValidRun(rules, st, clock, steps)
    requires RateKeyUntil(st.kv, n, e) && (steps != [] ==> Micros(steps[|steps| - 1].now) < e)
    ensures var kv := Run(rules, st, steps).kv;
      RateKeyUntil(kv, n, e) && kv[RateKey(n)].value == st.kv[RateKey(n)].value + CountedPushes(rules, st, steps, n)
    decreases |steps|
  {
    hide Inv, Next, Micros, Counted, Enabled, SoundStore;
    if steps != [] {
      var s := steps[0];
      TimesOnlyGrow(rules, st, clock, steps);
      SoundOf(rules, st, clock);
      SoundLater(st.kv, Micros(clock), Micros(s.now));
      WindowStep(rules, st, s, n);
      NextKeepsInv(rules, st, clock, s);
      WindowCounts(rules, Next(rules, st, s), s.now, steps[1..], n, e);
    }
  }

  lemma SoundAt(rules: RuleSet, clock: Instant, steps: seq<Step>, i: nat)
    requires ValidRun(rules, INITIAL, clock, steps) && i < |steps|
    ensures SoundStore(StateAt(rules, steps, i).kv, Micros(steps[i].now))
  {
    hide Inv, Run, StateAt, Micros, Next, SoundStore;
    PositionIsSound(rules, clock, steps, i);
    SoundOf(rules, StateAt(rules, steps, i), LastTime(clock, steps[..i]));
    SoundLater(StateAt(rules, steps, i).kv, Micros(LastTime(clock, steps[..i])), Micros(steps[i].now));
  }

  lemma OpeningCounts(st: State, s: Step, n: string)
    requires Opens(st, s, n)
    ensures Counted(st, s, n)
  {
  }

  /** While the window a push opened lasts, its key counts the counted pushes since. */
  lemma OpenedWindowLasts(rules: RuleSet, clock: Instant, steps: seq<Step>, n: string, j: nat, i: nat)
    requires ValidRun(rules, INITIAL, clock, steps) && j < i < |steps|
    requires Opens(StateAt(rules, steps, j), steps[j], n)
    requires Micros(steps[i].now) < Micros(steps[j].now) + RATE_WINDOW
    ensures var kv := StateAt(rules, steps, i).kv;
      && RateKeyUntil(kv, n, Micros(steps[j].now) + RATE_WINDOW)
      && kv[RateKey(n)].value == CountedPushes(rules, StateAt(rules, steps, j), steps[j..i], n)
  {
    hide Inv, ValidRun, Run, StateAt, Micros, Next, Opens, SoundStore, Enabled;
    var st := StateAt(rules, steps, j);
    SoundAt(rules, clock, steps, j);
    WindowStep(rules, st, steps[j], n);
    OpeningCounts(st, steps[j], n);
    BetweenPositions(rules, clock, steps, j, i);
    BetweenPositions(rules, clock, steps, j + 1, i);
    PositionIsSound(rules, clock, steps, j + 1);
    TimesUpTo(rules, clock, steps, i - 1, i);
    WindowCounts(rules, StateAt(rules, steps, j + 1), LastTime(clock, steps[..j + 1]), steps[j + 1..i], n,
      Micros(steps[j].now) + RATE_WINDOW);
    assert steps[j..i][1..] == steps[j + 1..i];
  }

  lemma TimesUpTo(rules: RuleSet, clock: Instant, steps: seq<Step>, i: nat, j: nat)
    requires ValidRun(rules, INITIAL, clock, steps) && i <= j < |steps|
    ensures Micros(steps[i].now) <= Micros(steps[j].now)
  {
    hide Inv, ValidRun, Run, StateAt, Micros, Next, Enabled;
    BetweenPositions(rules, clock, steps, i, j + 1);
    TimesOnlyGrow(rules, StateAt(rules, steps, i), LastTime(clock, steps[..i]), steps[i..j + 1]);
  }

  lemma AdmissionByKey(st: State, s: Step, n: string)
    requires PushOf(st, s, n) && SoundStore(st.kv, Micros(s.now))
    ensures Admission(st, s, n) <==>
      || !Live(st.kv, RateKey(n), Micros(s.now))
      || (Strikes(st.kv, n, Security, Micros(s.now)) < 3 && st.kv[RateKey(n)].value < 60)
  {
    hide Micros, Authenticate, SchemaOk, SoundStore;
    LimitedMeans(st.kv, n, Micros(s.now));
  }

  /** Which pushes get through, exactly. A push that reaches the rate check is admitted if
      and only if no window of the last hour is open, or the node has fewer than three
      strikes and fewer than 60 pushes were counted since the one that opened the window. */
  lemma AdmittedIff(rules: RuleSet, clock: Instant, steps: seq<Step>, n: string, i: nat)
    requires ValidRun(rules, INITIAL, clock, steps) && i < |steps| && PushOf(StateAt(rules, steps, i), steps[i], n)
    ensures Admission(StateAt(rules, steps, i), steps[i], n) <==>
      forall j :: 0 <= j < i && Opens(StateAt(rules, steps, j), steps[j], n)
                  && Micros(steps[i].now) < Micros(steps[j].now) + 3_600_000_000 ==>
        && Strikes(StateAt(rules, steps, i).kv, n, Security, Micros(steps[i].now)) < 3
        && CountedPushes(rules, StateAt(rules, steps, j), steps[j..i], n) < 60
  {
    hide Inv, ValidRun, Run, StateAt, Micros, Next, Opens, SoundStore, Enabled, PushOf, Strikes, CountedPushes,
      Admission;
    var st, s := StateAt(rules, steps, i), steps[i];
    SoundAt(rules, clock, steps, i);
    AdmissionByKey(st, s, n);
    forall j | 0 <= j < i && Opens(StateAt(rules, steps, j), steps[j], n)
               && Micros(s.now) < Micros(steps[j].now) + RATE_WINDOW
      ensures Live(st.kv, RateKey(n), Micros(s.now))
      ensures st.kv[RateKey(n)].value == CountedPushes(rules, StateAt(rules, steps, j), steps[j..i], n)
    {
      OpenedWindowLasts(rules, clock, steps, n, j, i);
    }
    if Live(st.kv, RateKey(n), Micros(s.now)) {
      KeysExpire(st.kv, n, Micros(s.now));
      var j := WindowWasOpened(rules, clock, steps, n, i, st.kv[RateKey(n)].expires.value);
      assert Opens(StateAt(rules, steps, j), steps[j], n);
    }
  }

  lemma KeysExpire(kv: KV, n: string, now: int)
    requires SoundStore(kv, now) && Live(kv, RateKey(n), now)
    ensures kv[RateKey(n)].expires.Some? && now < kv[RateKey(n)].expires.value
  {
  }

  // ---- Strikes and blocking ----------------------------------------------

  /** What a step does to the security strikes of n, and to its block flag. */
  lemma StrikeKeyAfter(rules: RuleSet, st: State, s: Step, n: string)
    requires s.call != UnblockNode(n)
    ensures Lookup(Next(rules, st, s).kv, StrikeKey(n, Security)) ==
      if FailedPush(rules, st, s, n)
      then Lookup(
        StrikeRecorded(RateChecked(st.kv, n, Micros(s.now)).0, n, Security, Micros(s.now)), StrikeKey(n, Security))
      else Lookup(st.kv, StrikeKey(n, Security))
  {
    hide Authenticate, SchemaOk, Passes, Credited, SetBlocked, Micros, RateLimited, MustBlock;
  }

  lemma BlockFlagAfter(rules: RuleSet, st: State, s: Step, n: string)
    requires s.call != UnblockNode(n)
    ensures IsBlocked(st.nodes, n) ==> IsBlocked(Next(rules, st, s).nodes, n)
    ensures FailedPush(rules, st, s, n) ==>
      && !IsBlocked(st.nodes, n)
      && (IsBlocked(Next(rules, st, s).nodes, n) <==>
            MustBlock(
              StrikeRecorded(RateChecked(st.kv, n, Micros(s.now)).0, n, Security, Micros(s.now)), n, Micros(s.now)))
  {
    hide SchemaOk, Passes, Micros, RateChecked, StrikeRecorded, MustBlock;
  }

  lemma StrikeBudgetFrame(kv: KV, kv': KV, blocked: bool, blocked': bool, n: string, now: int, hi: int)
    requires Lookup(kv', StrikeKey(n, Security)) == Lookup(kv, StrikeKey(n, Security))
    requires SoundStore(kv, now) && FewStrikes(kv, blocked, n, now)
    requires blocked ==> blocked'
    ensures StrikeBudget(kv', blocked', n, now, hi) <= StrikeBudget(kv, blocked, n, now, hi)
    ensures FewStrikes(kv', blocked', n, now)
  {
    StrikeBudgetLater(kv, blocked, n, now, now, hi);
  }

  lemma FourthFailureBlocksFrom(rules: RuleSet, st: State, clock: Instant, s: Step, n: string)
    requires Inv(rules, st, clock) && Enabled(st, clock, s) && FailedPush(rules, st, s, n)
    ensures IsBlocked(Next(rules, st, s).nodes, n) <==> Strikes(st.kv, n, Security, Micros(s.now)) == 3
    ensures Strikes(Next(rules, st, s).kv, n, Security, Micros(s.now)) == Strikes(st.kv, n, Security, Micros(s.now)) + 1
  {
    hide Next, Micros, KeysOk, QueueOk, GraphOk, ApprovedOk, StatsOk, StrikeRecorded, RateChecked, MustBlock,
      Authenticate, SchemaOk, Passes;
    var t := Micros(s.now);
    AfterRateCheck(rules, st, clock, s, n);
    BlockFlagAfter(rules, st, s, n);
    var kv := RateChecked(st.kv, n, t).0;
    FourthStrikeBlocks(kv, n, t);
    StrikeKeyAfter(rules, st, s, n);
  }

  /** The 4th failed push of a strike window blocks the node: a failed push does so exactly
      when the node had three live strikes before it. */
  lemma FourthFailureBlocks(rules: RuleSet, clock: Instant, steps: seq<Step>, n: string, i: nat)
    requires ValidRun(rules, INITIAL, clock, steps) && i < |steps|
    requires FailedPush(rules, StateAt(rules, steps, i), steps[i], n)
    ensures var before, after, t := StateAt(rules, steps, i), StateAt(rules, steps, i + 1), Micros(steps[i].now);
      && (IsBlocked(after.nodes, n) <==> Strikes(before.kv, n, Security, t) == 3)
      && Strikes(after.kv, n, Security, t) == Strikes(before.kv, n, Security, t) + 1
  {
    hide Inv, FailedPush, Micros, Enabled, Next, StateAt, ValidRun, Run, IsBlocked, Strikes;
    PositionIsSound(rules, clock, steps, i);
    BetweenPositions(rules, clock, steps, i, i + 1);
    FourthFailureBlocksFrom(rules, StateAt(rules, steps, i), LastTime(clock, steps[..i]), steps[i], n);
  }

  /** The store between the rate check and the strike of a failed push. */
  lemma AfterRateCheck(rules: RuleSet, st: State, clock: Instant, s: Step, n: string)
    requires Inv(rules, st, clock) && Enabled(st, clock, s)
    ensures var t, kv := Micros(s.now), RateChecked(st.kv, n, Micros(s.now)).0;
      && SoundStore(st.kv, t) && SoundStore(kv, t)
      && FewStrikes(st.kv, IsBlocked(st.nodes, n), n, t) && FewStrikes(kv, IsBlocked(st.nodes, n), n, t)
      && Strikes(kv, n, Security, t) == Strikes(st.kv, n, Security, t)
      && Lookup(kv, StrikeKey(n, Security)) == Lookup(st.kv, StrikeKey(n, Security))
  {
    hide Micros, KeysOk, QueueOk, GraphOk, ApprovedOk, StatsOk, SchemaOk, SoundStore, StrikeBudget, IsBlocked;
    var t := Micros(s.now);
    SoundLater(st.kv, Micros(clock), t);
    StepsKeepSound(st.kv, n, t);
    StrikeFrame(st.kv, n, n, t);
    assert FewStrikes(st.kv, IsBlocked(st.nodes, n), n, Micros(clock));
    StrikeBudgetLater(st.kv, IsBlocked(st.nodes, n), n, Micros(clock), t, t);
  }

  lemma RatedLater(kv: KV, n: string, now: int, later: int)
    requires SoundStore(kv, now) && now <= later && (now == later ==> Rated(kv, n, now))
    ensures Rated(kv, n, later)
  {
  }

  lemma RatedFrame(kv: KV, kv': KV, n: string, now: int)
    requires Lookup(kv', StrikeKey(n, Security)) == Lookup(kv, StrikeKey(n, Security))
    requires Lookup(kv', RateKey(n)) == Lookup(kv, RateKey(n))
    requires Rated(kv, n, now)
    ensures Rated(kv', n, now)
  {
  }

  lemma RateCheckKeepsRated(kv: KV, n: string, now: int)
    requires SoundStore(kv, now) && Rated(kv, n, now)
    ensures Rated(RateChecked(kv, n, now).0, n, now)
  {
  }

  lemma StruckIsRated(kv: KV, n: string, now: int)
    requires Live(kv, RateKey(n), now)
    ensures Rated(StrikeRecorded(kv, n, Security, now), n, now)
    ensures Lookup(StrikeRecorded(kv, n, Security, now), RateKey(n)) == Lookup(kv, RateKey(n))
  {
  }

  /** Every step keeps strikes of the moment rated. */
  lemma NextKeepsRated(rules: RuleSet, st: State, clock: Instant, s: Step, n: string)
    requires Inv(rules, st, clock) && Enabled(st, clock, s) && Rated(st.kv, n, Micros(clock))
    ensures Rated(st.kv, n, Micros(s.now)) && Rated(Next(rules, st, s).kv, n, Micros(s.now))
  {
    hide Inv, Next, Micros, Rated, RateChecked, StrikeRecorded, Authenticate, SchemaOk, Passes;
    var t, kv' := Micros(s.now), Next(rules, st, s).kv;
    SoundOf(rules, st, clock);
    RatedLater(st.kv, n, Micros(clock), t);
    SoundLater(st.kv, Micros(clock), t);
    RateKeyAfter(rules, st, s, n);
    if s.call == UnblockNode(n) {
      UnblockIsRated(rules, st, s, n);
    } else {
      StrikeKeyAfter(rules, st, s, n);
      var kv := RateChecked(st.kv, n, t).0;
      if PushOf(st, s, n) {
        RateCheckKeepsRated(st.kv, n, t);
        StrikeFrameLookup(st.kv, n, t);
        if FailedPush(rules, st, s, n) {
          AdmissionMeans(st.kv, n, t);
          StruckIsRated(kv, n, t);
          RatedFrame(StrikeRecorded(kv, n, Security, t), kv', n, t);
        } else {
          RatedFrame(kv, kv', n, t);
        }
      } else {
        RatedFrame(st.kv, kv', n, t);
      }
    }
  }

  lemma StrikeFrameLookup(kv: KV, n: string, now: int)
    ensures Lookup(RateChecked(kv, n, now).0, StrikeKey(n, Security)) == Lookup(kv, StrikeKey(n, Security))
  {
  }

  lemma UnblockIsRated(rules: RuleSet, st: State, s: Step, n: string)
    requires s.call == UnblockNode(n)
    ensures Rated(Next(rules, st, s).kv, n, Micros(s.now))
  {
    hide Micros;
  }

  /** A step other than an unblock of n spends strike budget for a failed push of n and
      never adds any. */
  lemma NextSpendsStrikes(rules: RuleSet, st: State, clock: Instant, s: Step, n: string, hi: int)
    requires Inv(rules, st, clock) && Enabled(st, clock, s) && s.call != UnblockNode(n)
    requires Rated(st.kv, n, Micros(clock)) && Micros(s.now) <= hi
    ensures StrikeBudget(Next(rules, st, s).kv, IsBlocked(Next(rules, st, s).nodes, n), n, Micros(s.now), hi)
        + (if FailedPush(rules, st, s, n) then 1 else 0)
      <= StrikeBudget(st.kv, IsBlocked(st.nodes, n), n, Micros(clock), hi)
  {
    hide Next, Micros, KeysOk, QueueOk, GraphOk, ApprovedOk, StatsOk, FailedPush, StrikeRecorded, RateChecked,
      MustBlock, StrikeBudget, FewStrikes, IsBlocked, SoundStore, Strikes;
    var t, st' := Micros(s.now), Next(rules, st, s);
    var kv, blocked, blocked' := RateChecked(st.kv, n, t).0, IsBlocked(st.nodes, n), IsBlocked(st'.nodes, n);
    AfterRateCheck(rules, st, clock, s, n);
    assert FewStrikes(st.kv, blocked, n, Micros(clock));
    StrikeBudgetLater(st.kv, blocked, n, Micros(clock), t, hi);
    StrikeKeyAfter(rules, st, s, n);
    BlockFlagAfter(rules, st, s, n);
    if FailedPush(rules, st, s, n) {
      var kv' := StrikeRecorded(kv, n, Security, t);
      NextKeepsRated(rules, st, clock, s, n);
      FailedPushIsAdmitted(rules, st, s, n);
      FailedPushSpends(st.kv, n, t, hi);
      FourthStrikeBlocks(kv, n, t);
      StepsKeepSound(kv, n, t);
      StrikeBudgetFrame(kv', st'.kv, blocked', blocked', n, t, hi);
    } else {
      StrikeBudgetFrame(st.kv, st'.kv, blocked, blocked', n, t, hi);
    }
  }

  lemma FailedPushIsAdmitted(rules: RuleSet, st: State, s: Step, n: string)
    requires FailedPush(rules, st, s, n)
    ensures RateChecked(st.kv, n, Micros(s.now)).1
  {
  }

  /** Nobody unblocks n at a time in the interval. */
  ghost predicate NoUnblock(steps: seq<Step>, n: string, lo: int, hi: int)
  {
    forall j :: 0 <= j < |steps| && lo <= Micros(steps[j].now) <= hi ==> steps[j].call != UnblockNode(n)
  }

  lemma {:induction false} FailuresWithinBudget(
    rules: RuleSet, st: State, clock: Instant, steps: seq<Step>, n: string, lo: int, hi: int)
    requires Inv(rules, st, clock) && ValidRun(rules, st, clock, steps)
    requires lo <= Micros(clock) && NoUnblock(steps, n, lo, hi) && Rated(st.kv, n, Micros(clock))
    ensures Failures(rules, st, steps, n, lo, hi) <= StrikeBudget(st.kv, IsBlocked(st.nodes, n), n, Micros(clock), hi)
    decreases |steps|
  {
    hide Inv, Next, FailedPush, StrikeBudget, Micros, IsBlocked, Rated;
    BudgetsNotNegative(rules, st, clock, n, hi);
    if steps != [] {
      var s := steps[0];
      NextKeepsInv(rules, st, clock, s);
      assert forall j :: 0 <= j < |steps[1..]| ==> steps[1..][j] == steps[j + 1];
      NextKeepsRated(rules, st, clock, s, n);
      FailuresWithinBudget(rules, Next(rules, st, s), s.now, steps[1..], n, lo, hi);
      if Micros(s.now) <= hi {
        NextSpendsStrikes(rules, st, clock, s, n, hi);
      } else {
        NoBudgetAfter(Next(rules, st, s), s.now, n, hi);
      }
    }
  }

  lemma {:induction false} FailureBoundFrom(
    rules: RuleSet, st: State, clock: Instant, steps: seq<Step>, n: string, lo: int, d: nat)
    requires Inv(rules, st, clock) && ValidRun(rules, st, clock, steps)
    requires NoUnblock(steps, n, lo, lo + d * STRIKE_WINDOW)
    requires lo <= Micros(clock) ==> Rated(st.kv, n, Micros(clock))
    ensures Failures(rules, st, steps, n, lo, lo + d * STRIKE_WINDOW) <= 3 * d + 3
    decreases |steps|
  {
    hide Inv, Next, FailedPush, StrikeBudget, Micros, IsBlocked, FewStrikes, SoundStore, Rated;
    if steps != [] {
      var s := steps[0];
      var hi := lo + d * STRIKE_WINDOW;
      if Micros(s.now) < lo {
        NextKeepsInv(rules, st, clock, s);
        assert forall j :: 0 <= j < |steps[1..]| ==> steps[1..][j] == steps[j + 1];
        FailureBoundFrom(rules, Next(rules, st, s), s.now, steps[1..], n, lo, d);
      } else {
        SoundOf(rules, st, clock);
        RatedLater(st.kv, n, Micros(clock), Micros(s.now));
        InvLater(rules, st, clock, s.now);
        assert ValidRun(rules, st, s.now, steps);
        FailuresWithinBudget(rules, st, s.now, steps, n, lo, hi);
        SoundOf(rules, st, s.now);
        FewOf(rules, st, s.now, n);
        StrikeBudgetBound(st.kv, IsBlocked(st.nodes, n), n, Micros(s.now), lo, d);
      }
    }
  }

  /** In any run, any closed interval of d days in which nobody unblocks the node sees at
      most 3 d + 3 failed pushes of it: at most 6 in one day. A window takes three without
      blocking; the fourth that blocks needs the soft limit's hour to pass first. */
  lemma FailureBound(rules: RuleSet, clock: Instant, steps: seq<Step>, n: string, lo: int, d: nat)
    requires ValidRun(rules, INITIAL, clock, steps)
    requires NoUnblock(steps, n, lo, lo + d * 86_400_000_000)
    ensures Failures(rules, INITIAL, steps, n, lo, lo + d * 86_400_000_000) <= 3 * d + 3
  {
    hide Inv, ValidRun, Failures, NoUnblock;
    InitialInv(rules, clock);
    FailureBoundFrom(rules, INITIAL, clock, steps, n, lo, d);
  }

  lemma FewOf(rules: RuleSet, st: State, clock: Instant, n: string)
    requires Inv(rules, st, clock)
    ensures FewStrikes(st.kv, IsBlocked(st.nodes, n), n, Micros(clock))
  {
  }

  /** In every reachable state an unblocked node has at most 3 live security strikes, the
      other two categories hold none, and every rate key expires within the hour. */
  lemma ReachableStrikes(rules: RuleSet, clock: Instant, steps: seq<Step>, n: string)
    requires ValidRun(rules, INITIAL, clock, steps)
    ensures var st, t := Run(rules, INITIAL, steps), Micros(LastTime(clock, steps));
      && (!IsBlocked(st.nodes, n) ==> Strikes(st.kv, n, Security, t) <= 3)
      && Strikes(st.kv, n, Category.Syntax, t) == 0 && Strikes(st.kv, n, General, t) == 0
      && (RateKey(n) in st.kv ==>
            st.kv[RateKey(n)].expires.Some? && st.kv[RateKey(n)].expires.value <= t + 3_600_000_000)
  {
    hide ValidRun, Run, Inv, Micros;
    InitialInv(rules, clock);
    RunKeepsInv(rules, INITIAL, clock, steps);
    FewOf(rules, Run(rules, INITIAL, steps), LastTime(clock, steps), n);
    SoundOf(rules, Run(rules, INITIAL, steps), LastTime(clock, steps));
  }
}
