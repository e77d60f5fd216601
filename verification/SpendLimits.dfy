/** Self-set purchase caps: lowering is immediate, raising waits 48 hours and is promoted lazily. */
module SpendLimit {
  import opened Decimal

  // Times and durations in nanoseconds.
  const HOUR: int := 3_600_000_000_000
  const RAISE_DELAY: int := 48 * HOUR

  /** A cap or pending cap of 0 means none; effectiveAt is the due time of the pending raises. */
  datatype SpendLimits = SpendLimits(account: string,
                                     dailyCap: int, weeklyCap: int, monthlyCap: int,
                                     coolingOff: bool, coolingOffUntil: int,
                                     pendingDaily: int, pendingWeekly: int, pendingMonthly: int,
                                     effectiveAt: Option<int>)

  function NoLimits(account: string): SpendLimits {
    SpendLimits(account, 0, 0, 0, false, 0, 0, 0, 0, None)
  }

  datatype Window = Daily | Weekly | Monthly

  function Length(w: Window): int {
    match w
    case Daily => 24 * HOUR
    case Weekly => 7 * 24 * HOUR
    case Monthly => 30 * 24 * HOUR
  }

  function Cap(l: SpendLimits, w: Window): int {
    match w
    case Daily => l.dailyCap
    case Weekly => l.weeklyCap
    case Monthly => l.monthlyCap
  }

  function Pending(l: SpendLimits, w: Window): int {
    match w
    case Daily => l.pendingDaily
    case Weekly => l.pendingWeekly
    case Monthly => l.pendingMonthly
  }

  function ApplyOneCap(current: int, pending: int, requested: int): (int, int) {
    if requested == 0 || requested == current then (current, pending)
    else if current == 0 || requested < current then (requested, 0)
    else (current, requested)
  }

  function ResolvePending(l: SpendLimits, now: int): SpendLimits {
    if l.effectiveAt.None? || now < l.effectiveAt.value then l
    else l.(dailyCap := if l.pendingDaily != 0 then l.pendingDaily else l.dailyCap,
            weeklyCap := if l.pendingWeekly != 0 then l.pendingWeekly else l.weeklyCap,
            monthlyCap := if l.pendingMonthly != 0 then l.pendingMonthly else l.monthlyCap,
            pendingDaily := 0, pendingWeekly := 0, pendingMonthly := 0, effectiveAt := None)
  }

  datatype CapRequest = CapRequest(daily: int, weekly: int, monthly: int, now: int)

  function Requested(r: CapRequest, w: Window): int {
    match w
    case Daily => r.daily
    case Weekly => r.weekly
    case Monthly => r.monthly
  }

  function ApplyCapChange(current: SpendLimits, r: CapRequest): SpendLimits {
    var next := ResolvePending(current, r.now);
    var (daily, pendingDaily) := ApplyOneCap(next.dailyCap, next.pendingDaily, r.daily);
    var (weekly, pendingWeekly) := ApplyOneCap(next.weeklyCap, next.pendingWeekly, r.weekly);
    var (monthly, pendingMonthly) := ApplyOneCap(next.monthlyCap, next.pendingMonthly, r.monthly);
    next.(dailyCap := daily, weeklyCap := weekly, monthlyCap := monthly,
          pendingDaily := pendingDaily, pendingWeekly := pendingWeekly, pendingMonthly := pendingMonthly,
          effectiveAt := if pendingDaily != 0 || pendingWeekly != 0 || pendingMonthly != 0
                         then Some(r.now + RAISE_DELAY) else None)
  }

  // ---- Lazy resolution ----

  /** Resolving early and again later is resolving later. */
  lemma {:induction false} ResolveTwice(l: SpendLimits, t1: int, t2: int)
    requires t1 <= t2
    ensures ResolvePending(ResolvePending(l, t1), t2) == ResolvePending(l, t2)
  {
  }

  datatype Event = Change(request: CapRequest) | Tick(now: int)

  function TimeOf(e: Event): int {
    if e.Change? then e.request.now else e.now
  }

  ghost predicate InTimeOrder(es: seq<Event>) {
    forall i, j :: 0 <= i <= j < |es| ==> TimeOf(es[i]) <= TimeOf(es[j])
  }

  /** The code: nothing happens between requests. */
  function Lazy(l: SpendLimits, es: seq<Event>): SpendLimits {
    if es == [] then l
    else
      var before := Lazy(l, es[..|es| - 1]);
      match es[|es| - 1]
      case Change(r) => ApplyCapChange(before, r)
      case Tick(_) => before
  }

  /** A background job stores the promotion at every tick, in particular at the exact due time. */
  function Eager(l: SpendLimits, es: seq<Event>): SpendLimits {
    if es == [] then l
    else
      var before := Eager(l, es[..|es| - 1]);
      match es[|es| - 1]
      case Change(r) => ApplyCapChange(before, r)
      case Tick(now) => ResolvePending(before, now)
  }

  /** No reader can tell lazy promotion from promotion by a job running at any times at all. */
  lemma {:induction false} LazyIsEager(l: SpendLimits, es: seq<Event>, now: int)
    requires InTimeOrder(es)
    requires es != [] ==> TimeOf(es[|es| - 1]) <= now
    ensures ResolvePending(Lazy(l, es), now) == ResolvePending(Eager(l, es), now)
  {
    if es != [] {
      var before, last := es[..|es| - 1], es[|es| - 1];
      match last
      case Change(r) => LazyIsEager(l, before, r.now);
      case Tick(t) =>
        LazyIsEager(l, before, now);
        ResolveTwice(Eager(l, before), t, now);
    }
  }

  // ---- Runs of cap changes ----

  function CapRun(l: SpendLimits, rs: seq<CapRequest>): SpendLimits {
    if rs == [] then l else ApplyCapChange(CapRun(l, rs[..|rs| - 1]), rs[|rs| - 1])
  }

  ghost predicate Proper(rs: seq<CapRequest>) {
    && (forall i, w :: 0 <= i < |rs| ==> Requested(rs[i], w) >= 0)
    && (forall i, j :: 0 <= i <= j < |rs| ==> rs[i].now <= rs[j].now)
  }

  /** A request of at least `cap` was made 48 hours or more before `now`. */
  ghost predicate AskedInTime(rs: seq<CapRequest>, w: Window, cap: int, now: int) {
    exists i :: 0 <= i < |rs| && Requested(rs[i], w) >= cap && rs[i].now + RAISE_DELAY <= now
  }

  /** A pending raise exceeds the cap it will replace, and falls due no sooner than 48 hours after its request. */
  ghost predicate PendingOK(rs: seq<CapRequest>, l: SpendLimits, w: Window) {
    && 0 <= Cap(l, w) && 0 <= Pending(l, w)
    && (Pending(l, w) != 0 ==> l.effectiveAt.Some? && Pending(l, w) > Cap(l, w) > 0
                               && AskedInTime(rs, w, Pending(l, w), l.effectiveAt.value))
  }

  lemma {:induction false} AskedLater(rs: seq<CapRequest>, r: CapRequest, w: Window, cap: int, t1: int, t2: int)
    requires AskedInTime(rs, w, cap, t1) && t1 <= t2
    ensures AskedInTime(rs + [r], w, cap, t2)
  {
    var i :| 0 <= i < |rs| && Requested(rs[i], w) >= cap && rs[i].now + RAISE_DELAY <= t1;
    assert (rs + [r])[i] == rs[i];
  }

  lemma {:induction false} PendingStep(rs: seq<CapRequest>, r: CapRequest, l: SpendLimits, w: Window)
    requires PendingOK(rs, l, w) && Requested(r, w) >= 0
    requires AskedInTime(rs, w, Pending(l, w), r.now + RAISE_DELAY) || Pending(l, w) == 0
    ensures PendingOK(rs + [r], ApplyCapChange(l, r), w)
  {
    var next := ApplyCapChange(l, r);
    if Pending(next, w) != 0 {
      assert (rs + [r])[|rs|] == r;
      if Pending(l, w) != 0 {
        AskedLater(rs, r, w, Pending(l, w), r.now + RAISE_DELAY, r.now + RAISE_DELAY);
      }
    }
  }

  /** In any run of non-negative requests, whatever is pending exceeds the cap in force. */
  lemma {:induction false} PendingExceedsCap(account: string, rs: seq<CapRequest>, w: Window)
    requires Proper(rs)
    ensures PendingOK(rs, CapRun(NoLimits(account), rs), w)
    ensures Pending(CapRun(NoLimits(account), rs), w) != 0
            ==> rs != [] && CapRun(NoLimits(account), rs).effectiveAt.value <= rs[|rs| - 1].now + RAISE_DELAY
  {
    if rs != [] {
      var before, r := rs[..|rs| - 1], rs[|rs| - 1];
      PendingExceedsCap(account, before, w);
      var l := CapRun(NoLimits(account), before);
      assert rs == before + [r];
      assert Requested(rs[|rs| - 1], w) >= 0;
      if Pending(l, w) != 0 {
        assert before[|before| - 1] == rs[|rs| - 2];
        var i :| 0 <= i < |before| && Requested(before[i], w) >= Pending(l, w)
            && before[i].now + RAISE_DELAY <= l.effectiveAt.value;
        assert AskedInTime(before, w, Pending(l, w), r.now + RAISE_DELAY);
      }
      PendingStep(before, r, l, w);
    }
  }

  /** The cap in force at time t after the first n requests. */
  function CapAt(account: string, rs: seq<CapRequest>, n: nat, w: Window, t: int): int
    requires n <= |rs|
  {
    Cap(ResolvePending(CapRun(NoLimits(account), rs[..n]), t), w)
  }

  /** Time t falls after request n - 1 and not after request n. */
  predicate Between(rs: seq<CapRequest>, n: nat, t: int)
    requires n <= |rs|
  {
    (n > 0 ==> rs[n - 1].now <= t) && (n < |rs| ==> t <= rs[n].now)
  }

  lemma {:induction false} AskedMore(rs: seq<CapRequest>, m: nat, n: nat, w: Window, cap: int, t1: int, t2: int)
    requires m <= n <= |rs| && AskedInTime(rs[..m], w, cap, t1) && t1 <= t2
    ensures AskedInTime(rs[..n], w, cap, t2)
  {
    var i :| 0 <= i < m && Requested(rs[..m][i], w) >= cap && rs[..m][i].now + RAISE_DELAY <= t1;
    assert rs[..n][i] == rs[..m][i];
  }

  /** In any run of non-negative requests, a set cap stays set, and if it is ever above what it was at an
      earlier moment then at least that much was asked for 48 hours or more before. */
  lemma {:induction false} RaisesAreDelayed(account: string, rs: seq<CapRequest>, w: Window, n1: nat, t1: int, n2: nat,
                                            t2: int)
    requires Proper(rs) && n1 <= n2 <= |rs| && t1 <= t2 && Between(rs, n1, t1) && Between(rs, n2, t2)
    requires CapAt(account, rs, n1, w, t1) > 0
    ensures CapAt(account, rs, n2, w, t2) > 0
    ensures CapAt(account, rs, n2, w, t2) > CapAt(account, rs, n1, w, t1)
            ==> AskedInTime(rs[..n2], w, CapAt(account, rs, n2, w, t2), t2)
    decreases n2
  {
    hide AskedInTime, CapRun, PendingOK, CapAt;
    if n1 < n2 {
      var t := rs[n2 - 1].now;
      RaisesAreDelayed(account, rs, w, n1, t1, n2 - 1, t);
      if CapAt(account, rs, n2 - 1, w, t) > CapAt(account, rs, n1, w, t1) {
        AskedMore(rs, n2 - 1, n2, w, CapAt(account, rs, n2 - 1, w, t), t, t2);
      }
      CapFallsOrWaits(account, rs, n2, w, t2);
      if CapAt(account, rs, n2, w, t2) <= CapAt(account, rs, n2 - 1, w, t)
          && CapAt(account, rs, n2 - 1, w, t) > CapAt(account, rs, n1, w, t1) {
        AskedForLess(rs[..n2], w, CapAt(account, rs, n2 - 1, w, t), CapAt(account, rs, n2, w, t2), t2);
      }
    } else {
      CapWaits(account, rs, n2, w, t1, t2);
    }
  }

  lemma {:induction false} AskedForLess(rs: seq<CapRequest>, w: Window, more: int, less: int, now: int)
    requires AskedInTime(rs, w, more, now) && less <= more
    ensures AskedInTime(rs, w, less, now)
  {
    var i :| 0 <= i < |rs| && Requested(rs[i], w) >= more && rs[i].now + RAISE_DELAY <= now;
    assert Requested(rs[i], w) >= less;
  }

  /** While time passes without a request, a set cap only changes by a due raise that was asked for in time. */
  lemma {:induction false} CapWaits(account: string, rs: seq<CapRequest>, n: nat, w: Window, t1: int, t2: int)
    requires Proper(rs) && n <= |rs| && t1 <= t2 && CapAt(account, rs, n, w, t1) > 0
    ensures CapAt(account, rs, n, w, t2) > 0
    ensures CapAt(account, rs, n, w, t2) > CapAt(account, rs, n, w, t1)
            ==> AskedInTime(rs[..n], w, CapAt(account, rs, n, w, t2), t2)
  {
    hide AskedInTime, CapRun;
    assert Proper(rs[..n]);
    PendingExceedsCap(account, rs[..n], w);
    var l := CapRun(NoLimits(account), rs[..n]);
    if Pending(l, w) != 0 && l.effectiveAt.value <= t2 {
      AskedMore(rs, n, n, w, Pending(l, w), l.effectiveAt.value, t2);
    }
  }

  /** Across one request and the wait after it, a set cap stays set and does not rise, unless a raise asked
      for in time has come due. */
  lemma {:induction false} CapFallsOrWaits(account: string, rs: seq<CapRequest>, n: nat, w: Window, t2: int)
    requires Proper(rs) && 0 < n <= |rs| && rs[n - 1].now <= t2
    requires CapAt(account, rs, n - 1, w, rs[n - 1].now) > 0
    ensures CapAt(account, rs, n, w, t2) > 0
    ensures CapAt(account, rs, n, w, t2) <= CapAt(account, rs, n - 1, w, rs[n - 1].now)
            || AskedInTime(rs[..n], w, CapAt(account, rs, n, w, t2), t2)
  {
    assert Proper(rs[..n]);
    PendingExceedsCap(account, rs[..n], w);
    assert rs[..n][..n - 1] == rs[..n - 1];
    var l := CapRun(NoLimits(account), rs[..n]);
    assert Requested(rs[n - 1], w) >= 0;
    if Pending(l, w) != 0 && l.effectiveAt.value <= t2 {
      AskedMore(rs, n, n, w, Pending(l, w), l.effectiveAt.value, t2);
    }
  }

  /** A set cap survives a request exactly when the request is not negative; a negative one, treated as a
      lowering, leaves no cap in force. */
  lemma {:induction false} StaysSetExactly(l: SpendLimits, r: CapRequest, w: Window)
    requires Cap(ResolvePending(l, r.now), w) > 0
    ensures Cap(ApplyCapChange(l, r), w) > 0 <==> Requested(r, w) >= 0
  {
  }

  /** The cap a request leaves in force at a later time, if no other follows. */
  function CapAfter(l: SpendLimits, r: CapRequest, w: Window, t: int): int {
    var before := ResolvePending(l, r.now);
    var cap, asked := Cap(before, w), Requested(r, w);
    var due := t >= r.now + RAISE_DELAY;
    if asked == 0 || asked == cap then (if due && Pending(before, w) != 0 then Pending(before, w) else cap)
    else if cap == 0 || asked < cap then asked
    else if due then asked else cap
  }

  /** What a request does to the cap seen from then on, if no other follows: a first cap or a lower one holds at
      once, a higher one after exactly 48 hours. Asking for no change, or for the cap already in force, cancels
      nothing: a raise still pending waits another 48 hours. */
  lemma {:induction false} RequestTakesEffect(l: SpendLimits, r: CapRequest, w: Window, t: int)
    requires t >= r.now
    ensures Cap(ResolvePending(ApplyCapChange(l, r), t), w) == CapAfter(l, r, w, t)
  {
  }

  /** All windows share one due time, so a request that leaves a window alone still restarts the delay of its
      pending raise: the raise that was due at its time takes effect at most 48 hours later than without it. */
  lemma {:induction false} RequestPostponesOthers(l: SpendLimits, r: CapRequest, w: Window, t: int)
    requires Pending(l, w) != 0 && Pending(l, w) != Cap(l, w) && l.effectiveAt.Some? && r.now < l.effectiveAt.value <= t
    requires Requested(r, w) == 0 || Requested(r, w) == Cap(l, w)
    ensures Cap(ResolvePending(l, t), w) == Pending(l, w)
    ensures Cap(ResolvePending(ApplyCapChange(l, r), t), w) == Pending(l, w) <==> t >= r.now + RAISE_DELAY
  {
    var after := ApplyCapChange(l, r);
    assert Pending(after, w) == Pending(l, w) && after.effectiveAt == Some(r.now + RAISE_DELAY);
  }

  /** Asking for a daily cap one hour before a weekly raise is due keeps the old weekly cap for two more days. */
  lemma {:induction false} WeeklyRaisePostponed(account: string, t: int)
    requires 48 * HOUR <= t < 95 * HOUR
    ensures var raise, daily := CapRequest(0, 200, 0, 0), CapRequest(50, 0, 0, 47 * HOUR);
            var first := CapRequest(0, 100, 0, 0);
            && Cap(ResolvePending(CapRun(NoLimits(account), [first, raise]), t), Weekly) == 200
            && Cap(ResolvePending(CapRun(NoLimits(account), [first, raise, daily]), t), Weekly) == 100
  {
    var raise, daily := CapRequest(0, 200, 0, 0), CapRequest(50, 0, 0, 47 * HOUR);
    var first := CapRequest(0, 100, 0, 0);
    assert [first, raise, daily][..2] == [first, raise] && [first, raise][..1] == [first] && [first][..0] == [];
    var l := CapRun(NoLimits(account), [first, raise]);
    assert CapRun(NoLimits(account), [first]) == ApplyCapChange(NoLimits(account), first);
    RequestPostponesOthers(l, daily, Weekly, t);
  }

  /** A cap raised from 100 to 200 at time 0, in any window, is in force from 172800 seconds on and not before. */
  lemma {:induction false} RaiseAfterTwoDays(account: string, w: Window, t: int)
    requires t >= 0
    ensures var l := CapRun(NoLimits(account), [CapRequest(100, 100, 100, 0), CapRequest(200, 200, 200, 0)]);
            Cap(ResolvePending(l, t), w) == if t < 172_800_000_000_000 then 100 else 200
  {
    var first, raise := CapRequest(100, 100, 100, 0), CapRequest(200, 200, 200, 0);
    assert [first, raise][..1] == [first] && [first][..0] == [];
    assert CapRun(NoLimits(account), [first]) == ApplyCapChange(NoLimits(account), first);
    RequestTakesEffect(CapRun(NoLimits(account), [first]), raise, w, t);
  }

  /** Neither time nor a request for caps touches the account or its cooling-off period, and what is pending is due
      48 hours after the last request that left anything pending. */
  lemma {:induction false} OnlyCapsChange(l: SpendLimits, r: CapRequest, now: int)
    ensures var waited := ResolvePending(l, now);
            && waited.account == l.account && waited.coolingOff == l.coolingOff
            && waited.coolingOffUntil == l.coolingOffUntil
    ensures var next := ApplyCapChange(l, r);
            && next.account == l.account && next.coolingOff == l.coolingOff
            && next.coolingOffUntil == l.coolingOffUntil
            && (next.effectiveAt.Some? <==> next.pendingDaily != 0 || next.pendingWeekly != 0
                                            || next.pendingMonthly != 0)
            && (next.effectiveAt.Some? ==> next.effectiveAt == Some(r.now + 172_800_000_000_000))
  {
  }
}
