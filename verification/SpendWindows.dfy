/** Spend caps over sliding windows: what creating orders against self-set caps guarantees for every interval. */
module SpendWindows {
  import opened Decimal
  import opened LedgerRuns
  import opened Orders
  import opened OrderRecovery
  import opened SpendLimit

  /** The clock readings one order creation takes, in the order the code takes them. */
  datatype Clock = Clock(resolve: int, cooling: int, daily: int, weekly: int, monthly: int, create: int) {
    predicate Ticks() {
      resolve <= cooling <= daily <= weekly <= monthly <= create
    }

    function At(w: Window): int {
      match w
      case Daily => daily
      case Weekly => weekly
      case Monthly => monthly
    }
  }

  datatype CreateError = UnknownSKU | CoolingOff | SpendLimitExceeded
  datatype CreateResult = Placed(order: Order) | NotPlaced(error: CreateError)

  /** The order service's stores. `checked` is a history variable: the limits each order was checked against. */
  datatype Shop = Shop(w: World, limits: map<string, SpendLimits>, createByKey: map<string, Order>,
                       checked: map<string, SpendLimits>)

  function LimitsOf(limits: map<string, SpendLimits>, account: string): SpendLimits {
    if account in limits then limits[account] else NoLimits(account)
  }

  predicate Spends(o: Order) {
    o.status != OrderFailed && o.status != Refunded
  }

  /** Coins of the listed orders that still count, created at or after `since`. */
  function SpentSince(repo: OrderRepo, ids: seq<string>, since: int): int
    requires forall i :: 0 <= i < |ids| ==> ids[i] in repo.byID
  {
    if ids == [] then 0
    else
      var o := repo.byID[ids[|ids| - 1]];
      SpentSince(repo, ids[..|ids| - 1], since) + if Spends(o) && o.createdAt >= since then o.coins else 0
  }

  predicate Listed(repo: OrderRepo) {
    forall a :: a in repo.byAccount ==> forall i :: 0 <= i < |repo.byAccount[a]| ==> repo.byAccount[a][i] in repo.byID
  }

  /** Every order is listed exactly once, under its own account. */
  ghost predicate ListsExact(repo: OrderRepo) {
    && (forall a, i :: 0 <= i < |OrdersOf(repo, a)|
          ==> OrdersOf(repo, a)[i] in repo.byID && repo.byID[OrdersOf(repo, a)[i]].account == a)
    && (forall a, i, j :: 0 <= i < j < |OrdersOf(repo, a)| ==> OrdersOf(repo, a)[i] != OrdersOf(repo, a)[j])
    && (forall x :: x in repo.byID ==> x in OrdersOf(repo, repo.byID[x].account))
  }

  predicate Exceeds(repo: OrderRepo, l: SpendLimits, account: string, coins: int, clock: Clock, w: Window)
    requires Listed(repo)
  {
    Cap(l, w) > 0 && SpentSince(repo, OrdersOf(repo, account), clock.At(w) - Length(w)) + coins > Cap(l, w)
  }

  function CheckLimits(repo: OrderRepo, limits: map<string, SpendLimits>, account: string, coins: int,
                       clock: Clock): Option<CreateError>
    requires Listed(repo)
  {
    var l := ResolvePending(LimitsOf(limits, account), clock.resolve);
    if l.coolingOff && clock.cooling < l.coolingOffUntil then Some(CoolingOff)
    else if Exceeds(repo, l, account, coins, clock, Daily) || Exceeds(repo, l, account, coins, clock, Weekly)
            || Exceeds(repo, l, account, coins, clock, Monthly) then Some(SpendLimitExceeded)
    else None
  }

  function Purchase(s: Shop, account: string, sku: string, platform: string, key: string,
                    clock: Clock): (Shop, CreateResult)
    requires Listed(s.w.repo)
  {
    if key in s.createByKey then (s, Placed(s.createByKey[key]))
    else if CoinsOf(sku).None? then (s, NotPlaced(UnknownSKU))
    else
      match CheckLimits(s.w.repo, s.limits, account, CoinsOf(sku).value, clock)
      case Some(error) => (s, NotPlaced(error))
      case None =>
        var (repo, o) := CreateOrder(s.w.repo, account, sku, platform, clock.create);
        (Shop(s.w.(repo := repo), s.limits, s.createByKey[key := o.value],
              s.checked[o.value.id := ResolvePending(LimitsOf(s.limits, account), clock.resolve)]),
         Placed(o.value))
  }

  // ---- Invariant ----

  /** The coins that still count in the window ending at the n-th listed order are within that order's cap. */
  predicate WithinCap(repo: OrderRepo, checked: map<string, SpendLimits>, ids: seq<string>, n: nat, w: Window)
    requires n < |ids| && ids[n] in checked && forall i :: 0 <= i <= n ==> ids[i] in repo.byID
  {
    var cap := Cap(checked[ids[n]], w);
    cap > 0 ==> SpentSince(repo, ids[..n + 1], repo.byID[ids[n]].createdAt - Length(w)) <= cap
  }

  ghost predicate WindowsOK(s: Shop, account: string) {
    var ids := OrdersOf(s.w.repo, account);
    && (forall n :: 0 <= n < |ids| ==> ids[n] in s.w.repo.byID && ids[n] in s.checked)
    && (forall n, w :: 0 <= n < |ids| ==> WithinCap(s.w.repo, s.checked, ids, n, w))
  }

  ghost predicate ShopOK(s: Shop) {
    && WorldOK(s.w) && TokensOK(s.w.repo) && Listed(s.w.repo) && ListsExact(s.w.repo)
    && (forall a :: WindowsOK(s, a))
  }

  lemma {:induction false} EarlierSinceSpendsMore(repo: OrderRepo, ids: seq<string>, since: int, since': int)
    requires forall i :: 0 <= i < |ids| ==> ids[i] in repo.byID
    requires RepoOK(repo) && since <= since'
    ensures SpentSince(repo, ids, since') <= SpentSince(repo, ids, since)
  {
    if ids != [] {
      EarlierSinceSpendsMore(repo, ids[..|ids| - 1], since, since');
    }
  }

  /** Spending only shrinks when orders move forward: failed is absorbing. */
  lemma {:induction false} ForwardSpendsLess(repo: OrderRepo, repo': OrderRepo, ids: seq<string>, since: int)
    requires forall i :: 0 <= i < |ids| ==> ids[i] in repo.byID && ids[i] in repo'.byID
    requires RepoOK(repo) && ForwardAll(repo, repo')
    requires forall x :: x in repo.byID && x in repo'.byID ==> SameOrder(repo.byID[x], repo'.byID[x])
    ensures SpentSince(repo', ids, since) <= SpentSince(repo, ids, since)
  {
    if ids != [] {
      var last := ids[|ids| - 1];
      ForwardSpendsLess(repo, repo', ids[..|ids| - 1], since);
      assert Terminal(repo.byID[last].status) ==> repo'.byID[last] == repo.byID[last];
      assert SameOrder(repo.byID[last], repo'.byID[last]);
    }
  }

  lemma {:induction false} SpentUnchanged(repo: OrderRepo, repo': OrderRepo, ids: seq<string>, since: int)
    requires forall i :: 0 <= i < |ids| ==> ids[i] in repo.byID && ids[i] in repo'.byID
                                            && repo'.byID[ids[i]] == repo.byID[ids[i]]
    ensures SpentSince(repo', ids, since) == SpentSince(repo, ids, since)
  {
    if ids != [] {
      SpentUnchanged(repo, repo', ids[..|ids| - 1], since);
    }
  }

  lemma {:induction false} ForwardWithinCap(repo: OrderRepo, repo': OrderRepo, checked: map<string, SpendLimits>,
                                            ids: seq<string>, n: nat, w: Window)
    requires n < |ids| && ids[n] in checked && forall i :: 0 <= i <= n ==> ids[i] in repo.byID && ids[i] in repo'.byID
    requires WithinCap(repo, checked, ids, n, w)
    requires RepoOK(repo) && ForwardAll(repo, repo')
    requires forall x :: x in repo.byID && x in repo'.byID ==> SameOrder(repo.byID[x], repo'.byID[x])
    ensures WithinCap(repo', checked, ids, n, w)
  {
    hide SpentSince, RepoOK, ForwardAll;
    ForwardSpendsLess(repo, repo', ids[..n + 1], repo.byID[ids[n]].createdAt - Length(w));
    assert SameOrder(repo.byID[ids[n]], repo'.byID[ids[n]]);
  }

  /** Placing an order leaves the windows of the orders before it alone. */
  lemma {:induction false} OldWithinCap(repo: OrderRepo, repo': OrderRepo, checked: map<string, SpendLimits>,
                                        checked': map<string, SpendLimits>, ids: seq<string>, ids': seq<string>, n: nat,
                                        w: Window)
    requires n < |ids| && ids <= ids' && ids[n] in checked && ids[n] in checked' && checked'[ids[n]] == checked[ids[n]]
    requires forall i :: 0 <= i <= n ==> ids[i] in repo.byID && ids[i] in repo'.byID
                                         && repo'.byID[ids[i]] == repo.byID[ids[i]]
    requires WithinCap(repo, checked, ids, n, w)
    ensures WithinCap(repo', checked', ids', n, w)
  {
    hide SpentSince;
    assert ids'[..n + 1] == ids[..n + 1];
    SpentUnchanged(repo, repo', ids[..n + 1], repo.byID[ids[n]].createdAt - Length(w));
  }

  /** The order just placed, checked at `at` and stamped no earlier, is within its cap. */
  lemma {:induction false} NewWithinCap(repo: OrderRepo, repo': OrderRepo, checked: map<string, SpendLimits>,
                                        ids: seq<string>, o: Order, at: int, w: Window)
    requires forall i :: 0 <= i < |ids| ==> ids[i] in repo.byID && ids[i] in repo'.byID
                                            && repo'.byID[ids[i]] == repo.byID[ids[i]]
    requires RepoOK(repo) && o.id in repo'.byID && repo'.byID[o.id] == o && o.id in checked && at <= o.createdAt
             && Spends(o)
    requires Cap(checked[o.id], w) > 0 ==> SpentSince(repo, ids, at - Length(w)) + o.coins <= Cap(checked[o.id], w)
    ensures WithinCap(repo', checked, ids + [o.id], |ids|, w)
  {
    var ids' := ids + [o.id];
    var since := o.createdAt - Length(w);
    assert ids'[..|ids| + 1] == ids' && ids'[..|ids'| - 1] == ids;
    SpentUnchanged(repo, repo', ids, since);
    EarlierSinceSpendsMore(repo, ids, at - Length(w), since);
  }

  lemma {:induction false} PurchaseKeeps(s: Shop, account: string, sku: string, platform: string, key: string,
                                         clock: Clock)
    requires ShopOK(s) && clock.Ticks()
    ensures ShopOK(Purchase(s, account, sku, platform, key, clock).0)
  {
    hide WorldOK, TokensOK, CheckLimits, CoinsOf, ResolvePending, ListsExact, WindowsOK;
    var s' := Purchase(s, account, sku, platform, key, clock).0;
    if s' != s {
      NewOrderKeeps(s.w, account, sku, platform, clock.create);
      PlaceForward(s.w, account, sku, platform, clock.create);
      NewOrderRepoFacts(s.w, account, sku, platform, clock.create);
      NewOrderListed(s.w.repo, s'.w.repo, NewOrderRecord(s.w.repo, account, sku, CoinsOf(sku).value, platform,
                                                         clock.create));
      forall a ensures WindowsOK(s', a) {
        PurchaseKeepsWindows(s, account, sku, platform, key, clock, a);
      }
    }
  }

  lemma {:induction false} NewOrderRepoFacts(w: World, account: string, sku: string, platform: string, now: int)
    requires WorldOK(w) && Listed(w.repo) && CoinsOf(sku).Some?
    ensures var repo' := CreateOrder(w.repo, account, sku, platform, now).0;
            var o := NewOrderRecord(w.repo, account, sku, CoinsOf(sku).value, platform, now);
            && CreateOrder(w.repo, account, sku, platform, now).1 == Some(o)
            && RepoOK(w.repo) && Listed(repo') && o.id !in w.repo.byID && repo'.byID == w.repo.byID[o.id := o]
            && OrdersOf(repo', account) == OrdersOf(w.repo, account) + [o.id]
            && forall a :: a != account ==> OrdersOf(repo', a) == OrdersOf(w.repo, a)
  {
    hide Inv, CoinsOf;
    OrderIdFresh(w.repo);
  }

  lemma {:induction false} NewOrderListed(repo: OrderRepo, repo': OrderRepo, o: Order)
    requires ListsExact(repo) && o.id !in repo.byID && repo'.byID == repo.byID[o.id := o]
    requires OrdersOf(repo', o.account) == OrdersOf(repo, o.account) + [o.id]
    requires forall a :: a != o.account ==> OrdersOf(repo', a) == OrdersOf(repo, a)
    ensures ListsExact(repo')
  {
    hide OrdersOf;
    forall a, i | 0 <= i < |OrdersOf(repo', a)|
      ensures OrdersOf(repo', a)[i] in repo'.byID && repo'.byID[OrdersOf(repo', a)[i]].account == a
    {
      if i < |OrdersOf(repo, a)| { assert OrdersOf(repo', a)[i] == OrdersOf(repo, a)[i]; }
    }
    forall a, i, j | 0 <= i < j < |OrdersOf(repo', a)|
      ensures OrdersOf(repo', a)[i] != OrdersOf(repo', a)[j]
    {
      assert OrdersOf(repo', a)[i] == OrdersOf(repo, a)[i];
    }
    forall x | x in repo'.byID
      ensures x in OrdersOf(repo', repo'.byID[x].account)
    {
      if x == o.id { assert OrdersOf(repo', o.account)[|OrdersOf(repo, o.account)|] == x; }
      else { assert x in OrdersOf(repo, repo.byID[x].account); }
    }
  }

  lemma {:induction false} PurchaseKeepsWindows(s: Shop, account: string, sku: string, platform: string, key: string,
                                                clock: Clock, a: string)
    requires ShopOK(s) && clock.Ticks()
    requires key !in s.createByKey && CoinsOf(sku).Some?
             && CheckLimits(s.w.repo, s.limits, account, CoinsOf(sku).value, clock).None?
    ensures WindowsOK(Purchase(s, account, sku, platform, key, clock).0, a)
  {
    hide WorldOK, RepoOK, TokensOK, CoinsOf, ResolvePending, WithinCap, SpentSince, CreateOrder, Listed, OrdersOf;
    var repo, s' := s.w.repo, Purchase(s, account, sku, platform, key, clock).0;
    NewOrderRepoFacts(s.w, account, sku, platform, clock.create);
    var o := NewOrderRecord(repo, account, sku, CoinsOf(sku).value, platform, clock.create);
    assert WindowsOK(s, a);
    var ids, ids' := OrdersOf(repo, a), OrdersOf(s'.w.repo, a);
    forall n, w | 0 <= n < |ids'|
      ensures ids'[n] in s'.w.repo.byID && ids'[n] in s'.checked && WithinCap(s'.w.repo, s'.checked, ids', n, w)
    {
      if n < |ids| {
        assert ids[n] == ids'[n];
        OldWithinCap(repo, s'.w.repo, s.checked, s'.checked, ids, ids', n, w);
      } else {
        assert !Exceeds(repo, ResolvePending(LimitsOf(s.limits, account), clock.resolve), account, o.coins, clock, w);
        NewWithinCap(repo, s'.w.repo, s'.checked, ids, o, clock.At(w), w);
      }
    }
  }

  // ---- Runs ----

  datatype ShopOp =
    | Buy(account: string, sku: string, platform: string, key: string, clock: Clock)
    | SetLimits(limits: SpendLimits)
    | Attempt(id: string, token: string, verdict: Verdict, now: int, steps: nat)
    | OtherTraffic(op: Op)

  predicate Permitted(op: ShopOp) {
    match op
    case Buy(_, _, _, _, clock) => clock.Ticks()
    case SetLimits(_) => true
    case Attempt(_, _, _, _, _) => true
    case OtherTraffic(traffic) => Legal(Elsewhere(traffic))
  }

  function Do(s: Shop, op: ShopOp): Shop
    requires Listed(s.w.repo)
  {
    match op
    case Buy(account, sku, platform, key, clock) => Purchase(s, account, sku, platform, key, clock).0
    case SetLimits(l) => s.(limits := s.limits[l.account := l])
    case Attempt(id, token, verdict, now, steps) => s.(w := Serve(s.w, CallOn(id, token, verdict, now, steps)))
    case OtherTraffic(op) => s.(w := Serve(s.w, Traffic(op)))
  }

  lemma {:induction false} ServeKeepsOrders(w: World, q: Request)
    requires WorldOK(w) && TokensOK(w.repo) && Allowed(q) && !q.Place?
    ensures Serve(w, q).repo.byAccount == w.repo.byAccount && ForwardAll(w.repo, Serve(w, q).repo)
    ensures RepoOK(w.repo) && Serve(w, q).repo.byID.Keys == w.repo.byID.Keys
    ensures forall x :: x in w.repo.byID && x in Serve(w, q).repo.byID
              ==> SameOrder(w.repo.byID[x], Serve(w, q).repo.byID[x])
  {
    hide TokensOK, MicroN, Apply, Inv, CreditsOrder, PaidBy;
    ServeForward(w, q);
    if q.CallOn? && q.id in w.repo.byID {
      CallKeepsIds(w, OrderRecovery.StartOf(w, q.id, q.token), q.verdict, q.now, q.steps);
      StartIsCurrent(w, q.id, q.token);
      CallExtends(w, OrderRecovery.StartOf(w, q.id, q.token), q.verdict, q.now, q.steps);
    }
  }

  lemma {:induction false} CallExtends(w: World, c: Call, verdict: Verdict, now: int, n: nat)
    requires WorldOK(w) && CopyOK(w, c.order)
    ensures WorldOK(MicroN(w, c, verdict, now, n).0) && Extends(w, MicroN(w, c, verdict, now, n).0)
    ensures CopyOK(MicroN(w, c, verdict, now, n).0, MicroN(w, c, verdict, now, n).1.order)
  {
    hide WorldOK, CopyOK, Micro;
    if n > 0 {
      CallExtends(w, c, verdict, now, n - 1);
      MicroKeeps(MicroN(w, c, verdict, now, n - 1).0, MicroN(w, c, verdict, now, n - 1).1, verdict, now);
    }
  }

  lemma {:induction false} DoKeeps(s: Shop, op: ShopOp)
    requires ShopOK(s) && Permitted(op)
    ensures ShopOK(Do(s, op))
  {
    hide WorldOK, TokensOK, Purchase, Serve;
    match op
    case Buy(account, sku, platform, key, clock) => PurchaseKeeps(s, account, sku, platform, key, clock);
    case SetLimits(l) =>
      forall a ensures WindowsOK(Do(s, op), a) { assert WindowsOK(s, a); }
    case Attempt(id, token, verdict, now, steps) => ServeKeeps(s, CallOn(id, token, verdict, now, steps));
    case OtherTraffic(traffic) => ServeKeeps(s, Traffic(traffic));
  }

  lemma {:induction false} ServeKeeps(s: Shop, q: Request)
    requires ShopOK(s) && Allowed(q) && !q.Place?
    ensures ShopOK(s.(w := Serve(s.w, q)))
  {
    hide WorldOK, RepoOK, TokensOK, Serve, WithinCap, ForwardAll, ListsExact;
    ServeForward(s.w, q);
    ServeKeepsOrders(s.w, q);
    var s' := s.(w := Serve(s.w, q));
    ListsKept(s.w.repo, s'.w.repo);
    forall a ensures WindowsOK(s', a) {
      assert WindowsOK(s, a);
      var ids := OrdersOf(s.w.repo, a);
      forall n, w | 0 <= n < |ids|
        ensures WithinCap(s'.w.repo, s'.checked, ids, n, w)
      {
        ForwardWithinCap(s.w.repo, s'.w.repo, s.checked, ids, n, w);
      }
    }
  }

  lemma {:induction false} ListsKept(repo: OrderRepo, repo': OrderRepo)
    requires ListsExact(repo) && repo'.byAccount == repo.byAccount && repo'.byID.Keys == repo.byID.Keys
    requires forall x :: x in repo.byID && x in repo'.byID ==> SameOrder(repo.byID[x], repo'.byID[x])
    ensures ListsExact(repo')
    ensures forall x :: x in repo.byID <==> x in repo'.byID
  {
    assert forall a :: OrdersOf(repo', a) == OrdersOf(repo, a);
    assert forall x :: x in repo.byID ==> x in repo'.byID.Keys;
    assert forall x :: x in repo.byID ==> SameOrder(repo.byID[x], repo'.byID[x]);
  }

  const EMPTY_SHOP: Shop := Shop(START.w, map[], map[], map[])

  /** The shop after any permitted operations: its invariant always holds. */
  ghost function RunShop(ops: seq<ShopOp>): (s: Shop)
    requires forall i :: 0 <= i < |ops| ==> Permitted(ops[i])
    ensures ShopOK(s)
  {
    if ops == [] then
      EmptyShopOK();
      EMPTY_SHOP
    else
      var before := RunShop(ops[..|ops| - 1]);
      DoKeeps(before, ops[|ops| - 1]);
      Do(before, ops[|ops| - 1])
  }

  lemma {:induction false} EmptyShopOK()
    ensures ShopOK(EMPTY_SHOP)
  {
    RunKeeps([]);
  }

  // ---- Every interval ----

  /** Coins of the listed orders that still count, created within the closed interval [from, to]. */
  function SpentWithin(repo: OrderRepo, ids: seq<string>, from: int, to: int): int
    requires forall i :: 0 <= i < |ids| ==> ids[i] in repo.byID
  {
    if ids == [] then 0
    else
      var o := repo.byID[ids[|ids| - 1]];
      SpentWithin(repo, ids[..|ids| - 1], from, to)
      + if o.status !in {OrderFailed, Refunded} && from <= o.createdAt <= to then o.coins else 0
  }

  lemma {:induction false} WithinIsSince(repo: OrderRepo, ids: seq<string>, from: int, to: int, since: int)
    requires forall i :: 0 <= i < |ids| ==> ids[i] in repo.byID
    requires RepoOK(repo) && since <= from
    ensures SpentWithin(repo, ids, from, to) <= SpentSince(repo, ids, since)
  {
    if ids != [] {
      WithinIsSince(repo, ids[..|ids| - 1], from, to, since);
    }
  }

  lemma {:induction false} NoneAfter(repo: OrderRepo, ids: seq<string>, from: int, to: int, n: nat)
    requires forall i :: 0 <= i < |ids| ==> ids[i] in repo.byID
    requires n <= |ids| && forall i :: n <= i < |ids| ==> !(from <= repo.byID[ids[i]].createdAt <= to)
    ensures SpentWithin(repo, ids, from, to) == SpentWithin(repo, ids[..n], from, to)
  {
    if n == |ids| {
      assert ids[..n] == ids;
    } else {
      assert ids[..|ids| - 1][..n] == ids[..n];
      NoneAfter(repo, ids[..|ids| - 1], from, to, n);
    }
  }

  /** An interval whose last listed order is the n-th, as long as that order's window. */
  lemma {:induction false} IntervalAtOrder(repo: OrderRepo, checked: map<string, SpendLimits>, ids: seq<string>, n: nat,
                                           w: Window, from: int)
    requires n < |ids| && ids[n] in checked && RepoOK(repo) && forall i :: 0 <= i < |ids| ==> ids[i] in repo.byID
    requires WithinCap(repo, checked, ids, n, w) && Cap(checked[ids[n]], w) > 0
    requires from <= repo.byID[ids[n]].createdAt <= from + Length(w)
    requires forall i :: n < i < |ids| ==> !(from <= repo.byID[ids[i]].createdAt <= from + Length(w))
    ensures SpentWithin(repo, ids, from, from + Length(w)) <= Cap(checked[ids[n]], w)
  {
    hide SpentSince, SpentWithin, RepoOK;
    NoneAfter(repo, ids, from, from + Length(w), n + 1);
    WithinIsSince(repo, ids[..n + 1], from, from + Length(w), repo.byID[ids[n]].createdAt - Length(w));
  }

  lemma {:induction false} ShopFacts(s: Shop, account: string)
    requires ShopOK(s)
    ensures RepoOK(s.w.repo) && WindowsOK(s, account)
    ensures forall x :: x in s.w.repo.byID ==> (x in OrdersOf(s.w.repo, account)
                                                <==> s.w.repo.byID[x].account == account)
    ensures forall i, j :: 0 <= i < j < |OrdersOf(s.w.repo, account)|
              ==> OrdersOf(s.w.repo, account)[i] != OrdersOf(s.w.repo, account)[j]
  {
    hide OrdersOf;
  }

  /** In every run of purchases, verifications, retries and cap changes: over any closed interval as long as a
      cap's window, the coins of the account's orders placed in it that have not failed are within the cap that was
      in force when the last of those orders was placed. The list summed over holds every order of the account,
      once. */
  lemma {:induction false} IntervalWithinCap(ops: seq<ShopOp>, account: string, w: Window, from: int, n: nat)
    requires forall i :: 0 <= i < |ops| ==> Permitted(ops[i])
    requires n < |OrdersOf(RunShop(ops).w.repo, account)|
    ensures var s := RunShop(ops);
            var ids := OrdersOf(s.w.repo, account);
            var to := from + Length(w);
            && (forall i :: 0 <= i < |ids| ==> ids[i] in s.w.repo.byID)
            && (forall x :: x in s.w.repo.byID ==> (x in ids <==> s.w.repo.byID[x].account == account))
            && (forall i, j :: 0 <= i < j < |ids| ==> ids[i] != ids[j])
            && ids[n] in s.checked
            && (from <= s.w.repo.byID[ids[n]].createdAt <= to
                && (forall i :: n < i < |ids| ==> !(from <= s.w.repo.byID[ids[i]].createdAt <= to))
                && Cap(s.checked[ids[n]], w) > 0
                ==> SpentWithin(s.w.repo, ids, from, to) <= Cap(s.checked[ids[n]], w))
  {
    hide ShopOK, RepoOK, WithinCap, SpentWithin, RunShop, OrdersOf;
    var s := RunShop(ops);
    ShopFacts(s, account);
    var ids := OrdersOf(s.w.repo, account);
    var at := s.w.repo.byID[ids[n]].createdAt;
    if from <= at <= from + Length(w)
       && (forall i :: n < i < |ids| ==> !(from <= s.w.repo.byID[ids[i]].createdAt <= from + Length(w)))
       && Cap(s.checked[ids[n]], w) > 0 {
      IntervalAtOrder(s.w.repo, s.checked, ids, n, w, from);
    }
  }

  // ---- One order per key ----

  /** Each remembered key names its own order, as placed, and every order has a key. */
  ghost predicate KeysOK(s: Shop) {
    && (forall k :: k in s.createByKey ==> s.createByKey[k].id in s.w.repo.byID
                                           && SameOrder(s.createByKey[k], s.w.repo.byID[s.createByKey[k].id]))
    && (forall k, j :: k in s.createByKey && j in s.createByKey && s.createByKey[k].id == s.createByKey[j].id
          ==> k == j)
    && (forall x :: x in s.w.repo.byID ==> Keyed(s.createByKey, x))
  }

  /** Some key remembers the order. */
  ghost predicate Keyed(createByKey: map<string, Order>, x: string) {
    exists k :: k in createByKey && createByKey[k].id == x
  }

  lemma {:induction false} KeyedLater(createByKey: map<string, Order>, key: string, o: Order, x: string)
    requires key !in createByKey && (Keyed(createByKey, x) || x == o.id)
    ensures Keyed(createByKey[key := o], x)
  {
    var later := createByKey[key := o];
    if x == o.id {
      assert key in later && later[key].id == x;
    } else {
      var k :| k in createByKey && createByKey[k].id == x;
      assert k in later && later[k].id == x;
    }
  }

  lemma {:induction false} KeysAppend(s: Shop, s': Shop, key: string, o: Order)
    requires KeysOK(s) && key !in s.createByKey && o.id !in s.w.repo.byID
    requires s'.createByKey == s.createByKey[key := o] && s'.w.repo.byID == s.w.repo.byID[o.id := o]
    ensures KeysOK(s')
  {
    hide Keyed;
    forall x | x in s'.w.repo.byID
      ensures Keyed(s'.createByKey, x)
    {
      KeyedLater(s.createByKey, key, o, x);
    }
  }

  /** A purchase changes nothing, or places one order under its key. */
  lemma {:induction false} PurchasePlaces(s: Shop, account: string, sku: string, platform: string, key: string,
                                          clock: Clock)
    requires ShopOK(s)
    ensures Listed(s.w.repo)
    ensures var (s', r) := Purchase(s, account, sku, platform, key, clock);
            || s' == s
            || (&& key !in s.createByKey && r.Placed? && r.order.id !in s.w.repo.byID
                && s'.createByKey == s.createByKey[key := r.order]
                && s'.w.repo.byID == s.w.repo.byID[r.order.id := r.order])
  {
    assert WorldOK(s.w) && Listed(s.w.repo);
    hide ShopOK, WorldOK, CheckLimits, CoinsOf, ResolvePending, Listed, RepoOK, CreateOrder;
    if CoinsOf(sku).Some? { NewOrderRepoFacts(s.w, account, sku, platform, clock.create); }
  }

  lemma {:induction false} PurchaseKeepsKeys(s: Shop, account: string, sku: string, platform: string, key: string,
                                             clock: Clock)
    requires ShopOK(s) && KeysOK(s)
    ensures Listed(s.w.repo)
    ensures var s' := Purchase(s, account, sku, platform, key, clock).0;
            && KeysOK(s')
            && forall k :: k in s.createByKey ==> k in s'.createByKey && s'.createByKey[k] == s.createByKey[k]
  {
    hide ShopOK, KeysOK, Purchase;
    PurchasePlaces(s, account, sku, platform, key, clock);
    var (s', r) := Purchase(s, account, sku, platform, key, clock);
    if s' != s {
      KeysAppend(s, s', key, r.order);
    }
  }

  lemma {:induction false} ServeKeepsKeys(s: Shop, q: Request)
    requires ShopOK(s) && KeysOK(s) && Allowed(q) && !q.Place?
    ensures KeysOK(s.(w := Serve(s.w, q)))
  {
    hide WorldOK, TokensOK, WindowsOK, ListsExact, Serve, ForwardAll, RepoOK;
    ServeKeepsOrders(s.w, q);
    var s' := s.(w := Serve(s.w, q));
    assert forall x :: x in s.w.repo.byID.Keys <==> x in s'.w.repo.byID.Keys;
    forall k | k in s.createByKey
      ensures SameOrder(s.createByKey[k], s'.w.repo.byID[s.createByKey[k].id])
    {
      assert SameOrder(s.w.repo.byID[s.createByKey[k].id], s'.w.repo.byID[s.createByKey[k].id]);
    }
  }

  lemma {:induction false} DoKeepsKeys(s: Shop, op: ShopOp)
    requires ShopOK(s) && KeysOK(s) && Permitted(op)
    ensures KeysOK(Do(s, op))
    ensures forall k :: k in s.createByKey ==> k in Do(s, op).createByKey
                                               && Do(s, op).createByKey[k] == s.createByKey[k]
  {
    hide ShopOK, Purchase, Serve;
    ListedIn(s);
    match op
    case Buy(account, sku, platform, key, clock) => PurchaseKeepsKeys(s, account, sku, platform, key, clock);
    case SetLimits(l) =>
    case Attempt(id, token, verdict, now, steps) => ServeKeepsKeys(s, CallOn(id, token, verdict, now, steps));
    case OtherTraffic(traffic) => ServeKeepsKeys(s, Traffic(traffic));
  }

  lemma {:induction false} ListedIn(s: Shop)
    requires ShopOK(s)
    ensures Listed(s.w.repo)
  {
  }

  lemma {:induction false} RunKeepsKeys(ops: seq<ShopOp>)
    requires forall i :: 0 <= i < |ops| ==> Permitted(ops[i])
    ensures KeysOK(RunShop(ops))
  {
    hide ShopOK, Do, KeysOK;
    if ops == [] {
      NoKeys();
    } else {
      RunKeepsKeys(ops[..|ops| - 1]);
      ListedIn(RunShop(ops[..|ops| - 1]));
      DoKeepsKeys(RunShop(ops[..|ops| - 1]), ops[|ops| - 1]);
    }
  }

  lemma {:induction false} NoKeys()
    ensures KeysOK(EMPTY_SHOP)
  {
  }

  /** What a run has remembered under a key stays. */
  lemma {:induction false} KeysKept(ops: seq<ShopOp>, n: nat)
    requires n <= |ops| && forall i :: 0 <= i < |ops| ==> Permitted(ops[i])
    ensures forall k :: k in RunShop(ops[..n]).createByKey
                        ==> k in RunShop(ops).createByKey
                            && RunShop(ops).createByKey[k] == RunShop(ops[..n]).createByKey[k]
  {
    hide ShopOK, Do, KeysOK;
    if n == |ops| {
      assert ops[..n] == ops;
    } else {
      var last := |ops| - 1;
      assert ops[..last][..n] == ops[..n];
      KeysKept(ops[..last], n);
      RunKeepsKeys(ops[..last]);
      ListedIn(RunShop(ops[..last]));
      DoKeepsKeys(RunShop(ops[..last]), ops[last]);
    }
  }

  /** Once a purchase under a key is answered with an order, every later purchase under that key, after any permitted
      operations and whatever it asks for, is answered with the order as placed and leaves the shop as it is. */
  lemma {:induction false} KeyAnswersOnce(ops: seq<ShopOp>, n: nat, account: string, sku: string, platform: string,
                                          clock: Clock)
    requires n < |ops| && ops[n].Buy? && forall i :: 0 <= i < |ops| ==> Permitted(ops[i])
    requires Purchase(RunShop(ops[..n]), ops[n].account, ops[n].sku, ops[n].platform, ops[n].key,
                      ops[n].clock).1.Placed?
    ensures var first := Purchase(RunShop(ops[..n]), ops[n].account, ops[n].sku, ops[n].platform, ops[n].key,
                                  ops[n].clock).1;
            Purchase(RunShop(ops), account, sku, platform, ops[n].key, clock) == (RunShop(ops), first)
  {
    hide ShopOK, KeysOK, CheckLimits, CoinsOf, CreateOrder, ResolvePending;
    assert ops[..n + 1][..n] == ops[..n] && ops[..n + 1][n] == ops[n];
    ListedIn(RunShop(ops[..n]));
    ListedIn(RunShop(ops));
    assert RunShop(ops[..n + 1]) == Do(RunShop(ops[..n]), ops[n]);
    KeysKept(ops, n + 1);
  }

  /** The orders of a run are one for each key it has remembered: no retry ever places a second. */
  lemma {:induction false} OneOrderPerKey(ops: seq<ShopOp>)
    requires forall i :: 0 <= i < |ops| ==> Permitted(ops[i])
    ensures var s := RunShop(ops);
            && (forall x :: x in s.w.repo.byID <==> Keyed(s.createByKey, x))
            && (forall k, j :: k in s.createByKey && j in s.createByKey && s.createByKey[k].id == s.createByKey[j].id
                               ==> k == j)
            && (forall k :: k in s.createByKey ==> SameOrder(s.createByKey[k], s.w.repo.byID[s.createByKey[k].id]))
  {
    hide ShopOK, RunShop, SameOrder;
    RunKeepsKeys(ops);
  }

  // ---- When a purchase is refused ----

  /** Counting from a time is counting the interval up to any time after the last order. */
  lemma {:induction false} SinceIsWithin(repo: OrderRepo, ids: seq<string>, since: int, to: int)
    requires forall i :: 0 <= i < |ids| ==> ids[i] in repo.byID && repo.byID[ids[i]].createdAt <= to
    ensures SpentSince(repo, ids, since) == SpentWithin(repo, ids, since, to)
  {
    if ids != [] {
      SinceIsWithin(repo, ids[..|ids| - 1], since, to);
    }
  }

  /** What an account would have spent in the interval with one more order is over its cap. */
  predicate OverCap(repo: OrderRepo, ids: seq<string>, cap: int, from: int, to: int, coins: int)
    requires forall i :: 0 <= i < |ids| ==> ids[i] in repo.byID
  {
    cap > 0 && SpentWithin(repo, ids, from, to) + coins > cap
  }

  const DAY: int := 86_400_000_000_000  // nanoseconds

  /** A purchase on an unused key of a product in the catalogue is refused during cooling-off, and otherwise exactly
      when it would put the last 24 hours, 7 days or 30 days over the cap set for them. If not refused it places an
      order for that account and product, on the development store if no platform is given. */
  lemma {:induction false} PurchaseExactly(s: Shop, account: string, sku: string, platform: string, key: string,
                                           clock: Clock, to: int)
    requires ShopOK(s) && key !in s.createByKey
    requires forall x :: x in s.w.repo.byID ==> s.w.repo.byID[x].createdAt <= to
    ensures Listed(s.w.repo)
    ensures var (s', r) := Purchase(s, account, sku, platform, key, clock);
            var repo, ids, l := s.w.repo, OrdersOf(s.w.repo, account), LimitsOf(s.limits, account);
            var caps := ResolvePending(l, clock.resolve);
            && (forall i :: 0 <= i < |ids| ==> ids[i] in repo.byID)
            && (if sku !in {"coins_100", "coins_500", "coins_2000"} then s' == s && r == NotPlaced(UnknownSKU)
                else if l.coolingOff && clock.cooling < l.coolingOffUntil then s' == s && r == NotPlaced(CoolingOff)
                else if OverCap(repo, ids, caps.dailyCap, clock.daily - DAY, to, CoinsOf(sku).value)
                        || OverCap(repo, ids, caps.weeklyCap, clock.weekly - 7 * DAY, to, CoinsOf(sku).value)
                        || OverCap(repo, ids, caps.monthlyCap, clock.monthly - 30 * DAY, to, CoinsOf(sku).value)
                then s' == s && r == NotPlaced(SpendLimitExceeded)
                else
                  && r.Placed?
                  && r.order == Order(r.order.id, account, sku, CoinsOf(sku).value,
                                      if platform == "" then "dev_store" else platform, "", Unset, Created, NoReason,
                                      "", clock.create)
                  && r.order.id !in repo.byID && s'.w.repo.byID == repo.byID[r.order.id := r.order]
                  && OrdersOf(s'.w.repo, account) == ids + [r.order.id]
                  && s'.w.book == s.w.book && s'.limits == s.limits)
  {
    assert WorldOK(s.w) && Listed(s.w.repo);
    hide ShopOK, WorldOK, CheckLimits, CoinsOf, ResolvePending, Listed, RepoOK, CreateOrder, SpentWithin;
    KnownProducts(sku);
    ListedIds(s.w.repo, account);
    if CoinsOf(sku).Some? {
      CheckExactly(s.w.repo, s.limits, account, CoinsOf(sku).value, clock, to);
      NewOrderRepoFacts(s.w, account, sku, platform, clock.create);
    }
  }

  lemma {:induction false} ListedIds(repo: OrderRepo, account: string)
    requires Listed(repo)
    ensures forall i :: 0 <= i < |OrdersOf(repo, account)| ==> OrdersOf(repo, account)[i] in repo.byID
  {
  }

  /** An account that has set nothing is never refused, whatever it has spent. */
  lemma {:induction false} NothingSetNothingRefused(repo: OrderRepo, limits: map<string, SpendLimits>, account: string,
                                                    coins: int, clock: Clock)
    requires Listed(repo) && account !in limits
    ensures CheckLimits(repo, limits, account, coins, clock).None?
  {
  }

  lemma {:induction false} CheckExactly(repo: OrderRepo, limits: map<string, SpendLimits>, account: string, coins: int,
                                        clock: Clock, to: int)
    requires Listed(repo) && forall x :: x in repo.byID ==> repo.byID[x].createdAt <= to
    ensures var ids, l := OrdersOf(repo, account), LimitsOf(limits, account);
            var caps := ResolvePending(l, clock.resolve);
            && (forall i :: 0 <= i < |ids| ==> ids[i] in repo.byID)
            && CheckLimits(repo, limits, account, coins, clock)
               == if l.coolingOff && clock.cooling < l.coolingOffUntil then Some(CoolingOff)
                  else if OverCap(repo, ids, caps.dailyCap, clock.daily - DAY, to, coins)
                          || OverCap(repo, ids, caps.weeklyCap, clock.weekly - 7 * DAY, to, coins)
                          || OverCap(repo, ids, caps.monthlyCap, clock.monthly - 30 * DAY, to, coins)
                  then Some(SpendLimitExceeded) else None
  {
    hide SpentSince, SpentWithin;
    var ids := OrdersOf(repo, account);
    SinceIsWithin(repo, ids, clock.daily - DAY, to);
    SinceIsWithin(repo, ids, clock.weekly - 7 * DAY, to);
    SinceIsWithin(repo, ids, clock.monthly - 30 * DAY, to);
  }

  lemma {:induction false} KnownProducts(sku: string)
    ensures CoinsOf(sku).Some? <==> sku in {"coins_100", "coins_500", "coins_2000"}
  {
  }
}
