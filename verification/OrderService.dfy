/** The order service's code: the in-memory order store, the verify-and-credit call, order creation against
    spend limits, and the reconciler's pass. */
module OrderServices {
  import opened Decimal
  import opened Ledger
  import opened LedgerRuns
  import opened MemLedgers
  import opened Orders
  import opened OrderRecovery
  import opened SpendLimit
  import opened SpendWindows

  predicate Matches(o: Order, status: Option<OrderStatus>) {
    status.None? || o.status == status.value
  }

  function OrdersWith(repo: OrderRepo, ids: seq<string>, status: Option<OrderStatus>): seq<Order>
    requires forall i :: 0 <= i < |ids| ==> ids[i] in repo.byID
  {
    if ids == [] then []
    else
      var o := repo.byID[ids[|ids| - 1]];
      OrdersWith(repo, ids[..|ids| - 1], status) + if Matches(o, status) then [o] else []
  }

  lemma {:induction false} NoneWith(repo: OrderRepo, status: Option<OrderStatus>)
    ensures OrdersWith(repo, [], status) == []
  {
  }

  lemma {:induction false} OneMoreWith(repo: OrderRepo, ids: seq<string>, status: Option<OrderStatus>)
    requires ids != [] && forall i :: 0 <= i < |ids| ==> ids[i] in repo.byID
    ensures var o := repo.byID[ids[|ids| - 1]];
            OrdersWith(repo, ids, status) == OrdersWith(repo, ids[..|ids| - 1], status)
                + if Matches(o, status) then [o] else []
  {
  }

  lemma {:induction false} AllOrders(repo: OrderRepo, ids: seq<string>)
    requires forall i :: 0 <= i < |ids| ==> ids[i] in repo.byID
    ensures |OrdersWith(repo, ids, None)| == |ids|
    ensures forall i :: 0 <= i < |ids| ==> OrdersWith(repo, ids, None)[i] == repo.byID[ids[i]]
  {
    if ids != [] {
      AllOrders(repo, ids[..|ids| - 1]);
    }
  }

  lemma {:induction false} WithHolds(repo: OrderRepo, ids: seq<string>, status: Option<OrderStatus>, o: Order)
    requires forall i :: 0 <= i < |ids| ==> ids[i] in repo.byID
    ensures o in OrdersWith(repo, ids, status)
            <==> Matches(o, status) && exists i :: 0 <= i < |ids| && repo.byID[ids[i]] == o
  {
    if ids != [] {
      var last := |ids| - 1;
      WithHolds(repo, ids[..last], status, o);
      assert forall i :: 0 <= i < last ==> ids[..last][i] == ids[i];
    }
  }

  /** When every order is listed once under its own account, a listing shows exactly the orders asked for. */
  lemma {:induction false} ListingIsExact(repo: OrderRepo, account: string, status: Option<OrderStatus>)
    requires Listed(repo) && RepoOK(repo) && ListsExact(repo)
    ensures forall o :: o in OrdersWith(repo, OrdersOf(repo, account), status)
                        <==> o.id in repo.byID && repo.byID[o.id] == o && o.account == account
                             && (status.Some? ==> o.status == status.value)
  {
    hide OrdersWith, Issued;
    var ids := OrdersOf(repo, account);
    forall o: Order
      ensures o in OrdersWith(repo, ids, status)
              <==> o.id in repo.byID && repo.byID[o.id] == o && o.account == account
                   && (status.Some? ==> o.status == status.value)
    {
      WithHolds(repo, ids, status, o);
      if o.id in repo.byID && repo.byID[o.id] == o && o.account == account {
        assert o.id in ids;
      }
    }
  }

  class MemOrderRepo {
    var byID: map<string, Order>
    var byToken: map<TokenHash, string>
    var byAccount: map<string, seq<string>>
    var orderSeq: nat

    function State(): OrderRepo
      reads this
    {
      OrderRepo(byID, byToken, byAccount, orderSeq)
    }

    constructor ()
      ensures State() == EMPTY_REPO
    {
      byID, byToken, byAccount, orderSeq := map[], map[], map[], 0;
    }

    method CreateOrder(account: string, sku: string, platform: string, now: int) returns (order: Option<Order>)
      modifies this
      ensures (State(), order) == Orders.CreateOrder(old(State()), account, sku, platform, now)
    {
      var coins := CoinsOf(sku);
      if coins.None? {
        return None;
      }
      var store := if platform == "" then DEV_STORE else platform;
      orderSeq := orderSeq + 1;
      var o := Order("order-" + Itoa(orderSeq), account, sku, coins.value, store, "", Unset, Created, NoReason, "",
                     now);
      byID := byID[o.id := o];
      byAccount := byAccount[account := (if account in byAccount then byAccount[account] else []) + [o.id]];
      order := Some(o);
    }

    method GetOrder(id: string) returns (order: Option<Order>)
      ensures order == if id in byID then Some(byID[id]) else None
    {
      order := if id in byID then Some(byID[id]) else None;
    }

    /** The ID of the order holding a token hash, if any. */
    method FindByTokenHash(hash: TokenHash) returns (holder: Option<string>)
      ensures holder == if hash in byToken then Some(byToken[hash]) else None
    {
      holder := if hash in byToken then Some(byToken[hash]) else None;
    }

    /** The account's orders in creation order, or those of them with a given status. */
    method ListOrders(account: string, status: Option<OrderStatus>) returns (out: seq<Order>)
      requires Listed(State())
      ensures out == OrdersWith(State(), OrdersOf(State(), account), status)
      ensures RepoOK(State()) && ListsExact(State()) ==>
                forall o :: o in out <==> o.id in byID && byID[o.id] == o && o.account == account
                                          && (status.Some? ==> o.status == status.value)
    {
      hide RepoOK, ListsExact, OrdersWith;
      out := [];
      var ids := if account in byAccount then byAccount[account] else [];
      NoneWith(State(), status);
      for i := 0 to |ids|
        invariant out == OrdersWith(State(), ids[..i], status)
      {
        OneMoreWith(State(), ids[..i + 1], status);
        assert ids[..i + 1][..i] == ids[..i];
        var o := byID[ids[i]];
        if status.None? || o.status == status.value {
          out := out + [o];
        }
      }
      assert ids[..|ids|] == ids;
      if RepoOK(State()) && ListsExact(State()) {
        ListingIsExact(State(), account, status);
      }
    }

    /** The reconciler's queue, in whatever order the map is walked. */
    method ListNonTerminal() returns (out: seq<Order>)
      requires RepoOK(State())
      ensures QueueOf(State(), out)
    {
      out := [];
      var todo := byID.Keys;
      while todo != {}
        invariant todo <= byID.Keys
        invariant forall i :: 0 <= i < |out| ==> out[i].id in byID && out[i].id !in todo && byID[out[i].id] == out[i]
                                                 && NonTerminal(out[i].status)
        invariant forall i, j :: 0 <= i < j < |out| ==> out[i].id != out[j].id
        invariant forall x :: x in byID && x !in todo && NonTerminal(byID[x].status)
                    ==> exists i :: 0 <= i < |out| && out[i].id == x
        decreases todo
      {
        var x :| x in todo;
        todo := todo - {x};
        if NonTerminal(byID[x].status) {
          ghost var before := out;
          out := out + [byID[x]];
          assert out[|before|].id == x;
          assert forall i :: 0 <= i < |before| ==> out[i] == before[i];
        }
      }
    }

    method UpdateOrder(order: Order) returns (found: bool)
      modifies this
      ensures State() == Orders.UpdateOrder(old(State()), order) && found == (order.id in old(byID))
      ensures !found ==> State() == old(State())
    {
      if order.id !in byID {
        return false;
      }
      byID := byID[order.id := order];
      if order.tokenHash != Unset {
        byToken := byToken[order.tokenHash := order.id];
      }
      found := true;
    }
  }

  class OrderService {
    const orders: MemOrderRepo
    const ledger: MemLedger
    var limits: map<string, SpendLimits>
    var createByKey: map<string, Order>
    ghost var checked: map<string, SpendLimits>

    ghost predicate Valid()
      reads this, orders, ledger
    {
      ledger.Valid()
    }

    ghost function Stores(): World
      reads this, orders, ledger
    {
      World(orders.State(), ledger.book)
    }

    ghost function State(): Shop
      reads this, orders, ledger
    {
      Shop(Stores(), limits, createByKey, checked)
    }

    constructor (orders: MemOrderRepo, ledger: MemLedger)
      requires ledger.Valid()
      ensures Valid() && this.orders == orders && this.ledger == ledger
      ensures limits == map[] && createByKey == map[] && checked == map[]
    {
      this.orders, this.ledger := orders, ledger;
      limits, createByKey, checked := map[], map[], map[];
    }

    /** The token check at the head of a call. */
    method CheckToken(order: Order, hash: TokenHash) returns (foreign: bool)
      ensures foreign <==> hash in orders.byToken && orders.byToken[hash] != order.id
    {
      var holder := orders.FindByTokenHash(hash);
      foreign := holder.Some? && holder.value != order.id;
    }

    /** Verify and credit, or resume doing so, on a copy of the order: exactly the steps of the machine. */
    method Advance(start: Order, purchaseToken: string, verdict: Verdict, now: int)
        returns (outcome: Outcome, order: Order)
      requires Valid()
      modifies orders, ledger
      ensures Valid()
      ensures var (w, c) := MicroN(old(Stores()), Call(start, purchaseToken, Begin), verdict, now, STEPS);
              Stores() == w && c.pc == Finished(outcome) && order == c.order
    {
      hide MicroN, Orders.UpdateOrder, PostOrder, Inv;
      ghost var w0, c0 := Stores(), Call(start, purchaseToken, Begin);
      order := start;
      var token := purchaseToken;
      NextStep(w0, c0, verdict, now, 0);
      if order.status == Credited {
        FinishedStays(w0, c0, verdict, now, 1, STEPS);
        return Returned, order;
      }
      if order.status == OrderFailed || order.status == Refunded {
        FinishedStays(w0, c0, verdict, now, 1, STEPS);
        return Refused(OrderTerminal), order;
      }
      if token == "" {
        token := order.token;
      }
      var foreign := CheckToken(order, HashOf(token));
      NextStep(w0, c0, verdict, now, 1);
      if foreign {
        order := order.(status := OrderFailed, reason := TokenConsumed);
        var _ := orders.UpdateOrder(order);
        FinishedStays(w0, c0, verdict, now, 2, STEPS);
        return Refused(TokenAlreadyUsed), order;
      }
      if order.status == Created {
        order := order.(token := token, tokenHash := HashOf(token), status := PendingPayment);
        var found := orders.UpdateOrder(order);
        if !found {
          FinishedStays(w0, c0, verdict, now, 2, STEPS);
          return Refused(OrderNotFound), order;
        }
      }
      outcome, order := VerifyAndCredit(w0, c0, order, token, verdict, now);
    }

    /** From verification on. The ghost parameters say what the call has done so far. */
    method VerifyAndCredit(ghost w0: World, ghost c0: Call, start: Order, token: string, verdict: Verdict, now: int)
        returns (outcome: Outcome, order: Order)
      requires Valid()
      requires MicroN(w0, c0, verdict, now, 2) == (Stores(), Call(start, token, Verify))
      modifies orders, ledger
      ensures Valid()
      ensures MicroN(w0, c0, verdict, now, STEPS) == (Stores(), Call(order, token, Finished(outcome)))
    {
      hide MicroN, Orders.UpdateOrder, PostOrder, Inv;
      order := start;
      ghost var n := 3;
      NextStep(w0, c0, verdict, now, 2);
      NextStep(w0, c0, verdict, now, 3);
      if order.status == PendingPayment {
        match verdict
        case StillPending =>
          order := order.(reason := WaitingForStore);
          var _ := orders.UpdateOrder(order);
          FinishedStays(w0, c0, verdict, now, 4, STEPS);
          return Returned, order;
        case InvalidToken =>
          order := order.(status := OrderFailed, reason := InvalidPurchaseToken);
          var _ := orders.UpdateOrder(order);
          FinishedStays(w0, c0, verdict, now, 4, STEPS);
          return Refused(TokenInvalid), order;
        case VerifierError =>
          FinishedStays(w0, c0, verdict, now, 3, STEPS);
          return Refused(VerifierFailed), order;
        case Confirmed =>
          order := order.(status := Paid, reason := PaymentConfirmed);
          var found := orders.UpdateOrder(order);
          n := 4;
          if !found {
            FinishedStays(w0, c0, verdict, now, 4, STEPS);
            return Refused(OrderNotFound), order;
          }
      }
      outcome, order := CreditIfPaid(w0, c0, n, order, token, verdict, now);
    }

    /** From the crediting checkpoint on. */
    method CreditIfPaid(ghost w0: World, ghost c0: Call, ghost n: nat, start: Order, token: string, verdict: Verdict,
                        now: int) returns (outcome: Outcome, order: Order)
      requires Valid() && n <= 4
      requires MicroN(w0, c0, verdict, now, n) == (Stores(), Call(start, token, StartCrediting))
      modifies orders, ledger
      ensures Valid()
      ensures MicroN(w0, c0, verdict, now, STEPS) == (Stores(), Call(order, token, Finished(outcome)))
    {
      hide MicroN, Orders.UpdateOrder, PostOrder, Inv;
      order := start;
      NextStep(w0, c0, verdict, now, n);
      if order.status == Paid {
        order := order.(status := Crediting);
        var found := orders.UpdateOrder(order);
        if !found {
          FinishedStays(w0, c0, verdict, now, n + 1, STEPS);
          return Refused(OrderNotFound), order;
        }
      }
      outcome, order := PostAndSave(w0, c0, n + 1, order, token, verdict, now);
    }

    /** Post the credit and record it on the order. */
    method PostAndSave(ghost w0: World, ghost c0: Call, ghost n: nat, start: Order, token: string, verdict: Verdict,
                       now: int) returns (outcome: Outcome, order: Order)
      requires Valid() && n <= 5
      requires MicroN(w0, c0, verdict, now, n) == (Stores(), Call(start, token, PostCredit))
      modifies orders, ledger
      ensures Valid()
      ensures MicroN(w0, c0, verdict, now, STEPS) == (Stores(), Call(order, token, Finished(outcome)))
    {
      hide MicroN, Orders.UpdateOrder, Inv, Post;
      order := start;
      NextStep(w0, c0, verdict, now, n);
      NextStep(w0, c0, verdict, now, n + 1);
      if order.status == Crediting {
        var r := ledger.PostTransaction("purchase", "order-" + order.id, CreditMetadata(order), CreditEntries(order),
                                        now);
        if r.Rejected? {
          FinishedStays(w0, c0, verdict, now, n + 1, STEPS);
          return Refused(LedgerRefused(r.error)), order;
        }
        order := order.(status := Credited, reason := CoinsCredited, txId := r.tx.id);
        var found := orders.UpdateOrder(order);
        FinishedStays(w0, c0, verdict, now, n + 2, STEPS);
        if !found {
          return Refused(OrderNotFound), order;
        }
      } else {
        FinishedStays(w0, c0, verdict, now, n + 1, STEPS);
      }
      outcome := Returned;
    }

    /** The owner's request to verify an order with a purchase token. */
    method VerifyOrder(account: string, id: string, token: string, verdict: Verdict, now: int)
      returns (outcome: Outcome, order: Option<Order>)
      requires Valid()
      modifies orders, ledger
      ensures Valid()
      ensures var w := old(Stores());
              if id !in w.repo.byID then Stores() == w && outcome == Refused(OrderNotFound) && order == None
              else if w.repo.byID[id].account != account then Stores() == w && outcome == Refused(NotOwned)
                  && order == None
              else
                Stores() == Serve(w, CallOn(id, token, verdict, now, STEPS))
                && var call := MicroN(w, OrderRecovery.StartOf(w, id, token), verdict, now, STEPS).1;
                call.pc == Finished(outcome) && order == Some(call.order)
    {
      hide MicroN;
      var stored := orders.GetOrder(id);
      if stored.None? {
        return Refused(OrderNotFound), None;
      }
      if stored.value.account != account {
        return Refused(NotOwned), None;
      }
      var final: Order;
      outcome, final := Advance(stored.value, token, verdict, now);
      order := Some(final);
    }

    /** The reconciler's pass: list the queue, then retry each copy, whatever the order of the list and whatever
        each retry returns. */
    method RunOnce(verifier: string -> Verdict, now: int) returns (ghost queue: seq<Order>)
      requires Valid() && RepoOK(orders.State())
      modifies orders, ledger
      ensures Valid() && QueueOf(old(orders.State()), queue)
      ensures Stores() == OrderRecovery.RunOnce(old(Stores()), queue, verifier, now)
    {
      hide MicroN, Inv, RepoOK, QueueOf;
      var list := orders.ListNonTerminal();
      queue := list;
      for i := 0 to |list|
        invariant Valid()
        invariant Stores() == OrderRecovery.RunOnce(old(Stores()), list[..i], verifier, now)
      {
        assert list[..i + 1][..i] == list[..i];
        var _, _ := Advance(list[i], "", verifier(list[i].id), now);
      }
      assert list[..|list|] == list;
    }

    /** Coins of this account's orders that still count since a time. */
    method CoinsPurchasedSince(account: string, since: int) returns (total: int)
      requires Listed(orders.State())
      ensures total == SpentSince(orders.State(), OrdersOf(orders.State(), account), since)
    {
      ghost var ids := OrdersOf(orders.State(), account);
      var list := orders.ListOrders(account, None);
      AllOrders(orders.State(), ids);
      total := 0;
      for i := 0 to |list|
        invariant total == SpentSince(orders.State(), ids[..i], since)
      {
        assert ids[..i + 1][..i] == ids[..i];
        var o := list[i];
        if o.status == OrderFailed || o.status == Refunded {
          continue;
        }
        if o.createdAt < since {
          continue;
        }
        total := total + o.coins;
      }
      assert ids[..|ids|] == ids;
    }

    /** Cooling-off, then the daily, weekly and monthly caps. */
    method CheckSpendLimits(account: string, coins: int, clock: Clock) returns (refusal: Option<CreateError>)
      requires Listed(orders.State())
      ensures refusal == CheckLimits(orders.State(), limits, account, coins, clock)
    {
      var l := ResolvePending(LimitsOf(limits, account), clock.resolve);
      if l.coolingOff && clock.cooling < l.coolingOffUntil {
        return Some(CoolingOff);
      }
      var windows := [Daily, Weekly, Monthly];
      for i := 0 to |windows|
        invariant forall j :: 0 <= j < i ==> !Exceeds(orders.State(), l, account, coins, clock, windows[j])
      {
        var w := windows[i];
        if Cap(l, w) <= 0 {
          continue;
        }
        var spent := CoinsPurchasedSince(account, clock.At(w) - Length(w));
        if spent + coins > Cap(l, w) {
          assert Exceeds(orders.State(), l, account, coins, clock, w);
          return Some(SpendLimitExceeded);
        }
      }
      assert windows[0] == Daily && windows[1] == Weekly && windows[2] == Monthly;
      refusal := None;
    }

    /** Place an order, once per idempotency key; a replay returns the order as it was placed. */
    method CreateOrder(account: string, sku: string, platform: string, key: string, clock: Clock)
        returns (result: CreateResult)
      requires Valid() && Listed(orders.State())
      modifies this, orders
      ensures Valid()
      ensures (State(), result) == Purchase(old(State()), account, sku, platform, key, clock)
    {
      hide Inv;
      if key in createByKey {
        return Placed(createByKey[key]);
      }
      var coins := CoinsOf(sku);
      if coins.None? {
        return NotPlaced(UnknownSKU);
      }
      var refusal := CheckSpendLimits(account, coins.value, clock);
      if refusal.Some? {
        return NotPlaced(refusal.value);
      }
      var order := orders.CreateOrder(account, sku, platform, clock.create);
      createByKey := createByKey[key := order.value];
      checked := checked[order.value.id := ResolvePending(LimitsOf(limits, account), clock.resolve)];
      result := Placed(order.value);
    }

    /** Change the caps of an account: at once where they fall, after the delay where they rise. */
    method ChangeCaps(account: string, request: CapRequest)
      modifies this`limits
      ensures forall w, t :: t >= request.now ==>
                Cap(ResolvePending(LimitsOf(limits, account), t), w)
                    == CapAfter(LimitsOf(old(limits), account), request, w, t)
      ensures forall a :: a != account ==> LimitsOf(limits, a) == LimitsOf(old(limits), a)
      ensures limits == old(limits)[account := ApplyCapChange(LimitsOf(old(limits), account), request)]
      ensures old(Listed(orders.State())) && LimitsOf(old(limits), account).account == account
              ==> State() == Do(old(State()), SetLimits(ApplyCapChange(LimitsOf(old(limits), account), request)))
    {
      hide ResolvePending, ApplyCapChange, CapAfter;
      var before := LimitsOf(limits, account);
      limits := limits[account := ApplyCapChange(before, request)];
      SameAccount(before, request);
      forall w, t | t >= request.now
        ensures Cap(ResolvePending(LimitsOf(limits, account), t), w) == CapAfter(before, request, w, t)
      {
        RequestTakesEffect(before, request, w, t);
      }
    }
  }

  lemma {:induction false} SameAccount(l: SpendLimits, r: CapRequest)
    ensures ApplyCapChange(l, r).account == l.account
  {
  }

  lemma {:induction false} NextStep(w: World, c: Call, verdict: Verdict, now: int, n: nat)
    ensures MicroN(w, c, verdict, now, n + 1)
            == Micro(MicroN(w, c, verdict, now, n).0, MicroN(w, c, verdict, now, n).1, verdict, now)
    ensures n == 0 ==> MicroN(w, c, verdict, now, n) == (w, c)
  {
  }
}
