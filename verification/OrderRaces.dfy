/** Overlapping calls on one order: how a stale copy can undo what a faster call did, and what keeps a credited order
    from failing in every interleaving. */
module OrderRaces {
  import opened LedgerRuns
  import opened Orders
  import opened OrderRecovery

  // ---- A stale copy written over a credited order ----

  /** The rest of a call whose copy is pending, while the stored order has moved on. */
  lemma {:induction false} StaleCall(w: World, o: Order, verdict: Verdict, now: int)
    requires WorldOK(w) && TokensOK(w.repo) && o.status == PendingPayment
    requires o.id in w.repo.byID && w.repo.byID[o.id].tokenHash == o.tokenHash == HashOf(o.token)
    requires verdict in {InvalidToken, StillPending}
    ensures var (w', c) := MicroN(w, Call(o, "", Begin), verdict, now, STEPS);
            && c.pc.Finished? && w'.book == w.book && o.id in w'.repo.byID
            && w'.repo.byID[o.id].status == if verdict == InvalidToken then OrderFailed else PendingPayment
  {
    hide WorldOK, PostOrder, MicroN;
    var c := Call(o, "", Begin);
    CurrentHolder(w.repo, o.id);
    var (w2, c2) := Micro(w, c, verdict, now);
    assert (w2, c2) == (w, Call(o, o.token, Store));
    MicroNTwo(w, c, verdict, now);
    assert MicroN(w, c, verdict, now, 2) == (w, Call(o, o.token, Verify));
    MicroNTwo(w, Call(o, o.token, Verify), verdict, now);
    MicroNSplit(w, c, verdict, now, 2, 2);
    FinishedStays(w, c, verdict, now, 4, STEPS);
  }

  /** Two calls read one pending order. The store confirms the first, which runs to its end; then it calls the token
      invalid, or still pending, for the second. The credited order ends up failed, or pending again, with its
      credit on the books and no other order's token in play. */
  lemma {:induction false} OverlapUndoes(w: World, x: string, verdict: Verdict, now: int)
    requires WorldOK(w) && TokensOK(w.repo) && x in w.repo.byID && w.repo.byID[x].status == PendingPayment
    requires verdict in {InvalidToken, StillPending}
    ensures var w1 := MicroN(w, StartOf(w, x, ""), Confirmed, now, STEPS).0;
            var w2 := MicroN(w1, StartOf(w, x, ""), verdict, now, STEPS).0;
            && x in w1.repo.byID && w1.repo.byID[x].status == Credited
            && x in w2.repo.byID && w2.repo.byID[x].status
                == (if verdict == InvalidToken then OrderFailed else PendingPayment)
            && HasCredit(w2, x)
  {
    hide WorldOK, TokensOK, MicroN, Current, Forward, HasCredit;
    IdOfOrder(w, x);
    var c := StartOf(w, x, "");
    StartIsCurrent(w, x, "");
    CallForward(w, c, Confirmed, now, STEPS);
    RetryResult(w, x, Confirmed, now);
    var w1 := MicroN(w, c, Confirmed, now, STEPS).0;
    CurrentHolder(w.repo, x);
    CurrentHolder(w1.repo, x);
    SameTokenKept(w, c, Confirmed, now, STEPS);
    StaleCall(w1, w.repo.byID[x], verdict, now);
    CreditedHasCredit(w1, x);
    SameBookCredit(w1, MicroN(w1, c, verdict, now, STEPS).0, x);
  }

  lemma {:induction false} CreditedHasCredit(w: World, x: string)
    requires WorldOK(w) && x in w.repo.byID && w.repo.byID[x].status == Credited
    ensures HasCredit(w, x)
  {
    var i :| 0 <= i < |w.book.log| && w.book.log[i].key == OrderKey(w.repo.byID[x].id);
  }

  lemma {:induction false} SameBookCredit(w: World, w': World, x: string)
    requires w'.book == w.book
    ensures HasCredit(w', x) <==> HasCredit(w, x)
  {
  }

  /** An order past its first call keeps its token through any undisturbed call. */
  lemma {:induction false} SameTokenKept(w: World, c: Call, verdict: Verdict, now: int, n: nat)
    requires WorldOK(w) && TokensOK(w.repo) && Current(w, c) && c.pc == Begin && c.order.status != Created
    ensures var (w', c') := MicroN(w, c, verdict, now, n);
            && c.order.id in w'.repo.byID && c'.order.status != Created
            && w'.repo.byID[c.order.id].tokenHash == c'.order.tokenHash == c.order.tokenHash
            && w'.repo.byID[c.order.id].token == c'.order.token == c.order.token
            && w'.repo.byID[c.order.id].status != Created
  {
    hide WorldOK, TokensOK, Current, Micro, Forward;
    if n == 0 {
      BeginIsStored(w, c);
    } else {
      SameTokenKept(w, c, verdict, now, n - 1);
      CallForward(w, c, verdict, now, n - 1);
      var (w', c') := MicroN(w, c, verdict, now, n - 1);
      StepKeepsToken(w', c', verdict, now);
    }
  }

  lemma {:induction false} BeginIsStored(w: World, c: Call)
    requires WorldOK(w) && Current(w, c) && c.pc == Begin
    ensures c.order.id in w.repo.byID && w.repo.byID[c.order.id] == c.order
  {
  }

  lemma {:induction false} StepKeepsToken(w: World, c: Call, verdict: Verdict, now: int)
    requires c.order.id in w.repo.byID && c.order.status != Created && w.repo.byID[c.order.id].status != Created
    requires w.repo.byID[c.order.id].tokenHash == c.order.tokenHash && w.repo.byID[c.order.id].token == c.order.token
    ensures var (w', c') := Micro(w, c, verdict, now);
            && c'.order.id == c.order.id && c.order.id in w'.repo.byID && c'.order.status != Created
            && w'.repo.byID[c.order.id].tokenHash == c'.order.tokenHash == c.order.tokenHash
            && w'.repo.byID[c.order.id].token == c'.order.token == c.order.token
            && w'.repo.byID[c.order.id].status != Created
  {
    hide PostOrder;
  }

  // ---- What keeps a credited order from failing in every interleaving ----

  function Effective(o: Order, token: string): string {
    if token == "" then o.token else token
  }

  /** Every token is used for one order only, and the store never both confirms an order and calls its token
      invalid: `owner` and `genuine` say which. */
  predicate Plays(s: System, a: Action, owner: string -> string, genuine: string -> bool) {
    match a
    case StartCall(_, id, token) => id in s.w.repo.byID ==> owner(Effective(s.w.repo.byID[id], token)) == id
    case StepCall(pid, verdict, _) =>
      pid in s.calls && s.calls[pid].pc == Verify ==>
        && (verdict == Confirmed ==> genuine(s.calls[pid].order.id))
        && (verdict == InvalidToken ==> !genuine(s.calls[pid].order.id))
    case _ => true
  }

  /** A genuine order is never failed; any other never gets past pending. Stored tokens are the order's own. */
  predicate OrderSafe(o: Order, owner: string -> string, genuine: string -> bool) {
    && (if genuine(o.id) then o.status in {Created, PendingPayment, Paid, Crediting, Credited}
        else o.status in {Created, PendingPayment, OrderFailed})
    && (o.tokenHash != Unset ==> owner(o.token) == o.id)
  }

  predicate CallSafe(c: Call, owner: string -> string, genuine: string -> bool) {
    && OrderSafe(c.order, owner, genuine)
    && (c.pc == Begin ==> owner(Effective(c.order, c.token)) == c.order.id)
    && (c.pc == Store ==> owner(c.token) == c.order.id)
    && (c.pc.SaveFailed? ==> !genuine(c.order.id))
  }

  ghost predicate WorldSafe(w: World, owner: string -> string, genuine: string -> bool) {
    && (forall x :: x in w.repo.byID ==> OrderSafe(w.repo.byID[x], owner, genuine))
    && (forall h :: h in w.repo.byToken ==> h.HashOf? && w.repo.byToken[h] == owner(h.token))
    && (forall x :: x in w.repo.byID && !genuine(x) ==> !HasCredit(w, x))
  }

  ghost predicate SystemSafe(s: System, owner: string -> string, genuine: string -> bool) {
    && SystemOK(s) && WorldSafe(s.w, owner, genuine)
    && forall p :: p in s.calls ==> CallSafe(s.calls[p], owner, genuine)
  }

  lemma {:induction false} SaveSafe(w: World, o: Order, owner: string -> string, genuine: string -> bool)
    requires WorldSafe(w, owner, genuine) && OrderSafe(o, owner, genuine) && o.id in w.repo.byID
    requires o.tokenHash != Unset ==> o.tokenHash == HashOf(o.token)
    ensures WorldSafe(w.(repo := UpdateOrder(w.repo, o)), owner, genuine)
  {
    var w' := w.(repo := UpdateOrder(w.repo, o));
    assert forall x :: HasCredit(w', x) <==> HasCredit(w, x);
  }

  lemma {:induction false} PostSafe(w: World, o: Order, now: int, owner: string -> string, genuine: string -> bool)
    requires WorldOK(w) && CopyOK(w, o) && WorldSafe(w, owner, genuine) && genuine(o.id)
    ensures WorldSafe(w.(book := PostOrder(w.book, o, now).0), owner, genuine)
  {
    hide WorldOK, CopyOK, HasCredit, PostOrder;
    PostedGrows(w, o, now);
  }

  /** The hash a copy holds is that of its token. */
  predicate HashFits(o: Order) {
    o.tokenHash != Unset ==> o.tokenHash == HashOf(o.token)
  }

  lemma {:induction false} MicroSafe(w: World, c: Call, verdict: Verdict, now: int, owner: string -> string,
                                     genuine: string -> bool)
    requires WorldOK(w) && CopyOK(w, c.order) && WorldSafe(w, owner, genuine) && CallSafe(c, owner, genuine)
    requires HashFits(c.order)
    requires c.pc == Verify && verdict == Confirmed ==> genuine(c.order.id)
    requires c.pc == Verify && verdict == InvalidToken ==> !genuine(c.order.id)
    ensures var (w', c') := Micro(w, c, verdict, now);
            WorldSafe(w', owner, genuine) && CallSafe(c', owner, genuine) && HashFits(c'.order)
  {
    hide WorldOK, WorldSafe, PaidBy, PostOrder, UpdateOrder;
    var o := c.order;
    match c.pc
    case Begin => NotForeign(w, Effective(o, c.token), o.id, owner, genuine);
    case Store =>
      if o.status == Created {
        SaveSafe(w, o.(token := c.token, tokenHash := HashOf(c.token), status := PendingPayment), owner, genuine);
      }
    case Verify =>
    case StartCrediting =>
      if o.status == Paid { SaveSafe(w, o.(status := Crediting), owner, genuine); }
    case PostCredit =>
      if o.status == Crediting { PostSafe(w, o, now, owner, genuine); }
    case SavePending => SaveSafe(w, o, owner, genuine);
    case SavePaid => SaveSafe(w, o, owner, genuine);
    case SaveCredited => SaveSafe(w, o, owner, genuine);
    case SaveFailed(_) => SaveSafe(w, o, owner, genuine);
    case Finished(_) =>
  }

  lemma {:induction false} NotForeign(w: World, token: string, id: string, owner: string -> string,
                                      genuine: string -> bool)
    requires WorldSafe(w, owner, genuine) && owner(token) == id
    ensures !Foreign(w.repo, id, token)
  {
  }

  /** Hashes fit everywhere. */
  ghost predicate HashesFit(s: System) {
    && (forall x :: x in s.w.repo.byID ==> HashFits(s.w.repo.byID[x]))
    && (forall p :: p in s.calls ==> HashFits(s.calls[p].order))
  }

  lemma {:induction false} MicroKeepsHashes(w: World, c: Call, verdict: Verdict, now: int)
    requires HashFits(c.order) && forall x :: x in w.repo.byID ==> HashFits(w.repo.byID[x])
    ensures var (w', c') := Micro(w, c, verdict, now);
            HashFits(c'.order) && forall x :: x in w'.repo.byID ==> HashFits(w'.repo.byID[x])
  {
    hide PostOrder;
  }

  lemma {:induction false} ActSafe(s: System, a: Action, owner: string -> string, genuine: string -> bool)
    requires SystemSafe(s, owner, genuine) && HashesFit(s) && Legal(a) && Plays(s, a, owner, genuine)
    ensures SystemSafe(Act(s, a), owner, genuine) && HashesFit(Act(s, a))
  {
    ActKeeps(s, a);
    match a
    case NewOrder(account, sku, platform, now) =>
      hide WorldOK, CopyOK, Extends, HasCredit, CoinsOf;
      NewOrderSafe(s.w, account, sku, platform, now, owner, genuine);
    case StartCall(pid, id, token) =>
      hide WorldOK, CopyOK, Extends, HasCredit;
      if id in s.w.repo.byID { StartIsSafe(s, id, token, owner, genuine); }
    case StepCall(pid, verdict, now) =>
      hide WorldOK, CopyOK, Extends, HasCredit, WorldSafe, Micro;
      if pid in s.calls {
        MicroSafe(s.w, s.calls[pid], verdict, now, owner, genuine);
        MicroKeepsHashes(s.w, s.calls[pid], verdict, now);
      }
    case Crash(pid) =>
      hide WorldOK, CopyOK, Extends, HasCredit;
    case Elsewhere(op) =>
      hide WorldOK, CopyOK, Extends, Apply;
      TrafficSafe(s.w, op, owner, genuine);
  }

  lemma {:induction false} StartIsSafe(s: System, id: string, token: string, owner: string -> string,
                                       genuine: string -> bool)
    requires SystemSafe(s, owner, genuine) && id in s.w.repo.byID
    requires owner(Effective(s.w.repo.byID[id], token)) == id
    ensures CallSafe(Call(s.w.repo.byID[id], token, Begin), owner, genuine)
  {
    hide HasCredit;
    IdOfOrder(s.w, id);
  }

  lemma {:induction false} NewOrderSafe(w: World, account: string, sku: string, platform: string, now: int,
                                        owner: string -> string, genuine: string -> bool)
    requires WorldOK(w) && WorldSafe(w, owner, genuine) && forall x :: x in w.repo.byID ==> HashFits(w.repo.byID[x])
    ensures var w' := w.(repo := CreateOrder(w.repo, account, sku, platform, now).0);
            WorldSafe(w', owner, genuine) && forall x :: x in w'.repo.byID ==> HashFits(w'.repo.byID[x])
  {
    hide Inv, CoinsOf, RepoOK;
    assert RepoOK(w.repo);
    OrderIdFresh(w.repo);
    NoCreditYet(w, OrderId(w.repo.orderSeq + 1));
    var w' := w.(repo := CreateOrder(w.repo, account, sku, platform, now).0);
    assert forall x :: HasCredit(w', x) <==> HasCredit(w, x);
  }

  lemma {:induction false} NoCreditYet(w: World, id: string)
    requires WorldOK(w) && id !in w.repo.byID
    ensures !HasCredit(w, id)
  {
    hide Inv, RepoOK;
    if HasCredit(w, id) {
      var i :| 0 <= i < |w.book.log| && w.book.log[i].key == OrderKey(id);
      assert IsOrderKey(w.book.log[i].key);
      var y :| y in w.repo.byID && w.book.log[i].key == OrderKey(y);
      OrderKeyInjective(id, y);
      assert false;
    }
  }

  lemma {:induction false} TrafficSafe(w: World, op: Op, owner: string -> string, genuine: string -> bool)
    requires WorldOK(w) && WorldSafe(w, owner, genuine) && Legal(Elsewhere(op))
    ensures WorldSafe(w.(book := Apply(w.book, op)), owner, genuine)
  {
    hide Apply, Inv;
    ElsewhereAdds(w.book, op);
    var w' := w.(book := Apply(w.book, op));
    forall x | HasCredit(w', x)
      ensures HasCredit(w, x)
    {
      var i :| 0 <= i < |w'.book.log| && w'.book.log[i].key == OrderKey(x);
      assert IsOrderKey(OrderKey(x));
      assert w'.book.log[i] == w.book.log[i];
    }
  }

  ghost predicate AllPlay(actions: seq<Action>, owner: string -> string, genuine: string -> bool) {
    forall i :: 0 <= i < |actions| ==> Legal(actions[i]) && Plays(RunSystem(actions[..i]), actions[i], owner, genuine)
  }

  lemma {:induction false} RunSafe(actions: seq<Action>, owner: string -> string, genuine: string -> bool)
    requires AllPlay(actions, owner, genuine)
    ensures SystemSafe(RunSystem(actions), owner, genuine) && HashesFit(RunSystem(actions))
  {
    hide SystemSafe, HashesFit, Act, Plays;
    if actions == [] {
      StartSafe(owner, genuine);
    } else {
      var last := |actions| - 1;
      forall i | 0 <= i < last
        ensures Legal(actions[..last][i]) && Plays(RunSystem(actions[..last][..i]), actions[..last][i], owner, genuine)
      {
        assert actions[..last][..i] == actions[..i];
      }
      RunSafe(actions[..last], owner, genuine);
      ActSafe(RunSystem(actions[..last]), actions[last], owner, genuine);
    }
  }

  lemma {:induction false} StartSafe(owner: string -> string, genuine: string -> bool)
    ensures SystemSafe(RunSystem([]), owner, genuine) && HashesFit(RunSystem([]))
  {
    RunKeeps([]);
  }

  /** In every interleaving of calls on copies however stale, with crashes anywhere: if no order's token is passed for
      another order, and the store never gives both answers about one order, then no failed order has a credit. */
  lemma {:induction false} InterleavedFailedIsUncredited(actions: seq<Action>, owner: string -> string,
                                                         genuine: string -> bool)
    requires AllPlay(actions, owner, genuine)
    ensures var w := RunSystem(actions).w;
            forall x :: x in w.repo.byID && w.repo.byID[x].status == OrderFailed ==> !HasCredit(w, x)
  {
    hide AllPlay, RunSystem, HasCredit, WorldOK, HashesFit;
    RunSafe(actions, owner, genuine);
    var w := RunSystem(actions).w;
    forall x | x in w.repo.byID && w.repo.byID[x].status == OrderFailed
      ensures !HasCredit(w, x)
    {
      IdOfOrder(w, x);
      assert OrderSafe(w.repo.byID[x], owner, genuine);
    }
  }
}
