/** What an uninterrupted verify-and-credit call answers and leaves behind, by the state of its order, the token and
    the store's verdict. */
module OrderOutcomes {
  import opened Decimal
  import opened Ledger
  import opened LedgerRuns
  import opened Orders
  import opened OrderRecovery

  /** The stores a whole call leaves, and the call as it ends. */
  function WholeCall(w: World, id: string, token: string, verdict: Verdict, now: int): (World, Call)
    requires id in w.repo.byID
  {
    MicroN(w, StartOf(w, id, token), verdict, now, STEPS)
  }

  /** Verifying an order that is already credited returns it; one that has failed or been refunded is refused. Either
      way nothing changes. */
  lemma {:induction false} SettledOrderOutcome(w: World, id: string, token: string, verdict: Verdict, now: int)
    requires id in w.repo.byID && w.repo.byID[id].status in {Credited, OrderFailed, Refunded}
    ensures var (w', c) := WholeCall(w, id, token, verdict, now);
            && w' == w && c.order == w.repo.byID[id]
            && c.pc == Finished(if w.repo.byID[id].status == Credited then Returned else Refused(OrderTerminal))
  {
    hide PostOrder, MicroN;
    var c := StartOf(w, id, token);
    MicroNTwo(w, c, verdict, now);
    FinishedStays(w, c, verdict, now, 1, STEPS);
  }

  /** A token that another order holds fails the order, and nothing else happens. */
  lemma {:induction false} TakenTokenOutcome(w: World, id: string, token: string, verdict: Verdict, now: int)
    requires id in w.repo.byID && w.repo.byID[id].id == id
             && w.repo.byID[id].status !in {Credited, OrderFailed, Refunded}
    requires var t := if token == "" then w.repo.byID[id].token else token;
             HashOf(t) in w.repo.byToken && w.repo.byToken[HashOf(t)] != id
    ensures var (w', c) := WholeCall(w, id, token, verdict, now);
            var failed := w.repo.byID[id].(status := OrderFailed, reason := TokenConsumed);
            && c.pc == Finished(Refused(TokenAlreadyUsed)) && c.order == failed
            && w'.book == w.book && w'.repo.byID == w.repo.byID[id := failed]
  {
    hide PostOrder, MicroN;
    var c := StartOf(w, id, token);
    MicroNTwo(w, c, verdict, now);
    FinishedStays(w, c, verdict, now, 2, STEPS);
  }

  /** The order as it stands once the call has passed the token check: a new order has stored its token. */
  function Checked(o: Order, token: string): Order {
    if o.status == Created then o.(token := token, tokenHash := HashOf(token), status := PendingPayment) else o
  }

  function TokenOf(o: Order, token: string): string {
    if token == "" then o.token else token
  }

  /** The first two steps of a call whose token is free or its own. */
  lemma {:induction false} TokenChecked(w: World, id: string, token: string, verdict: Verdict, now: int)
    requires id in w.repo.byID && w.repo.byID[id].id == id
             && w.repo.byID[id].status !in {Credited, OrderFailed, Refunded}
    requires !Foreign(w.repo, id, TokenOf(w.repo.byID[id], token))
    ensures var t := TokenOf(w.repo.byID[id], token);
            var (w', c) := MicroN(w, StartOf(w, id, token), verdict, now, 2);
            && c == Call(Checked(w.repo.byID[id], t), t, Verify)
            && w'.book == w.book && w'.repo.byID == w.repo.byID[id := c.order]
  {
    hide PostOrder, MicroN;
    MicroNTwo(w, StartOf(w, id, token), verdict, now);
  }

  /** A stored record written over keeps the other records. */
  lemma {:induction false} SavedAs(w: World, o: Order)
    requires o.id in w.repo.byID
    ensures UpdateOrder(w.repo, o).byID == w.repo.byID[o.id := o]
  {
  }

  /** From verification, a pending order and a verdict other than confirmation. */
  lemma {:induction false} NotConfirmed(w: World, o: Order, token: string, verdict: Verdict, now: int)
    requires o.id in w.repo.byID && w.repo.byID[o.id] == o && o.status == PendingPayment && verdict != Confirmed
    ensures var (w', c) := MicroN(w, Call(o, token, Verify), verdict, now, 2);
            && w'.book == w.book && w'.repo.byID == w.repo.byID[o.id := c.order]
            && (verdict == InvalidToken ==> c.order == o.(status := OrderFailed, reason := InvalidPurchaseToken)
                                            && c.pc == Finished(Refused(TokenInvalid)))
            && (verdict == StillPending ==> c.order == o.(reason := WaitingForStore) && c.pc == Finished(Returned))
            && (verdict == VerifierError ==> c.order == o && c.pc == Finished(Refused(VerifierFailed)))
  {
    hide PostOrder, MicroN;
    MicroNTwo(w, Call(o, token, Verify), verdict, now);
  }

  /** What crediting an order puts on the books, spelled out. */
  ghost predicate CreditedBy(tx: Tx, o: Order) {
    && tx.key == "order-" + o.id
    && tx.entries == [Entry("user:" + o.account + ":coins", o.coins, "COIN"),
                      Entry("platform:liability", -o.coins, "COIN")]
  }

  lemma {:induction false} PostsFor(b: Book, o: Order, p: Order, now: int)
    requires SameOrder(o, p)
    ensures PostOrder(b, o, now) == PostOrder(b, p, now)
  {
    hide Post;
  }

  /** From the crediting checkpoint to the end. */
  lemma {:induction false} CreditedInThree(w: World, o: Order, token: string, verdict: Verdict, now: int)
    requires WorldOK(w) && CopyOK(w, o) && o.status in {Paid, Crediting}
    ensures var (w', c) := MicroN(w, Call(o, token, StartCrediting), verdict, now, 3);
            && c.pc == Finished(Returned)
            && c.order == o.(status := Credited, reason := CoinsCredited, txId := c.order.txId)
            && w'.repo.byID == w.repo.byID[o.id := c.order]
            && (w'.book.log == w.book.log || exists tx :: w'.book.log == w.book.log + [tx] && NewCredit(tx, o, now))
            && WorldOK(w') && CopyOK(w', c.order)
  {
    hide WorldOK, PostOrder, UpdateOrder, MicroN, Micro, CopyOK, NewCredit, CreditedBy;
    MicroNThree(w, Call(o, token, StartCrediting), verdict, now);
    MicroKeeps(w, Call(o, token, StartCrediting), verdict, now);
    StartsCrediting(w, o, token, verdict, now);
    var (w1, c1) := Micro(w, Call(o, token, StartCrediting), verdict, now);
    CreditsNow(w1, o, token, verdict, now);
    MicroKeeps(w1, c1, verdict, now);
    var (w2, c2) := Micro(w1, c1, verdict, now);
    SavesCredit(w2, c2, verdict, now);
    MicroKeeps(w2, c2, verdict, now);
  }

  lemma {:induction false} StartsCrediting(w: World, o: Order, token: string, verdict: Verdict, now: int)
    requires WorldOK(w) && CopyOK(w, o) && o.status in {Paid, Crediting}
    ensures var (w', c) := Micro(w, Call(o, token, StartCrediting), verdict, now);
            && c == Call(o.(status := Crediting), token, PostCredit) && w'.book == w.book
            && w'.repo.byID[o.id := o] == w.repo.byID[o.id := o]
            && forall q: Order :: q.id == o.id ==> w'.repo.byID[o.id := q] == w.repo.byID[o.id := q]
  {
    hide WorldOK, PaidBy, PostOrder;
  }

  lemma {:induction false} CreditsNow(w: World, o: Order, token: string, verdict: Verdict, now: int)
    requires WorldOK(w) && CopyOK(w, o.(status := Crediting))
    ensures var (w', c) := Micro(w, Call(o.(status := Crediting), token, PostCredit), verdict, now);
            && w'.repo == w.repo && c.pc == SaveCredited && c.token == token
            && c.order == o.(status := Credited, reason := CoinsCredited, txId := c.order.txId)
            && (w'.book.log == w.book.log || exists tx :: w'.book.log == w.book.log + [tx] && NewCredit(tx, o, now))
  {
    hide WorldOK, PaidBy, PostOrder, CopyOK, NewCredit;
    WorldInv(w);
    CoinsPositive(w, o.(status := Crediting));
    PostedCredit(w.book, o, now);
    PostsFor(w.book, o.(status := Crediting), o, now);
  }

  lemma {:induction false} SavesCredit(w: World, c: Call, verdict: Verdict, now: int)
    requires c.pc == SaveCredited && CopyOK(w, c.order)
    ensures Micro(w, c, verdict, now).1 == c.(pc := Finished(Returned)) && Micro(w, c, verdict, now).0.book == w.book
    ensures Micro(w, c, verdict, now).0.repo.byID == w.repo.byID[c.order.id := c.order]
  {
    hide PaidBy, PostOrder;
  }

  lemma {:induction false} CoinsPositive(w: World, o: Order)
    requires WorldOK(w) && CopyOK(w, o)
    ensures o.coins > 0
  {
  }

  /** A newly posted credit. */
  ghost predicate NewCredit(tx: Tx, o: Order, now: int) {
    && CreditedBy(tx, o) && tx.kind == "purchase" && tx.createdAt == now
    && tx.metadata == map["order_id" := Text(o.id), "sku" := Text(o.sku), "account_id" := Text(o.account)]
  }

  lemma {:induction false} PostedCredit(b: Book, o: Order, now: int)
    requires Inv(b) && b.forgotten == 0 && o.coins > 0
    ensures var (b', r) := PostOrder(b, o, now);
            r.Posted? && (b'.log == b.log || (b'.log == b.log + [r.tx] && NewCredit(r.tx, o, now)))
  {
    hide Inv, KeyIndex, Balanced, FirstBreach;
    CreditPosts(b, o, now);
  }

  /** The credited order names the transaction that paid its buyer. */
  lemma {:induction false} CreditSpelledOut(w: World, o: Order)
    requires WorldOK(w) && CopyOK(w, o) && o.status == Credited
    ensures exists i :: 0 <= i < |w.book.log| && w.book.log[i].id == o.txId && CreditedBy(w.book.log[i], o)
  {
    hide Inv, RepoOK;
    var i :| 0 <= i < |w.book.log| && w.book.log[i].key == OrderKey(o.id) && w.book.log[i].id == o.txId;
    assert IsOrderKey(w.book.log[i].key);
    assert CreditsOrder(w.repo, w.book.log[i]);
    var x :| x in w.repo.byID && w.book.log[i].key == OrderKey(x)
        && w.book.log[i].entries == CreditEntries(w.repo.byID[x]);
    OrderKeyInjective(x, o.id);
    assert CreditedBy(w.book.log[i], o);
  }

  /** How a call that passed the token check ends. */
  lemma {:induction false} CheckedOutcome(w: World, id: string, token: string, verdict: Verdict, now: int)
    requires WorldOK(w) && TokensOK(w.repo) && id in w.repo.byID
    requires w.repo.byID[id].status !in {Credited, OrderFailed, Refunded}
    requires !Foreign(w.repo, id, TokenOf(w.repo.byID[id], token))
    ensures var o := Checked(w.repo.byID[id], TokenOf(w.repo.byID[id], token));
            var (w', c) := WholeCall(w, id, token, verdict, now);
            && w'.repo.byID == w.repo.byID[id := c.order]
            && (o.status == PendingPayment && verdict == InvalidToken ==>
                  w'.book == w.book && c.pc == Finished(Refused(TokenInvalid))
                  && c.order == o.(status := OrderFailed, reason := InvalidPurchaseToken))
            && (o.status == PendingPayment && verdict == StillPending ==>
                  w'.book == w.book && c.pc == Finished(Returned) && c.order == o.(reason := WaitingForStore))
            && (o.status == PendingPayment && verdict == VerifierError ==>
                  w'.book == w.book && c.pc == Finished(Refused(VerifierFailed)) && c.order == o)
            && (o.status != PendingPayment || verdict == Confirmed ==>
                  && c.pc == Finished(Returned)
                  && c.order == o.(status := Credited, reason := CoinsCredited, txId := c.order.txId)
                  && (exists i :: 0 <= i < |w'.book.log| && w'.book.log[i].id == c.order.txId
                                  && CreditedBy(w'.book.log[i], c.order))
                  && (w'.book.log == w.book.log || exists tx :: w'.book.log == w.book.log + [tx]
                                                     && NewCredit(tx, o, now)))
  {
    hide WorldOK, TokensOK, MicroN, Current, CopyOK, Foreign, CreditedBy, NewCredit, PaidBy;
    IdOfOrder(w, id);
    StartIsCurrent(w, id, token);
    var c0 := StartOf(w, id, token);
    TokenChecked(w, id, token, verdict, now);
    CallForward(w, c0, verdict, now, 2);
    var (w2, c2) := MicroN(w, c0, verdict, now, 2);
    var o := c2.order;
    MicroNSplit(w, c0, verdict, now, 2, 2);
    if o.status == PendingPayment && verdict != Confirmed {
      NotConfirmed(w2, o, c2.token, verdict, now);
      FinishedStays(w, c0, verdict, now, 4, STEPS);
    } else {
      CopyOf(w2, c2);
      CreditPath(w2, o, c2.token, verdict, now);
      MicroNSplit(w, c0, verdict, now, 2, 4);
      MicroNSplit(w, c0, verdict, now, 2, 5);
      if o.status != PendingPayment { FinishedStays(w, c0, verdict, now, 6, STEPS); }
    }
  }

  lemma {:induction false} CopyOf(w: World, c: Call)
    requires Current(w, c)
    ensures CopyOK(w, c.order)
  {
  }

  /** From verification to the credit, for an order that is past it or is confirmed. */
  lemma {:induction false} CreditPath(w: World, o: Order, token: string, verdict: Verdict, now: int)
    requires WorldOK(w) && CopyOK(w, o) && w.repo.byID[o.id] == o && o.status in {PendingPayment, Paid, Crediting}
    requires o.status == PendingPayment ==> verdict == Confirmed
    ensures var n := if o.status == PendingPayment then 5 else 4;
            var (w', c) := MicroN(w, Call(o, token, Verify), verdict, now, n);
            && c.pc == Finished(Returned)
            && c.order == o.(status := Credited, reason := CoinsCredited, txId := c.order.txId)
            && w'.repo.byID == w.repo.byID[o.id := c.order]
            && (exists i :: 0 <= i < |w'.book.log| && w'.book.log[i].id == c.order.txId
                            && CreditedBy(w'.book.log[i], c.order))
            && (w'.book.log == w.book.log || exists tx :: w'.book.log == w.book.log + [tx] && NewCredit(tx, o, now))
  {
    hide WorldOK, MicroN, CopyOK, CreditedBy, NewCredit, PaidBy, PostOrder, UpdateOrder;
    var c := Call(o, token, Verify);
    CopyFacts(w, o);
    MicroNTwo(w, c, verdict, now);
    if o.status == PendingPayment {
      var paid := o.(status := Paid, reason := PaymentConfirmed);
      var (w1, c1) := Micro(w, c, verdict, now);
      SavedAs(w, paid);
      MicroKeeps(w, c, verdict, now);
      MicroKeeps(w1, c1, verdict, now);
      var w2 := w.(repo := UpdateOrder(w.repo, paid));
      assert Micro(w1, c1, verdict, now) == (w2, Call(paid, token, StartCrediting));
      CreditedInThree(w2, paid, token, verdict, now);
      MicroNSplit(w, c, verdict, now, 2, 3);
      SameCredit(o, paid, now);
      var (w', c') := MicroN(w2, Call(paid, token, StartCrediting), verdict, now, 3);
      CreditSpelledOut(w', c'.order);
    } else {
      CreditedInThree(w, o, token, verdict, now);
      MicroNSplit(w, c, verdict, now, 1, 3);
      var (w', c') := MicroN(w, Call(o, token, StartCrediting), verdict, now, 3);
      CreditSpelledOut(w', c'.order);
    }
  }

  lemma {:induction false} SameCredit(o: Order, p: Order, now: int)
    requires SameOrder(o, p)
    ensures forall tx :: NewCredit(tx, o, now) <==> NewCredit(tx, p, now)
  {
  }

  /** The coins of a product are the number in its name; there are three. */
  lemma {:induction false} CoinsAsNamed(sku: string)
    ensures CoinsOf(sku).Some? <==> sku in {"coins_100", "coins_500", "coins_2000"}
    ensures CoinsOf(sku).Some? ==> ParseUint(sku[6..]) == Some(CoinsOf(sku).value)
  {
    if sku == "coins_100" {
      assert sku[6..] == "100";
      NumberText("100");
    } else if sku == "coins_500" {
      assert sku[6..] == "500";
      NumberText("500");
    } else if sku == "coins_2000" {
      assert sku[6..] == "2000";
      NumberText("2000");
    }
  }

  lemma {:induction false} NumberText(s: string)
    requires AllDigits(s) && 3 <= |s| <= 4
    ensures DecimalValue(s) == if |s| == 3 then DigitOf(s[0]) * 100 + DigitOf(s[1]) * 10 + DigitOf(s[2])
                               else DigitOf(s[0]) * 1000 + DigitOf(s[1]) * 100 + DigitOf(s[2]) * 10 + DigitOf(s[3])
  {
    assert s[..0] == [] && s[..|s|] == s;
    ValueStep(s, 0);
    ValueStep(s, 1);
    ValueStep(s, 2);
    if |s| == 4 { ValueStep(s, 3); }
  }

  lemma {:induction false} ValueStep(s: string, n: nat)
    requires AllDigits(s) && n < |s|
    ensures DecimalValue(s[..n + 1]) == DecimalValue(s[..n]) * 10 + DigitOf(s[n])
  {
    assert s[..n + 1][..n] == s[..n];
  }
}
