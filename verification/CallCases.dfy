/** The exceptions to exact billing do occur: runs from the empty ledger that reach them. */
module CallCases {
  import opened Decimal
  import opened Ledger
  import opened LedgerRuns
  import opened Charges
  import opened PrivateVideo
  import CallRaces

  const OPEN: Gates := Gates(true, true, false, true)

  /** Give a wallet an amount from a platform account. */
  function Give(wallet: string, amount: int, platform: string, c: Currency, key: string): CallOp {
    Other(PostOp("adjustment", key, map[], TwoLegs(wallet, amount, platform, c), 0))
  }

  lemma {:induction false} RunOn(ops: seq<CallOp>, op: CallOp)
    requires LegalRun(ops) && PrivateVideo.Legal(RunCalls(ops), op)
    ensures LegalRun(ops + [op]) && RunCalls(ops + [op]) == PrivateVideo.Step(RunCalls(ops), op)
  {
    hide PrivateVideo.Legal, PrivateVideo.Step;
    var all := ops + [op];
    assert all[..|ops|] == ops;
    forall i | 0 <= i < |all| ensures PrivateVideo.Legal(RunCalls(all[..i]), all[i]) {
      if i < |ops| { assert all[..i] == ops[..i]; }
    }
  }

  lemma {:induction false} GivePosts(b: Book, wallet: string, amount: int, platform: string, c: Currency, key: string)
    requires Inv(b) && !IsPlatform(wallet) && IsPlatform(platform) && !KeyUsed(b, key)
    requires LogBalance(b.log, BalanceKey(wallet, c)) + amount >= 0
    ensures var es := TwoLegs(wallet, amount, platform, c);
            && Post(b, "adjustment", key, map[], es, 0).0
               == b.(log := b.log + [Tx(TxId(|b.log| + 1), "adjustment", key, map[], es, 0)])
            && forall k :: EntrySum(es, k)
                           == if k == BalanceKey(wallet, c) then amount
                              else if k == BalanceKey(platform, c) then -amount else 0
  {
    hide Acceptable, LogOK, KeysUnique, ReversalsOK, KeyIndex, Balanced, FirstBreach, TwoLegs, LogBalance, EntrySum;
    InvLog(b);
    TwoLegsAcceptable(b.log, wallet, amount, platform, c);
    ExactAcceptance(b, "adjustment", key, map[], TwoLegs(wallet, amount, platform, c), 0);
  }

  /** What a covered adjustment on an unused key does. */
  lemma {:induction false} GiveResult(w: Calls, wallet: string, amount: int, platform: string, c: Currency, key: string)
    requires CallsOK(w) && !IsPlatform(wallet) && IsPlatform(platform) && !IsCallKey(key) && !KeyUsed(w.book, key)
    requires LogBalance(w.book.log, BalanceKey(wallet, c)) + amount >= 0
    ensures var op := Give(wallet, amount, platform, c, key);
            var w' := PrivateVideo.Step(w, op);
            var tx := Tx(TxId(|w.book.log| + 1), "adjustment", key, map[], TwoLegs(wallet, amount, platform, c), 0);
            && PrivateVideo.Legal(w, op) && w' == w.(book := w.book.(log := w.book.log + [tx]))
            && forall k :: LogBalance(w'.book.log, k) == LogBalance(w.book.log, k)
                 + if k == BalanceKey(wallet, c) then amount else if k == BalanceKey(platform, c) then -amount else 0
  {
    hide Inv, RecordOK, CallKeysOK, HoldsApart, KeyIndex, Post, TwoLegs, LogBalance;
    var es := TwoLegs(wallet, amount, platform, c);
    GivePosts(w.book, wallet, amount, platform, c, key);
    var w' := PrivateVideo.Step(w, Give(wallet, amount, platform, c, key));
    forall k ensures LogBalance(w'.book.log, k) == LogBalance(w.book.log, k)
      + if k == BalanceKey(wallet, c) then amount else if k == BalanceKey(platform, c) then -amount else 0
    {
      LogBalanceAppend(w.book.log, w'.book.log[|w.book.log|], k);
    }
  }

  // ---- A hold that cannot be given back ----

  function SpendAll(w: Calls, account: string, key: string): CallOp {
    Give(UserDiamonds(account), -LogBalance(w.book.log, BalanceKey(UserDiamonds(account), DIAMOND)),
         PLATFORM_DIAMOND_LIABILITY, DIAMOND, key)
  }

  lemma {:induction false} SpendAllResult(w: Calls, account: string, key: string)
    requires CallsOK(w) && !IsCallKey(key) && !KeyUsed(w.book, key)
    ensures var spent := PrivateVideo.Step(w, SpendAll(w, account, key));
            && PrivateVideo.Legal(w, SpendAll(w, account, key)) && CallsOK(spent)
            && spent.sessions == w.sessions && w.book.log <= spent.book.log
            && LogBalance(spent.book.log, BalanceKey(UserDiamonds(account), DIAMOND)) == 0
  {
    hide CallsOK, IsCallKey, PrivateVideo.Legal, LogBalance, KeyIndex;
    var k := BalanceKey(UserDiamonds(account), DIAMOND);
    UserIsNotPlatform(account);
    PlatformAccounts();
    GiveResult(w, k.account, -LogBalance(w.book.log, k), PLATFORM_DIAMOND_LIABILITY, DIAMOND, key);
    StepKeeps(w, SpendAll(w, account, key));
  }

  /** While a call rings, its callee may pay the first minute's diamonds away; declining then keeps the hold. */
  lemma {:induction false} DiamondsSpentWhileRinging(w: Calls, id: string, key: string, now: int)
    requires CallsOK(w) && id in w.sessions && Own(w.book.log, w.sessions[id]) && w.sessions[id].state == Requested
    requires !IsCallKey(key) && !KeyUsed(w.book, key) && Diamonds(w.sessions[id].rate) > 0
    ensures var s := w.sessions[id];
            var spent := PrivateVideo.Step(w, SpendAll(w, s.callee, key));
            var (w', r) := DeclineSession(spent, s.callee, id, now);
            PrivateVideo.Legal(w, SpendAll(w, s.callee, key)) && r.Ok? && !Conserved(w', r.session)
  {
    hide CallsOK, Own, Conserved, DeclineSession, Diamonds, IsCallKey, KeyIndex, PrivateVideo.Legal, PrivateVideo.Step,
        LogBalance;
    var s := w.sessions[id];
    SpendAllResult(w, s.callee, key);
    var spent := PrivateVideo.Step(w, SpendAll(w, s.callee, key));
    OwnGrows(w, spent, s);
    CanDecline(spent, id, now);
    ClosingConservesExactly(spent, s.callee, id, now, true);
  }

  lemma {:induction false} OwnGrows(w: Calls, w': Calls, s: Session)
    requires Own(w.book.log, s) && w.book.log <= w'.book.log
    ensures Own(w'.book.log, s)
  {
    var i: nat :| i < |w.book.log| && w.book.log[i].id == s.holdTxId && Names(w.book.log[i], s.id);
    assert w'.book.log[i] == w.book.log[i];
  }

  lemma {:induction false} CanDecline(w: Calls, id: string, now: int)
    requires id in w.sessions && w.sessions[id].state == Requested
    ensures DeclineSession(w, w.sessions[id].callee, id, now).1.Ok?
  {
    hide ReverseHold;
  }

  const ASK: CallOp := Request("ann", "bob", 10, "k", OPEN, "s", 1)

  /** A run of one deposit. */
  lemma {:induction false} OneGift(wallet: string, key: string)
    requires !IsPlatform(wallet) && !IsCallKey(key)
    ensures var ops := [Give(wallet, 10, PLATFORM_LIABILITY, COIN, key)];
            var tx := Tx(TxId(1), "adjustment", key, map[], TwoLegs(wallet, 10, PLATFORM_LIABILITY, COIN), 0);
            && LegalRun(ops) && CallsOK(RunCalls(ops)) && RunCalls(ops) == Calls(Book([tx], 0, map[]), map[])
            && LogBalance([tx], BalanceKey(wallet, COIN)) == 10
  {
    hide CallsOK, IsPlatform, TwoLegs, PrivateVideo.Legal, PrivateVideo.Step, IsCallKey;
    NoCallsOK();
    PlatformAccounts();
    KeyFree(EMPTY_BOOK, key);
    GiveResult(NO_CALLS, wallet, 10, PLATFORM_LIABILITY, COIN, key);
    var op := Give(wallet, 10, PLATFORM_LIABILITY, COIN, key);
    assert RunCalls([]) == NO_CALLS && LegalRun([]);
    RunOn([], op);
    assert [] + [op] == [op];
    StepKeeps(NO_CALLS, op);
    assert LogBalance([], BalanceKey(wallet, COIN)) == 0;
    assert EMPTY_BOOK.log + [Tx(TxId(1), "adjustment", key, map[], TwoLegs(wallet, 10, PLATFORM_LIABILITY, COIN), 0)]
        == [Tx(TxId(1), "adjustment", key, map[], TwoLegs(wallet, 10, PLATFORM_LIABILITY, COIN), 0)];
  }

  /** A request on the key of a deposit to a third party: the session is not charged, and declining it takes
      the deposit back. */
  lemma {:induction false} DepositTakenForHold()
    ensures exists ops :: LegalRun(ops) && "s" in RunCalls(ops).sessions
              && !Own(RunCalls(ops).book.log, RunCalls(ops).sessions["s"])
              && !Conserved(RunCalls(ops), RunCalls(ops).sessions["s"])
  {
    hide CallsOK, IsPlatform, TwoLegs, Own, Conserved, PrivateVideo.Step, RunCalls, LegalRun, PlatformShare, Diamonds,
        Itoa;
    UserIsNotPlatform("eve");
    OneGift(UserCoins("eve"), "k");
    var ops := [Give(UserCoins("eve"), 10, PLATFORM_LIABILITY, COIN, "k")];
    var w := RunCalls(ops);
    KeyFree(w.book, "k");
    assert w.book.log[0].key == "k";
    AskAdopts(w, w.book.log[0]);
    RunOn(ops, ASK);
  }

  lemma {:induction false} AskAdopts(w: Calls, tx: Tx)
    requires w == Calls(Book([tx], 0, map[]), map[]) && CallsOK(w) && tx.key == "k" && tx.metadata == map[]
    requires tx.entries == TwoLegs(UserCoins("eve"), 10, PLATFORM_LIABILITY, COIN)
    ensures var w' := PrivateVideo.Step(w, ASK);
            && PrivateVideo.Legal(w, ASK) && "s" in w'.sessions && !Own(w'.book.log, w'.sessions["s"])
            && !Conserved(w', w'.sessions["s"])
  {
    hide CallsOK, Own, Conserved, PlatformShare, Diamonds;
    assert KeyIndex(w.book.log, 0) == map["k" := tx];
    assert RequestSession(w, "ann", "bob", 10, "k", OPEN, "s", 1).1.isNew;
    NewSessionIsChargedExactly(w, "ann", "bob", 10, "k", OPEN, "s", 1);
    var k := BalanceKey(UserCoins("ann"), COIN);
    ChargeTouchesOnce("ann", "bob", 10);
    OnceSum(ChargeEntries("ann", "bob", 10), 0);
    assert UserCoins("ann")[5] == 'a' && UserCoins("eve")[5] == 'e' && PLATFORM_LIABILITY[0] == 'p';
    SumOfUntouched(tx.entries, k);
    assert EntrySum(tx.entries, k) != EntrySum(ChargeEntries("ann", "bob", 10), k);
  }

  lemma {:induction false} TenPays()
    ensures Diamonds(10) == 4
  {
  }

  /** With ten coins in her wallet, ann's request on an unused key rings. */
  lemma {:induction false} AskRings(w: Calls, tx: Tx)
    requires w == Calls(Book([tx], 0, map[]), map[]) && CallsOK(w) && tx.key == "a" && tx.metadata == map[]
    requires LogBalance([tx], BalanceKey(UserCoins("ann"), COIN)) == 10
    ensures var w' := PrivateVideo.Step(w, ASK);
            && PrivateVideo.Legal(w, ASK) && "s" in w'.sessions && Own(w'.book.log, w'.sessions["s"])
            && w'.sessions["s"].state == Requested && w'.sessions["s"].callee == "bob" && w'.sessions["s"].rate == 10
            && |w'.book.log| == 2 && w'.book.log[0] == tx && w'.book.log[1].key == "k"
  {
    hide CallsOK, Own, Conserved, PlatformShare, Diamonds, ChargeCoins, LogBalance;
    assert KeyIndex(w.book.log, 0) == map["a" := tx];
    CallsInv(w);
    ChargeResult(w.book, "ann", "bob", 10, "k", HoldMetadata("s", "ann", "bob"), 1);
    NewSessionIsChargedExactly(w, "ann", "bob", 10, "k", OPEN, "s", 1);
  }

  lemma {:induction false} DeclineKeepsOwn(w: Calls, id: string, now: int)
    requires CallsOK(w) && id in w.sessions && Own(w.book.log, w.sessions[id]) && w.sessions[id].state == Requested
    ensures var (w', r) := DeclineSession(w, w.sessions[id].callee, id, now);
            && PrivateVideo.Step(w, Decline(w.sessions[id].callee, id, now)) == w' && r.Ok? && id in w'.sessions
            && w'.sessions[id] == r.session && r.session.state == Declined && Own(w'.book.log, r.session)
  {
    hide CallsOK, ReverseHold, RecordOK, Inv, Own;
    CoverInv(w, id);
    OwnExactly(w.book, w.sessions[id]);
    DeclineKeeps(w, w.sessions[id].callee, id, now);
    var (w', r) := DeclineSession(w, w.sessions[id].callee, id, now);
    CoverInv(w', id);
    OwnExactly(w'.book, r.session);
  }

  /** A call whose callee spends the first minute's diamonds while it rings, and then declines. */
  lemma {:induction false} HoldKept()
    ensures exists ops :: LegalRun(ops) && "s" in RunCalls(ops).sessions
              && RunCalls(ops).sessions["s"].state == Declined
              && Own(RunCalls(ops).book.log, RunCalls(ops).sessions["s"])
              && !Conserved(RunCalls(ops), RunCalls(ops).sessions["s"])
  {
    hide CallsOK, IsPlatform, TwoLegs, Own, Conserved, PrivateVideo.Step, RunCalls, LegalRun, PlatformShare, Diamonds,
        Itoa, LogBalance, Give, SpendAll;
    UserIsNotPlatform("ann");
    OneGift(UserCoins("ann"), "a");
    var ops1 := [Give(UserCoins("ann"), 10, PLATFORM_LIABILITY, COIN, "a")];
    var w1 := RunCalls(ops1);
    AskRings(w1, w1.book.log[0]);
    RunOn(ops1, ASK);
    var ops2 := ops1 + [ASK];
    var w2 := RunCalls(ops2);
    StepKeeps(w1, ASK);
    TenPays();
    CallsInv(w2);
    KeyFree(w2.book, "c");
    DiamondsSpentWhileRinging(w2, "s", "c", 2);
    SpendAllResult(w2, "bob", "c");
    var ops3 := ops2 + [SpendAll(w2, "bob", "c")];
    RunOn(ops2, SpendAll(w2, "bob", "c"));
    var w3 := RunCalls(ops3);
    var decline := Decline("bob", "s", 2);
    RunOn(ops3, decline);
    var ops4 := ops3 + [decline];
    OwnGrows(w2, w3, w2.sessions["s"]);
    DeclineKeepsOwn(w3, "s", 2);
    assert RunCalls(ops4) == DeclineSession(w3, "bob", "s", 2).0;
  }

  // ---- A record that shows the wrong minutes ----

  /** What ann's accepted call looks like on the books: her ten coins gone, bob's four diamonds there. */
  lemma {:induction false} AskedAndAccepted(w: Calls, tx: Tx)
    requires w == Calls(Book([tx], 0, map[]), map[]) && CallsOK(w) && tx.key == "a" && tx.metadata == map[]
    requires tx.entries == TwoLegs(UserCoins("ann"), 10, PLATFORM_LIABILITY, COIN)
    requires LogBalance([tx], BalanceKey(UserCoins("ann"), COIN)) == 10
    ensures var w' := PrivateVideo.Step(PrivateVideo.Step(w, ASK), Accept("bob", "s", 5));
            && "s" in w'.sessions && w'.sessions["s"].state == Accepted && w'.sessions["s"].acceptedAt == Some(5)
            && w'.sessions["s"].rate == 10 && CallsOK(w') && Own(w'.book.log, w'.sessions["s"])
            && Covered(w'.book, w'.sessions["s"])
            && LogBalance(w'.book.log, BalanceKey(UserCoins(w'.sessions["s"].caller), COIN)) == 0
  {
    hide CallsOK, Own, PrivateVideo.Step, LogBalance, TwoLegs, PlatformShare, Diamonds;
    AskRings(w, tx);
    var w1 := PrivateVideo.Step(w, ASK);
    StepKeeps(w, ASK);
    StepKeeps(w1, Accept("bob", "s", 5));
    AcceptedAt(w1, 5);
    AskBalances(w, tx);
  }

  lemma {:induction false} AcceptedAt(w: Calls, now: int)
    requires "s" in w.sessions && w.sessions["s"].callee == "bob" && w.sessions["s"].state == Requested
    requires Own(w.book.log, w.sessions["s"])
    ensures var w' := PrivateVideo.Step(w, Accept("bob", "s", now));
            && w'.book == w.book && w'.sessions == w.sessions["s" := w'.sessions["s"]]
            && w'.sessions["s"] == w.sessions["s"].(state := Accepted, acceptedAt := Some(now))
            && Own(w'.book.log, w'.sessions["s"])
  {
  }

  lemma {:induction false} AskBalances(w: Calls, tx: Tx)
    requires w == Calls(Book([tx], 0, map[]), map[]) && CallsOK(w) && tx.key == "a" && tx.metadata == map[]
    requires tx.entries == TwoLegs(UserCoins("ann"), 10, PLATFORM_LIABILITY, COIN)
    requires LogBalance([tx], BalanceKey(UserCoins("ann"), COIN)) == 10
    ensures var w' := PrivateVideo.Step(w, ASK);
            && LogBalance(w'.book.log, BalanceKey(UserCoins("ann"), COIN)) == 0
            && LogBalance(w'.book.log, BalanceKey(UserDiamonds("bob"), DIAMOND)) >= Diamonds(10)
            && "s" in w'.sessions && w'.sessions["s"].caller == "ann"
  {
    hide CallsOK, PlatformShare, Diamonds, ChargeCoins, LogBalance, LogOK, KeysUnique, ReversalsOK;
    assert KeyIndex(w.book.log, 0) == map["a" := tx];
    CallsInv(w);
    ChargeResult(w.book, "ann", "bob", 10, "k", HoldMetadata("s", "ann", "bob"), 1);
    var es := ChargeEntries("ann", "bob", 10);
    var hold := PrivateVideo.Step(w, ASK).book.log[1];
    LogBalanceAppend([tx], hold, KeyOf(es[0]));
    LogBalanceAppend([tx], hold, KeyOf(es[3]));
    ChargeTouchesOnce("ann", "bob", 10);
    OnceSum(es, 0);
    OnceSum(es, 3);
    UserIsNotPlatform("bob");
    InvLog(w.book);
    NonNegative([tx], KeyOf(es[3]));
  }

  /** Ann ends a call after half a minute and bob, having read it before her call was recorded, after one and a
      half: she is billed one minute and the record says two. */
  lemma {:induction false} RecordDisagrees()
    ensures exists ops, first: CallRaces.Turn, second: CallRaces.Turn ::
              && LegalRun(ops) && "s" in RunCalls(ops).sessions
              && var r := CallRaces.Race(RunCalls(ops).book, RunCalls(ops).sessions["s"], map[]);
              && CallRaces.Untouched(r)
              && CallRaces.Opening(r.record, CallRaces.Ending, r.record.caller, 5 + MINUTE / 2) == Some(first)
              && CallRaces.Opening(r.record, CallRaces.Ending, r.record.callee, 5 + 3 * MINUTE / 2) == Some(second)
              && var r' := CallRaces.Finish(CallRaces.Finish(r.(turns := map[0 := first, 1 := second]), 0), 1);
              !CallRaces.Truthful(r') && CallRaces.Billed(r'.book.log, r'.record) == 10 && r'.record.consumed == 20
  {
    hide CallsOK, Own, Covered, LogBalance, PrivateVideo.Step, PlatformShare, Diamonds, IsPlatform, RunCalls, LegalRun,
         CallRaces.Untouched, CallRaces.Truthful, CallRaces.Finish, CallRaces.Advance, CallRaces.Billed, Itoa;
    UserIsNotPlatform("ann");
    OneGift(UserCoins("ann"), "a");
    var ops1 := [Give(UserCoins("ann"), 10, PLATFORM_LIABILITY, COIN, "a")];
    var w := RunCalls(ops1);
    AskRings(w, w.book.log[0]);
    AskedAndAccepted(w, w.book.log[0]);
    RunOn(ops1, ASK);
    RunOn(ops1 + [ASK], Accept("bob", "s", 5));
    var ops := ops1 + [ASK] + [Accept("bob", "s", 5)];
    var w' := RunCalls(ops);
    var s := w'.sessions["s"];
    var r := CallRaces.Race(w'.book, s, map[]);
    RaceFrom(w', r);
    var first := CallRaces.Opening(s, CallRaces.Ending, s.caller, 5 + MINUTE / 2).value;
    var second := CallRaces.Opening(s, CallRaces.Ending, s.callee, 5 + 3 * MINUTE / 2).value;
    assert CallRaces.MinutesOf(first) == 1 && CallRaces.MinutesOf(second) == 2;
    CallRaces.BothEndExactly(r, first, second);
  }

  lemma {:induction false} RaceFrom(w: Calls, r: CallRaces.Race)
    requires CallsOK(w) && "s" in w.sessions && Own(w.book.log, w.sessions["s"]) && !Over(w.sessions["s"].state)
    requires r == CallRaces.Race(w.book, w.sessions["s"], map[])
    ensures CallRaces.Untouched(r)
  {
    hide CallsOK, Inv, Own, SessionOK, RecordOK;
    CoverInv(w, "s");
    OwnExactly(w.book, w.sessions["s"]);
  }
}
