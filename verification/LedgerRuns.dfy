/** What every run of posts, reversals and restarts keeps, and exactly when a post or a reversal is accepted. */
module LedgerRuns {
  import opened Decimal
  import opened Ledger

  // ---- The invariant ----

  /** The design's acceptance rule: something to post, every currency sums to zero, and no wallet is below
      zero after any prefix of the entries. */
  ghost predicate Acceptable(log: seq<Tx>, es: seq<Entry>) {
    && es != []
    && (forall c :: CurrencySum(es, c) == 0)
    && (forall n, k: BalanceKey :: 0 <= n <= |es| && !IsPlatform(k.account)
          ==> LogBalance(log, k) + EntrySum(es[..n], k) >= 0)
  }

  ghost predicate LogOK(log: seq<Tx>) {
    forall i :: 0 <= i < |log| ==> log[i].id == TxId(i + 1) && Acceptable(log[..i], log[i].entries)
  }

  ghost predicate KeysUnique(log: seq<Tx>, from: nat) {
    forall i, j :: from <= i < j < |log| ==> log[i].key != log[j].key
  }

  /** Transaction j of the log is the exact inverse of transaction i, posted later. */
  ghost predicate Reverses(log: seq<Tx>, i: nat, j: nat) {
    && i < j < |log|
    && log[i].kind != REVERSAL_KIND
    && log[j].kind == REVERSAL_KIND
    && log[j].entries == Negated(log[i].entries)
  }

  ghost predicate ReversalsOK(log: seq<Tx>, reversals: map<string, string>) {
    && (forall o :: o in reversals ==>
          exists i: nat, j: nat :: Reverses(log, i, j) && o == log[i].id && reversals[o] == log[j].id)
    && (forall o, p :: o in reversals && p in reversals && reversals[o] == reversals[p] ==> o == p)
  }

  ghost predicate Inv(b: Book) {
    && b.forgotten <= |b.log|
    && LogOK(b.log)
    && KeysUnique(b.log, b.forgotten)
    && ReversalsOK(b.log, b.reversals)
  }

  lemma {:induction false} InvLog(b: Book)
    requires Inv(b)
    ensures LogOK(b.log)
  {
  }

  lemma {:induction false} NonNegative(log: seq<Tx>, k: BalanceKey)
    requires LogOK(log) && !IsPlatform(k.account)
    ensures LogBalance(log, k) >= 0
  {
    if log != [] {
      var n := |log| - 1;
      var es := log[n].entries;
      assert es[..|es|] == es;
      assert LogBalance(log[..n], k) + EntrySum(es[..|es|], k) >= 0;
    }
  }

  lemma {:induction false} IdsDistinct(log: seq<Tx>, i: nat, j: nat)
    requires LogOK(log) && i < |log| && j < |log| && log[i].id == log[j].id
    ensures i == j
  {
    TxIdInjective(i + 1, j + 1);
  }

  /** Looking a transaction up by ID finds exactly the transaction posted under it. */
  lemma {:induction false} IdLookup(log: seq<Tx>, i: nat)
    requires LogOK(log) && i < |log|
    ensures log[i].id in IdIndex(log) && IdIndex(log)[log[i].id] == log[i]
  {
    IdIndexFinds(log, log[i].id);
    var j :| 0 <= j < |log| && log[j].id == log[i].id && IdIndex(log)[log[i].id] == log[j];
    IdsDistinct(log, i, j);
  }

  /** Looking a transaction up by a remembered key finds exactly the transaction posted under it. */
  lemma {:induction false} KeyLookup(b: Book, i: nat)
    requires Inv(b) && b.forgotten <= i < |b.log|
    ensures KeyUsed(b, b.log[i].key) && KeyIndex(b.log, b.forgotten)[b.log[i].key] == b.log[i]
  {
    var key := b.log[i].key;
    KeyIndexFinds(b.log, b.forgotten, key);
    var j :| b.forgotten <= j < |b.log| && b.log[j].key == key && KeyIndex(b.log, b.forgotten)[key] == b.log[j];
  }

  // ---- Exact acceptance ----

  lemma {:induction false} NoBreachKeepsPrefix(log: seq<Tx>, es: seq<Entry>, n: nat, k: BalanceKey)
    requires LogOK(log) && n <= |es| && !IsPlatform(k.account)
    requires forall j :: 0 <= j < n ==> !Breach(log, es, j)
    ensures LogBalance(log, k) + EntrySum(es[..n], k) >= 0
  {
    if n == 0 {
      NonNegative(log, k);
    } else {
      NoBreachKeepsPrefix(log, es, n - 1, k);
      EntrySumStep(es, n - 1, k);
      assert !Breach(log, es, n - 1);
    }
  }

  lemma {:induction false} BreachIsUnacceptable(log: seq<Tx>, es: seq<Entry>, i: nat)
    requires i < |es| && Breach(log, es, i)
    ensures !Acceptable(log, es)
  {
    var k := KeyOf(es[i]);
    assert LogBalance(log, k) + EntrySum(es[..i + 1], k) < 0;
  }

  /** On an unused key a post goes through exactly when its entries are acceptable, and then appends one
      transaction with those entries; otherwise the book is untouched. */
  lemma {:induction false} ExactAcceptance(b: Book, kind: string, key: string, metadata: Metadata, es: seq<Entry>,
                                           now: int)
    requires Inv(b) && !KeyUsed(b, key)
    ensures var (b', r) := Post(b, kind, key, metadata, es, now);
            if Acceptable(b.log, es)
            then r == Posted(Tx("tx-" + Itoa(|b.log| + 1), kind, key, metadata, es, now), true)
                 && b' == b.(log := b.log + [r.tx])
            else r.Rejected? && b' == b
  {
    if es != [] && Balanced(es) {
      forall c ensures CurrencySum(es, c) == 0 { BalancedEverywhere(es, c); }
      var i := FirstBreach(b.log, es, 0);
      if i < |es| {
        BreachIsUnacceptable(b.log, es, i);
      } else {
        forall n, k: BalanceKey | 0 <= n <= |es| && !IsPlatform(k.account)
          ensures LogBalance(b.log, k) + EntrySum(es[..n], k) >= 0
        {
          NoBreachKeepsPrefix(b.log, es, n, k);
        }
      }
    }
  }

  /** Why a post on an unused key is refused: it has no entries, or some currency does not sum to zero, or else its
      first entry that leaves a wallet below zero is named with what it takes and what the wallet held before. */
  lemma {:induction false} RefusalExactly(b: Book, kind: string, key: string, metadata: Metadata, es: seq<Entry>,
                                          now: int)
    requires Inv(b) && !KeyUsed(b, key)
    ensures var r := Post(b, kind, key, metadata, es, now).1;
            && (r == Rejected(TransactionEmpty) <==> es == [])
            && (r == Rejected(Unbalanced) <==> exists c :: CurrencySum(es, c) != 0)
            && (r.Rejected? && r.error.InsufficientBalance? ==>
                  exists i :: 0 <= i < |es| && FirstOverdraft(b.log, es, i) && r.error == Overdraft(b.log, es[i]))
            && (r.Rejected? ==> r.error in {TransactionEmpty, Unbalanced} || r.error.InsufficientBalance?)
  {
    hide Inv, LogOK, KeyIndex;
    if es == [] || Balanced(es) {
      forall c ensures CurrencySum(es, c) == 0 { BalancedEverywhere(es, c); }
      assert !exists c :: CurrencySum(es, c) != 0;
    } else {
      var i :| 0 <= i < |es| && CurrencySum(es, es[i].currency) != 0;
      assert Post(b, kind, key, metadata, es, now).1 == Rejected(Unbalanced);
      assert exists c :: CurrencySum(es, c) != 0;
    }
    var i := FirstBreach(b.log, es, 0);
    if i < |es| {
      forall j | 0 <= j < i && !IsPlatform(es[j].account)
        ensures LogBalance(b.log, KeyOf(es[j])) + EntrySum(es[..j + 1], KeyOf(es[j])) >= 0
      {
        assert !Breach(b.log, es, j);
      }
    }
  }

  /** Entry i leaves a wallet below zero, and no entry before it does. */
  ghost predicate FirstOverdraft(log: seq<Tx>, es: seq<Entry>, i: nat)
    requires i < |es|
  {
    && !IsPlatform(es[i].account)
    && LogBalance(log, KeyOf(es[i])) + EntrySum(es[..i + 1], KeyOf(es[i])) < 0
    && forall j :: 0 <= j < i && !IsPlatform(es[j].account)
         ==> LogBalance(log, KeyOf(es[j])) + EntrySum(es[..j + 1], KeyOf(es[j])) >= 0
  }

  function Overdraft(log: seq<Tx>, e: Entry): LedgerError {
    InsufficientBalance(e.account, e.currency, -e.amount, LogBalance(log, BalanceKey(e.account, e.currency)))
  }

  /** A key that is still remembered never posts again: the answer is the first transaction under it. */
  lemma {:induction false} ReplayPostsNothing(b: Book, i: nat, kind: string, metadata: Metadata, es: seq<Entry>,
                                              now: int)
    requires Inv(b) && b.forgotten <= i < |b.log|
    ensures Post(b, kind, b.log[i].key, metadata, es, now) == (b, Posted(b.log[i], false))
  {
    KeyLookup(b, i);
  }

  // ---- Shortfall ----

  function TopUp(log: seq<Tx>, k: BalanceKey, amount: int): seq<Tx> {
    log + [Tx("", "", "", map[], [Entry(k.account, amount, k.currency)], 0)]
  }

  lemma {:induction false} TopUpBalance(log: seq<Tx>, k: BalanceKey, amount: int, j: BalanceKey)
    ensures LogBalance(TopUp(log, k, amount), j) == LogBalance(log, j) + if j == k then amount else 0
  {
    var es := [Entry(k.account, amount, k.currency)];
    assert es[..0] == [];
    LogBalanceAppend(log, Tx("", "", "", map[], es, 0), j);
  }

  /** The reported shortfall is the least top-up that carries a retry past the rejected entry exactly when
      the earlier entries of the transaction leave that account's balance where it was. In general the least
      top-up is the shortfall less what those earlier entries add. */
  lemma {:induction false} ShortfallIsLeastTopUp(b: Book, kind: string, key: string, metadata: Metadata, es: seq<Entry>,
                                                 now: int, topUp: nat)
    requires Post(b, kind, key, metadata, es, now).1.Rejected?
    requires Post(b, kind, key, metadata, es, now).1.error.InsufficientBalance?
    ensures var i := FirstBreach(b.log, es, 0);
            && i < |es|
            && var error := Post(b, kind, key, metadata, es, now).1.error;
            var k := KeyOf(es[i]);
            var earlier := EntrySum(es[..i], k);
            && k == BalanceKey(error.account, error.currency)
            && (FirstBreach(TopUp(b.log, k, topUp), es, 0) > i <==> topUp >= error.Shortfall() - earlier)
            && (earlier == 0 ==> error.Shortfall() > 0)
  {
    var i := FirstBreach(b.log, es, 0);
    var k := KeyOf(es[i]);
    var after := TopUp(b.log, k, topUp);
    EntrySumStep(es, i, k);
    forall j | 0 <= j < i
      ensures !Breach(after, es, j)
    {
      assert !Breach(b.log, es, j);
      TopUpBalance(b.log, k, topUp, KeyOf(es[j]));
    }
    TopUpBalance(b.log, k, topUp, k);
    assert Breach(after, es, i) <==> LogBalance(b.log, k) + topUp + EntrySum(es[..i + 1], k) < 0;
  }

  /** A wallet touched twice can be rejected with a shortfall of nothing or less: from any wallet holding
      something, take all of it and then one more. */
  lemma {:induction false} ShortfallMayBeNegative(b: Book, w: string, key: string, now: int)
    requires Inv(b) && !KeyUsed(b, key) && !IsPlatform(w)
    requires LogBalance(b.log, BalanceKey(w, COIN)) > 0
    ensures var a := LogBalance(b.log, BalanceKey(w, COIN));
            Post(b, "gift", key, map[], [Entry(w, -a, COIN), Entry(w, -1, COIN),
                                         Entry(PLATFORM_LIABILITY, a + 1, COIN)], now).1
            == Rejected(InsufficientBalance(w, COIN, 1, a))
    ensures InsufficientBalance(w, COIN, 1, LogBalance(b.log, BalanceKey(w, COIN))).Shortfall() <= 0
  {
    var k := BalanceKey(w, COIN);
    var a := LogBalance(b.log, k);
    var es := [Entry(w, -a, COIN), Entry(w, -1, COIN), Entry(PLATFORM_LIABILITY, a + 1, COIN)];
    CurrencySumStep(es, 0, COIN);
    CurrencySumStep(es, 1, COIN);
    CurrencySumStep(es, 2, COIN);
    EntrySumStep(es, 0, k);
    EntrySumStep(es, 1, k);
    assert es[..0] == [] && es[..3] == es;
    assert Balanced(es);
    assert !Breach(b.log, es, 0) && Breach(b.log, es, 1);
  }

  lemma {:induction false} TwoEntrySums(es: seq<Entry>, c: Currency)
    requires |es| == 2
    ensures CurrencySum(es, c) == (if es[0].currency == c then es[0].amount else 0)
            + (if es[1].currency == c then es[1].amount else 0)
  {
    assert es[..1][..0] == [] && es[..1][0] == es[0];
    assert CurrencySum(es[..1], c) == if es[0].currency == c then es[0].amount else 0;
  }

  /** Two legs between a wallet and a platform account. */
  function TwoLegs(wallet: string, amount: int, platform: string, c: Currency): seq<Entry> {
    [Entry(wallet, amount, c), Entry(platform, -amount, c)]
  }

  /** Such a transfer is acceptable when the wallet covers it; a deposit always is. */
  lemma {:induction false} TwoLegsAcceptable(log: seq<Tx>, wallet: string, amount: int, platform: string, c: Currency)
    requires LogOK(log) && !IsPlatform(wallet) && IsPlatform(platform)
             && LogBalance(log, BalanceKey(wallet, c)) + amount >= 0
    ensures Acceptable(log, TwoLegs(wallet, amount, platform, c))
    ensures forall k :: EntrySum(TwoLegs(wallet, amount, platform, c), k)
                        == if k == BalanceKey(wallet, c) then amount
                           else if k == BalanceKey(platform, c) then -amount else 0
  {
    var es := TwoLegs(wallet, amount, platform, c);
    forall d ensures CurrencySum(es, d) == 0 { TwoEntrySums(es, d); }
    assert es[..0] == [] && es[..2] == es;
    forall k: BalanceKey ensures EntrySum(es, k)
        == if k == BalanceKey(wallet, c) then amount else if k == BalanceKey(platform, c) then -amount else 0 {
      EntrySumStep(es, 0, k);
      EntrySumStep(es, 1, k);
    }
    forall n, k: BalanceKey | 0 <= n <= |es| && !IsPlatform(k.account)
      ensures LogBalance(log, k) + EntrySum(es[..n], k) >= 0
    {
      NonNegative(log, k);
      if n > 0 { EntrySumStep(es, 0, k); }
      if n > 1 { EntrySumStep(es, 1, k); }
    }
  }

  // ---- Every operation keeps the invariant ----

  lemma {:induction false} EmptyInv()
    ensures Inv(EMPTY_BOOK)
  {
  }

  lemma {:induction false} LogOKAppend(log: seq<Tx>, tx: Tx)
    requires LogOK(log) && tx.id == TxId(|log| + 1) && Acceptable(log, tx.entries)
    ensures LogOK(log + [tx])
  {
    var log' := log + [tx];
    forall i | 0 <= i < |log'|
      ensures log'[i].id == TxId(i + 1) && Acceptable(log'[..i], log'[i].entries)
    {
      assert log'[..i] == log[..i];
      if i == |log| {
        assert log[..i] == log;
      }
    }
  }

  lemma {:induction false} ReversalsAppend(log: seq<Tx>, tx: Tx, reversals: map<string, string>)
    requires ReversalsOK(log, reversals)
    ensures ReversalsOK(log + [tx], reversals)
  {
    forall o | o in reversals
      ensures exists i: nat, j: nat :: Reverses(log + [tx], i, j) && o == (log + [tx])[i].id
                && reversals[o] == (log + [tx])[j].id
    {
      var i: nat, j: nat :| Reverses(log, i, j) && o == log[i].id && reversals[o] == log[j].id;
      assert Reverses(log + [tx], i, j);
    }
  }

  lemma {:induction false} PostKeepsInv(b: Book, kind: string, key: string, metadata: Metadata, es: seq<Entry>,
                                        now: int)
    requires Inv(b)
    ensures Inv(Post(b, kind, key, metadata, es, now).0)
  {
    var (b', r) := Post(b, kind, key, metadata, es, now);
    if b' != b {
      ExactAcceptance(b, kind, key, metadata, es, now);
      LogOKAppend(b.log, r.tx);
      KeyIndexFinds(b.log, b.forgotten, key);
      ReversalsAppend(b.log, r.tx, b.reversals);
    }
  }

  /** Recording the transaction just appended as the reversal of transaction i keeps the reversal table. */
  lemma {:induction false} RecordReversal(log: seq<Tx>, tx: Tx, reversals: map<string, string>, i: nat)
    requires LogOK(log + [tx]) && ReversalsOK(log, reversals) && i < |log|
    requires log[i].kind != REVERSAL_KIND && tx.kind == REVERSAL_KIND && tx.entries == Negated(log[i].entries)
    ensures ReversalsOK(log + [tx], reversals[log[i].id := tx.id])
  {
    var log', reversals' := log + [tx], reversals[log[i].id := tx.id];
    ReversalsAppend(log, tx, reversals);
    assert Reverses(log', i, |log|) && log'[i] == log[i] && log'[|log|] == tx;
    forall o, p | o in reversals' && p in reversals' && reversals'[o] == reversals'[p]
      ensures o == p
    {
      if o != log[i].id { ReversalIdIsOld(log, tx, reversals, o); }
      if p != log[i].id { ReversalIdIsOld(log, tx, reversals, p); }
    }
  }

  lemma {:induction false} ReversalIdIsOld(log: seq<Tx>, tx: Tx, reversals: map<string, string>, o: string)
    requires LogOK(log + [tx]) && ReversalsOK(log, reversals) && o in reversals
    ensures reversals[o] != tx.id
  {
    var i: nat, j: nat :| Reverses(log, i, j) && o == log[i].id && reversals[o] == log[j].id;
    if reversals[o] == tx.id {
      IdsDistinct(log + [tx], j, |log|);
      assert false;
    }
  }

  lemma {:induction false} ReverseKeepsInv(b: Book, originalId: string, key: string, reason: string, now: int)
    requires Inv(b)
    ensures Inv(Reverse(b, originalId, key, reason, now).0)
  {
    var (b', r) := Reverse(b, originalId, key, reason, now);
    if b' != b {
      var original := IdIndex(b.log)[originalId];
      var metadata, es := ReversalMetadata(original, reason), Negated(original.entries);
      PostKeepsInv(b, REVERSAL_KIND, key, metadata, es, now);
      ExactAcceptance(b, REVERSAL_KIND, key, metadata, es, now);
      IdIndexFinds(b.log, originalId);
      var i :| 0 <= i < |b.log| && b.log[i].id == originalId && original == b.log[i];
      RecordReversal(b.log, r.tx, b.reversals, i);
    }
  }

  // ---- Runs ----

  datatype Op =
    | PostOp(kind: string, key: string, metadata: Metadata, entries: seq<Entry>, now: int)
    | ReverseOp(originalId: string, key: string, reason: string, now: int)
    | RestartOp  // snapshot, then restore into a fresh ledger

  function Apply(b: Book, op: Op): Book {
    match op
    case PostOp(kind, key, metadata, entries, now) => Post(b, kind, key, metadata, entries, now).0
    case ReverseOp(originalId, key, reason, now) => Reverse(b, originalId, key, reason, now).0
    case RestartOp => Restored(b)
  }

  function Run(b: Book, ops: seq<Op>): Book {
    if ops == [] then b else Apply(Run(b, ops[..|ops| - 1]), ops[|ops| - 1])
  }

  /** Whatever is posted, reversed or restarted, in any order: every transaction on the books was acceptable
      when it was posted, IDs count up without repeats, remembered keys are unique, and each recorded
      reversal is the exact later inverse of an original that is not itself a reversal. */
  lemma {:induction false} RunKeepsInv(b: Book, ops: seq<Op>)
    requires Inv(b)
    ensures Inv(Run(b, ops))
  {
    if ops != [] {
      var before := Run(b, ops[..|ops| - 1]);
      RunKeepsInv(b, ops[..|ops| - 1]);
      match ops[|ops| - 1]
      case PostOp(kind, key, metadata, entries, now) => PostKeepsInv(before, kind, key, metadata, entries, now);
      case ReverseOp(originalId, key, reason, now) => ReverseKeepsInv(before, originalId, key, reason, now);
      case RestartOp =>
    }
  }

  /** From an empty ledger, no run ever leaves a wallet below zero, and every balance is the sum of the
      account's history. */
  lemma {:induction false} RunBalances(ops: seq<Op>, k: BalanceKey)
    ensures var log := Run(EMPTY_BOOK, ops).log;
            && (!IsPlatform(k.account) ==> LogBalance(log, k) >= 0)
            && LogBalance(log, k) == HistorySum(AccountHistory(log, k.account), k.currency)
  {
    EmptyInv();
    RunKeepsInv(EMPTY_BOOK, ops);
    var log := Run(EMPTY_BOOK, ops).log;
    if !IsPlatform(k.account) {
      NonNegative(log, k);
    }
    BalanceIsHistorySum(log, k);
  }

  lemma {:induction false} ApplyGrows(b: Book, op: Op)
    ensures b.log <= Apply(b, op).log
    ensures forall o :: o in b.reversals ==> o in Apply(b, op).reversals && Apply(b, op).reversals[o] == b.reversals[o]
  {
    hide KeyIndex, IdIndex, Balanced, FirstBreach, LogBalance;
  }

  /** Financial history is never edited: a later state extends the log and keeps every recorded reversal. */
  lemma {:induction false} RunGrows(b: Book, ops: seq<Op>)
    ensures b.log <= Run(b, ops).log
    ensures forall o :: o in b.reversals ==> o in Run(b, ops).reversals && Run(b, ops).reversals[o] == b.reversals[o]
  {
    hide Apply;
    if ops != [] {
      RunGrows(b, ops[..|ops| - 1]);
      ApplyGrows(Run(b, ops[..|ops| - 1]), ops[|ops| - 1]);
    }
  }

  /** What one operation other than a restart can do to the books: nothing, or append one transaction under
      its key, recording at most the reversal it was asked for. */
  lemma {:induction false} ApplyAddsOne(b: Book, op: Op)
    requires Inv(b) && !op.RestartOp?
    ensures var b' := Apply(b, op);
            && Inv(b') && b'.forgotten == b.forgotten
            && (b' == b || (|b'.log| == |b.log| + 1 && b'.log == b.log + [b'.log[|b.log|]]
                            && b'.log[|b.log|].key == op.key
                            && b'.log[|b.log|].id == TxId(|b.log| + 1)
                            && b'.reversals == if op.ReverseOp? then b.reversals[op.originalId := TxId(|b.log| + 1)]
                                else b.reversals))
            && (b' != b ==> !KeyUsed(b, op.key)
                            && (op.PostOp? ==> b'.log[|b.log|].kind == op.kind && b'.log[|b.log|].entries == op.entries)
                            && (op.ReverseOp? ==> b'.log[|b.log|].kind == REVERSAL_KIND))
  {
    hide LogOK, KeysUnique, ReversalsOK, IdIndex, Balanced, FirstBreach, KeyIndex;
    match op
    case PostOp(kind, key, metadata, entries, now) => PostKeepsInv(b, kind, key, metadata, entries, now);
    case ReverseOp(originalId, key, reason, now) => ReverseKeepsInv(b, originalId, key, reason, now);
  }

  // ---- Reversal ----

  /** This step of a run posted a new reversal of originalId. */
  predicate ReversesNow(b: Book, op: Op, originalId: string) {
    && op.ReverseOp? && op.originalId == originalId
    && var r := Reverse(b, originalId, op.key, op.reason, op.now).1;
    r.Posted? && r.isNew
  }

  /** In any run, with restarts anywhere, an original is reversed at most once. */
  lemma {:induction false} ReversedAtMostOnce(b: Book, ops: seq<Op>, i: nat, j: nat, originalId: string)
    requires i < j < |ops|
    requires ReversesNow(Run(b, ops[..i]), ops[i], originalId)
    ensures !ReversesNow(Run(b, ops[..j]), ops[j], originalId)
  {
    hide Post, KeyIndex, IdIndex;
    assert ops[..i + 1][..i] == ops[..i];
    assert originalId in Run(b, ops[..i + 1]).reversals;
    RunSplit(b, ops[..j], i + 1);
    assert ops[..j][..i + 1] == ops[..i + 1];
    RunGrows(Run(b, ops[..i + 1]), ops[..j][i + 1..]);
  }

  lemma {:induction false} RunSplit(b: Book, ops: seq<Op>, n: nat)
    requires n <= |ops|
    ensures Run(b, ops) == Run(Run(b, ops[..n]), ops[n..])
  {
    hide Apply;
    if n == |ops| {
      assert ops[..n] == ops && ops[n..] == [];
    } else {
      var last := |ops| - 1;
      RunSplit(b, ops[..last], n);
      assert ops[..last][..n] == ops[..n];
      assert ops[n..][..|ops[n..]| - 1] == ops[..last][n..];
    }
  }

  /** On an unused key a reversal is posted exactly when the original is on the books, is not a reversal, has not
      been reversed, and its inverse is acceptable; it is then the exact inverse. Otherwise nothing changes. */
  lemma {:induction false} ReversalExactly(b: Book, originalId: string, key: string, reason: string, now: int)
    requires Inv(b) && !KeyUsed(b, key)
    ensures var (b', r) := Reverse(b, originalId, key, reason, now);
            if exists i :: 0 <= i < |b.log| && b.log[i].id == originalId && b.log[i].kind != REVERSAL_KIND
                           && originalId !in b.reversals && Acceptable(b.log, Negated(b.log[i].entries))
            then r.Posted? && r.isNew && b'.log == b.log + [r.tx] && b'.reversals == b.reversals[originalId := r.tx.id]
                 && originalId in IdIndex(b.log) && InverseOf(b, IdIndex(b.log)[originalId], r.tx, key, reason, now)
            else r.Rejected? && b' == b
  {
    hide Acceptable, LogOK, ReversalsOK, KeysUnique, KeyIndex, IdIndex, Post;
    IdIndexFinds(b.log, originalId);
    if originalId in IdIndex(b.log) {
      var original := IdIndex(b.log)[originalId];
      var i :| 0 <= i < |b.log| && b.log[i].id == originalId && original == b.log[i];
      forall j | 0 <= j < |b.log| && b.log[j].id == originalId ensures j == i { InvIdsDistinct(b, i, j); }
      ExactAcceptance(b, REVERSAL_KIND, key, ReversalMetadata(original, reason), Negated(original.entries), now);
      ReversalKind(b, key, ReversalMetadata(original, reason), Negated(original.entries), now);
    }
  }

  /** The inverse of a transaction, naming it, its kind and the reason. */
  ghost predicate InverseOf(b: Book, original: Tx, tx: Tx, key: string, reason: string, now: int) {
    && tx.id == "tx-" + Itoa(|b.log| + 1) && tx.kind == "reversal" && tx.key == key && tx.createdAt == now
    && tx.metadata == map["reversed_transaction_id" := Text(original.id), "reason" := Text(reason),
                          "original_kind" := Text(original.kind)]
    && tx.entries == Negated(original.entries)
  }

  /** Why a reversal on an unused key is refused, in order: the original is not on the books, it is a reversal
      itself, it has been reversed already, or its inverse cannot be posted. On a remembered key it answers with the
      first transaction under it. */
  lemma {:induction false} ReversalRefusal(b: Book, originalId: string, key: string, reason: string, now: int)
    requires Inv(b)
    ensures var (b', r) := Reverse(b, originalId, key, reason, now);
            && (forall i :: b.forgotten <= i < |b.log| && b.log[i].key == key
                  ==> (b', r) == (b, Posted(b.log[i], false)))
            && (!KeyUsed(b, key) ==>
                  && (r == Rejected(TransactionNotFound) <==>
                        forall i :: 0 <= i < |b.log| ==> b.log[i].id != originalId)
                  && (r == Rejected(CannotReverseAReversal) <==>
                        exists i :: 0 <= i < |b.log| && b.log[i].id == originalId && b.log[i].kind == "reversal")
                  && (r == Rejected(AlreadyReversed) <==>
                        originalId in b.reversals
                        && exists i :: 0 <= i < |b.log| && b.log[i].id == originalId && b.log[i].kind != "reversal"))
  {
    hide Acceptable, LogOK, ReversalsOK, KeyIndex, IdIndex, Balanced, FirstBreach;
    forall i | b.forgotten <= i < |b.log| && b.log[i].key == key
      ensures Reverse(b, originalId, key, reason, now) == (b, Posted(b.log[i], false))
    {
      KeyLookup(b, i);
    }
    IdIndexFinds(b.log, originalId);
    if originalId in IdIndex(b.log) {
      var i :| 0 <= i < |b.log| && b.log[i].id == originalId && IdIndex(b.log)[originalId] == b.log[i];
      forall j | 0 <= j < |b.log| && b.log[j].id == originalId ensures j == i { InvIdsDistinct(b, i, j); }
    }
  }

  lemma {:induction false} InvIdsDistinct(b: Book, i: nat, j: nat)
    requires Inv(b) && i < |b.log| && j < |b.log| && b.log[i].id == b.log[j].id
    ensures i == j
  {
    IdsDistinct(b.log, i, j);
  }

  lemma {:induction false} ReversalKind(b: Book, key: string, metadata: Metadata, es: seq<Entry>, now: int)
    ensures var (b', r) := Post(b, REVERSAL_KIND, key, metadata, es, now);
            b'.reversals == b.reversals && (r.Posted? && r.isNew ==> r.tx.kind == REVERSAL_KIND)
  {
    hide KeyIndex, Balanced, FirstBreach;
  }

  /** No reversal is itself reversed. */
  lemma {:induction false} NoReversalReversed(b: Book, o: string)
    requires Inv(b) && o in b.reversals
    ensures b.reversals[o] !in b.reversals
  {
    var i: nat, j: nat :| Reverses(b.log, i, j) && o == b.log[i].id && b.reversals[o] == b.log[j].id;
    if b.reversals[o] in b.reversals {
      var i': nat, j': nat :| Reverses(b.log, i', j') && b.reversals[o] == b.log[i'].id
          && b.reversals[b.reversals[o]] == b.log[j'].id;
      IdsDistinct(b.log, j, i');
      assert false;
    }
  }

  /** A post and its reversal cancel on every account, whatever else was posted in between. */
  lemma {:induction false} ReversalCancels(b: Book, o: string, k: BalanceKey)
    requires Inv(b) && o in b.reversals
    ensures o in IdIndex(b.log) && b.reversals[o] in IdIndex(b.log)
    ensures EntrySum(IdIndex(b.log)[o].entries, k) + EntrySum(IdIndex(b.log)[b.reversals[o]].entries, k) == 0
  {
    var i: nat, j: nat :| Reverses(b.log, i, j) && o == b.log[i].id && b.reversals[o] == b.log[j].id;
    IdLookup(b.log, i);
    IdLookup(b.log, j);
    NegatedSum(b.log[i].entries, k);
  }

  lemma {:induction false} EntrySumSplit(es: seq<Entry>, n: nat, k: BalanceKey)
    requires n <= |es|
    ensures EntrySum(es, k) == EntrySum(es[..n], k) + EntrySum(es[n..], k)
  {
    if n == |es| {
      assert es[..n] == es;
    } else {
      var last := |es| - 1;
      EntrySumSplit(es[..last], n, k);
      assert es[..last][..n] == es[..n];
      assert es[n..][..|es[n..]| - 1] == es[..last][n..];
    }
  }

  /** No tail of the entries, applied on its own, would take a wallet below zero. */
  ghost predicate TailsCovered(log: seq<Tx>, es: seq<Entry>) {
    forall n, k: BalanceKey :: 0 <= n <= |es| && !IsPlatform(k.account)
        ==> LogBalance(log, k) + EntrySum(es[n..], k) >= 0
  }

  ghost predicate TouchesOnce(es: seq<Entry>) {
    forall i, j :: 0 <= i < j < |es| ==> KeyOf(es[i]) != KeyOf(es[j])
  }

  lemma {:induction false} ImmediatelyNegated(log: seq<Tx>, tx: Tx, n: nat, k: BalanceKey)
    requires n <= |tx.entries|
    ensures LogBalance(log + [tx], k) + EntrySum(Negated(tx.entries)[..n], k)
            == LogBalance(log, k) + EntrySum(tx.entries[n..], k)
  {
    var es := tx.entries;
    LogBalanceAppend(log, tx, k);
    assert Negated(es)[..n] == Negated(es[..n]);
    NegatedSum(es[..n], k);
    EntrySumSplit(es, n, k);
  }

  /** A transaction can be reversed right after it is posted exactly when every tail of its entries is
      covered by the balances before it. The reversal then restores every balance. */
  lemma {:induction false} ImmediateReversal(b: Book, tx: Tx, key: string, reason: string, now: int)
    requires Inv(b) && Inv(b.(log := b.log + [tx])) && tx.kind != REVERSAL_KIND
    requires !KeyUsed(b.(log := b.log + [tx]), key)
    ensures var (b', r) := Reverse(b.(log := b.log + [tx]), tx.id, key, reason, now);
            && (r.Posted? <==> TailsCovered(b.log, tx.entries))
            && (r.Posted? ==> r.isNew && forall k :: LogBalance(b'.log, k) == LogBalance(b.log, k))
  {
    var posted := b.(log := b.log + [tx]);
    var es := tx.entries;
    var n0 := |b.log|;
    IdLookup(posted.log, n0);
    assert tx.id !in b.reversals by { UnusedId(b, tx.id); }
    assert Acceptable(posted.log[..n0], posted.log[n0].entries) && posted.log[..n0] == b.log;
    forall c ensures CurrencySum(Negated(es), c) == 0 { NegatedCurrencySum(es, c); }
    forall n, k: BalanceKey | 0 <= n <= |es|
      ensures LogBalance(posted.log, k) + EntrySum(Negated(es)[..n], k) == LogBalance(b.log, k) + EntrySum(es[n..], k)
    {
      ImmediatelyNegated(b.log, tx, n, k);
    }
    assert TailsCovered(b.log, es) <==> Acceptable(posted.log, Negated(es)) by {
      if Acceptable(posted.log, Negated(es)) {
        forall n, k: BalanceKey | 0 <= n <= |es| && !IsPlatform(k.account)
          ensures LogBalance(b.log, k) + EntrySum(es[n..], k) >= 0
        {
          assert LogBalance(posted.log, k) + EntrySum(Negated(es)[..n], k) >= 0;
        }
      }
    }
    ExactAcceptance(posted, REVERSAL_KIND, key, ReversalMetadata(tx, reason), Negated(es), now);
    var (b', r) := Reverse(posted, tx.id, key, reason, now);
    if r.Posted? {
      forall k ensures LogBalance(b'.log, k) == LogBalance(b.log, k) {
        LogBalanceAppend(posted.log, r.tx, k);
        LogBalanceAppend(b.log, tx, k);
        NegatedSum(es, k);
      }
    }
  }

  lemma {:induction false} UnusedId(b: Book, id: string)
    requires Inv(b) && id == TxId(|b.log| + 1)
    ensures id !in b.reversals
  {
    if id in b.reversals {
      var i: nat, j: nat :| Reverses(b.log, i, j) && id == b.log[i].id && b.reversals[id] == b.log[j].id;
      TxIdInjective(i + 1, |b.log| + 1);
      assert false;
    }
  }

  lemma {:induction false} SumOfUntouched(es: seq<Entry>, k: BalanceKey)
    requires forall i :: 0 <= i < |es| ==> KeyOf(es[i]) != k
    ensures EntrySum(es, k) == 0
  {
    if es != [] {
      SumOfUntouched(es[..|es| - 1], k);
    }
  }

  lemma {:induction false} OnceSum(es: seq<Entry>, i: nat)
    requires i < |es| && TouchesOnce(es)
    ensures EntrySum(es[..i + 1], KeyOf(es[i])) == es[i].amount
    ensures EntrySum(es, KeyOf(es[i])) == es[i].amount
  {
    var k := KeyOf(es[i]);
    EntrySumStep(es, i, k);
    SumOfUntouched(es[..i], k);
    SumOfUntouched(es[i + 1..], k);
    EntrySumSplit(es, i + 1, k);
  }

  /** When no account is touched twice, a balanced transaction is refused exactly on the first entry that its
      own account cannot cover. */
  lemma {:induction false} OnceBreach(log: seq<Tx>, es: seq<Entry>, i: nat)
    requires i < |es| && TouchesOnce(es)
    ensures Breach(log, es, i) <==> !IsPlatform(es[i].account) && LogBalance(log, KeyOf(es[i])) + es[i].amount < 0
  {
    OnceSum(es, i);
  }

  /** When no account is touched twice, what could be posted can be taken straight back. */
  lemma {:induction false} TouchedOnceIsReversible(log: seq<Tx>, es: seq<Entry>)
    requires LogOK(log) && Acceptable(log, es) && TouchesOnce(es)
    ensures TailsCovered(log, es)
  {
    forall n, k: BalanceKey | 0 <= n <= |es| && !IsPlatform(k.account)
      ensures LogBalance(log, k) + EntrySum(es[n..], k) >= 0
    {
      EntrySumSplit(es, n, k);
      NonNegative(log, k);
      assert es[..|es|] == es;
      assert LogBalance(log, k) + EntrySum(es[..|es|], k) >= 0;
      if exists i :: 0 <= i < n && KeyOf(es[i]) == k {
        SumOfUntouched(es[n..], k);
      } else {
        SumOfUntouched(es[..n], k);
      }
    }
  }

  /** Touching a wallet twice can make an accepted transaction irreversible: five in and five out again, on
      an empty wallet, posts; its reversal takes the five out first and is refused. */
  lemma {:induction false} TouchedTwiceMayBeIrreversible()
    ensures exists es: seq<Entry> :: Acceptable([], es) && !TailsCovered([], es)
  {
    var w := UserCoins("a");
    var k := BalanceKey(w, COIN);
    var es := [Entry(w, 5, COIN), Entry(w, -5, COIN)];
    forall c ensures CurrencySum(es, c) == 0 { TwoEntrySums(es, c); }
    forall n, j: BalanceKey | 0 <= n <= |es| && !IsPlatform(j.account)
      ensures LogBalance([], j) + EntrySum(es[..n], j) >= 0
    {
      if n > 0 { EntrySumStep(es, 0, j); }
      if n > 1 { EntrySumStep(es, 1, j); }
    }
    UserIsNotPlatform("a");
    assert es[1..] == [es[1]] && es[1..][..0] == [];
    assert EntrySum(es[1..], k) == -5;
    assert Acceptable([], es);
    assert !TailsCovered([], es);
  }

  // ---- Restart ----

  /** After a restart the books read the same and IDs are not reused, but no old key is remembered: the
      same request posts again. */
  lemma {:induction false} RestartForgetsOnlyKeys(b: Book, kind: string, key: string, metadata: Metadata,
                                                  es: seq<Entry>, now: int)
    requires Inv(b)
    ensures Inv(Restored(b)) && Restored(b).log == b.log && Restored(b).reversals == b.reversals
    ensures !KeyUsed(Restored(b), key)
    ensures var r := Post(Restored(b), kind, key, metadata, es, now).1;
            if Acceptable(b.log, es)
            then r.Posted? && r.isNew && r.tx.id !in IdIndex(b.log)
            else r.Rejected?
  {
    ExactAcceptance(Restored(b), kind, key, metadata, es, now);
    var id := TxId(|b.log| + 1);
    IdIndexFinds(b.log, id);
    if id in IdIndex(b.log) {
      var i :| 0 <= i < |b.log| && b.log[i].id == id;
      TxIdInjective(i + 1, |b.log| + 1);
      assert false;
    }
  }
}
