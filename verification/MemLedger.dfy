/** The in-memory ledger: materialised balances, two indexes, histories and a reversal table, all kept in
    step with the abstract book. */
module MemLedgers {
  import opened Decimal
  import opened Ledger
  import opened LedgerRuns
  import opened Paging

  datatype BalanceEntry = BalanceEntry(account: string, currency: Currency, balance: int)

  datatype Snapshot = Snapshot(balances: seq<BalanceEntry>, byID: map<string, Tx>,
                               byAcct: map<string, seq<HistoryItem>>, reversalOf: map<string, string>, txSeq: int)

  function Get(balances: map<BalanceKey, int>, k: BalanceKey): int {
    if k in balances then balances[k] else 0
  }

  function HistoryOf(byAcct: map<string, seq<HistoryItem>>, account: string): seq<HistoryItem> {
    if account in byAcct then byAcct[account] else []
  }

  // ---- Flattening the balance map ----

  function SnapshotKey(e: BalanceEntry): BalanceKey {
    BalanceKey(e.account, e.currency)
  }

  function Rebuild(entries: seq<BalanceEntry>): map<BalanceKey, int> {
    if entries == [] then map[]
    else Rebuild(entries[..|entries| - 1])[SnapshotKey(entries[|entries| - 1]) := entries[|entries| - 1].balance]
  }

  // ---- Totals over a set of accounts ----

  ghost function Total(keys: set<BalanceKey>, balance: BalanceKey -> int, c: Currency): int {
    if keys == {} then 0
    else
      var k :| k in keys;
      Total(keys - {k}, balance, c) + if k.currency == c then balance(k) else 0
  }

  lemma {:induction false} TotalRemove(keys: set<BalanceKey>, balance: BalanceKey -> int, c: Currency, k: BalanceKey)
    requires k in keys
    ensures Total(keys, balance, c) == Total(keys - {k}, balance, c) + if k.currency == c then balance(k) else 0
  {
    var j :| j in keys && Total(keys, balance, c) == Total(keys - {j}, balance, c)
        + if j.currency == c then balance(j) else 0;
    if j != k {
      TotalRemove(keys - {j}, balance, c, k);
      TotalRemove(keys - {k}, balance, c, j);
      assert keys - {j} - {k} == keys - {k} - {j};
    }
  }

  lemma {:induction false} TotalAgrees(keys: set<BalanceKey>, f: BalanceKey -> int, g: BalanceKey -> int, c: Currency)
    requires forall k :: k in keys ==> f(k) == g(k)
    ensures Total(keys, f, c) == Total(keys, g, c)
  {
    if keys != {} {
      var k :| k in keys;
      TotalRemove(keys, f, c, k);
      TotalRemove(keys, g, c, k);
      TotalAgrees(keys - {k}, f, g, c);
    }
  }

  lemma {:induction false} TotalOfZeros(keys: set<BalanceKey>, extra: set<BalanceKey>, f: BalanceKey -> int,
                                        c: Currency)
    requires forall k :: k in extra ==> f(k) == 0
    ensures Total(keys + extra, f, c) == Total(keys, f, c)
  {
    if extra == {} {
      assert keys + extra == keys;
    } else {
      var k :| k in extra;
      TotalOfZeros(keys, extra - {k}, f, c);
      if k in keys {
        assert keys + (extra - {k}) == keys + extra;
      } else {
        TotalRemove(keys + extra, f, c, k);
        assert keys + extra - {k} == keys + (extra - {k});
      }
    }
  }

  function EntryKeys(es: seq<Entry>): set<BalanceKey> {
    set i | 0 <= i < |es| :: KeyOf(es[i])
  }

  ghost function OfEntries(es: seq<Entry>): BalanceKey -> int {
    k => EntrySum(es, k)
  }

  ghost function OfLog(log: seq<Tx>): BalanceKey -> int {
    k => LogBalance(log, k)
  }

  ghost function OfMap(balances: map<BalanceKey, int>): BalanceKey -> int {
    k => Get(balances, k)
  }

  lemma {:induction false} TotalOfEntries(keys: set<BalanceKey>, es: seq<Entry>, c: Currency)
    requires EntryKeys(es) <= keys
    ensures Total(keys, OfEntries(es), c) == CurrencySum(es, c)
  {
    if es == [] {
      assert keys == {} + keys;
      TotalOfZeros({}, keys, OfEntries(es), c);
    } else {
      var last := |es| - 1;
      var k := KeyOf(es[last]);
      assert EntryKeys(es[..last]) <= keys;
      assert k in EntryKeys(es);
      TotalOfEntries(keys, es[..last], c);
      TotalRemove(keys, OfEntries(es), c, k);
      TotalRemove(keys, OfEntries(es[..last]), c, k);
      TotalAgrees(keys - {k}, OfEntries(es), OfEntries(es[..last]), c);
    }
  }

  function Touched(log: seq<Tx>): set<BalanceKey> {
    if log == [] then {} else Touched(log[..|log| - 1]) + EntryKeys(log[|log| - 1].entries)
  }

  lemma {:induction false} TotalAdds(keys: set<BalanceKey>, f: BalanceKey -> int, g: BalanceKey -> int,
                                     h: BalanceKey -> int, c: Currency)
    requires forall k :: k in keys ==> h(k) == f(k) + g(k)
    ensures Total(keys, h, c) == Total(keys, f, c) + Total(keys, g, c)
  {
    if keys != {} {
      var k :| k in keys;
      TotalRemove(keys, f, c, k);
      TotalRemove(keys, g, c, k);
      TotalRemove(keys, h, c, k);
      TotalAdds(keys - {k}, f, g, h, c);
    }
  }

  /** Conservation: on any log of acceptable transactions, each currency sums to zero over all accounts. */
  lemma {:induction false} CurrencyConserved(keys: set<BalanceKey>, log: seq<Tx>, c: Currency)
    requires LogOK(log) && Touched(log) <= keys
    ensures Total(keys, OfLog(log), c) == 0
  {
    if log == [] {
      assert keys == {} + keys;
      TotalOfZeros({}, keys, OfLog(log), c);
    } else {
      var last := |log| - 1;
      var es := log[last].entries;
      assert LogOK(log[..last]) by {
        forall i | 0 <= i < last ensures log[..last][i].id == TxId(i + 1)
            && Acceptable(log[..last][..i], log[..last][i].entries) {
          assert log[..last][..i] == log[..i];
        }
      }
      CurrencyConserved(keys, log[..last], c);
      TotalOfEntries(keys, es, c);
      assert Acceptable(log[..last], es);
      TotalAdds(keys, OfLog(log[..last]), OfEntries(es), OfLog(log), c);
    }
  }

  // ---- The materialised views of a book ----

  ghost predicate BalancesOf(balances: map<BalanceKey, int>, log: seq<Tx>) {
    forall k :: Get(balances, k) == LogBalance(log, k)
  }

  ghost predicate HistoriesOf(byAcct: map<string, seq<HistoryItem>>, log: seq<Tx>) {
    forall a :: HistoryOf(byAcct, a) == AccountHistory(log, a)
  }

  lemma {:induction false} BalancesAppend(balances: map<BalanceKey, int>, proposed: map<BalanceKey, int>, log: seq<Tx>,
                                          tx: Tx)
    requires BalancesOf(balances, log) && Leaves(proposed, log, tx.entries)
    ensures BalancesOf(balances + proposed, log + [tx])
  {
    forall k ensures Get(balances + proposed, k) == LogBalance(log + [tx], k) {
      LogBalanceAppend(log, tx, k);
    }
  }

  /** The proposed balances are those the entries would leave, on every account the entries touch. */
  ghost predicate Leaves(proposed: map<BalanceKey, int>, log: seq<Tx>, es: seq<Entry>) {
    forall k :: if k in proposed then proposed[k] == LogBalance(log, k) + EntrySum(es, k) else EntrySum(es, k) == 0
  }

  lemma {:induction false} LeavesStep(proposed: map<BalanceKey, int>, log: seq<Tx>, es: seq<Entry>, i: nat)
    requires i < |es| && Leaves(proposed, log, es[..i])
    ensures var k := KeyOf(es[i]);
            var next := (if k in proposed then proposed[k] else LogBalance(log, k)) + es[i].amount;
            next == LogBalance(log, k) + EntrySum(es[..i + 1], k) && Leaves(proposed[k := next], log, es[..i + 1])
  {
    forall k ensures EntrySum(es[..i + 1], k) == EntrySum(es[..i], k) + if KeyOf(es[i]) == k then es[i].amount else 0 {
      EntrySumStep(es, i, k);
    }
  }

  /** The history table after the given legs of tx have been appended to the accounts they touch. */
  ghost predicate Appended(now: map<string, seq<HistoryItem>>, before: map<string, seq<HistoryItem>>, tx: Tx,
                           es: seq<Entry>) {
    forall a :: HistoryOf(now, a) == HistoryOf(before, a) + ItemsFor(tx, es, a)
  }

  lemma {:induction false} AppendedStep(now: map<string, seq<HistoryItem>>, before: map<string, seq<HistoryItem>>,
                                        tx: Tx, es: seq<Entry>, i: nat)
    requires i < |es| && Appended(now, before, tx, es[..i])
    ensures Appended(now[es[i].account := HistoryOf(now, es[i].account) + [ItemOf(tx, es[i])]], before, tx, es[..i + 1])
  {
    var e := es[i];
    var next := now[e.account := HistoryOf(now, e.account) + [ItemOf(tx, e)]];
    assert es[..i + 1][..i] == es[..i];
    forall a ensures HistoryOf(next, a) == HistoryOf(before, a) + ItemsFor(tx, es[..i + 1], a) {
      assert HistoryOf(now, a) == HistoryOf(before, a) + ItemsFor(tx, es[..i], a);
      assert HistoryOf(next, a) == HistoryOf(now, a) + if e.account == a then [ItemOf(tx, e)] else [];
    }
  }

  lemma {:induction false} HistoriesAppend(now: map<string, seq<HistoryItem>>, before: map<string, seq<HistoryItem>>,
                                           log: seq<Tx>, tx: Tx)
    requires HistoriesOf(before, log) && Appended(now, before, tx, tx.entries)
    ensures HistoriesOf(now, log + [tx])
  {
    assert (log + [tx])[..|log|] == log;
    forall a ensures HistoryOf(now, a) == AccountHistory(log + [tx], a) {
      assert HistoryOf(before, a) == AccountHistory(log, a);
    }
  }

  lemma {:induction false} IndexesAppend(log: seq<Tx>, from: nat, tx: Tx)
    requires from <= |log|
    ensures IdIndex(log + [tx]) == IdIndex(log)[tx.id := tx]
    ensures KeyIndex(log + [tx], from) == KeyIndex(log, from)[tx.key := tx]
  {
    assert (log + [tx])[..|log|] == log;
  }

  // ---- The class ----

  // ---- A history walk over a running ledger ----

  /** What the requests of a walk find, the i-th of them made after times[i] operations of a run. */
  function Visits(b: Book, ops: seq<Op>, account: string, times: seq<nat>, limits: seq<int>): seq<Visit<HistoryItem>>
    requires |times| == |limits| && forall i :: 0 <= i < |times| ==> times[i] <= |ops|
  {
    seq(|times|, i requires 0 <= i < |times| => Visit(AccountHistory(Run(b, ops[..times[i]]).log, account), limits[i]))
  }

  lemma {:induction false} RunPrefixGrows(b: Book, ops: seq<Op>, m: nat, n: nat)
    requires m <= n <= |ops|
    ensures Run(b, ops[..m]).log <= Run(b, ops[..n]).log
  {
    RunSplit(b, ops[..n], m);
    assert ops[..n][..m] == ops[..m];
    RunGrows(Run(b, ops[..m]), ops[..n][m..]);
  }

  /** Whatever is posted, reversed or restarted between its requests, a walk that follows next_cursor to the end shows
      every line the account's history had when it began. */
  lemma {:induction false} WalkOverRun(b: Book, ops: seq<Op>, account: string, times: seq<nat>, limits: seq<int>,
                                       j: nat)
    requires times != [] && |times| == |limits| && forall i :: 0 <= i < |times| ==> times[i] <= |ops|
    requires forall i, k :: 0 <= i <= k < |times| ==> times[i] <= times[k]
    requires |AccountHistory(Run(b, ops).log, account)| < TWO_TO_63
    requires var visits := Visits(b, ops, account, times, limits);
             && Continues(visits, |visits| - 1)
             && PageAt(visits, |visits| - 1).Page? && PageAt(visits, |visits| - 1).next == ""
    requires j < |AccountHistory(Run(b, ops[..times[0]]).log, account)|
    ensures var visits := Visits(b, ops, account, times, limits);
            exists i :: 0 <= i < |visits| && ShownOn(visits, i, j)
                        && visits[i].all[j] == AccountHistory(Run(b, ops[..times[0]]).log, account)[j]
  {
    hide Run, AccountHistory, PageAt, Continues, ShownOn;
    var visits := Visits(b, ops, account, times, limits);
    forall i, k | 0 <= i <= k < |visits|
      ensures visits[i].all <= visits[k].all
    {
      RunPrefixGrows(b, ops, times[i], times[k]);
      AccountHistoryGrows(Run(b, ops[..times[i]]).log, Run(b, ops[..times[k]]).log, account);
    }
    forall i | 0 <= i < |visits|
      ensures |visits[i].all| < TWO_TO_63
    {
      RunPrefixGrows(b, ops, times[i], |ops|);
      assert ops[..|ops|] == ops;
      AccountHistoryGrows(Run(b, ops[..times[i]]).log, Run(b, ops).log, account);
    }
    WalkSkipsNothing(visits, j);
  }

  class MemLedger {
    var balances: map<BalanceKey, int>
    var byKey: map<string, Tx>
    var byID: map<string, Tx>
    var byAcct: map<string, seq<HistoryItem>>
    var reversalOf: map<string, string>
    var txSeq: int
    ghost var book: Book

    ghost predicate Valid()
      reads this
    {
      Inv(book) && InStep()
    }

    /** Every field is the book's view of the same name. */
    ghost predicate InStep()
      reads this
    {
      && BalancesOf(balances, book.log)
      && byKey == KeyIndex(book.log, book.forgotten)
      && byID == IdIndex(book.log)
      && HistoriesOf(byAcct, book.log)
      && reversalOf == book.reversals
      && txSeq == |book.log|
    }

    constructor ()
      ensures Valid() && book == EMPTY_BOOK
    {
      balances, byKey, byID, byAcct, reversalOf, txSeq := map[], map[], map[], map[], map[], 0;
      book := EMPTY_BOOK;
    }

    method Balance(account: string, currency: Currency) returns (balance: int)
      requires Valid()
      ensures balance == LogBalance(book.log, BalanceKey(account, currency))
    {
      balance := Get(balances, BalanceKey(account, currency));
    }

    /** The currency sums of a proposed transaction are all zero. */
    method SumsToZero(entries: seq<Entry>) returns (zero: bool)
      ensures zero == Balanced(entries)
    {
      var sums: map<Currency, int> := map[];
      for i := 0 to |entries|
        invariant forall c :: c in sums <==> exists j :: 0 <= j < i && entries[j].currency == c
        invariant forall c :: c in sums ==> sums[c] == CurrencySum(entries[..i], c)
      {
        var c := entries[i].currency;
        forall c ensures CurrencySum(entries[..i + 1], c) == CurrencySum(entries[..i], c)
            + if entries[i].currency == c then entries[i].amount else 0 {
          CurrencySumStep(entries, i, c);
        }
        if c !in sums {
          CurrencySumUntouched(entries[..i], c);
        }
        sums := sums[c := (if c in sums then sums[c] else 0) + entries[i].amount];
      }
      assert entries[..|entries|] == entries;
      var todo := sums.Keys;
      while todo != {}
        invariant todo <= sums.Keys
        invariant forall c :: c in sums && c !in todo ==> sums[c] == 0
        decreases todo
      {
        var c :| c in todo;
        if sums[c] != 0 {
          return false;
        }
        todo := todo - {c};
      }
      zero := true;
    }

    /** The running balances a proposed transaction would leave, up to its first overdraft. */
    method Propose(entries: seq<Entry>) returns (proposed: map<BalanceKey, int>, overdraft: nat)
      requires BalancesOf(balances, book.log)
      ensures overdraft == FirstBreach(book.log, entries, 0)
      ensures overdraft == |entries| ==> Leaves(proposed, book.log, entries)
    {
      ghost var log := book.log;
      proposed := map[];
      for i := 0 to |entries|
        invariant Leaves(proposed, log, entries[..i])
        invariant forall j :: 0 <= j < i ==> !Breach(log, entries, j)
      {
        var e := entries[i];
        var k := KeyOf(e);
        var base := if k in proposed then proposed[k] else Get(balances, k);
        var next := base + e.amount;
        LeavesStep(proposed, log, entries, i);
        if next < 0 && !IsPlatform(e.account) {
          FirstBreachFrom(log, entries, 0, i);
          return proposed, i;
        }
        proposed := proposed[k := next];
      }
      assert entries[..|entries|] == entries;
      FirstBreachFrom(log, entries, 0, |entries|);
      overdraft := |entries|;
    }

    /** Append each leg of a posted transaction to its account's history. */
    method RecordHistory(tx: Tx)
      modifies this`byAcct
      ensures Appended(byAcct, old(byAcct), tx, tx.entries)
    {
      var entries := tx.entries;
      for i := 0 to |entries|
        invariant Appended(byAcct, old(byAcct), tx, entries[..i])
      {
        var e := entries[i];
        AppendedStep(byAcct, old(byAcct), tx, entries, i);
        byAcct := byAcct[e.account := HistoryOf(byAcct, e.account) + [ItemOf(tx, e)]];
      }
      assert entries[..|entries|] == entries;
    }

    method PostTransaction(kind: string, key: string, metadata: Metadata, entries: seq<Entry>, now: int)
        returns (r: PostResult)
      requires Valid()
      modifies this
      ensures Valid()
      ensures (book, r) == Post(old(book), kind, key, metadata, entries, now)
    {
      hide LogOK, KeysUnique, ReversalsOK, BalancesOf, HistoriesOf, Leaves;
      if key in byKey {
        return Posted(byKey[key], false);
      }
      if |entries| == 0 {
        return Rejected(TransactionEmpty);
      }
      var zero := SumsToZero(entries);
      if !zero {
        return Rejected(Unbalanced);
      }
      var proposed, overdraft := Propose(entries);
      if overdraft < |entries| {
        var e := entries[overdraft];
        var available := Balance(e.account, e.currency);
        return Rejected(InsufficientBalance(e.account, e.currency, -e.amount, available));
      }
      var tx := Tx("tx-" + Itoa(txSeq + 1), kind, key, metadata, entries, now);
      PostKeepsInv(book, kind, key, metadata, entries, now);
      Commit(tx, proposed);
      r := Posted(tx, true);
    }

    /** Apply a validated transaction to every view. */
    method Commit(tx: Tx, proposed: map<BalanceKey, int>)
      requires InStep() && book.forgotten <= |book.log| && Leaves(proposed, book.log, tx.entries)
      modifies this
      ensures InStep() && book == old(book).(log := old(book).log + [tx])
    {
      hide BalancesOf, HistoriesOf, Leaves, Appended;
      BalancesAppend(balances, proposed, book.log, tx);
      IndexesAppend(book.log, book.forgotten, tx);
      balances := balances + proposed;
      txSeq := txSeq + 1;
      byKey := byKey[tx.key := tx];
      byID := byID[tx.id := tx];
      RecordHistory(tx);
      HistoriesAppend(byAcct, old(byAcct), book.log, tx);
      book := book.(log := book.log + [tx]);
    }

    method GetTransaction(key: string) returns (tx: Option<Tx>)
      requires Valid()
      ensures tx == if KeyUsed(book, key) then Some(KeyIndex(book.log, book.forgotten)[key]) else None
    {
      tx := if key in byKey then Some(byKey[key]) else None;
    }

    method GetTransactionByID(id: string) returns (tx: Option<Tx>)
      requires Valid()
      ensures tx.Some? <==> exists i :: 0 <= i < |book.log| && book.log[i].id == id
      ensures tx.Some? ==> tx.value in book.log && tx.value.id == id
    {
      IdIndexFinds(book.log, id);
      tx := if id in byID then Some(byID[id]) else None;
    }

    method ReverseTransaction(originalId: string, key: string, reason: string, now: int) returns (r: PostResult)
      requires Valid()
      modifies this
      ensures Valid()
      ensures (book, r) == Reverse(old(book), originalId, key, reason, now)
    {
      hide Inv, BalancesOf, HistoriesOf;
      ghost var before := book;
      if key in byKey {
        return Posted(byKey[key], false);
      }
      if originalId !in byID {
        return Rejected(TransactionNotFound);
      }
      var original := byID[originalId];
      if original.kind == "reversal" {
        return Rejected(CannotReverseAReversal);
      }
      if originalId in reversalOf {
        return Rejected(AlreadyReversed);
      }
      var entries := Negate(original.entries);
      ReverseKeepsInv(before, originalId, key, reason, now);
      r := PostTransaction("reversal", key, ReversalMetadata(original, reason), entries, now);
      if r.Posted? && r.isNew {
        reversalOf := reversalOf[originalId := r.tx.id];
        book := book.(reversals := book.reversals[originalId := r.tx.id]);
      }
    }

    method History(account: string, cursor: string, limit: int) returns (page: Page<HistoryItem>)
      requires Valid()
      ensures page == HistoryPage(AccountHistory(book.log, account), cursor, limit)
    {
      page := PageOf(HistoryOf(byAcct, account), cursor, limit);
    }

    /** The caller's loop that follows next_cursor to the end: it terminates with the whole history, newest first. */
    method WholeHistory(account: string) returns (out: seq<HistoryItem>)
      requires Valid() && |AccountHistory(book.log, account)| < TWO_TO_63
      ensures out == Reversed(AccountHistory(book.log, account))
    {
      hide Inv, BalancesOf, HistoriesOf, AccountHistory, HistoryPage, Reversed, Itoa;
      ghost var all := AccountHistory(book.log, account);
      out := [];
      var cursor := "";
      while true
        invariant |out| <= |all| && out == Reversed(all)[..|out|]
        invariant cursor == "" ==> out == []
        invariant cursor != "" ==> cursor == Itoa(|out|)
        decreases |all| - |out|
      {
        PageAtOffset(all, |out|, cursor, 200);
        var page := History(account, cursor, 200);
        out := out + page.items;
        if page.next == "" {
          break;
        }
        cursor := page.next;
      }
    }

    /** Every currency sums to zero over the materialised balances. */
    method IntegrityCheck() returns (sums: map<Currency, int>)
      requires Valid()
      ensures forall c :: c in sums <==> exists k :: k in balances && k.currency == c
      ensures forall c :: c in sums ==> sums[c] == 0
    {
      sums := SumByCurrency(balances);
      forall c ensures Total(balances.Keys, OfMap(balances), c) == 0 {
        var log := book.log;
        var extra := Touched(log) - balances.Keys;
        CurrencyConserved(balances.Keys + extra, log, c);
        TotalOfZeros(balances.Keys, extra, OfLog(log), c);
        TotalAgrees(balances.Keys, OfLog(log), OfMap(balances), c);
      }
    }

    /** Flatten the balances, in whatever order the map is walked, beside the other tables. */
    method TakeSnapshot() returns (s: Snapshot)
      requires Valid()
      ensures SnapshotOf(s, book)
      ensures Rebuild(s.balances) == balances
    {
      hide Inv, BalancesOf, HistoriesOf;
      var entries := Flatten(balances);
      s := Snapshot(entries, byID, byAcct, reversalOf, txSeq);
    }

    /** Restoring a snapshot into a fresh ledger brings every view back; only the keys are forgotten. */
    method Restore(s: Snapshot, ghost b: Book)
      requires Valid() && book == EMPTY_BOOK
      requires Inv(b) && SnapshotOf(s, b)
      modifies this
      ensures Valid() && book == Restored(b)
      ensures balances == Rebuild(s.balances)
    {
      balances := map[];
      for i := 0 to |s.balances|
        invariant balances == Rebuild(s.balances[..i])
        invariant byKey == map[]
      {
        assert s.balances[..i + 1][..i] == s.balances[..i];
        balances := balances[SnapshotKey(s.balances[i]) := s.balances[i].balance];
      }
      assert s.balances[..|s.balances|] == s.balances;
      byID := s.byID;
      byAcct := s.byAcct;
      reversalOf := s.reversalOf;
      txSeq := s.txSeq;
      book := Restored(b);
    }
  }

  ghost predicate SnapshotOf(s: Snapshot, b: Book) {
    && BalancesOf(Rebuild(s.balances), b.log)
    && s.byID == IdIndex(b.log)
    && HistoriesOf(s.byAcct, b.log)
    && s.reversalOf == b.reversals
    && s.txSeq == |b.log|
  }

  lemma {:induction false} FirstBreachFrom(log: seq<Tx>, es: seq<Entry>, from: nat, i: nat)
    requires from <= i <= |es|
    requires i < |es| ==> Breach(log, es, i)
    requires forall j :: from <= j < i ==> !Breach(log, es, j)
    ensures FirstBreach(log, es, from) == i
    decreases i - from
  {
    if from < i {
      assert !Breach(log, es, from);
      FirstBreachFrom(log, es, from + 1, i);
    }
  }

  lemma {:induction false} RebuildStep(entries: seq<BalanceEntry>, e: BalanceEntry)
    ensures Rebuild(entries + [e]) == Rebuild(entries)[SnapshotKey(e) := e.balance]
  {
    assert (entries + [e])[..|entries|] == entries;
  }

  /** List a balance map's bindings, in whatever order it is walked: rebuilding gives the map back. */
  method Flatten(balances: map<BalanceKey, int>) returns (entries: seq<BalanceEntry>)
    ensures Rebuild(entries) == balances
  {
    hide Rebuild;
    entries := [];
    RebuildNone();
    var todo := balances.Keys;
    ghost var done: map<BalanceKey, int> := map[];
    while todo != {}
      invariant todo <= balances.Keys && done.Keys == balances.Keys - todo
      invariant forall k :: k in done ==> done[k] == balances[k]
      invariant Rebuild(entries) == done
      decreases todo
    {
      var k :| k in todo;
      var e := BalanceEntry(k.account, k.currency, balances[k]);
      RebuildStep(entries, e);
      entries := entries + [e];
      done := done[k := balances[k]];
      todo := todo - {k};
    }
    assert done == balances;
  }

  lemma {:induction false} RebuildNone()
    ensures Rebuild([]) == map[]
  {
  }

  method Negate(original: seq<Entry>) returns (entries: seq<Entry>)
    ensures entries == Negated(original)
  {
    entries := [];
    for i := 0 to |original|
      invariant |entries| == i
      invariant forall j :: 0 <= j < i ==> entries[j] == Negated(original)[j]
    {
      var e := original[i];
      entries := entries + [Entry(e.account, -e.amount, e.currency)];
    }
  }

  /** The per-currency sums of any balance map, right or wrong. */
  method SumByCurrency(balances: map<BalanceKey, int>) returns (sums: map<Currency, int>)
    ensures forall c :: c in sums <==> exists k :: k in balances && k.currency == c
    ensures forall c :: c in sums ==> sums[c] == Total(balances.Keys, OfMap(balances), c)
  {
    sums := map[];
    var todo := balances.Keys;
    ghost var done: set<BalanceKey> := {};
    while todo != {}
      invariant done !! todo && done + todo == balances.Keys
      invariant forall c :: c in sums <==> exists k :: k in done && k.currency == c
      invariant forall c :: (if c in sums then sums[c] else 0) == Total(done, OfMap(balances), c)
      decreases todo
    {
      var k :| k in todo;
      assert done + {k} - {k} == done;
      forall c ensures Total(done + {k}, OfMap(balances), c) == Total(done, OfMap(balances), c)
          + if k.currency == c then balances[k] else 0 {
        TotalRemove(done + {k}, OfMap(balances), c, k);
      }
      sums := sums[k.currency := (if k.currency in sums then sums[k.currency] else 0) + balances[k]];
      todo := todo - {k};
      done := done + {k};
    }
    assert done == balances.Keys;
  }
}
