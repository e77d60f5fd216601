/** The double-entry ledger as a plain log of posted transactions. Every view the in-memory ledger
    materialises (balances, transactions by ID and by key, account histories) is a function of this log. */
module Ledger {
  import opened Decimal

  type Currency = string
  const COIN: Currency := "COIN"
  const DIAMOND: Currency := "DIAMOND"

  const PLATFORM_REVENUE := "platform:revenue"
  const PLATFORM_LIABILITY := "platform:liability"
  const PLATFORM_DIAMOND_LIABILITY := "platform:diamond_liability"

  const REVERSAL_KIND := "reversal"

  function UserCoins(account: string): string {
    "user:" + account + ":coins"
  }

  function UserDiamonds(account: string): string {
    "user:" + account + ":diamonds"
  }

  /** Platform control accounts may float negative; wallets may not. */
  predicate IsPlatform(account: string) {
    "platform:" <= account
  }

  lemma {:induction false} UserIsNotPlatform(account: string)
    ensures !IsPlatform(UserCoins(account)) && !IsPlatform(UserDiamonds(account))
  {
    assert UserCoins(account)[0] == 'u' && UserDiamonds(account)[0] == 'u' && "platform:"[0] == 'p';
  }

  /** Exactly the accounts whose first nine characters are the platform's prefix, whatever follows. */
  lemma {:induction false} PlatformExactly(account: string, name: string)
    ensures IsPlatform(account) <==> |account| >= 9 && account[..9] == "platform:"
    ensures IsPlatform("platform:" + name)
  {
    assert |"platform:"| == 9 && ("platform:" + name)[..9] == "platform:";
    if IsPlatform(account) { assert account[..9] == "platform:"; }
  }

  /** Metadata values the services read back; otherwise opaque. */
  datatype MetaValue = Text(text: string) | Count(count: int)
  type Metadata = map<string, MetaValue>

  /** One leg of a transaction: negative is a debit, positive a credit. */
  datatype Entry = Entry(account: string, amount: int, currency: Currency)

  datatype BalanceKey = BalanceKey(account: string, currency: Currency)

  datatype Tx = Tx(id: string, kind: string, key: string, metadata: Metadata, entries: seq<Entry>, createdAt: int)

  datatype HistoryItem = HistoryItem(txId: string, kind: string, amount: int, currency: Currency,
                                     metadata: Metadata, createdAt: int)

  datatype LedgerError =
    | TransactionEmpty
    | Unbalanced
    | InsufficientBalance(account: string, currency: Currency, required: int, available: int)
    | TransactionNotFound
    | AlreadyReversed
    | CannotReverseAReversal
  {
    /** The top-up the client is told to make. */
    function Shortfall(): int
      requires InsufficientBalance?
    {
      required - available
    }
  }

  datatype PostResult = Posted(tx: Tx, isNew: bool) | Rejected(error: LedgerError)

  /** The ledger's abstract state: the log, how much of it predates the last restore (those idempotency
      keys are forgotten), and which transaction reverses which. */
  datatype Book = Book(log: seq<Tx>, forgotten: nat, reversals: map<string, string>)

  const EMPTY_BOOK: Book := Book([], 0, map[])

  function KeyOf(e: Entry): BalanceKey {
    BalanceKey(e.account, e.currency)
  }

  function TxId(n: nat): string {
    "tx-" + Itoa(n)
  }

  lemma {:induction false} TxIdInjective(m: nat, n: nat)
    requires TxId(m) == TxId(n)
    ensures m == n
  {
    assert TxId(m)[3..] == Itoa(m) && TxId(n)[3..] == Itoa(n);
    ItoaInjective(m, n);
  }

  // ---- Sums ----

  function EntrySum(es: seq<Entry>, k: BalanceKey): int {
    if es == [] then 0
    else EntrySum(es[..|es| - 1], k) + if KeyOf(es[|es| - 1]) == k then es[|es| - 1].amount else 0
  }

  function CurrencySum(es: seq<Entry>, c: Currency): int {
    if es == [] then 0
    else CurrencySum(es[..|es| - 1], c) + if es[|es| - 1].currency == c then es[|es| - 1].amount else 0
  }

  /** What the log says an account holds. */
  function LogBalance(log: seq<Tx>, k: BalanceKey): int {
    if log == [] then 0 else LogBalance(log[..|log| - 1], k) + EntrySum(log[|log| - 1].entries, k)
  }

  predicate Balanced(es: seq<Entry>) {
    forall i :: 0 <= i < |es| ==> CurrencySum(es, es[i].currency) == 0
  }

  function Negated(es: seq<Entry>): (r: seq<Entry>)
    ensures |r| == |es|
    ensures forall i :: 0 <= i < |es| ==> r[i] == Entry(es[i].account, -es[i].amount, es[i].currency)
  {
    seq(|es|, i requires 0 <= i < |es| => Entry(es[i].account, -es[i].amount, es[i].currency))
  }

  // ---- Views of the log ----

  function IdIndex(log: seq<Tx>): map<string, Tx> {
    if log == [] then map[]
    else
      var last := log[|log| - 1];
      IdIndex(log[..|log| - 1])[last.id := last]
  }

  /** The transactions posted from position `from` on, by idempotency key. */
  function KeyIndex(log: seq<Tx>, from: nat): map<string, Tx> {
    if |log| <= from then map[]
    else
      var last := log[|log| - 1];
      KeyIndex(log[..|log| - 1], from)[last.key := last]
  }

  lemma {:induction false} IdIndexFinds(log: seq<Tx>, id: string)
    ensures id in IdIndex(log) <==> exists i :: 0 <= i < |log| && log[i].id == id
    ensures id in IdIndex(log) ==> exists i :: 0 <= i < |log| && log[i].id == id && IdIndex(log)[id] == log[i]
  {
    if log != [] {
      var last := |log| - 1;
      IdIndexFinds(log[..last], id);
      assert log[last].id == id ==> IdIndex(log)[id] == log[last];
      assert forall i :: 0 <= i < last ==> log[..last][i] == log[i];
    }
  }

  lemma {:induction false} KeyIndexFinds(log: seq<Tx>, from: nat, key: string)
    ensures key in KeyIndex(log, from) <==> exists i :: from <= i < |log| && log[i].key == key
    ensures key in KeyIndex(log, from) ==> exists i :: from <= i < |log| && log[i].key == key
                                             && KeyIndex(log, from)[key] == log[i]
  {
    if |log| > from {
      var last := |log| - 1;
      KeyIndexFinds(log[..last], from, key);
      assert log[last].key == key ==> KeyIndex(log, from)[key] == log[last];
      assert forall i :: 0 <= i < last ==> log[..last][i] == log[i];
    }
  }

  function ItemOf(tx: Tx, e: Entry): HistoryItem {
    HistoryItem(tx.id, tx.kind, e.amount, e.currency, tx.metadata, tx.createdAt)
  }

  /** The history lines that the given legs of tx leave on an account, in order. */
  function ItemsFor(tx: Tx, es: seq<Entry>, account: string): seq<HistoryItem> {
    if es == [] then []
    else
      var last := es[|es| - 1];
      ItemsFor(tx, es[..|es| - 1], account) + if last.account == account then [ItemOf(tx, last)] else []
  }

  /** An account's history, oldest first. */
  function AccountHistory(log: seq<Tx>, account: string): seq<HistoryItem> {
    if log == [] then []
    else
      var last := log[|log| - 1];
      AccountHistory(log[..|log| - 1], account) + ItemsFor(last, last.entries, account)
  }

  /** A longer log only adds lines to the end of an account's history. */
  lemma {:induction false} AccountHistoryGrows(log: seq<Tx>, log': seq<Tx>, account: string)
    requires log <= log'
    ensures AccountHistory(log, account) <= AccountHistory(log', account)
  {
    if |log| < |log'| {
      assert log <= log'[..|log'| - 1];
      AccountHistoryGrows(log, log'[..|log'| - 1], account);
    } else {
      assert log == log';
    }
  }

  // ---- What a history shows ----

  /** Leg `entry` of transaction `tx` of a log. */
  datatype Leg = Leg(tx: nat, entry: nat)

  predicate Precedes(a: Leg, b: Leg) {
    a.tx < b.tx || (a.tx == b.tx && a.entry < b.entry)
  }

  /** Legs on an account, each once, in the order of posting. */
  ghost predicate ListsLegs(log: seq<Tx>, legs: seq<Leg>, account: string) {
    && (forall l: Leg :: l in legs <==> l.tx < |log| && l.entry < |log[l.tx].entries|
                                        && log[l.tx].entries[l.entry].account == account)
    && (forall i, j :: 0 <= i < j < |legs| ==> Precedes(legs[i], legs[j]))
  }

  /** Each line tells its leg's amount and currency, and its transaction's ID, kind, metadata and time. */
  ghost predicate TellsLegs(log: seq<Tx>, legs: seq<Leg>, lines: seq<HistoryItem>) {
    && |lines| == |legs|
    && forall i :: 0 <= i < |legs| && legs[i].tx < |log| && legs[i].entry < |log[legs[i].tx].entries| ==>
         && lines[i].txId == log[legs[i].tx].id && lines[i].kind == log[legs[i].tx].kind
         && lines[i].metadata == log[legs[i].tx].metadata && lines[i].createdAt == log[legs[i].tx].createdAt
         && lines[i].amount == log[legs[i].tx].entries[legs[i].entry].amount
         && lines[i].currency == log[legs[i].tx].entries[legs[i].entry].currency
  }

  function LegsIn(es: seq<Entry>, tx: nat, account: string): seq<Leg> {
    if es == [] then []
    else
      var last := |es| - 1;
      LegsIn(es[..last], tx, account) + if es[last].account == account then [Leg(tx, last)] else []
  }

  function LegsOn(log: seq<Tx>, account: string): seq<Leg> {
    if log == [] then []
    else
      var last := |log| - 1;
      LegsOn(log[..last], account) + LegsIn(log[last].entries, last, account)
  }

  lemma {:induction false} ItemsTell(log: seq<Tx>, tx: nat, es: seq<Entry>, account: string)
    requires tx < |log| && es <= log[tx].entries
    ensures forall l: Leg :: l in LegsIn(es, tx, account) <==>
                             l.tx == tx && l.entry < |es| && es[l.entry].account == account
    ensures forall i, j :: 0 <= i < j < |LegsIn(es, tx, account)|
                           ==> Precedes(LegsIn(es, tx, account)[i], LegsIn(es, tx, account)[j])
    ensures TellsLegs(log, LegsIn(es, tx, account), ItemsFor(log[tx], es, account))
  {
    hide TellsLegs;
    if es == [] {
      NothingToTell(log);
    } else {
      var last := |es| - 1;
      ItemsTell(log, tx, es[..last], account);
      if es[last].account == account {
        TellsOne(log, LegsIn(es[..last], tx, account), ItemsFor(log[tx], es[..last], account), Leg(tx, last));
      } else {
        assert LegsIn(es, tx, account) == LegsIn(es[..last], tx, account);
        assert ItemsFor(log[tx], es, account) == ItemsFor(log[tx], es[..last], account);
      }
    }
  }

  lemma {:induction false} NothingToTell(log: seq<Tx>)
    ensures TellsLegs(log, [], [])
  {
  }

  lemma {:induction false} TellsOne(log: seq<Tx>, legs: seq<Leg>, lines: seq<HistoryItem>, l: Leg)
    requires TellsLegs(log, legs, lines) && l.tx < |log| && l.entry < |log[l.tx].entries|
    ensures TellsLegs(log, legs + [l], lines + [ItemOf(log[l.tx], log[l.tx].entries[l.entry])])
  {
  }

  lemma {:induction false} TellsOn(log: seq<Tx>, log': seq<Tx>, legs: seq<Leg>, lines: seq<HistoryItem>,
                                   more: seq<Leg>, moreLines: seq<HistoryItem>, account: string)
    requires log <= log' && ListsLegs(log, legs, account)
    requires TellsLegs(log, legs, lines) && TellsLegs(log', more, moreLines)
    ensures TellsLegs(log', legs + more, lines + moreLines)
  {
    forall i | 0 <= i < |legs| ensures (legs + more)[i] in legs {
      assert (legs + more)[i] == legs[i];
    }
  }

  lemma {:induction false} ListsOn(log: seq<Tx>, log': seq<Tx>, legs: seq<Leg>, more: seq<Leg>, account: string)
    requires log <= log' && |log'| == |log| + 1 && ListsLegs(log, legs, account)
    requires forall l: Leg :: l in more <==> l.tx == |log| && l.entry < |log'[|log|].entries|
                                             && log'[|log|].entries[l.entry].account == account
    requires forall i, j :: 0 <= i < j < |more| ==> Precedes(more[i], more[j])
    ensures ListsLegs(log', legs + more, account)
  {
    forall i, j | 0 <= i < j < |legs + more| ensures Precedes((legs + more)[i], (legs + more)[j]) {
      if i < |legs| { assert legs[i] in legs; }
      if j >= |legs| { assert more[j - |legs|] in more; }
    }
  }

  /** An account's history is one line for each leg on it anywhere in the log, in the order of posting. */
  lemma {:induction false} HistoryTellsLog(log: seq<Tx>, account: string)
    ensures ListsLegs(log, LegsOn(log, account), account)
    ensures TellsLegs(log, LegsOn(log, account), AccountHistory(log, account))
  {
    hide ItemsFor, LegsIn;
    if log != [] {
      var last := |log| - 1;
      var es := log[last].entries;
      HistoryTellsLog(log[..last], account);
      ItemsTell(log, last, es, account);
      hide ListsLegs, TellsLegs;
      ListsOn(log[..last], log, LegsOn(log[..last], account), LegsIn(es, last, account), account);
      TellsOn(log[..last], log, LegsOn(log[..last], account), AccountHistory(log[..last], account),
              LegsIn(es, last, account), ItemsFor(log[last], es, account), account);
    }
  }

  // ---- Posting ----

  /** Entry i would take a wallet below zero, counting the entries before it. */
  predicate Breach(log: seq<Tx>, es: seq<Entry>, i: nat)
    requires i < |es|
  {
    !IsPlatform(es[i].account) && LogBalance(log, KeyOf(es[i])) + EntrySum(es[..i + 1], KeyOf(es[i])) < 0
  }

  function FirstBreach(log: seq<Tx>, es: seq<Entry>, i: nat): (r: nat)
    requires i <= |es|
    ensures i <= r <= |es|
    ensures r < |es| ==> Breach(log, es, r)
    ensures forall j :: i <= j < r ==> !Breach(log, es, j)
    decreases |es| - i
  {
    if i == |es| || Breach(log, es, i) then i else FirstBreach(log, es, i + 1)
  }

  function Post(b: Book, kind: string, key: string, metadata: Metadata, entries: seq<Entry>,
                now: int): (Book, PostResult) {
    var index := KeyIndex(b.log, b.forgotten);
    if key in index then (b, Posted(index[key], false))
    else if entries == [] then (b, Rejected(TransactionEmpty))
    else if !Balanced(entries) then (b, Rejected(Unbalanced))
    else
      var i := FirstBreach(b.log, entries, 0);
      if i < |entries| then
        var e := entries[i];
        (b, Rejected(InsufficientBalance(e.account, e.currency, -e.amount, LogBalance(b.log, KeyOf(e)))))
      else
        var tx := Tx(TxId(|b.log| + 1), kind, key, metadata, entries, now);
        (b.(log := b.log + [tx]), Posted(tx, true))
  }

  function ReversalMetadata(original: Tx, reason: string): Metadata {
    map["reversed_transaction_id" := Text(original.id), "reason" := Text(reason),
        "original_kind" := Text(original.kind)]
  }

  function Reverse(b: Book, originalId: string, key: string, reason: string, now: int): (Book, PostResult) {
    var byKey, byId := KeyIndex(b.log, b.forgotten), IdIndex(b.log);
    if key in byKey then (b, Posted(byKey[key], false))
    else if originalId !in byId then (b, Rejected(TransactionNotFound))
    else if byId[originalId].kind == REVERSAL_KIND then (b, Rejected(CannotReverseAReversal))
    else if originalId in b.reversals then (b, Rejected(AlreadyReversed))
    else
      var original := byId[originalId];
      var (b', r) := Post(b, REVERSAL_KIND, key, ReversalMetadata(original, reason), Negated(original.entries), now);
      if r.Posted? && r.isNew then (b'.(reversals := b'.reversals[originalId := r.tx.id]), r) else (b', r)
  }

  /** Flattening to a snapshot and rebuilding drops only the idempotency keys. */
  function Restored(b: Book): Book {
    b.(forgotten := |b.log|)
  }

  /** The key names a transaction the ledger still remembers. */
  predicate KeyUsed(b: Book, key: string) {
    key in KeyIndex(b.log, b.forgotten)
  }

  // ---- Sum lemmas ----

  lemma {:induction false} LogBalanceAppend(log: seq<Tx>, tx: Tx, k: BalanceKey)
    ensures LogBalance(log + [tx], k) == LogBalance(log, k) + EntrySum(tx.entries, k)
  {
    assert (log + [tx])[..|log|] == log;
  }

  lemma {:induction false} EntrySumStep(es: seq<Entry>, n: nat, k: BalanceKey)
    requires n < |es|
    ensures EntrySum(es[..n + 1], k) == EntrySum(es[..n], k) + if KeyOf(es[n]) == k then es[n].amount else 0
  {
    assert es[..n + 1][..n] == es[..n];
  }

  lemma {:induction false} CurrencySumStep(es: seq<Entry>, n: nat, c: Currency)
    requires n < |es|
    ensures CurrencySum(es[..n + 1], c) == CurrencySum(es[..n], c) + if es[n].currency == c then es[n].amount else 0
  {
    assert es[..n + 1][..n] == es[..n];
  }

  lemma {:induction false} CurrencySumUntouched(es: seq<Entry>, c: Currency)
    requires forall i :: 0 <= i < |es| ==> es[i].currency != c
    ensures CurrencySum(es, c) == 0
  {
    if es != [] {
      CurrencySumUntouched(es[..|es| - 1], c);
    }
  }

  lemma {:induction false} BalancedEverywhere(es: seq<Entry>, c: Currency)
    requires Balanced(es)
    ensures CurrencySum(es, c) == 0
  {
    if forall i :: 0 <= i < |es| ==> es[i].currency != c {
      CurrencySumUntouched(es, c);
    }
  }

  lemma {:induction false} NegatedSum(es: seq<Entry>, k: BalanceKey)
    ensures EntrySum(Negated(es), k) == -EntrySum(es, k)
  {
    if es != [] {
      var n := |es| - 1;
      assert Negated(es)[..n] == Negated(es[..n]);
      NegatedSum(es[..n], k);
    }
  }

  lemma {:induction false} NegatedCurrencySum(es: seq<Entry>, c: Currency)
    ensures CurrencySum(Negated(es), c) == -CurrencySum(es, c)
  {
    if es != [] {
      var n := |es| - 1;
      assert Negated(es)[..n] == Negated(es[..n]);
      NegatedCurrencySum(es[..n], c);
    }
  }

  // ---- A balance is the sum of the account's history ----

  function HistorySum(items: seq<HistoryItem>, c: Currency): int {
    if items == [] then 0
    else HistorySum(items[..|items| - 1], c) + if items[|items| - 1].currency == c then items[|items| - 1].amount else 0
  }

  lemma {:induction false} HistorySumConcat(xs: seq<HistoryItem>, ys: seq<HistoryItem>, c: Currency)
    ensures HistorySum(xs + ys, c) == HistorySum(xs, c) + HistorySum(ys, c)
  {
    if ys == [] {
      assert xs + ys == xs;
    } else {
      var n := |ys| - 1;
      assert (xs + ys)[..|xs + ys| - 1] == xs + ys[..n];
      HistorySumConcat(xs, ys[..n], c);
    }
  }

  lemma {:induction false} ItemsSum(tx: Tx, es: seq<Entry>, k: BalanceKey)
    ensures HistorySum(ItemsFor(tx, es, k.account), k.currency) == EntrySum(es, k)
  {
    if es != [] {
      var n := |es| - 1;
      ItemsSum(tx, es[..n], k);
      var rest := ItemsFor(tx, es[..n], k.account);
      if es[n].account == k.account {
        assert (rest + [ItemOf(tx, es[n])])[..|rest|] == rest;
      } else {
        assert rest + [] == rest;
      }
    }
  }

  /** The balance kept for an account equals the sum of its history lines, for every log. */
  lemma {:induction false} BalanceIsHistorySum(log: seq<Tx>, k: BalanceKey)
    ensures HistorySum(AccountHistory(log, k.account), k.currency) == LogBalance(log, k)
  {
    if log != [] {
      var last := log[|log| - 1];
      BalanceIsHistorySum(log[..|log| - 1], k);
      ItemsSum(last, last.entries, k);
      HistorySumConcat(AccountHistory(log[..|log| - 1], k.account), ItemsFor(last, last.entries, k.account),
                       k.currency);
    }
  }
}
