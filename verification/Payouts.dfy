/** Creator payouts: earnings, requests, the admin state machine, and what they leave of a creator's diamonds. */
module Payouts {
  import opened Decimal
  import opened Ledger
  import opened LedgerRuns
  import opened Paging
  import opened MemLedgers

  datatype PayoutStatus = Requested | Approved | Rejected | Processing | Paid | Failed

  datatype Payout = Payout(id: string, account: string, amount: int, status: PayoutStatus, txId: string,
                           reversalTxId: string,
                           failureReason: string, reference: string, note: string, reviewedBy: string,
                           requestedAt: int, reviewedAt: Option<int>, paidAt: Option<int>, updatedAt: int)

  datatype PayoutError = KYCIncomplete | ProfileRequired | AccountRestricted | BelowThreshold | InvalidAmount
                       | PayoutNotFound | InvalidTransition | LedgerRefused(error: LedgerError)

  datatype Result = Ok(payout: Payout) | Err(error: PayoutError)

  /** The payout store and the ledger. */
  datatype Desk = Desk(book: Book, payouts: map<string, Payout>, byAcct: map<string, seq<string>>, payoutSeq: nat)

  /** The answers of the injected checks. */
  datatype Gates = Gates(kycVerified: bool, hasProfile: bool, restricted: bool)

  const PAYOUT_KIND := "payout"
  const PAYOUT_REVERSAL_KIND := "payout_reversal"
  const THRESHOLD := 10_000  // also the minimum of every supported country
  const HOLD_PERIOD: int := 14 * 24 * 3_600_000_000_000

  /** "%04d". */
  function Padded(n: nat): string {
    var digits := Itoa(n);
    if |digits| == 1 then "000" + digits
    else if |digits| == 2 then "00" + digits
    else if |digits| == 3 then "0" + digits
    else digits
  }

  function PayoutId(n: nat): string {
    "payout-" + Padded(n)
  }

  function ReversalKey(id: string): string {
    "payout-reversal:" + id
  }

  predicate IsReversalKey(key: string) {
    "payout-reversal:" <= key
  }

  lemma {:induction false} LeadingZero(s: string)
    requires AllDigits(s)
    ensures AllDigits("0" + s) && DecimalValue("0" + s) == DecimalValue(s)
  {
    if s == [] {
      assert "0" + s == "0" && "0"[..0] == [];
    } else {
      LeadingZero(s[..|s| - 1]);
      assert ("0" + s)[..|"0" + s| - 1] == "0" + s[..|s| - 1];
    }
  }

  lemma {:induction false} PaddedValue(n: nat)
    ensures AllDigits(Padded(n)) && DecimalValue(Padded(n)) == n
  {
    var d := Itoa(n);
    ItoaValue(n);
    LeadingZero(d);
    LeadingZero("0" + d);
    LeadingZero("0" + ("0" + d));
    assert "0" + ("0" + d) == "00" + d && "0" + ("0" + ("0" + d)) == "000" + d;
  }

  lemma {:induction false} PayoutIdInjective(m: nat, n: nat)
    requires PayoutId(m) == PayoutId(n)
    ensures m == n
  {
    assert PayoutId(m)[7..] == Padded(m) && PayoutId(n)[7..] == Padded(n);
    PaddedValue(m);
    PaddedValue(n);
  }

  lemma {:induction false} ReversalKeyInjective(x: string, y: string)
    requires ReversalKey(x) == ReversalKey(y)
    ensures x == y
  {
    assert ReversalKey(x)[16..] == x && ReversalKey(y)[16..] == y;
  }

  function Wallet(account: string): BalanceKey {
    BalanceKey(UserDiamonds(account), DIAMOND)
  }

  /** The two legs moving `amount` diamonds from the platform to a user; a payout is the negative of it. */
  function Transfer(account: string, amount: int): seq<Entry> {
    [Entry(UserDiamonds(account), amount, DIAMOND), Entry(PLATFORM_DIAMOND_LIABILITY, -amount, DIAMOND)]
  }

  function AccountMetadata(account: string): Metadata {
    map["account_id" := Text(account)]
  }

  function PostPayout(b: Book, account: string, amount: int, key: string, now: int): (Book, PostResult) {
    Post(b, PAYOUT_KIND, key, AccountMetadata(account), Transfer(account, -amount), now)
  }

  function ReversePayout(b: Book, account: string, amount: int, key: string, now: int): (Book, PostResult) {
    Post(b, PAYOUT_REVERSAL_KIND, key, AccountMetadata(account), Transfer(account, amount), now)
  }

  // ---- Earnings ----

  datatype GiftTotal = GiftTotal(count: int, diamonds: int)

  datatype Summary = Summary(earned: int, locked: int, available: int, paidOut: int, balance: int,
                             byGift: map<string, GiftTotal>, entries: seq<HistoryItem>)

  const GIFT_KIND := "gift"

  /** The gift a history line is for, or "". */
  function GiftOf(e: HistoryItem): string {
    if "gift_id" in e.metadata && e.metadata["gift_id"].Text? then e.metadata["gift_id"].text else ""
  }

  predicate CountsForGift(e: HistoryItem, gift: string) {
    e.amount > 0 && e.kind == GIFT_KIND && gift != "" && GiftOf(e) == gift
  }

  function TotalOf(byGift: map<string, GiftTotal>, gift: string): GiftTotal {
    if gift in byGift then byGift[gift] else GiftTotal(0, 0)
  }

  function WithGift(byGift: map<string, GiftTotal>, e: HistoryItem): map<string, GiftTotal> {
    var gift, total := GiftOf(e), TotalOf(byGift, GiftOf(e));
    if CountsForGift(e, gift) then byGift[gift := GiftTotal(total.count + 1, total.diamonds + e.amount)] else byGift
  }

  function AddEntry(s: Summary, e: HistoryItem, cutoff: int): Summary {
    if e.amount > 0 then
      var t := s.(earned := s.earned + e.amount, byGift := WithGift(s.byGift, e));
      if e.createdAt < cutoff then t.(available := t.available + e.amount) else t.(locked := t.locked + e.amount)
    else if e.amount < 0 then s.(paidOut := s.paidOut - e.amount)
    else s
  }

  function Tally(items: seq<HistoryItem>, balance: int, cutoff: int): Summary {
    if items == [] then Summary(0, 0, 0, 0, balance, map[], [])
    else AddEntry(Tally(items[..|items| - 1], balance, cutoff), items[|items| - 1], cutoff)
  }

  /** Available is capped at what is still in the account, and never negative. */
  function Capped(s: Summary): Summary {
    var available := if s.available > s.balance then s.balance else s.available;
    s.(available := if available < 0 then 0 else available)
  }

  function EarningsSummary(b: Book, account: string, now: int): Summary {
    var entries := Reversed(AccountHistory(b.log, UserDiamonds(account)));
    Capped(Tally(entries, LogBalance(b.log, Wallet(account)), now - HOLD_PERIOD)).(entries := entries)
  }

  // ---- Payout store ----

  function PayoutsOf(d: Desk, account: string): seq<string> {
    if account in d.byAcct then d.byAcct[account] else []
  }

  predicate IsReserved(s: PayoutStatus) {
    s == Requested || s == Approved || s == Processing
  }

  /** The amounts of the listed payouts that are reserved. */
  function InFlight(payouts: map<string, Payout>, ids: seq<string>): int {
    if ids == [] then 0
    else
      var last := ids[|ids| - 1];
      InFlight(payouts, ids[..|ids| - 1])
      + if last in payouts && IsReserved(payouts[last].status) then payouts[last].amount else 0
  }

  function Available(d: Desk, account: string, now: int): int {
    var available := EarningsSummary(d.book, account, now).available - InFlight(d.payouts, PayoutsOf(d, account));
    if available < 0 then 0 else available
  }

  function RequestError(d: Desk, account: string, amount: int, gates: Gates, now: int): Option<PayoutError> {
    if !gates.kycVerified then Some(KYCIncomplete)
    else if !gates.hasProfile then Some(ProfileRequired)
    else if gates.restricted then Some(AccountRestricted)
    else if Available(d, account, now) < THRESHOLD then Some(BelowThreshold)
    else if amount <= 0 || amount > Available(d, account, now) then Some(InvalidAmount)
    else None
  }

  function NewPayout(d: Desk, account: string, amount: int, txId: string, now: int): Payout {
    Payout(PayoutId(d.payoutSeq + 1), account, amount, Requested, txId, "", "", "", "", "", now, None, None, now)
  }

  function RequestPayout(d: Desk, account: string, amount: int, key: string, gates: Gates, now: int): (Desk, Result) {
    if RequestError(d, account, amount, gates, now).Some?
        then (d, Err(RequestError(d, account, amount, gates, now).value))
    else
      var (book, r) := PostPayout(d.book, account, amount, key, now);
      match r
      case Rejected(error) => (d.(book := book), Err(LedgerRefused(error)))
      case Posted(tx, _) =>
        var p := NewPayout(d, account, amount, tx.id, now);
        (Desk(book, d.payouts[p.id := p], d.byAcct[account := PayoutsOf(d, account) + [p.id]], d.payoutSeq + 1), Ok(p))
  }

  // ---- Admin transitions ----

  /** A transition that moves no money, if the payout is in the one status it starts from. */
  datatype Move = Approve(note: string) | Process | MarkPaid(reference: string)

  function From(m: Move): PayoutStatus {
    match m
    case Approve(_) => Requested
    case Process => Approved
    case MarkPaid(_) => Processing
  }

  function Moved(p: Payout, m: Move, admin: string, now: int): Payout {
    var q := match m
      case Approve(note) => p.(status := Approved, reviewedBy := admin, note := note)
      case Process => p.(status := Processing, reviewedBy := admin)
      case MarkPaid(reference) => p.(status := Paid, reviewedBy := admin, reference := reference, paidAt := Some(now));
    q.(reviewedAt := if q.reviewedAt.None? then Some(now) else q.reviewedAt, updatedAt := now)
  }

  function Transition(d: Desk, id: string, m: Move, admin: string, now: int): (Desk, Result) {
    if m.MarkPaid? && m.reference == "" then (d, Err(InvalidTransition))
    else if id !in d.payouts then (d, Err(PayoutNotFound))
    else if d.payouts[id].status != From(m) then (d, Err(InvalidTransition))
    else
      var p := Moved(d.payouts[id], m, admin, now);
      (d.(payouts := d.payouts[id := p]), Ok(p))
  }

  /** Reject (before processing) or fail (while processing): the reversal and the status change together. */
  function RejectOrFail(d: Desk, id: string, fail: bool, admin: string, reason: string, now: int): (Desk, Result) {
    if id !in d.payouts then (d, Err(PayoutNotFound))
    else
      var p := d.payouts[id];
      if (if fail then p.status != Processing else p.status != Requested && p.status != Approved)
          then (d, Err(InvalidTransition))
      else
        var (book, r) := ReversePayout(d.book, p.account, p.amount, ReversalKey(id), now);
        match r
        case Rejected(error) => (d.(book := book), Err(LedgerRefused(error)))
        case Posted(tx, _) =>
          var q := p.(status := if fail then Failed else PayoutStatus.Rejected, reviewedBy := admin,
                      note := reason, failureReason := reason, reversalTxId := tx.id, reviewedAt := Some(now),
                          updatedAt := now);
          (Desk(book, d.payouts[id := q], d.byAcct, d.payoutSeq), Ok(q))
  }

  // ---- Conservation ----

  predicate IsPayoutKind(kind: string) {
    kind == PAYOUT_KIND || kind == PAYOUT_REVERSAL_KIND
  }

  /** Everything that moved an account outside payouts and their reversals. */
  function OtherMovements(log: seq<Tx>, k: BalanceKey): int {
    if log == [] then 0
    else
      var last := log[|log| - 1];
      OtherMovements(log[..|log| - 1], k) + if IsPayoutKind(last.kind) then 0 else EntrySum(last.entries, k)
  }

  /** A payout that has left the account: asked for and not given back. */
  predicate IsCommitted(s: PayoutStatus) {
    IsReserved(s) || s == Paid
  }

  function Committed(payouts: map<string, Payout>, ids: seq<string>): int {
    if ids == [] then 0
    else
      var last := ids[|ids| - 1];
      Committed(payouts, ids[..|ids| - 1])
      + if last in payouts && IsCommitted(payouts[last].status) then payouts[last].amount else 0
  }

  /** The law: a creator's diamonds are all other movements less the committed payouts. */
  ghost predicate Conserves(d: Desk, account: string) {
    LogBalance(d.book.log, Wallet(account)) == OtherMovements(d.book.log, Wallet(account)) - Committed(d.payouts,
        PayoutsOf(d, account))
  }

  /** How far an account is above that law. */
  function Surplus(d: Desk, account: string): int {
    LogBalance(d.book.log, Wallet(account)) - OtherMovements(d.book.log, Wallet(account))
    + Committed(d.payouts, PayoutsOf(d, account))
  }

  ghost predicate ReversedOnce(log: seq<Tx>, p: Payout) {
    exists i :: 0 <= i < |log| && log[i].key == ReversalKey(p.id) && log[i].id == p.reversalTxId
        && log[i].entries == Transfer(p.account, p.amount)
  }

  ghost predicate NotReversed(log: seq<Tx>, id: string) {
    forall i :: 0 <= i < |log| ==> log[i].key != ReversalKey(id)
  }

  ghost predicate PayoutOK(d: Desk, id: string)
    requires id in d.payouts
  {
    var p := d.payouts[id];
    && p.id == id && p.amount > 0
    && (exists n: nat :: 1 <= n <= d.payoutSeq && id == PayoutId(n))
    && (if p.status == Failed || p.status == PayoutStatus.Rejected then ReversedOnce(d.book.log, p)
        else NotReversed(d.book.log, id))
  }

  /** Each payout is listed exactly once, under its own account. */
  ghost predicate ListsOK(d: Desk) {
    && (forall a, i :: 0 <= i < |PayoutsOf(d, a)|
          ==> PayoutsOf(d, a)[i] in d.payouts && d.payouts[PayoutsOf(d, a)[i]].account == a)
    && (forall a, i, j :: 0 <= i < j < |PayoutsOf(d, a)| ==> PayoutsOf(d, a)[i] != PayoutsOf(d, a)[j])
    && (forall x :: x in d.payouts ==> x in PayoutsOf(d, d.payouts[x].account))
  }

  /** Reversal keys on the books belong to payouts on record. */
  ghost predicate KeysOK(log: seq<Tx>, payouts: map<string, Payout>) {
    forall i :: 0 <= i < |log| && IsReversalKey(log[i].key) ==> exists x :: x in payouts && log[i].key == ReversalKey(x)
  }

  ghost predicate DeskOK(d: Desk) {
    && Inv(d.book) && d.book.forgotten == 0
    && (forall x :: x in d.payouts ==> PayoutOK(d, x))
    && ListsOK(d)
    && KeysOK(d.book.log, d.payouts)
  }

  lemma {:induction false} OtherMovementsAppend(log: seq<Tx>, tx: Tx, k: BalanceKey)
    ensures OtherMovements(log + [tx], k) == OtherMovements(log, k)
            + if IsPayoutKind(tx.kind) then 0 else EntrySum(tx.entries, k)
  {
    assert (log + [tx])[..|log|] == log;
  }

  lemma {:induction false} TransferSum(account: string, amount: int, other: string)
    ensures EntrySum(Transfer(account, amount), Wallet(other)) == if other == account then amount else 0
  {
    var es := Transfer(account, amount);
    UserIsNotPlatform(other);
    assert IsPlatform(PLATFORM_DIAMOND_LIABILITY);
    EntrySumStep(es, 0, Wallet(other));
    EntrySumStep(es, 1, Wallet(other));
    assert es[..0] == [] && es[..2] == es;
    if UserDiamonds(other) == UserDiamonds(account) {
      WalletInjective(other, account);
    }
  }

  lemma {:induction false} WalletInjective(a: string, b: string)
    requires UserDiamonds(a) == UserDiamonds(b)
    ensures a == b
  {
    var s, t := UserDiamonds(a), UserDiamonds(b);
    assert |s| == |a| + 14 && |t| == |b| + 14;
    assert s[5..5 + |a|] == a && t[5..5 + |b|] == b;
  }

  /** A two-leg transfer posts exactly when the user's side is covered. */
  lemma {:induction false} TransferResult(b: Book, kind: string, account: string, amount: int, key: string, now: int)
    requires Inv(b) && !KeyUsed(b, key)
    ensures var (b', r) := Post(b, kind, key, AccountMetadata(account), Transfer(account, amount), now);
            && Inv(b') && b'.forgotten == b.forgotten && b'.reversals == b.reversals
            && (r.Posted? <==> LogBalance(b.log, Wallet(account)) + amount >= 0)
            && (if r.Posted? then r == Posted(Tx(TxId(|b.log| + 1), kind, key, AccountMetadata(account),
                                                 Transfer(account, amount), now), true)
                                  && b'.log == b.log + [r.tx]
                else b' == b)
  {
    hide LogOK, KeysUnique, ReversalsOK, KeyIndex;
    var es := Transfer(account, amount);
    UserIsNotPlatform(account);
    assert IsPlatform(PLATFORM_DIAMOND_LIABILITY);
    TwoEntrySums(es, DIAMOND);
    OnceBreach(b.log, es, 0);
    OnceBreach(b.log, es, 1);
    PostKeepsInv(b, kind, key, AccountMetadata(account), es, now);
  }

  lemma {:induction false} CommittedSame(payouts: map<string, Payout>, payouts': map<string, Payout>, ids: seq<string>)
    requires forall i :: 0 <= i < |ids| ==> (ids[i] in payouts <==> ids[i] in payouts')
    requires forall i :: 0 <= i < |ids| && ids[i] in payouts ==>
               payouts'[ids[i]].amount == payouts[ids[i]].amount
                   && (IsCommitted(payouts'[ids[i]].status) <==> IsCommitted(payouts[ids[i]].status))
    ensures Committed(payouts', ids) == Committed(payouts, ids)
  {
    if ids != [] {
      CommittedSame(payouts, payouts', ids[..|ids| - 1]);
    }
  }

  /** Giving one listed payout back takes exactly its amount out of what is committed. */
  lemma {:induction false} CommittedRelease(payouts: map<string, Payout>, ids: seq<string>, q: Payout)
    requires q.id in payouts && IsCommitted(payouts[q.id].status) && !IsCommitted(q.status)
    requires forall i, j :: 0 <= i < j < |ids| ==> ids[i] != ids[j]
    ensures Committed(payouts[q.id := q], ids) == Committed(payouts, ids)
            - if q.id in ids then payouts[q.id].amount else 0
  {
    if ids != [] {
      var last := |ids| - 1;
      CommittedRelease(payouts, ids[..last], q);
      assert ids[last] !in ids[..last];
      assert ids == ids[..last] + [ids[last]];
    }
  }

  lemma {:induction false} PayoutIdFresh(d: Desk)
    requires forall x :: x in d.payouts ==> PayoutOK(d, x)
    ensures PayoutId(d.payoutSeq + 1) !in d.payouts
  {
    var id := PayoutId(d.payoutSeq + 1);
    if id in d.payouts {
      var n: nat :| 1 <= n <= d.payoutSeq && id == PayoutId(n);
      PayoutIdInjective(n, d.payoutSeq + 1);
      assert false;
    }
  }

  // ---- Every operation keeps the law ----

  lemma {:induction false} KeysAppend(log: seq<Tx>, tx: Tx, payouts: map<string, Payout>, payouts': map<string, Payout>)
    requires KeysOK(log, payouts) && payouts.Keys <= payouts'.Keys
    requires IsReversalKey(tx.key) ==> exists x :: x in payouts && tx.key == ReversalKey(x)
    ensures KeysOK(log + [tx], payouts')
  {
    var log' := log + [tx];
    forall i | 0 <= i < |log'| && IsReversalKey(log'[i].key)
      ensures exists x :: x in payouts' && log'[i].key == ReversalKey(x)
    {
      if i < |log| {
        var x :| x in payouts && log[i].key == ReversalKey(x);
      }
    }
  }

  /** A payout whose record is untouched and whose reversal is not what was just posted. */
  lemma {:induction false} PayoutKept(d: Desk, d': Desk, x: string)
    requires x in d.payouts && PayoutOK(d, x) && x in d'.payouts && d'.payouts[x] == d.payouts[x]
             && d.payoutSeq <= d'.payoutSeq
    requires d.book.log <= d'.book.log && forall i :: |d.book.log| <= i < |d'.book.log|
                                            ==> d'.book.log[i].key != ReversalKey(x)
    ensures PayoutOK(d', x)
  {
    var p := d.payouts[x];
    var n: nat :| 1 <= n <= d.payoutSeq && x == PayoutId(n);
    assert 1 <= n <= d'.payoutSeq;
    if p.status == Failed || p.status == PayoutStatus.Rejected {
      var i :| 0 <= i < |d.book.log| && d.book.log[i].key == ReversalKey(p.id) && d.book.log[i].id == p.reversalTxId
          && d.book.log[i].entries == Transfer(p.account, p.amount);
      assert d'.book.log[i] == d.book.log[i];
    }
  }

  lemma {:induction false} ReversalKeyIs(x: string)
    ensures IsReversalKey(ReversalKey(x))
  {
  }

  lemma {:induction false} UnusedReversal(d: Desk, id: string)
    requires DeskOK(d) && id !in d.payouts
    ensures NotReversed(d.book.log, id)
  {
    hide Inv, PayoutOK, ListsOK;
    ReversalKeyIs(id);
    forall i | 0 <= i < |d.book.log|
      ensures d.book.log[i].key != ReversalKey(id)
    {
      if d.book.log[i].key == ReversalKey(id) {
        var x :| x in d.payouts && d.book.log[i].key == ReversalKey(x);
        ReversalKeyInjective(x, id);
        assert false;
      }
    }
  }

  lemma {:induction false} ListsAppend(d: Desk, d': Desk, p: Payout)
    requires ListsOK(d) && p.id !in d.payouts
    requires d'.payouts == d.payouts[p.id := p] && d'.byAcct == d.byAcct[p.account := PayoutsOf(d, p.account) + [p.id]]
    ensures ListsOK(d')
    ensures PayoutsOf(d', p.account) == PayoutsOf(d, p.account) + [p.id]
    ensures forall a :: a != p.account ==> PayoutsOf(d', a) == PayoutsOf(d, a)
  {
    forall a, i | 0 <= i < |PayoutsOf(d', a)|
      ensures PayoutsOf(d', a)[i] in d'.payouts && d'.payouts[PayoutsOf(d', a)[i]].account == a
    {
      if i < |PayoutsOf(d, a)| {
        assert PayoutsOf(d', a)[i] == PayoutsOf(d, a)[i];
      }
    }
    forall a, i, j | 0 <= i < j < |PayoutsOf(d', a)|
      ensures PayoutsOf(d', a)[i] != PayoutsOf(d', a)[j]
    {
      if a == p.account && j == |PayoutsOf(d, a)| {
        assert PayoutsOf(d, a)[i] in d.payouts;
      }
    }
    forall x | x in d'.payouts
      ensures x in PayoutsOf(d', d'.payouts[x].account)
    {
      if x == p.id {
        assert PayoutsOf(d', p.account)[|PayoutsOf(d, p.account)|] == x;
      } else {
        assert x in PayoutsOf(d, d.payouts[x].account);
      }
    }
  }

  lemma {:induction false} CommittedAppend(d: Desk, p: Payout, account: string)
    requires ListsOK(d) && p.id !in d.payouts && IsCommitted(p.status)
    ensures Committed(d.payouts[p.id := p], PayoutsOf(d, account)) == Committed(d.payouts, PayoutsOf(d, account))
    ensures Committed(d.payouts[p.id := p], PayoutsOf(d, account) + [p.id])
            == Committed(d.payouts, PayoutsOf(d, account)) + p.amount
  {
    var ids := PayoutsOf(d, account);
    CommittedSame(d.payouts, d.payouts[p.id := p], ids);
    assert (ids + [p.id])[..|ids|] == ids;
  }

  lemma {:induction false} InFlightNonNegative(d: Desk, ids: seq<string>)
    requires forall x :: x in d.payouts ==> PayoutOK(d, x)
    ensures InFlight(d.payouts, ids) >= 0
  {
    hide ReversedOnce, NotReversed;
    if ids != [] {
      InFlightNonNegative(d, ids[..|ids| - 1]);
      assert ids[|ids| - 1] in d.payouts ==> PayoutOK(d, ids[|ids| - 1]);
    }
  }

  /** A request that passes the gates is always covered by the ledger. */
  lemma {:induction false} AcceptedIsCovered(d: Desk, account: string, amount: int, gates: Gates, now: int)
    requires DeskOK(d) && RequestError(d, account, amount, gates, now).None?
    ensures 0 < amount <= LogBalance(d.book.log, Wallet(account))
    ensures amount <= EarningsSummary(d.book, account, now).available - InFlight(d.payouts, PayoutsOf(d, account))
  {
    hide Inv, ListsOK, KeysOK, PayoutOK, Tally, LogBalance, InFlight;
    InFlightNonNegative(d, PayoutsOf(d, account));
    TallyBalance(Reversed(AccountHistory(d.book.log, UserDiamonds(account))), LogBalance(d.book.log, Wallet(account)),
                 now - HOLD_PERIOD);
  }

  lemma {:induction false} TallyBalance(items: seq<HistoryItem>, balance: int, cutoff: int)
    ensures Tally(items, balance, cutoff).balance == balance
  {
    if items != [] {
      TallyBalance(items[..|items| - 1], balance, cutoff);
    }
  }

  lemma {:induction false} RequestPosts(d: Desk, account: string, amount: int, key: string, gates: Gates, now: int)
    requires DeskOK(d) && RequestError(d, account, amount, gates, now).None?
    ensures var (d', r) := RequestPayout(d, account, amount, key, gates, now);
            && r.Ok? && r.payout == NewPayout(d, account, amount, r.payout.txId, now)
            && d'.payouts == d.payouts[r.payout.id := r.payout]
            && d'.byAcct == d.byAcct[account := PayoutsOf(d, account) + [r.payout.id]]
            && d'.payoutSeq == d.payoutSeq + 1
            && (if KeyUsed(d.book, key) then d'.book == d.book
                else Inv(d'.book) && d'.book.forgotten == 0
                     && d'.book.log == d.book.log + [Tx(TxId(|d.book.log| + 1), PAYOUT_KIND, key,
                                                        AccountMetadata(account), Transfer(account, -amount), now)])
  {
    hide Inv, PayoutOK, ListsOK, KeysOK, RequestError, EarningsSummary, LogBalance, Balanced, FirstBreach, KeyIndex;
    AcceptedIsCovered(d, account, amount, gates, now);
    if !KeyUsed(d.book, key) {
      TransferResult(d.book, PAYOUT_KIND, account, -amount, key, now);
    }
  }

  lemma {:induction false} RequestKeeps(d: Desk, account: string, amount: int, key: string, gates: Gates, now: int)
    requires DeskOK(d) && !IsReversalKey(key)
    ensures DeskOK(RequestPayout(d, account, amount, key, gates, now).0)
  {
    hide Inv, PayoutOK, ListsOK, KeysOK, RequestError, RequestPayout, PostPayout, KeyIndex;
    if RequestError(d, account, amount, gates, now).Some? {
      RefusedRequest(d, account, amount, key, gates, now);
    } else {
      RequestPosts(d, account, amount, key, gates, now);
      RequestAmountPositive(d, account, amount, gates, now);
      var (d', r) := RequestPayout(d, account, amount, key, gates, now);
      PayoutIdFresh(d);
      ListsAppend(d, d', r.payout);
      UnusedReversal(d, r.payout.id);
      if KeyUsed(d.book, key) {
        KeysSame(d.book.log, d.payouts, d'.payouts);
      } else {
        KeysAppend(d.book.log, d'.book.log[|d.book.log|], d.payouts, d'.payouts);
      }
      forall x | x in d'.payouts ensures PayoutOK(d', x) {
        ReversalKeyIs(x);
        if x in d.payouts { PayoutKept(d, d', x); } else { NewPayoutOK(d, d', x, amount); }
      }
    }
  }

  lemma {:induction false} RefusedRequest(d: Desk, account: string, amount: int, key: string, gates: Gates, now: int)
    requires RequestError(d, account, amount, gates, now).Some?
    ensures RequestPayout(d, account, amount, key, gates, now).0 == d
            && RequestPayout(d, account, amount, key, gates, now).1.Err?
  {
  }

  lemma {:induction false} NewPayoutOK(d: Desk, d': Desk, x: string, amount: int)
    requires x in d'.payouts && d'.payouts[x].id == x == PayoutId(d.payoutSeq + 1) && d'.payouts[x].amount == amount > 0
    requires d'.payouts[x].status == Requested && d'.payoutSeq == d.payoutSeq + 1 && NotReversed(d.book.log, x)
    requires d.book.log <= d'.book.log && forall i :: |d.book.log| <= i < |d'.book.log|
                                            ==> d'.book.log[i].key != ReversalKey(x)
    ensures PayoutOK(d', x)
  {
    var n: nat := d.payoutSeq + 1;
    assert 1 <= n <= d'.payoutSeq && x == PayoutId(n);
  }

  /** An accepted request keeps an account where it is exactly when its key is unused: a replayed key debits nothing
      but records a second payout, so the account rises above the law by its amount. */
  lemma {:induction false} RequestSurplus(d: Desk, account: string, amount: int, key: string, gates: Gates, now: int)
    requires DeskOK(d) && RequestError(d, account, amount, gates, now).None?
    ensures Surplus(RequestPayout(d, account, amount, key, gates, now).0, account)
            == Surplus(d, account) + if KeyUsed(d.book, key) then amount else 0
  {
    hide Inv, PayoutOK, ListsOK, KeysOK, RequestError, RequestPayout, KeyIndex, LogBalance, OtherMovements, Committed,
         Transfer;
    RequestPosts(d, account, amount, key, gates, now);
    RequestAmountPositive(d, account, amount, gates, now);
    PayoutIdFresh(d);
    var (d', r) := RequestPayout(d, account, amount, key, gates, now);
    ListsAppend(d, d', r.payout);
    CommittedAppend(d, r.payout, account);
    if !KeyUsed(d.book, key) {
      var tx := d'.book.log[|d.book.log|];
      LogBalanceAppend(d.book.log, tx, Wallet(account));
      OtherMovementsAppend(d.book.log, tx, Wallet(account));
      TransferSum(account, -amount, account);
    }
  }

  /** On a desk where the law holds, an accepted request keeps it exactly when its key is unused. */
  lemma {:induction false} RequestConservesExactly(d: Desk, account: string, amount: int, key: string, gates: Gates,
                                                   now: int)
    requires DeskOK(d) && Conserves(d, account) && RequestError(d, account, amount, gates, now).None?
    ensures Conserves(RequestPayout(d, account, amount, key, gates, now).0, account) <==> !KeyUsed(d.book, key)
  {
    hide DeskOK, RequestError, RequestPayout, KeyIndex, LogBalance, OtherMovements, Committed;
    RequestSurplus(d, account, amount, key, gates, now);
    RequestAmountPositive(d, account, amount, gates, now);
  }

  lemma {:induction false} RequestAmountPositive(d: Desk, account: string, amount: int, gates: Gates, now: int)
    requires RequestError(d, account, amount, gates, now).None?
    ensures amount > 0
  {
  }

  /** A request leaves every other creator's account as it was. */
  lemma {:induction false} RequestElsewhere(d: Desk, account: string, amount: int, key: string, gates: Gates, now: int,
                                            other: string)
    requires DeskOK(d) && other != account
    ensures Surplus(RequestPayout(d, account, amount, key, gates, now).0, other) == Surplus(d, other)
  {
    hide Inv, PayoutOK, ListsOK, KeysOK, RequestError, RequestPayout, KeyIndex, LogBalance, OtherMovements, Committed,
        Transfer, PayoutsOf, PayoutId;
    if RequestError(d, account, amount, gates, now).Some? {
      RefusedRequest(d, account, amount, key, gates, now);
    } else {
      RequestPosts(d, account, amount, key, gates, now);
      PayoutIdFresh(d);
      var (d', r) := RequestPayout(d, account, amount, key, gates, now);
      ListsAppend(d, d', r.payout);
      CommittedAppend(d, r.payout, other);
      if !KeyUsed(d.book, key) {
        var tx := d'.book.log[|d.book.log|];
        LogBalanceAppend(d.book.log, tx, Wallet(other));
        OtherMovementsAppend(d.book.log, tx, Wallet(other));
        TransferSum(account, -amount, other);
      }
    }
  }

  lemma {:induction false} MovedKeepsOK(d: Desk, d': Desk, id: string)
    requires id in d.payouts && PayoutOK(d, id) && id in d'.payouts && d'.book == d.book && d'.payoutSeq == d.payoutSeq
    requires var p, q := d.payouts[id], d'.payouts[id];
             q.id == p.id && q.amount == p.amount && IsCommitted(p.status) && IsCommitted(q.status)
    ensures PayoutOK(d', id)
  {
  }

  lemma {:induction false} TransitionKeeps(d: Desk, id: string, m: Move, admin: string, now: int)
    requires DeskOK(d)
    ensures DeskOK(Transition(d, id, m, admin, now).0)
  {
    hide Inv, PayoutOK, ListsOK, KeysOK;
    var (d', r) := Transition(d, id, m, admin, now);
    if r.Ok? {
      KeysSame(d.book.log, d.payouts, d'.payouts);
      ListsKept(d, d', id);
      forall x | x in d'.payouts ensures PayoutOK(d', x) {
        if x == id { MovedKeepsOK(d, d', id); } else { PayoutKept(d, d', x); }
      }
    }
  }

  /** A transition that moves no money keeps the payout committed. */
  lemma {:induction false} TransitionConserves(d: Desk, id: string, m: Move, admin: string, now: int, account: string)
    ensures Surplus(Transition(d, id, m, admin, now).0, account) == Surplus(d, account)
  {
    hide LogBalance, OtherMovements, Committed;
    var (d', r) := Transition(d, id, m, admin, now);
    if r.Ok? {
      CommittedSame(d.payouts, d'.payouts, PayoutsOf(d, account));
    }
  }

  lemma {:induction false} KeysSame(log: seq<Tx>, payouts: map<string, Payout>, payouts': map<string, Payout>)
    requires KeysOK(log, payouts) && payouts.Keys <= payouts'.Keys
    ensures KeysOK(log, payouts')
  {
    forall i | 0 <= i < |log| && IsReversalKey(log[i].key)
      ensures exists x :: x in payouts' && log[i].key == ReversalKey(x)
    {
      var x :| x in payouts && log[i].key == ReversalKey(x);
    }
  }

  /** A reserved payout can always be given back: the reversal posts, once. */
  lemma {:induction false} ReversalPosts(d: Desk, id: string, now: int)
    requires DeskOK(d) && id in d.payouts && IsReserved(d.payouts[id].status)
    ensures var p := d.payouts[id];
            var (b', r) := ReversePayout(d.book, p.account, p.amount, ReversalKey(id), now);
            && p.id == id && Inv(b') && b'.forgotten == 0
            && r == Posted(Tx(TxId(|d.book.log| + 1), PAYOUT_REVERSAL_KIND, ReversalKey(id), AccountMetadata(p.account),
                              Transfer(p.account, p.amount), now), true)
            && b'.log == d.book.log + [r.tx]
  {
    hide LogOK, KeysUnique, ReversalsOK, ListsOK, KeysOK, LogBalance, Post;
    var p := d.payouts[id];
    assert PayoutOK(d, id);
    KeyIndexFinds(d.book.log, 0, ReversalKey(id));
    InvLog(d.book);
    UserIsNotPlatform(p.account);
    NonNegative(d.book.log, Wallet(p.account));
    TransferResult(d.book, PAYOUT_REVERSAL_KIND, p.account, p.amount, ReversalKey(id), now);
  }

  lemma {:induction false} RejectOrFailKeeps(d: Desk, id: string, fail: bool, admin: string, reason: string, now: int)
    requires DeskOK(d)
    ensures DeskOK(RejectOrFail(d, id, fail, admin, reason, now).0)
  {
    hide Inv, PayoutOK, ListsOK, KeysOK, ReversePayout;
    var (d', r) := RejectOrFail(d, id, fail, admin, reason, now);
    if id in d.payouts && IsReserved(d.payouts[id].status) {
      ReversalPosts(d, id, now);
      if r.Ok? {
        var tx := d'.book.log[|d.book.log|];
        KeysAppend(d.book.log, tx, d.payouts, d'.payouts);
        ListsKept(d, d', id);
        forall x | x in d'.payouts ensures PayoutOK(d', x) {
          if x != id {
            if ReversalKey(x) == ReversalKey(id) { ReversalKeyInjective(x, id); }
            PayoutKept(d, d', x);
          } else {
            ReversedPayoutOK(d, d', id);
          }
        }
      }
    }
  }

  lemma {:induction false} ListsKept(d: Desk, d': Desk, id: string)
    requires ListsOK(d) && id in d.payouts && id in d'.payouts && d'.byAcct == d.byAcct
    requires d'.payouts == d.payouts[id := d'.payouts[id]] && d'.payouts[id].account == d.payouts[id].account
    ensures ListsOK(d')
  {
    assert forall a :: PayoutsOf(d', a) == PayoutsOf(d, a);
  }

  lemma {:induction false} ReversedPayoutOK(d: Desk, d': Desk, id: string)
    requires id in d.payouts && PayoutOK(d, id) && id in d'.payouts && d.payoutSeq == d'.payoutSeq
    requires var p, q := d.payouts[id], d'.payouts[id];
             && q.id == p.id && q.amount == p.amount && q.account == p.account
             && q.status in {Failed, PayoutStatus.Rejected}
             && |d'.book.log| == |d.book.log| + 1
             && var tx := d'.book.log[|d.book.log|];
             tx.key == ReversalKey(id) && tx.id == q.reversalTxId && tx.entries == Transfer(p.account, p.amount)
    ensures PayoutOK(d', id)
  {
    assert ReversedOnce(d'.book.log, d'.payouts[id]);
  }

  /** Giving a payout back raises the creator's balance by what it takes out of the committed payouts. */
  lemma {:induction false} RejectOrFailConserves(d: Desk, id: string, fail: bool, admin: string, reason: string,
                                                 now: int, account: string)
    requires DeskOK(d)
    ensures Surplus(RejectOrFail(d, id, fail, admin, reason, now).0, account) == Surplus(d, account)
  {
    hide Inv, PayoutOK, KeysOK, ListsOK, ReversePayout, Transfer, LogBalance, OtherMovements, Committed;
    var (d', r) := RejectOrFail(d, id, fail, admin, reason, now);
    if id in d.payouts && IsReserved(d.payouts[id].status) {
      ReversalPosts(d, id, now);
      if r.Ok? {
        var p := d.payouts[id];
        var tx := d'.book.log[|d.book.log|];
        LogBalanceAppend(d.book.log, tx, Wallet(account));
        OtherMovementsAppend(d.book.log, tx, Wallet(account));
        TransferSum(p.account, p.amount, account);
        ListedUnder(d, id, account);
        CommittedRelease(d.payouts, PayoutsOf(d, account), r.payout);
      }
    }
  }

  lemma {:induction false} ListedUnder(d: Desk, id: string, account: string)
    requires ListsOK(d) && id in d.payouts
    ensures id in PayoutsOf(d, account) <==> d.payouts[id].account == account
    ensures forall i, j :: 0 <= i < j < |PayoutsOf(d, account)| ==> PayoutsOf(d, account)[i] != PayoutsOf(d, account)[j]
  {
    if id in PayoutsOf(d, account) {
      var i :| 0 <= i < |PayoutsOf(d, account)| && PayoutsOf(d, account)[i] == id;
      assert d.payouts[PayoutsOf(d, account)[i]].account == account;
    }
  }

  // ---- Runs ----

  datatype DeskOp =
    | Request(account: string, amount: int, key: string, gates: Gates, now: int)
    | Advance(id: string, move: Move, admin: string, now: int)
    | Return(id: string, fail: bool, admin: string, reason: string, now: int)
    | Elsewhere(op: Op)

  function Step(d: Desk, op: DeskOp): Desk {
    match op
    case Request(account, amount, key, gates, now) => RequestPayout(d, account, amount, key, gates, now).0
    case Advance(id, move, admin, now) => Transition(d, id, move, admin, now).0
    case Return(id, fail, admin, reason, now) => RejectOrFail(d, id, fail, admin, reason, now).0
    case Elsewhere(op) => d.(book := Apply(d.book, op))
  }

  /** Reversal keys and the two payout kinds are the service's own; no restart. A request may use any other key. */
  predicate Legal(d: Desk, op: DeskOp) {
    match op
    case Request(_, _, key, _, _) => !IsReversalKey(key)
    case Elsewhere(other) => !other.RestartOp? && !IsReversalKey(other.key)
        && (other.PostOp? ==> !IsPayoutKind(other.kind))
    case _ => true
  }

  lemma {:induction false} ElsewhereKeeps(d: Desk, op: Op)
    requires DeskOK(d) && Legal(d, Elsewhere(op))
    ensures DeskOK(d.(book := Apply(d.book, op)))
  {
    hide Inv, PayoutOK, KeysOK, Apply, ListsOK;
    ApplyAddsOne(d.book, op);
    var d' := d.(book := Apply(d.book, op));
    SameLists(d, d');
    if d'.book != d.book {
      KeysAppend(d.book.log, d'.book.log[|d.book.log|], d.payouts, d.payouts);
      forall x | x in d'.payouts ensures PayoutOK(d', x) {
        ReversalKeyIs(x);
        PayoutKept(d, d', x);
      }
    }
  }

  lemma {:induction false} SameLists(d: Desk, d': Desk)
    requires ListsOK(d) && d'.payouts == d.payouts && d'.byAcct == d.byAcct
    ensures ListsOK(d')
  {
    assert forall a :: PayoutsOf(d', a) == PayoutsOf(d, a);
  }

  /** Any other movement changes the balance and the other movements alike. */
  lemma {:induction false} ElsewhereConserves(d: Desk, op: Op, account: string)
    requires DeskOK(d) && Legal(d, Elsewhere(op))
    ensures Surplus(d.(book := Apply(d.book, op)), account) == Surplus(d, account)
  {
    hide Inv, PayoutOK, KeysOK, Apply, ListsOK, LogBalance, OtherMovements, Committed;
    ApplyAddsOne(d.book, op);
    var d' := d.(book := Apply(d.book, op));
    if d'.book != d.book {
      LogBalanceAppend(d.book.log, d'.book.log[|d.book.log|], Wallet(account));
      OtherMovementsAppend(d.book.log, d'.book.log[|d.book.log|], Wallet(account));
    }
  }

  /** What a step records for an account without debiting it: a request accepted on a used key. */
  function Gain(d: Desk, op: DeskOp, account: string): int {
    if AcceptedOnUsedKey(d, op, account) then op.amount else 0
  }

  lemma {:induction false} StepKeeps(d: Desk, op: DeskOp)
    requires DeskOK(d) && Legal(d, op)
    ensures DeskOK(Step(d, op)) && forall a :: Surplus(Step(d, op), a) == Surplus(d, a) + Gain(d, op, a)
  {
    hide DeskOK, Surplus, RequestPayout, Transition, RejectOrFail, Apply, RequestError, KeyIndex;
    match op
    case Request(account, amount, key, gates, now) =>
      RequestKeeps(d, account, amount, key, gates, now);
      forall a ensures Surplus(Step(d, op), a) == Surplus(d, a) + Gain(d, op, a) {
        if a != account {
          RequestElsewhere(d, account, amount, key, gates, now, a);
        } else if RequestError(d, account, amount, gates, now).Some? {
          RefusedRequest(d, account, amount, key, gates, now);
        } else {
          RequestSurplus(d, account, amount, key, gates, now);
        }
      }
    case Advance(id, move, admin, now) =>
      TransitionKeeps(d, id, move, admin, now);
      forall a ensures Surplus(Step(d, op), a) == Surplus(d, a) {
        TransitionConserves(d, id, move, admin, now, a);
      }
    case Return(id, fail, admin, reason, now) =>
      RejectOrFailKeeps(d, id, fail, admin, reason, now);
      forall a ensures Surplus(Step(d, op), a) == Surplus(d, a) {
        RejectOrFailConserves(d, id, fail, admin, reason, now, a);
      }
    case Elsewhere(other) =>
      ElsewhereKeeps(d, other);
      forall a ensures Surplus(Step(d, op), a) == Surplus(d, a) {
        ElsewhereConserves(d, other, a);
      }
  }

  const EMPTY_DESK: Desk := Desk(EMPTY_BOOK, map[], map[], 0)

  function RunDesk(ops: seq<DeskOp>): Desk {
    if ops == [] then EMPTY_DESK else Step(RunDesk(ops[..|ops| - 1]), ops[|ops| - 1])
  }

  ghost predicate LegalRun(ops: seq<DeskOp>) {
    forall i :: 0 <= i < |ops| ==> Legal(RunDesk(ops[..i]), ops[i])
  }

  /** The amounts of the account's payouts that a run recorded without a debit, whatever became of them. */
  function Undebited(ops: seq<DeskOp>, account: string): int {
    if ops == [] then 0
    else Undebited(ops[..|ops| - 1], account) + Gain(RunDesk(ops[..|ops| - 1]), ops[|ops| - 1], account)
  }

  lemma {:induction false} RunKeeps(ops: seq<DeskOp>)
    requires LegalRun(ops)
    ensures DeskOK(RunDesk(ops)) && forall a :: Surplus(RunDesk(ops), a) == Undebited(ops, a)
  {
    hide DeskOK, Surplus, Legal, Step, Gain;
    if ops == [] {
      EmptyDeskOK();
    } else {
      var last := |ops| - 1;
      forall i | 0 <= i < last ensures Legal(RunDesk(ops[..last][..i]), ops[..last][i]) {
        assert ops[..last][..i] == ops[..i];
      }
      RunKeeps(ops[..last]);
      StepKeeps(RunDesk(ops[..last]), ops[last]);
      forall a ensures Surplus(RunDesk(ops), a) == Undebited(ops, a) {
        assert Surplus(RunDesk(ops[..last]), a) == Undebited(ops[..last], a);
      }
    }
  }

  lemma {:induction false} EmptyDeskOK()
    ensures DeskOK(EMPTY_DESK) && forall a :: Surplus(EMPTY_DESK, a) == 0
  {
    EmptyInv();
  }

  /** In every state of every run, with requests on any keys, a creator's diamonds are everything else that moved the
      account less the payouts requested, approved, processing or paid, plus whatever was recorded as a payout
      without being debited: that is still committed without having left, or was given back without having left. */
  lemma {:induction false} SurplusIsUndebited(ops: seq<DeskOp>, account: string)
    requires LegalRun(ops)
    ensures var d := RunDesk(ops);
            LogBalance(d.book.log, Wallet(account))
            == OtherMovements(d.book.log, Wallet(account)) - Committed(d.payouts, PayoutsOf(d, account))
               + Undebited(ops, account)
  {
    hide LegalRun, RunDesk, DeskOK, LogBalance, OtherMovements, Committed, Undebited;
    RunKeeps(ops);
    assert Surplus(RunDesk(ops), account) == Undebited(ops, account);
  }

  /** Every request of the run that is accepted has an unused key. */
  ghost predicate FreshKeys(ops: seq<DeskOp>, account: string) {
    forall i :: 0 <= i < |ops| ==> !AcceptedOnUsedKey(RunDesk(ops[..i]), ops[i], account)
  }

  predicate AcceptedOnUsedKey(d: Desk, op: DeskOp, account: string) {
    && op.Request? && op.account == account && KeyUsed(d.book, op.key)
    && RequestError(d, account, op.amount, op.gates, op.now).None?
  }

  lemma {:induction false} UndebitedExactly(ops: seq<DeskOp>, account: string)
    ensures Undebited(ops, account) >= 0
    ensures Undebited(ops, account) == 0 <==> FreshKeys(ops, account)
  {
    hide RunDesk, Gain, AcceptedOnUsedKey;
    if ops != [] {
      var last := |ops| - 1;
      UndebitedExactly(ops[..last], account);
      GainNonNegative(RunDesk(ops[..last]), ops[last], account);
      assert forall i :: 0 <= i < last ==> ops[..last][..i] == ops[..i] && ops[..last][i] == ops[i];
      if FreshKeys(ops, account) {
        assert !AcceptedOnUsedKey(RunDesk(ops[..last]), ops[last], account);
      }
    }
  }

  lemma {:induction false} GainNonNegative(d: Desk, op: DeskOp, account: string)
    ensures Gain(d, op, account) >= 0
    ensures Gain(d, op, account) == 0 <==> !AcceptedOnUsedKey(d, op, account)
  {
    if AcceptedOnUsedKey(d, op, account) { RequestAmountPositive(d, account, op.amount, op.gates, op.now); }
  }

  /** In every state of every run, a creator's diamonds are everything else that moved the account less the
      payouts requested, approved, processing or paid, exactly when every request accepted so far had an unused
      key. */
  lemma {:induction false} PayoutConservation(ops: seq<DeskOp>, account: string)
    requires LegalRun(ops)
    ensures var d := RunDesk(ops);
            (LogBalance(d.book.log, Wallet(account))
             == OtherMovements(d.book.log, Wallet(account)) - Committed(d.payouts, PayoutsOf(d, account)))
            <==> FreshKeys(ops, account)
  {
    hide LegalRun, RunDesk, DeskOK, LogBalance, OtherMovements, Committed, Undebited, FreshKeys;
    SurplusIsUndebited(ops, account);
    UndebitedExactly(ops, account);
  }

  lemma {:induction false} DeskFacts(d: Desk, id: string)
    requires DeskOK(d) && id in d.payouts
    ensures PayoutOK(d, id) && KeysUnique(d.book.log, 0)
  {
  }

  /** In every state of every run, a rejected or failed payout has exactly one reversal on the books, for its
      account and amount; any other payout, in particular a paid one, has none. */
  lemma {:induction false} ReversedExactlyOnce(ops: seq<DeskOp>, id: string)
    requires LegalRun(ops) && id in RunDesk(ops).payouts
    ensures var d := RunDesk(ops);
            var log, p := d.book.log, d.payouts[id];
            && ((p.status == Failed || p.status == PayoutStatus.Rejected)
                <==> exists i :: 0 <= i < |log| && log[i].key == ReversalKey(id))
            && (forall i :: 0 <= i < |log| && log[i].key == ReversalKey(id)
                  ==> log[i].id == p.reversalTxId && log[i].entries == Transfer(p.account, p.amount))
            && (forall i, j :: 0 <= i < |log| && 0 <= j < |log| && log[i].key == log[j].key == ReversalKey(id)
                  ==> i == j)
  {
    hide LegalRun, RunDesk, DeskOK, Surplus, Transfer;
    RunKeeps(ops);
    var d := RunDesk(ops);
    var log, p := d.book.log, d.payouts[id];
    DeskFacts(d, id);
    if p.status == Failed || p.status == PayoutStatus.Rejected {
      var i :| 0 <= i < |log| && log[i].key == ReversalKey(id) && log[i].id == p.reversalTxId
          && log[i].entries == Transfer(p.account, p.amount);
    }
  }

  const OPEN: Gates := Gates(true, true, false)

  function DepositOf(account: string): Op {
    PostOp("adjustment", "k", map[], TwoLegs(UserDiamonds(account), 20_000, PLATFORM_DIAMOND_LIABILITY, DIAMOND), 0)
  }

  /** A request on a key already used is accepted, recorded and never debited, and rejecting it then pays the amount
      out of nothing: from an empty desk, a deposit of 20000 diamonds, a request for half of them under the
      deposit's key after the hold period, and its rejection leave 30000. */
  lemma {:induction false} UndebitedPayout(account: string)
    ensures var deposit := Elsewhere(DepositOf(account));
            var request := Request(account, 10_000, "k", OPEN, HOLD_PERIOD + 1);
            var reject := Return(PayoutId(1), false, "admin", "", HOLD_PERIOD + 2);
            var requested, rejected := RunDesk([deposit, request]), RunDesk([deposit, request, reject]);
            && LegalRun([deposit, request, reject]) && Conserves(RunDesk([deposit]), account)
            && PayoutId(1) in requested.payouts && !Conserves(requested, account)
            && LogBalance(requested.book.log, Wallet(account)) == 20_000
            && PayoutId(1) in rejected.payouts && rejected.payouts[PayoutId(1)].status == PayoutStatus.Rejected
            && LogBalance(rejected.book.log, Wallet(account)) == 30_000
  {
    hide DeskOK, Conserves, Surplus, RequestError, RequestPayout, RejectOrFail, LogBalance, PayoutId, Legal, Step,
        KeyUsed,
         Apply, Undebited;
    var deposit := Elsewhere(DepositOf(account));
    var request := Request(account, 10_000, "k", OPEN, HOLD_PERIOD + 1);
    var reject := Return(PayoutId(1), false, "admin", "", HOLD_PERIOD + 2);
    ThreeSteps(deposit, request, reject);
    var d1, d2 := Step(EMPTY_DESK, deposit), Step(Step(EMPTY_DESK, deposit), request);
    DepositIsLegal(account, d1);
    DepositIsLegal(account, d2);
    EmptyDeskOK();
    StepKeeps(EMPTY_DESK, deposit);
    SurplusMeans(d1, account);
    RequestedOnUsedKey(account, d1);
    StepKeeps(d1, request);
    GivenBackForNothing(account, d2);
  }

  lemma {:induction false} SurplusMeans(d: Desk, account: string)
    ensures Conserves(d, account) <==> Surplus(d, account) == 0
  {
    hide LogBalance, OtherMovements, Committed;
  }

  lemma {:induction false} ThreeSteps(a: DeskOp, b: DeskOp, c: DeskOp)
    ensures RunDesk([a]) == Step(EMPTY_DESK, a) && RunDesk([a, b]) == Step(Step(EMPTY_DESK, a), b)
    ensures RunDesk([a, b, c]) == Step(Step(Step(EMPTY_DESK, a), b), c)
    ensures Legal(EMPTY_DESK, a) && Legal(Step(EMPTY_DESK, a), b) && Legal(Step(Step(EMPTY_DESK, a), b), c)
            ==> LegalRun([a, b, c])
  {
    hide Step, Legal;
    assert [a, b, c][..2] == [a, b] && [a, b, c][..1] == [a] == [a, b][..1] && [a][..0] == [];
    assert RunDesk([a]) == Step(EMPTY_DESK, a);
    assert [a, b, c][..0] == [];
  }

  lemma {:induction false} DepositIsLegal(account: string, d: Desk)
    ensures Legal(EMPTY_DESK, Elsewhere(DepositOf(account)))
    ensures Legal(d, Request(account, 10_000, "k", OPEN, HOLD_PERIOD + 1))
    ensures Legal(d, Return(PayoutId(1), false, "admin", "", HOLD_PERIOD + 2))
  {
    assert "k"[0] == 'k';
  }

  lemma {:induction false} RequestedOnUsedKey(account: string, d: Desk)
    requires d == Step(EMPTY_DESK, Elsewhere(DepositOf(account))) && DeskOK(d) && Surplus(d, account) == 0
    ensures var d' := Step(d, Request(account, 10_000, "k", OPEN, HOLD_PERIOD + 1));
            && d'.book == d.book && PayoutId(1) in d'.payouts && d'.payouts[PayoutId(1)].status == Requested
            && d'.payouts[PayoutId(1)].account == account && d'.payouts[PayoutId(1)].amount == 10_000
            && LogBalance(d.book.log, Wallet(account)) == 20_000 && !Conserves(d', account)
  {
    hide DeskOK, RequestError, RequestPayout, LogBalance, PayoutId, Apply, OtherMovements, Committed;
    Deposited(account);
    DepositBook(account);
    var tx := Tx(TxId(1), "adjustment", "k", map[],
                 TwoLegs(UserDiamonds(account), 20_000, PLATFORM_DIAMOND_LIABILITY, DIAMOND), 0);
    DepositHistory(tx, account);
    RequestPosts(d, account, 10_000, "k", OPEN, HOLD_PERIOD + 1);
    RequestSurplus(d, account, 10_000, "k", OPEN, HOLD_PERIOD + 1);
  }

  lemma {:induction false} GivenBackForNothing(account: string, d: Desk)
    requires DeskOK(d) && PayoutId(1) in d.payouts && d.payouts[PayoutId(1)].status == Requested
    requires d.payouts[PayoutId(1)].account == account && d.payouts[PayoutId(1)].amount == 10_000
    requires LogBalance(d.book.log, Wallet(account)) == 20_000
    ensures var d' := Step(d, Return(PayoutId(1), false, "admin", "", HOLD_PERIOD + 2));
            && PayoutId(1) in d'.payouts && d'.payouts[PayoutId(1)].status == PayoutStatus.Rejected
            && LogBalance(d'.book.log, Wallet(account)) == 30_000
  {
    hide DeskOK, LogBalance, PayoutId, ReversePayout, Transfer;
    ReversalPosts(d, PayoutId(1), HOLD_PERIOD + 2);
    var (b', r) := ReversePayout(d.book, account, 10_000, ReversalKey(PayoutId(1)), HOLD_PERIOD + 2);
    LogBalanceAppend(d.book.log, r.tx, Wallet(account));
    TransferSum(account, 10_000, account);
  }


  lemma {:induction false} Deposited(account: string)
    ensures var deposit := PostOp("adjustment", "k", map[],
                                  TwoLegs(UserDiamonds(account), 20_000, PLATFORM_DIAMOND_LIABILITY, DIAMOND), 0);
            var d := EMPTY_DESK.(book := Apply(EMPTY_BOOK, deposit));
            KeyUsed(d.book, "k") && RequestError(d, account, 10_000, Gates(true, true, false), HOLD_PERIOD + 1).None?
  {
    hide IsPlatform, Post, KeyIndex, AccountHistory, LogBalance;
    var es := TwoLegs(UserDiamonds(account), 20_000, PLATFORM_DIAMOND_LIABILITY, DIAMOND);
    DepositBook(account);
    var tx := Tx(TxId(1), "adjustment", "k", map[], es, 0);
    DepositHistory(tx, account);
    var item := ItemOf(tx, es[0]);
    assert Reversed([item]) == [item] && [item][..0] == [];
    var t := Tally([item], 20_000, 1);
    assert t == AddEntry(Tally([], 20_000, 1), item, 1);
    assert t.available == 20_000;
  }

  lemma {:induction false} DepositHistory(tx: Tx, account: string)
    requires tx.entries == TwoLegs(UserDiamonds(account), 20_000, PLATFORM_DIAMOND_LIABILITY, DIAMOND)
    ensures AccountHistory([tx], UserDiamonds(account)) == [ItemOf(tx, tx.entries[0])]
    ensures LogBalance([tx], Wallet(account)) == EntrySum(tx.entries, Wallet(account))
  {
    var es, wallet := tx.entries, UserDiamonds(account);
    assert [tx][..0] == [] && es[..1] == [es[0]] && es[..1][..0] == [];
    assert wallet[0] == 'u' && PLATFORM_DIAMOND_LIABILITY[0] == 'p';
    assert ItemsFor(tx, es[..1], wallet) == [] + [ItemOf(tx, es[0])];
    assert ItemsFor(tx, es, wallet) == ItemsFor(tx, es[..1], wallet) + [];
    assert AccountHistory([tx], wallet) == [] + ItemsFor(tx, es, wallet);
  }

  lemma {:induction false} DepositBook(account: string)
    ensures var es := TwoLegs(UserDiamonds(account), 20_000, PLATFORM_DIAMOND_LIABILITY, DIAMOND);
            && Apply(EMPTY_BOOK, PostOp("adjustment", "k", map[], es, 0))
                == Book([Tx(TxId(1), "adjustment", "k", map[], es, 0)], 0, map[])
            && KeyUsed(Apply(EMPTY_BOOK, PostOp("adjustment", "k", map[], es, 0)), "k")
            && EntrySum(es, Wallet(account)) == 20_000
  {
    hide IsPlatform, TwoLegs;
    EmptyInv();
    UserIsNotPlatform(account);
    assert IsPlatform(PLATFORM_DIAMOND_LIABILITY) by { LiabilityIsPlatform(); }
    var es := TwoLegs(UserDiamonds(account), 20_000, PLATFORM_DIAMOND_LIABILITY, DIAMOND);
    assert LogBalance([], Wallet(account)) == 0;
    TwoLegsAcceptable([], UserDiamonds(account), 20_000, PLATFORM_DIAMOND_LIABILITY, DIAMOND);
    ExactAcceptance(EMPTY_BOOK, "adjustment", "k", map[], es, 0);
    var tx := Tx(TxId(1), "adjustment", "k", map[], es, 0);
    assert [] + [tx] == [tx] && [tx][..0] == [];
  }

  lemma {:induction false} LiabilityIsPlatform()
    ensures IsPlatform(PLATFORM_DIAMOND_LIABILITY)
  {
  }

  // ---- Earnings add up ----

  /** The sum of the lines in any other currency. */
  function SumElse(items: seq<HistoryItem>, c: Currency): int {
    if items == [] then 0
    else SumElse(items[..|items| - 1], c) + if items[|items| - 1].currency != c then items[|items| - 1].amount else 0
  }

  lemma {:induction false} TallyAddsUp(items: seq<HistoryItem>, balance: int, cutoff: int)
    ensures var t := Tally(items, balance, cutoff);
            && t.earned - t.paidOut == HistorySum(items, DIAMOND) + SumElse(items, DIAMOND)
            && t.earned == t.locked + t.available
            && t.locked >= 0 && t.available >= 0 && t.paidOut >= 0 && t.balance == balance
  {
    if items != [] {
      TallyAddsUp(items[..|items| - 1], balance, cutoff);
    }
  }

  lemma {:induction false} SumElseConcat(xs: seq<HistoryItem>, ys: seq<HistoryItem>, c: Currency)
    ensures SumElse(xs + ys, c) == SumElse(xs, c) + SumElse(ys, c)
  {
    if ys == [] {
      assert xs + ys == xs;
    } else {
      var n := |ys| - 1;
      assert (xs + ys)[..|xs + ys| - 1] == xs + ys[..n];
      SumElseConcat(xs, ys[..n], c);
    }
  }

  lemma {:induction false} ReversedSum(items: seq<HistoryItem>, c: Currency)
    ensures HistorySum(Reversed(items), c) == HistorySum(items, c) && SumElse(Reversed(items), c) == SumElse(items, c)
  {
    if items == [] {
      assert Reversed(items) == [];
    } else {
      var last := |items| - 1;
      assert Reversed(items) == [items[last]] + Reversed(items[..last]);
      HistorySumConcat([items[last]], Reversed(items[..last]), c);
      SumElseConcat([items[last]], Reversed(items[..last]), c);
      ReversedSum(items[..last], c);
      assert [items[last]][..0] == [];
    }
  }

  /** A summary adds up: what was earned less what was paid out is the balance the ledger holds plus whatever
      lines in another currency the account has, so the balance itself exactly when those sum to zero; and what is
      available is still in the account, never negative, and with what is locked no more than was earned. */
  lemma {:induction false} EarningsAddUp(b: Book, account: string, now: int)
    requires Inv(b)
    ensures var s := EarningsSummary(b, account, now);
            && s.balance == LogBalance(b.log, Wallet(account))
            && s.earned - s.paidOut == s.balance + SumElse(AccountHistory(b.log, UserDiamonds(account)), DIAMOND)
            && 0 <= s.available <= s.balance && s.available + s.locked <= s.earned
  {
    hide Inv, Tally, HistorySum, LogBalance;
    var items := AccountHistory(b.log, UserDiamonds(account));
    var balance := LogBalance(b.log, Wallet(account));
    TallyAddsUp(Reversed(items), balance, now - HOLD_PERIOD);
    ReversedSum(items, DIAMOND);
    BalanceIsHistorySum(b.log, Wallet(account));
    UserIsNotPlatform(account);
    InvLog(b);
    NonNegative(b.log, Wallet(account));
  }

  /** A positive line of a gift transaction whose metadata name this gift. */
  predicate PaidForGift(e: HistoryItem, gift: string) {
    && e.amount > 0 && e.kind == "gift" && gift != ""
    && "gift_id" in e.metadata && e.metadata["gift_id"] == Text(gift)
  }

  /** How many lines are for a gift, and for how much. */
  function GiftTally(items: seq<HistoryItem>, gift: string): GiftTotal {
    if items == [] then GiftTotal(0, 0)
    else
      var t, e := GiftTally(items[..|items| - 1], gift), items[|items| - 1];
      if PaidForGift(e, gift) then GiftTotal(t.count + 1, t.diamonds + e.amount) else t
  }

  lemma {:induction false} GiftTallied(items: seq<HistoryItem>, balance: int, cutoff: int, gift: string)
    ensures var byGift := Tally(items, balance, cutoff).byGift;
            && TotalOf(byGift, gift) == GiftTally(items, gift)
            && (gift in byGift <==> GiftTally(items, gift).count > 0)
            && GiftTally(items, gift).count >= 0 && 0 <= GiftTally(items, gift).diamonds <= Tally(items, balance,
                cutoff).earned
  {
    if items != [] {
      GiftTallied(items[..|items| - 1], balance, cutoff, gift);
    }
  }

  lemma {:induction false} GiftTallyConcat(xs: seq<HistoryItem>, ys: seq<HistoryItem>, gift: string)
    ensures GiftTally(xs + ys, gift).count == GiftTally(xs, gift).count + GiftTally(ys, gift).count
    ensures GiftTally(xs + ys, gift).diamonds == GiftTally(xs, gift).diamonds + GiftTally(ys, gift).diamonds
  {
    if ys == [] {
      assert xs + ys == xs;
    } else {
      var n := |ys| - 1;
      assert (xs + ys)[..|xs + ys| - 1] == xs + ys[..n];
      GiftTallyConcat(xs, ys[..n], gift);
    }
  }

  lemma {:induction false} ReversedGifts(items: seq<HistoryItem>, gift: string)
    ensures GiftTally(Reversed(items), gift) == GiftTally(items, gift)
  {
    if items == [] {
      assert Reversed(items) == [];
    } else {
      var last := |items| - 1;
      assert Reversed(items) == [items[last]] + Reversed(items[..last]);
      GiftTallyConcat([items[last]], Reversed(items[..last]), gift);
      ReversedGifts(items[..last], gift);
      assert [items[last]][..0] == [];
    }
  }

  /** The breakdown names exactly the gifts the account was paid for, with how often and how much according to
      the ledger's own history, and no gift brings more than was earned. */
  lemma {:induction false} BreakdownIsExact(b: Book, account: string, now: int, gift: string)
    ensures var s := EarningsSummary(b, account, now);
            var tally := GiftTally(AccountHistory(b.log, UserDiamonds(account)), gift);
            && (gift in s.byGift <==> tally.count > 0)
            && (gift in s.byGift ==> s.byGift[gift] == tally && 0 < tally.diamonds <= s.earned)
  {
    hide Tally, AccountHistory, LogBalance;
    var items := AccountHistory(b.log, UserDiamonds(account));
    GiftTallied(Reversed(items), LogBalance(b.log, Wallet(account)), now - HOLD_PERIOD, gift);
    ReversedGifts(items, gift);
    CountedIsPositive(items, gift);
  }

  lemma {:induction false} CountedIsPositive(items: seq<HistoryItem>, gift: string)
    ensures GiftTally(items, gift).count >= 0 && GiftTally(items, gift).diamonds >= GiftTally(items, gift).count
  {
    if items != [] {
      CountedIsPositive(items[..|items| - 1], gift);
    }
  }

  // ---- What is earned, locked and available ----

  /** What an account was paid before a time. */
  function PaidInBefore(lines: seq<HistoryItem>, time: int): int {
    if lines == [] then 0
    else
      var e := lines[|lines| - 1];
      PaidInBefore(lines[..|lines| - 1], time) + if e.amount > 0 && e.createdAt < time then e.amount else 0
  }

  /** What it was paid at that time or later. */
  function PaidInSince(lines: seq<HistoryItem>, time: int): int {
    if lines == [] then 0
    else
      var e := lines[|lines| - 1];
      PaidInSince(lines[..|lines| - 1], time) + if e.amount > 0 && time <= e.createdAt then e.amount else 0
  }

  function TakenOut(lines: seq<HistoryItem>): int {
    if lines == [] then 0
    else TakenOut(lines[..|lines| - 1]) + if lines[|lines| - 1].amount < 0 then -lines[|lines| - 1].amount else 0
  }

  lemma {:induction false} PaidConcat(xs: seq<HistoryItem>, ys: seq<HistoryItem>, time: int)
    ensures PaidInBefore(xs + ys, time) == PaidInBefore(xs, time) + PaidInBefore(ys, time)
    ensures PaidInSince(xs + ys, time) == PaidInSince(xs, time) + PaidInSince(ys, time)
    ensures TakenOut(xs + ys) == TakenOut(xs) + TakenOut(ys)
  {
    if ys == [] {
      assert xs + ys == xs;
    } else {
      var n := |ys| - 1;
      assert (xs + ys)[..|xs + ys| - 1] == xs + ys[..n];
      PaidConcat(xs, ys[..n], time);
    }
  }

  lemma {:induction false} PaidReversed(lines: seq<HistoryItem>, time: int)
    ensures PaidInBefore(Reversed(lines), time) == PaidInBefore(lines, time)
    ensures PaidInSince(Reversed(lines), time) == PaidInSince(lines, time)
    ensures TakenOut(Reversed(lines)) == TakenOut(lines)
  {
    if lines == [] {
      assert Reversed(lines) == [];
    } else {
      var last := |lines| - 1;
      assert Reversed(lines) == [lines[last]] + Reversed(lines[..last]);
      PaidConcat([lines[last]], Reversed(lines[..last]), time);
      PaidReversed(lines[..last], time);
      assert [lines[last]][..0] == [];
    }
  }

  lemma {:induction false} TallyIsPaid(lines: seq<HistoryItem>, balance: int, time: int)
    ensures var t := Tally(lines, balance, time);
            && t.available == PaidInBefore(lines, time) && t.locked == PaidInSince(lines, time)
            && t.earned == PaidInBefore(lines, time) + PaidInSince(lines, time)
            && t.paidOut == TakenOut(lines) && t.balance == balance
            && PaidInBefore(lines, time) >= 0
  {
    if lines != [] {
      TallyIsPaid(lines[..|lines| - 1], balance, time);
    }
  }

  /** What a creator may draw on before payouts in flight: what came in more than 14 days ago, as far as the
      account still holds it. */
  function Unlocked(b: Book, account: string, now: int): int {
    var mature := PaidInBefore(AccountHistory(b.log, UserDiamonds(account)), now - 14 * 86_400_000_000_000);
    var held := LogBalance(b.log, BalanceKey(UserDiamonds(account), "DIAMOND"));
    if mature <= held then mature else held
  }

  /** A summary sorts the account's lines by the 14 days: what came in since is locked, what came in before is
      available as far as the account still holds it, both together are what was earned, and what went out is
      paid out. The lines are listed newest first. */
  lemma {:induction false} EarningsExactly(b: Book, account: string, now: int)
    requires Inv(b)
    ensures var s := EarningsSummary(b, account, now);
            var lines := AccountHistory(b.log, UserDiamonds(account));
            var fortnightAgo := now - 14 * 86_400_000_000_000;
            && s.locked == PaidInSince(lines, fortnightAgo)
            && s.available == Unlocked(b, account, now) >= 0
            && s.earned == PaidInBefore(lines, fortnightAgo) + PaidInSince(lines, fortnightAgo)
            && s.paidOut == TakenOut(lines)
            && |s.entries| == |lines| && forall i :: 0 <= i < |lines| ==> s.entries[i] == lines[|lines| - 1 - i]
  {
    hide Inv, Tally, LogBalance, AccountHistory;
    var lines := AccountHistory(b.log, UserDiamonds(account));
    var cutoff := now - 14 * 86_400_000_000_000;
    assert cutoff == now - HOLD_PERIOD;
    TallyIsPaid(Reversed(lines), LogBalance(b.log, Wallet(account)), cutoff);
    PaidReversed(lines, cutoff);
    TallyIsPaid(lines, LogBalance(b.log, Wallet(account)), cutoff);
    UserIsNotPlatform(account);
    InvLog(b);
    NonNegative(b.log, Wallet(account));
  }

  // ---- What each operation does ----

  /** The amounts of the payouts in any of the given statuses. */
  function TotalIn(payouts: map<string, Payout>, ids: seq<string>, statuses: set<PayoutStatus>): int {
    if ids == [] then 0
    else
      var id := ids[|ids| - 1];
      TotalIn(payouts, ids[..|ids| - 1], statuses)
      + if id in payouts && payouts[id].status in statuses then payouts[id].amount else 0
  }

  lemma {:induction false} InFlightIsTotal(payouts: map<string, Payout>, ids: seq<string>)
    ensures InFlight(payouts, ids) == TotalIn(payouts, ids, {Requested, Approved, Processing})
    ensures Committed(payouts, ids) == TotalIn(payouts, ids, {Requested, Approved, Processing, Paid})
  {
    if ids != [] {
      InFlightIsTotal(payouts, ids[..|ids| - 1]);
    }
  }

  /** What a creator may ask for: what is unlocked less what is still in flight, never below zero. */
  function Free(d: Desk, account: string, now: int): int {
    var ids := if account in d.byAcct then d.byAcct[account] else [];
    var free := Unlocked(d.book, account, now) - TotalIn(d.payouts, ids, {Requested, Approved, Processing});
    if free < 0 then 0 else free
  }

  /** The gates, in order: each refusal has exactly its own condition, and an accepted amount is positive, at least
      10000 diamonds are free, and the amount is within them. */
  lemma {:induction false} GatesExactly(d: Desk, account: string, amount: int, gates: Gates, now: int)
    requires DeskOK(d)
    ensures var e, free := RequestError(d, account, amount, gates, now), Free(d, account, now);
            var pass := gates.kycVerified && gates.hasProfile && !gates.restricted;
            && (e == Some(KYCIncomplete) <==> !gates.kycVerified)
            && (e == Some(ProfileRequired) <==> gates.kycVerified && !gates.hasProfile)
            && (e == Some(AccountRestricted) <==> gates.kycVerified && gates.hasProfile && gates.restricted)
            && (e == Some(BelowThreshold) <==> pass && free < 10_000)
            && (e == Some(InvalidAmount) <==> pass && free >= 10_000 && (amount <= 0 || amount > free))
            && (e == None <==> pass && free >= 10_000 && 0 < amount <= free)
  {
    hide Inv, ListsOK, KeysOK, PayoutOK, EarningsSummary, InFlight, Unlocked, TotalIn;
    EarningsExactly(d.book, account, now);
    InFlightIsTotal(d.payouts, PayoutsOf(d, account));
  }

  /** A refused request changes nothing and names the gate it failed. An accepted one debits its amount, on a key
      not used before, in a two-leg transaction, and records a new payout that carries the transaction under the
      key, at the end of the creator's list. */
  lemma {:induction false} RequestExactly(d: Desk, account: string, amount: int, key: string, gates: Gates, now: int)
    requires DeskOK(d)
    ensures var (d', r) := RequestPayout(d, account, amount, key, gates, now);
            var error := RequestError(d, account, amount, gates, now);
            && (error.Some? ==> d' == d && r == Err(error.value))
            && (error.None? ==>
                  && r.Ok? && r.payout.id !in d.payouts
                  && KeyNames(d'.book, key, r.payout.txId)
                  && d'.payouts == d.payouts[r.payout.id := r.payout]
                  && d'.byAcct == d.byAcct[account := (if account in d.byAcct then d.byAcct[account] else [])
                                                      + [r.payout.id]]
                  && r.payout == Payout(r.payout.id, account, amount, Requested, r.payout.txId, "", "", "", "", "",
                                        now, None, None, now)
                  && (KeyUsed(d.book, key) ==> d'.book == d.book)
                  && (!KeyUsed(d.book, key) ==>
                        d'.book.log == d.book.log + [PayoutTx(d.book, account, amount, key, now)]))
  {
    hide Inv, PayoutOK, ListsOK, KeysOK, RequestError, Post, KeyIndex, PayoutId, ReversalKey;
    if RequestError(d, account, amount, gates, now).Some? {
      RefusedRequest(d, account, amount, key, gates, now);
    } else {
      RequestPosts(d, account, amount, key, gates, now);
      PayoutIdFresh(d);
      PostedUnderKey(d.book, account, amount, key, now);
    }
  }

  /** The debit of a payout: the creator's diamonds go down and the platform's liability up. */
  function PayoutTx(b: Book, account: string, amount: int, key: string, now: int): Tx {
    Tx("tx-" + Itoa(|b.log| + 1), "payout", key, map["account_id" := Text(account)],
       [Entry("user:" + account + ":diamonds", -amount, "DIAMOND"),
        Entry("platform:diamond_liability", amount, "DIAMOND")], now)
  }

  /** The credit that gives a payout back, under the key made of its ID. */
  function ReturnTx(b: Book, id: string, account: string, amount: int, now: int): Tx {
    Tx("tx-" + Itoa(|b.log| + 1), "payout_reversal", "payout-reversal:" + id, map["account_id" := Text(account)],
       [Entry("user:" + account + ":diamonds", amount, "DIAMOND"),
        Entry("platform:diamond_liability", -amount, "DIAMOND")], now)
  }

  /** A transaction the ledger remembers under the key has this ID. */
  ghost predicate KeyNames(b: Book, key: string, txId: string) {
    exists i :: b.forgotten <= i < |b.log| && b.log[i].key == key && b.log[i].id == txId
  }

  lemma {:induction false} PostedUnderKey(b: Book, account: string, amount: int, key: string, now: int)
    requires PostPayout(b, account, amount, key, now).1.Posted? && b.forgotten <= |b.log|
    ensures var (b', r) := PostPayout(b, account, amount, key, now);
            KeyNames(b', key, r.tx.id)
  {
    hide Balanced, FirstBreach;
    KeyIndexFinds(b.log, b.forgotten, key);
    var (b', r) := PostPayout(b, account, amount, key, now);
    if !KeyUsed(b, key) {
      assert b'.log[|b.log|] == r.tx;
    }
  }

  /** Approving takes a requested payout, processing an approved one, and marking paid, which needs a reference, one
      in processing; each records who acted and when, and the first of them the time of review. Any other call
      changes nothing. */
  lemma {:induction false} TransitionExactly(d: Desk, id: string, m: Move, admin: string, now: int)
    ensures var (d', r) := Transition(d, id, m, admin, now);
            var empty := m.MarkPaid? && m.reference == "";
            && (r == Err(PayoutNotFound) <==> id !in d.payouts && !empty)
            && (r == Err(InvalidTransition) <==>
                  empty || (id in d.payouts && (m.Approve? ==> d.payouts[id].status != Requested)
                            && (m.Process? ==> d.payouts[id].status != Approved)
                            && (m.MarkPaid? ==> d.payouts[id].status != Processing)))
            && (r.Err? ==> d' == d)
            && (r.Ok? ==> && id in d.payouts && d' == d.(payouts := d.payouts[id := r.payout])
                          && Advanced(d.payouts[id], r.payout, m, admin, now))
  {
  }

  /** What the record shows after a transition: what was asked for is untouched. */
  ghost predicate Advanced(p: Payout, q: Payout, m: Move, admin: string, now: int) {
    && q.id == p.id && q.account == p.account && q.amount == p.amount && q.txId == p.txId
    && q.reversalTxId == p.reversalTxId && q.failureReason == p.failureReason && q.requestedAt == p.requestedAt
    && q.reviewedBy == admin && q.updatedAt == now
    && (p.reviewedAt.None? ==> q.reviewedAt == Some(now)) && (p.reviewedAt.Some? ==> q.reviewedAt == p.reviewedAt)
    && (m.Approve? ==> q.status == Approved && q.note == m.note && q.reference == p.reference && q.paidAt == p.paidAt)
    && (m.Process? ==> q.status == Processing && q.note == p.note && q.reference == p.reference && q.paidAt == p.paidAt)
    && (m.MarkPaid? ==> q.status == Paid && q.note == p.note && q.reference == m.reference && q.paidAt == Some(now))
  }

  /** A payout is rejected from requested or approved and failed from processing; it then always gets its amount
      back, in one transaction under its own key, and its record names that transaction and the reason. */
  lemma {:induction false} ReturnExactly(d: Desk, id: string, fail: bool, admin: string, reason: string, now: int)
    requires DeskOK(d)
    ensures var (d', r) := RejectOrFail(d, id, fail, admin, reason, now);
            && (r == Err(PayoutNotFound) <==> id !in d.payouts)
            && (r == Err(InvalidTransition) <==>
                  && id in d.payouts
                  && (if fail then d.payouts[id].status != Processing
                      else d.payouts[id].status !in {Requested, Approved}))
            && (r.Err? ==> d' == d && (r.error == PayoutNotFound || r.error == InvalidTransition))
            && (r.Ok? ==> && id in d.payouts && GivenBack(d, id, d', r.payout, fail, admin, reason, now))
  {
    hide Inv, PayoutOK, ListsOK, KeysOK, ReversePayout, Post;
    if id in d.payouts && IsReserved(d.payouts[id].status) {
      ReversalPosts(d, id, now);
      var p := d.payouts[id];
      var tx := ReversePayout(d.book, p.account, p.amount, ReversalKey(id), now).1.tx;
      assert tx == ReturnTx(d.book, id, p.account, p.amount, now);
    }
  }

  ghost predicate GivenBack(d: Desk, id: string, d': Desk, q: Payout, fail: bool, admin: string, reason: string,
                            now: int)
    requires id in d.payouts
  {
    var p := d.payouts[id];
    var tx := ReturnTx(d.book, id, p.account, p.amount, now);
    && d'.book.log == d.book.log + [tx]
    && d'.payouts == d.payouts[id := q] && d'.byAcct == d.byAcct && d'.payoutSeq == d.payoutSeq
    && q == Payout(p.id, p.account, p.amount, if fail then Failed else PayoutStatus.Rejected, p.txId, tx.id, reason,
                   p.reference, reason, admin, p.requestedAt, Some(now), p.paidAt, now)
  }

  // ---- A payout over a run ----

  /** Where a payout in one status can get to. */
  function ReachableFrom(s: PayoutStatus): set<PayoutStatus> {
    match s
    case Requested => {Requested, Approved, Processing, Paid, PayoutStatus.Rejected, Failed}
    case Approved => {Approved, Processing, Paid, PayoutStatus.Rejected, Failed}
    case Processing => {Processing, Paid, Failed}
    case Paid => {Paid}
    case Rejected => {PayoutStatus.Rejected}
    case Failed => {Failed}
  }

  /** What was asked for stays, the status only moves on, and a settled payout's record is final. */
  ghost predicate Follows(p: Payout, q: Payout) {
    && q.id == p.id && q.account == p.account && q.amount == p.amount && q.txId == p.txId
    && q.requestedAt == p.requestedAt
    && q.status in ReachableFrom(p.status)
    && (p.status in {Paid, PayoutStatus.Rejected, Failed} ==> q == p)
    && (q.status == Paid ==> q.reference != "" || q == p)
  }

  function RunDeskFrom(d: Desk, ops: seq<DeskOp>): Desk {
    if ops == [] then d else Step(RunDeskFrom(d, ops[..|ops| - 1]), ops[|ops| - 1])
  }

  lemma {:induction false} StepFollows(d: Desk, op: DeskOp, id: string)
    requires DeskOK(d) && Legal(d, op) && id in d.payouts
    ensures id in Step(d, op).payouts && Follows(d.payouts[id], Step(d, op).payouts[id])
  {
    hide DeskOK, RequestPayout, Transition, RejectOrFail, Apply, RequestError, KeyIndex, Post, Free, ReturnTx;
    match op
    case Request(account, amount, key, gates, now) =>
      RequestExactly(d, account, amount, key, gates, now);
    case Advance(x, move, admin, now) =>
      TransitionExactly(d, x, move, admin, now);
    case Return(x, fail, admin, reason, now) =>
      ReturnExactly(d, x, fail, admin, reason, now);
      DeskFacts(d, id);
    case Elsewhere(_) =>
  }

  lemma {:induction false} FollowsOn(p: Payout, q: Payout, r: Payout)
    ensures Follows(p, p)
    ensures Follows(p, q) && Follows(q, r) ==> Follows(p, r)
  {
  }

  /** Over any run, a payout keeps what was asked for and its status moves only along requested, approved,
      processing, paid, or off to rejected before processing and to failed from it; once settled, its record never
      changes. */
  lemma {:induction false} PayoutOnlyMovesOn(d: Desk, ops: seq<DeskOp>, id: string)
    requires DeskOK(d) && id in d.payouts
    requires forall i :: 0 <= i < |ops| ==> Legal(RunDeskFrom(d, ops[..i]), ops[i])
    ensures DeskOK(RunDeskFrom(d, ops))
    ensures id in RunDeskFrom(d, ops).payouts && Follows(d.payouts[id], RunDeskFrom(d, ops).payouts[id])
  {
    hide DeskOK, Surplus, Legal, Step, Gain, Follows;
    if ops == [] {
      FollowsOn(d.payouts[id], d.payouts[id], d.payouts[id]);
    } else {
      var last := |ops| - 1;
      var before := RunDeskFrom(d, ops[..last]);
      assert forall i :: 0 <= i < last ==> ops[..last][..i] == ops[..i] && ops[..last][i] == ops[i];
      PayoutOnlyMovesOn(d, ops[..last], id);
      StepKeeps(before, ops[last]);
      StepFollows(before, ops[last], id);
      FollowsOn(d.payouts[id], before.payouts[id], Step(before, ops[last]).payouts[id]);
    }
  }

  /** IDs are padded with zeros to four digits. */
  lemma {:induction false} PayoutIdSpelledOut(n: nat)
    ensures var digits := Itoa(n);
            && (|digits| >= 4 ==> PayoutId(n) == "payout-" + digits)
            && (|digits| < 4 ==> |PayoutId(n)| == 11 && PayoutId(n)[..7] == "payout-"
                                 && PayoutId(n)[11 - |digits|..] == digits
                                 && forall i :: 7 <= i < 11 - |digits| ==> PayoutId(n)[i] == '0')
  {
    var digits := Itoa(n);
    var padded := Padded(n);
    assert PayoutId(n)[..7] == "payout-" && PayoutId(n)[7..] == padded;
    if |digits| < 4 {
      assert padded[4 - |digits|..] == digits;
      assert PayoutId(n)[11 - |digits|..] == padded[4 - |digits|..];
    }
  }

  // ---- The service ----

  ghost predicate Listed(byAcct: map<string, seq<string>>, payouts: map<string, Payout>) {
    forall a, i :: a in byAcct && 0 <= i < |byAcct[a]| ==> byAcct[a][i] in payouts
  }

  class CreatorService {
    const ledger: MemLedger
    var payouts: map<string, Payout>
    var byAcct: map<string, seq<string>>
    var payoutSeq: nat

    ghost function State(): Desk
      reads this, ledger
    {
      Desk(ledger.book, payouts, byAcct, payoutSeq)
    }

    ghost predicate Valid()
      reads this, ledger
    {
      ledger.Valid() && Listed(byAcct, payouts)
    }

    constructor (ledger: MemLedger)
      requires ledger.Valid()
      ensures Valid() && this.ledger == ledger && payouts == map[] && byAcct == map[] && payoutSeq == 0
    {
      this.ledger := ledger;
      payouts, byAcct, payoutSeq := map[], map[], 0;
    }

    /** One line of the gift breakdown. */
    method CountGift(byGift: map<string, GiftTotal>, e: HistoryItem) returns (after: map<string, GiftTotal>)
      requires e.amount > 0
      ensures after == WithGift(byGift, e)
    {
      after := byGift;
      var gift := if "gift_id" in e.metadata && e.metadata["gift_id"].Text? then e.metadata["gift_id"].text else "";
      if e.kind == GIFT_KIND && gift != "" {
        var g := if gift in byGift then byGift[gift] else GiftTotal(0, 0);
        after := byGift[gift := GiftTotal(g.count + 1, g.diamonds + e.amount)];
      }
    }

    method GetEarningsSummary(account: string, now: int) returns (s: Summary)
      requires ledger.Valid() && |AccountHistory(ledger.book.log, UserDiamonds(account))| < TWO_TO_63
      ensures s == EarningsSummary(ledger.book, account, now)
    {
      hide Inv, AccountHistory, WithGift, LogBalance;
      var entries := ledger.WholeHistory(UserDiamonds(account));
      var balance := ledger.Balance(UserDiamonds(account), DIAMOND);
      var cutoff := now - HOLD_PERIOD;
      s := Summary(0, 0, 0, 0, balance, map[], []);
      for i := 0 to |entries|
        invariant s == Tally(entries[..i], balance, cutoff) && s.balance == balance
      {
        assert entries[..i + 1][..i] == entries[..i];
        var e := entries[i];
        if e.amount > 0 {
          s := s.(earned := s.earned + e.amount);
          if e.createdAt < cutoff {
            s := s.(available := s.available + e.amount);
          } else {
            s := s.(locked := s.locked + e.amount);
          }
          var byGift := CountGift(s.byGift, e);
          s := s.(byGift := byGift);
        } else if e.amount < 0 {
          s := s.(paidOut := s.paidOut - e.amount);
        }
      }
      assert entries[..|entries|] == entries;
      if s.available > balance {
        s := s.(available := balance);
      }
      if s.available < 0 {
        s := s.(available := 0);
      }
      s := s.(entries := entries);
    }

    method PendingOrProcessingTotal(account: string) returns (total: int)
      requires Valid()
      ensures total == InFlight(payouts, PayoutsOf(State(), account))
    {
      hide Inv;
      var ids := if account in byAcct then byAcct[account] else [];
      total := 0;
      for i := 0 to |ids|
        invariant total == InFlight(payouts, ids[..i])
      {
        assert ids[..i + 1][..i] == ids[..i];
        assert ids[i] == byAcct[account][i];
        var p := payouts[ids[i]];
        if IsReserved(p.status) {
          total := total + p.amount;
        }
      }
      assert ids[..|ids|] == ids;
    }

    method Request(account: string, amount: int, key: string, gates: Gates, now: int) returns (r: Result)
      requires Valid() && |AccountHistory(ledger.book.log, UserDiamonds(account))| < TWO_TO_63
      modifies this, ledger
      ensures Valid()
      ensures (State(), r) == RequestPayout(old(State()), account, amount, key, gates, now)
    {
      hide Inv, EarningsSummary, AccountHistory, InFlight, Post;
      if !gates.kycVerified {
        return Err(KYCIncomplete);
      }
      if !gates.hasProfile {
        return Err(ProfileRequired);
      }
      if gates.restricted {
        return Err(AccountRestricted);
      }
      var summary := GetEarningsSummary(account, now);
      var inFlight := PendingOrProcessingTotal(account);
      var available := summary.available - inFlight;
      if available < 0 {
        available := 0;
      }
      if available < THRESHOLD {
        return Err(BelowThreshold);
      }
      if amount <= 0 || amount > available {
        return Err(InvalidAmount);
      }
      var posted := ledger.PostTransaction(PAYOUT_KIND, key, AccountMetadata(account), Transfer(account, -amount), now);
      if posted.Rejected? {
        return Err(LedgerRefused(posted.error));
      }
      payoutSeq := payoutSeq + 1;
      var p := Payout("payout-" + Padded(payoutSeq), account, amount, Requested, posted.tx.id, "", "", "", "", "", now,
                      None, None, now);
      payouts := payouts[p.id := p];
      byAcct := byAcct[account := (if account in byAcct then byAcct[account] else []) + [p.id]];
      r := Ok(p);
    }

    method Move(id: string, m: Move, admin: string, now: int) returns (r: Result)
      requires Valid()
      modifies this`payouts
      ensures Valid()
      ensures (State(), r) == Transition(old(State()), id, m, admin, now)
    {
      hide Inv;
      if m.MarkPaid? && m.reference == "" {
        return Err(InvalidTransition);
      }
      if id !in payouts {
        return Err(PayoutNotFound);
      }
      var p := payouts[id];
      if p.status != From(m) {
        return Err(InvalidTransition);
      }
      match m {
        case Approve(note) => p := p.(status := Approved, reviewedBy := admin, note := note);
        case Process => p := p.(status := Processing, reviewedBy := admin);
        case MarkPaid(reference) => p := p.(status := Paid, reviewedBy := admin, reference := reference,
                                            paidAt := Some(now));
      }
      if p.reviewedAt.None? {
        p := p.(reviewedAt := Some(now));
      }
      p := p.(updatedAt := now);
      payouts := payouts[id := p];
      r := Ok(p);
    }

    method GiveBack(id: string, fail: bool, admin: string, reason: string, now: int) returns (r: Result)
      requires Valid()
      modifies this`payouts, ledger
      ensures Valid()
      ensures (State(), r) == RejectOrFail(old(State()), id, fail, admin, reason, now)
    {
      hide Inv, Post;
      if id !in payouts {
        return Err(PayoutNotFound);
      }
      var p := payouts[id];
      var from := if fail then [Processing] else [Requested, Approved];
      if p.status !in from {
        return Err(InvalidTransition);
      }
      var posted := ledger.PostTransaction(PAYOUT_REVERSAL_KIND, "payout-reversal:" + id, AccountMetadata(p.account),
                                           Transfer(p.account, p.amount), now);
      if posted.Rejected? {
        return Err(LedgerRefused(posted.error));
      }
      p := p.(status := if fail then Failed else PayoutStatus.Rejected, reviewedBy := admin,
              note := reason, failureReason := reason, reversalTxId := posted.tx.id, reviewedAt := Some(now),
                  updatedAt := now);
      payouts := payouts[id := p];
      r := Ok(p);
    }
  }
}
