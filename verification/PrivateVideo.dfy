/** Paid private calls: a first-minute hold, settlement of the connected time, and what each session costs. */
module PrivateVideo {
  import opened Decimal
  import opened Ledger
  import opened LedgerRuns
  import opened MemLedgers
  import opened Charges

  const MINUTE: int := 60_000_000_000  // nanoseconds

  datatype SessionState = Requested | Accepted | Declined | Ended

  datatype Session = Session(id: string, caller: string, callee: string, state: SessionState, rate: int, createdAt: int,
                             acceptedAt: Option<int>, endedAt: Option<int>, consumed: int, holdTxId: string)

  datatype CallError = SelfCall | AccountNotActive | AgeNotAssured | CalleeBlocked | CalleeNotReachable
                     | SessionNotFound | NotParticipant | InvalidState | Refused(error: LedgerError)

  datatype Result = Ok(session: Session, isNew: bool) | Err(error: CallError)

  /** The answers of the injected gates. */
  datatype Gates = Gates(active: bool, ageAssured: bool, blocked: bool, permitted: bool)

  /** The session store and the ledger. */
  datatype Calls = Calls(book: Book, sessions: map<string, Session>)

  function ReverseKey(id: string): string {
    "pv-hold-reverse-" + id
  }

  function SettleKey(id: string): string {
    "pv-settle-" + id
  }

  predicate IsCallKey(key: string) {
    "pv-hold-reverse-" <= key || "pv-settle-" <= key
  }

  function GateError(g: Gates): Option<CallError> {
    if !g.active then Some(AccountNotActive)
    else if !g.ageAssured then Some(AgeNotAssured)
    else if g.blocked then Some(CalleeBlocked)
    else if !g.permitted then Some(CalleeNotReachable)
    else None
  }

  function HoldMetadata(id: string, caller: string, callee: string): Metadata {
    map["session_id" := Text(id), "caller_id" := Text(caller), "callee_id" := Text(callee),
        "kind" := Text("first_minute_hold")]
  }

  function SettleMetadata(s: Session, minutes: int): Metadata {
    map["session_id" := Text(s.id), "caller_id" := Text(s.caller), "callee_id" := Text(s.callee),
        "kind" := Text("final_settlement"), "minutes" := Count(minutes)]
  }

  function ChargeCoins(b: Book, payer: string, payee: string, coins: int, key: string, metadata: Metadata,
                       now: int): (Book, PostResult) {
    Post(b, "pv_call", key, metadata, ChargeEntries(payer, payee, coins), now)
  }

  /** The session that an earlier request under this key opened, if it is on record. */
  function Replayed(w: Calls, key: string): Option<Session> {
    if !KeyUsed(w.book, key) then None
    else
      var m := KeyIndex(w.book.log, w.book.forgotten)[key].metadata;
      if "session_id" in m && m["session_id"].Text? && m["session_id"].text in w.sessions
      then Some(w.sessions[m["session_id"].text]) else None
  }

  function Rate(rate: int): int {
    if rate <= 0 then 10 else rate
  }

  function RequestSession(w: Calls, caller: string, callee: string, rate: int, key: string, gates: Gates, id: string,
                          now: int): (Calls, Result) {
    if caller == callee then (w, Err(SelfCall))
    else if Replayed(w, key).Some? then (w, Ok(Replayed(w, key).value, false))
    else if GateError(gates).Some? then (w, Err(GateError(gates).value))
    else
      var (book, r) := ChargeCoins(w.book, caller, callee, Rate(rate), key, HoldMetadata(id, caller, callee), now);
      match r
      case Rejected(error) => (w.(book := book), Err(Refused(error)))
      case Posted(tx, _) =>
        var s := Session(id, caller, callee, Requested, Rate(rate), now, None, None, Rate(rate), tx.id);
        (Calls(book, w.sessions[id := s]), Ok(s, true))
  }

  function AcceptSession(w: Calls, callee: string, id: string, now: int): (Calls, Result) {
    if id !in w.sessions then (w, Err(SessionNotFound))
    else if w.sessions[id].callee != callee then (w, Err(NotParticipant))
    else if w.sessions[id].state != Requested then (w, Err(InvalidState))
    else
      var s := w.sessions[id].(state := Accepted, acceptedAt := Some(now));
      (w.(sessions := w.sessions[id := s]), Ok(s, false))
  }

  /** Best effort: the error of a refused reversal is dropped. */
  function ReverseHold(b: Book, s: Session, reason: string, now: int): Book {
    if s.holdTxId == "" then b else Reverse(b, s.holdTxId, ReverseKey(s.id), reason, now).0
  }

  function DeclineSession(w: Calls, callee: string, id: string, now: int): (Calls, Result) {
    if id !in w.sessions then (w, Err(SessionNotFound))
    else if w.sessions[id].callee != callee then (w, Err(NotParticipant))
    else if w.sessions[id].state != Requested then (w, Err(InvalidState))
    else
      var s := w.sessions[id].(state := Declined, endedAt := Some(now), consumed := 0);
      (Calls(ReverseHold(w.book, s, "pv_call not connected", now), w.sessions[id := s]), Ok(s, false))
  }

  /** Whole minutes billed, by Go's truncating division and remainder. */
  function Minutes(elapsed: int): int {
    var minutes := TruncDiv(elapsed, MINUTE);
    if elapsed - minutes * MINUTE > 0 || minutes == 0 then minutes + 1 else minutes
  }

  /** Reverse the hold, then charge for the connected time; a refused charge leaves nothing consumed. */
  function SettleElapsed(b: Book, s: Session, acceptedAt: int, endedAt: int): (Book, Session) {
    var minutes := Minutes(endedAt - acceptedAt);
    var cost := minutes * s.rate;
    var reversed := ReverseHold(b, s, "pv_call settlement", endedAt);
    var (book, r) := ChargeCoins(reversed, s.caller, s.callee, cost, SettleKey(s.id), SettleMetadata(s, minutes),
                                 endedAt);
    (book, s.(consumed := if r.Posted? then cost else 0))
  }

  function EndSession(w: Calls, account: string, id: string, now: int): (Calls, Result) {
    if id !in w.sessions then (w, Err(SessionNotFound))
    else if w.sessions[id].caller != account && w.sessions[id].callee != account then (w, Err(NotParticipant))
    else if w.sessions[id].state != Requested && w.sessions[id].state != Accepted then (w, Err(InvalidState))
    else
      var before := w.sessions[id];
      var s := before.(state := Ended, endedAt := Some(now));
      if before.state == Accepted && s.acceptedAt.Some? then
        var (book, settled) := SettleElapsed(w.book, s, s.acceptedAt.value, now);
        (Calls(book, w.sessions[id := settled]), Ok(settled, false))
      else
        var refunded := s.(consumed := 0);
        (Calls(ReverseHold(w.book, refunded, "pv_call not connected", now), w.sessions[id := refunded]),
         Ok(refunded, false))
  }

  // ---- What a session costs ----

  /** The transactions of a session: its hold, the reversal of its hold, its settlement. */
  predicate BelongsTo(tx: Tx, s: Session) {
    tx.id == s.holdTxId || tx.key == ReverseKey(s.id) || tx.key == SettleKey(s.id)
  }

  /** The net effect of a session's transactions on an account. */
  function NetEffect(log: seq<Tx>, s: Session, k: BalanceKey): int {
    if log == [] then 0
    else
      var last := log[|log| - 1];
      NetEffect(log[..|log| - 1], s, k) + if BelongsTo(last, s) then EntrySum(last.entries, k) else 0
  }

  function Over(state: SessionState): bool {
    state == Declined || state == Ended
  }

  /** What the session should have cost so far, and the hold if it was never given back. */
  function Owed(b: Book, s: Session, k: BalanceKey): int {
    EntrySum(ChargeEntries(s.caller, s.callee, s.consumed), k)
    + if Over(s.state) && s.holdTxId !in b.reversals then EntrySum(ChargeEntries(s.caller, s.callee, s.rate), k) else 0
  }

  /** The transaction's metadata names this session. */
  predicate Names(tx: Tx, id: string) {
    "session_id" in tx.metadata && tx.metadata["session_id"] == Text(id)
  }

  ghost predicate HeldAt(log: seq<Tx>, s: Session, i: nat) {
    && i < |log| && log[i].id == s.holdTxId && log[i].kind == "pv_call"
    && !IsCallKey(log[i].key) && Names(log[i], s.id)
    && log[i].entries == ChargeEntries(s.caller, s.callee, s.rate)
  }

  /** The session's hold is its own: it was opened on an unused key. */
  ghost predicate Own(log: seq<Tx>, s: Session) {
    exists i: nat :: i < |log| && log[i].id == s.holdTxId && Names(log[i], s.id)
  }

  /** The session took over, as its hold, a transaction posted for something else. */
  ghost predicate AdoptedAt(log: seq<Tx>, s: Session, i: nat) {
    i < |log| && log[i].id == s.holdTxId && !IsCallKey(log[i].key) && !Names(log[i], s.id)
  }

  /** Neither the hold's reversal nor the settlement has been posted. */
  ghost predicate Unbilled(log: seq<Tx>, id: string) {
    forall i :: 0 <= i < |log| ==> log[i].key != ReverseKey(id) && log[i].key != SettleKey(id)
  }

  ghost predicate SessionOK(b: Book, s: Session) {
    && s.rate > 0
    && (exists i: nat :: HeldAt(b.log, s, i))
    && (forall k :: NetEffect(b.log, s, k) == Owed(b, s, k))
    && (!Over(s.state) ==> s.consumed == s.rate && s.holdTxId !in b.reversals && Unbilled(b.log, s.id))
    && (s.state == Accepted ==> s.acceptedAt.Some?)
  }

  /** The session's own reversal of its hold is on the books. */
  ghost predicate GivenBack(log: seq<Tx>, id: string) {
    exists j :: 0 <= j < |log| && log[j].key == ReverseKey(id)
  }

  /** What an adopting session costs: the transaction it took over, until it takes that back, and once it is over
      one charge of its consumed coins. */
  ghost predicate AdoptedNets(log: seq<Tx>, s: Session, hold: Tx) {
    forall k ::
      NetEffect(log, s, k) == (if GivenBack(log, s.id) then 0 else EntrySum(hold.entries, k))
                              + (if !Over(s.state) then 0
                                 else EntrySum(ChargeEntries(s.caller, s.callee, s.consumed), k))
  }

  ghost predicate AdoptedOK(log: seq<Tx>, s: Session) {
    && s.rate > 0
    && (exists i: nat :: AdoptedAt(log, s, i) && AdoptedNets(log, s, log[i]))
    && (!Over(s.state) ==> Unbilled(log, s.id))
  }

  ghost predicate RecordOK(b: Book, s: Session) {
    SessionOK(b, s) || AdoptedOK(b.log, s)
  }

  /** A hold that names a session on record is that session's. */
  ghost predicate HoldsApart(log: seq<Tx>, sessions: map<string, Session>) {
    forall x, y, i :: x in sessions && y in sessions && 0 <= i < |log|
                      && log[i].id == sessions[x].holdTxId && Names(log[i], y)
                      ==> x == y
  }

  /** Every transaction under a service key belongs to a session on record. */
  ghost predicate CallKeysOK(log: seq<Tx>, sessions: map<string, Session>) {
    forall i :: 0 <= i < |log| && IsCallKey(log[i].key)
      ==> exists x :: x in sessions && (log[i].key == ReverseKey(x) || log[i].key == SettleKey(x))
  }

  ghost predicate CallsOK(w: Calls) {
    && Inv(w.book) && w.book.forgotten == 0
    && (forall x :: x in w.sessions ==> w.sessions[x].id == x && RecordOK(w.book, w.sessions[x]))
    && CallKeysOK(w.book.log, w.sessions)
    && HoldsApart(w.book.log, w.sessions)
  }

  /** Own and adopted holds exclude each other. */
  lemma {:induction false} OwnExactly(b: Book, s: Session)
    requires Inv(b) && RecordOK(b, s)
    ensures SessionOK(b, s) ==> Own(b.log, s)
    ensures Own(b.log, s) ==> SessionOK(b, s)
  {
    hide Inv, NetEffect, Owed, Unbilled;
    if SessionOK(b, s) {
      var i: nat :| HeldAt(b.log, s, i);
    } else {
      NotOwn(b, s);
    }
  }

  /** No other session shares an own hold. */
  lemma {:induction false} OwnHoldUnique(w: Calls, x: string, y: string)
    requires CallsOK(w) && x in w.sessions && y in w.sessions && SessionOK(w.book, w.sessions[x])
    requires w.sessions[x].holdTxId == w.sessions[y].holdTxId
    ensures x == y
  {
    hide Inv, RecordOK, NetEffect, Owed, Unbilled;
    var i: nat :| HeldAt(w.book.log, w.sessions[x], i);
    assert Names(w.book.log[i], x);
  }

  lemma {:induction false} CallKeysDistinct(x: string, y: string)
    ensures ReverseKey(x) != SettleKey(y)
    ensures IsCallKey(ReverseKey(x)) && IsCallKey(SettleKey(x))
    ensures ReverseKey(x) == ReverseKey(y) || SettleKey(x) == SettleKey(y) ==> x == y
  {
    assert ReverseKey(x)[3] == 'h' && SettleKey(y)[3] == 's';
    assert ReverseKey(x)[16..] == x && ReverseKey(y)[16..] == y;
    assert SettleKey(x)[10..] == x && SettleKey(y)[10..] == y;
  }

  lemma {:induction false} NetEffectAppend(log: seq<Tx>, tx: Tx, s: Session, k: BalanceKey)
    ensures NetEffect(log + [tx], s, k) == NetEffect(log, s, k)
            + if BelongsTo(tx, s) then EntrySum(tx.entries, k) else 0
  {
    assert (log + [tx])[..|log|] == log;
  }

  lemma {:induction false} NoneBelong(log: seq<Tx>, s: Session, k: BalanceKey)
    requires forall i :: 0 <= i < |log| ==> !BelongsTo(log[i], s)
    ensures NetEffect(log, s, k) == 0
  {
    if log != [] {
      NoneBelong(log[..|log| - 1], s, k);
    }
  }

  lemma {:induction false} SameTransactions(log: seq<Tx>, s: Session, t: Session, k: BalanceKey)
    requires s.id == t.id && s.holdTxId == t.holdTxId
    ensures NetEffect(log, s, k) == NetEffect(log, t, k)
  {
    if log != [] {
      SameTransactions(log[..|log| - 1], s, t, k);
    }
  }

  lemma {:induction false} ZeroCharge(payer: string, payee: string, k: BalanceKey)
    ensures EntrySum(ChargeEntries(payer, payee, 0), k) == 0
  {
    var es := ChargeEntries(payer, payee, 0);
    assert PlatformShare(0) == 0 && Diamonds(0) == 0;
    AllZero(es, k);
  }

  lemma {:induction false} AllZero(es: seq<Entry>, k: BalanceKey)
    requires forall i :: 0 <= i < |es| ==> es[i].amount == 0
    ensures EntrySum(es, k) == 0
  {
    if es != [] {
      AllZero(es[..|es| - 1], k);
    }
  }

  /** Another transaction, and perhaps its reversal record, leaves a session as it was. */
  lemma {:induction false} Unrelated(b: Book, b': Book, tx: Tx, s: Session)
    requires SessionOK(b, s) && !BelongsTo(tx, s)
    requires b'.log == b.log + [tx] && (s.holdTxId in b'.reversals <==> s.holdTxId in b.reversals)
    ensures SessionOK(b', s)
  {
    var i: nat :| HeldAt(b.log, s, i);
    assert HeldAt(b'.log, s, i);
    forall k ensures NetEffect(b'.log, s, k) == Owed(b', s, k) {
      NetEffectAppend(b.log, tx, s, k);
      assert NetEffect(b.log, s, k) == Owed(b, s, k);
    }
  }

  lemma {:induction false} AdoptedUnrelated(b: Book, b': Book, tx: Tx, s: Session)
    requires AdoptedOK(b.log, s) && b'.log == b.log + [tx] && !BelongsTo(tx, s)
    ensures AdoptedOK(b'.log, s)
  {
    hide PlatformShare, Diamonds, NetEffect;
    var i: nat :| AdoptedAt(b.log, s, i) && AdoptedNets(b.log, s, b.log[i]);
    assert AdoptedAt(b'.log, s, i);
    GivenBackAppend(b.log, tx, s.id);
    forall k ensures NetEffect(b'.log, s, k) == NetEffect(b.log, s, k) { NetEffectAppend(b.log, tx, s, k); }
    assert AdoptedNets(b'.log, s, b'.log[i]);
  }

  lemma {:induction false} GivenBackAppend(log: seq<Tx>, tx: Tx, id: string)
    ensures GivenBack(log + [tx], id) <==> GivenBack(log, id) || tx.key == ReverseKey(id)
  {
    assert (log + [tx])[|log|] == tx;
    assert forall j :: 0 <= j < |log| ==> (log + [tx])[j] == log[j];
  }

  /** A transaction that is not the session's own, and no reversal of its hold. */
  lemma {:induction false} RecordUnrelated(b: Book, b': Book, tx: Tx, s: Session)
    requires Inv(b) && RecordOK(b, s) && tx.key != ReverseKey(s.id) && tx.key != SettleKey(s.id)
    requires b'.log == b.log + [tx] && tx.id == TxId(|b.log| + 1)
    requires SessionOK(b, s) ==> (s.holdTxId in b'.reversals <==> s.holdTxId in b.reversals)
    ensures RecordOK(b', s)
    ensures SessionOK(b, s) ==> SessionOK(b', s)
  {
    hide Inv, SessionOK, AdoptedOK;
    HoldIdOld(b, s);
    if SessionOK(b, s) { Unrelated(b, b', tx, s); }
    if AdoptedOK(b.log, s) { AdoptedUnrelated(b, b', tx, s); }
  }

  /** The hold's ID is that of a transaction on the books. */
  lemma {:induction false} HoldIdOld(b: Book, s: Session)
    requires Inv(b) && RecordOK(b, s)
    ensures s.holdTxId != TxId(|b.log| + 1)
  {
    hide KeysUnique, ReversalsOK, NetEffect, Owed, Unbilled;
    var i: nat :| i < |b.log| && b.log[i].id == s.holdTxId;
    if s.holdTxId == TxId(|b.log| + 1) {
      TxIdInjective(i + 1, |b.log| + 1);
      assert false;
    }
  }

  // ---- The hold ----

  lemma {:induction false} KeyFree(b: Book, key: string)
    requires b.forgotten == 0
    ensures KeyUsed(b, key) <==> exists i :: 0 <= i < |b.log| && b.log[i].key == key
  {
    KeyIndexFinds(b.log, 0, key);
  }

  /** A charge on an unused key posts exactly when the payer can cover it. */
  lemma {:induction false} ChargeResult(b: Book, payer: string, payee: string, coins: int, key: string,
                                        metadata: Metadata, now: int)
    requires Inv(b) && coins >= 0 && !KeyUsed(b, key)
    ensures var (b', r) := ChargeCoins(b, payer, payee, coins, key, metadata, now);
            && Inv(b') && b'.forgotten == b.forgotten && b'.reversals == b.reversals
            && (r.Posted? <==> LogBalance(b.log, BalanceKey(UserCoins(payer), COIN)) >= coins)
            && (if r.Posted? then r == Posted(Tx(TxId(|b.log| + 1), "pv_call", key, metadata,
                                                 ChargeEntries(payer, payee, coins), now), true)
                                  && b'.log == b.log + [r.tx]
                else b' == b)
  {
    hide LogOK, KeysUnique, ReversalsOK, PlatformShare, Diamonds;
    ChargeBreach(b.log, payer, payee, coins);
    ChargeBalances(payer, payee, coins);
    PostKeepsInv(b, "pv_call", key, metadata, ChargeEntries(payer, payee, coins), now);
  }

  /** The callee still holds the diamonds of the first minute. */
  predicate Covered(b: Book, s: Session) {
    LogBalance(b.log, BalanceKey(UserDiamonds(s.callee), DIAMOND)) >= Diamonds(s.rate)
  }

  function HoldReversal(b: Book, s: Session, reason: string, now: int): Tx
    requires s.holdTxId in IdIndex(b.log)
  {
    Tx(TxId(|b.log| + 1), REVERSAL_KIND, ReverseKey(s.id), ReversalMetadata(IdIndex(b.log)[s.holdTxId], reason),
       Negated(ChargeEntries(s.caller, s.callee, s.rate)), now)
  }

  /** Reversing a hold for the first time goes through exactly when the callee's diamonds cover it. */
  lemma {:induction false} ReverseHeld(b: Book, s: Session, i: nat, reason: string, now: int)
    requires Inv(b) && b.forgotten == 0 && HeldAt(b.log, s, i) && s.rate > 0
    requires s.holdTxId !in b.reversals && !KeyUsed(b, ReverseKey(s.id))
    ensures var b' := ReverseHold(b, s, reason, now);
            && Inv(b') && b'.forgotten == 0 && s.holdTxId in IdIndex(b.log)
            && b' == if Covered(b, s)
                     then var tx := HoldReversal(b, s, reason, now);
                          Book(b.log + [tx], 0, b.reversals[s.holdTxId := tx.id])
                     else b
  {
    hide LogOK, KeysUnique, ReversalsOK, PlatformShare, Diamonds, KeyIndex, IdIndex;
    InvLog(b);
    IdLookup(b.log, i);
    TxIdNotEmpty(b.log, i);
    RefundBreach(b.log, s.caller, s.callee, s.rate);
    ChargeBalances(s.caller, s.callee, s.rate);
    ReverseKeepsInv(b, s.holdTxId, ReverseKey(s.id), reason, now);
  }

  lemma {:induction false} ReverseHoldResult(b: Book, s: Session, reason: string, now: int)
    requires Inv(b) && b.forgotten == 0 && SessionOK(b, s) && !Over(s.state)
    ensures var b' := ReverseHold(b, s, reason, now);
            && Inv(b') && b'.forgotten == 0 && s.holdTxId in IdIndex(b.log)
            && b' == if Covered(b, s)
                     then var tx := HoldReversal(b, s, reason, now);
                          Book(b.log + [tx], 0, b.reversals[s.holdTxId := tx.id])
                     else b
  {
    hide Inv, NetEffect, Owed, ReverseHold, Covered, KeyIndex, IdIndex;
    var i: nat :| HeldAt(b.log, s, i);
    KeyFree(b, ReverseKey(s.id));
    ReverseHeld(b, s, i, reason, now);
  }

  lemma {:induction false} TxIdNotEmpty(log: seq<Tx>, i: nat)
    requires LogOK(log) && i < |log|
    ensures log[i].id != ""
  {
    assert |TxId(i + 1)| >= 3;
  }

  /** The hold is given back, or stays with the callee: either way the session's account says so. */
  lemma {:induction false} AfterReverse(b: Book, s: Session, t: Session, reason: string, now: int)
    requires Inv(b) && b.forgotten == 0 && SessionOK(b, s) && !Over(s.state)
    requires t == s.(state := t.state, endedAt := t.endedAt, consumed := 0) && Over(t.state)
    ensures SessionOK(ReverseHold(b, s, reason, now), t)
    ensures t.holdTxId in ReverseHold(b, s, reason, now).reversals <==> Covered(b, s)
  {
    hide PlatformShare, Diamonds, Inv, ReverseHold, Covered;
    ReverseHoldResult(b, s, reason, now);
    var b' := ReverseHold(b, s, reason, now);
    var i: nat :| HeldAt(b.log, s, i);
    assert HeldAt(b'.log, t, i);
    var es := ChargeEntries(s.caller, s.callee, s.rate);
    forall k ensures NetEffect(b'.log, t, k) == Owed(b', t, k) {
      SameTransactions(b'.log, s, t, k);
      ZeroCharge(s.caller, s.callee, k);
      assert NetEffect(b.log, s, k) == Owed(b, s, k) == EntrySum(es, k);
      if Covered(b, s) {
        NetEffectAppend(b.log, HoldReversal(b, s, reason, now), s, k);
        NegatedSum(es, k);
      }
    }
  }

  /** Charging for the connected time of a closed session whose hold has been dealt with. */
  lemma {:induction false} AfterCharge(b: Book, t: Session, cost: int, metadata: Metadata, now: int)
    requires Inv(b) && b.forgotten == 0 && SessionOK(b, t) && Over(t.state) && t.consumed == 0 && cost >= 0
    requires !KeyUsed(b, SettleKey(t.id))
    ensures var (b', r) := ChargeCoins(b, t.caller, t.callee, cost, SettleKey(t.id), metadata, now);
            SessionOK(b', t.(consumed := if r.Posted? then cost else 0))
  {
    hide PlatformShare, Diamonds, Inv, ChargeCoins;
    ChargeResult(b, t.caller, t.callee, cost, SettleKey(t.id), metadata, now);
    var (b', r) := ChargeCoins(b, t.caller, t.callee, cost, SettleKey(t.id), metadata, now);
    var u := t.(consumed := if r.Posted? then cost else 0);
    var i: nat :| HeldAt(b.log, t, i);
    assert HeldAt(b'.log, u, i);
    forall k ensures NetEffect(b'.log, u, k) == Owed(b', u, k) {
      SameTransactions(b'.log, t, u, k);
      ZeroCharge(t.caller, t.callee, k);
      assert NetEffect(b.log, t, k) == Owed(b, t, k);
      if r.Posted? {
        NetEffectAppend(b.log, r.tx, t, k);
      }
    }
  }

  // ---- Every operation keeps every session's account ----

  lemma {:induction false} HoldsApartAppend(log: seq<Tx>, tx: Tx, sessions: map<string, Session>)
    requires HoldsApart(log, sessions) && forall x :: x in sessions ==> sessions[x].holdTxId != tx.id
    ensures HoldsApart(log + [tx], sessions)
  {
    forall x, y, i | x in sessions && y in sessions && 0 <= i < |log + [tx]|
                     && (log + [tx])[i].id == sessions[x].holdTxId && Names((log + [tx])[i], y)
      ensures x == y
    {
      assert i < |log|;
    }
  }

  lemma {:induction false} CallKeysAppend(log: seq<Tx>, tx: Tx, sessions: map<string, Session>, sessions': map<string,
                                          Session>)
    requires CallKeysOK(log, sessions) && sessions.Keys <= sessions'.Keys
    requires IsCallKey(tx.key) ==> exists x :: x in sessions' && (tx.key == ReverseKey(x) || tx.key == SettleKey(x))
    ensures CallKeysOK(log + [tx], sessions')
  {
    var log' := log + [tx];
    forall i | 0 <= i < |log'| && IsCallKey(log'[i].key)
      ensures exists x :: x in sessions' && (log'[i].key == ReverseKey(x) || log'[i].key == SettleKey(x))
    {
      if i < |log| {
        var x :| x in sessions && (log[i].key == ReverseKey(x) || log[i].key == SettleKey(x));
        assert x in sessions';
      }
    }
  }

  /** A session's own new transaction leaves the other sessions as they were. */
  lemma {:induction false} OthersKept(w: Calls, b': Book, id: string, tx: Tx)
    requires CallsOK(w) && id in w.sessions
    requires b'.log == w.book.log + [tx] && (tx.key == ReverseKey(id) || tx.key == SettleKey(id))
             && tx.id == TxId(|w.book.log| + 1)
    requires forall o :: o != w.sessions[id].holdTxId ==> (o in b'.reversals <==> o in w.book.reversals)
    ensures forall x :: x in w.sessions && x != id ==> RecordOK(b', w.sessions[x])
    ensures CallKeysOK(b'.log, w.sessions) && HoldsApart(b'.log, w.sessions)
  {
    hide Inv, SessionOK, RecordOK, HoldsApart, CallKeysOK;
    forall x | x in w.sessions
      ensures x != id ==> RecordOK(b', w.sessions[x])
      ensures w.sessions[x].holdTxId != tx.id
    {
      CallKeysDistinct(x, id);
      CallKeysDistinct(id, x);
      HoldIdOld(w.book, w.sessions[x]);
      if x != id {
        if SessionOK(w.book, w.sessions[x]) && w.sessions[x].holdTxId == w.sessions[id].holdTxId {
          OwnHoldUnique(w, x, id);
        }
        RecordUnrelated(w.book, b', tx, w.sessions[x]);
      }
    }
    CallKeysAppend(w.book.log, tx, w.sessions, w.sessions);
    HoldsApartAppend(w.book.log, tx, w.sessions);
  }

  /** Put back a session record whose own account is in order. */
  lemma {:induction false} Replace(w: Calls, b': Book, s: Session)
    requires CallsOK(w) && s.id in w.sessions && s.holdTxId == w.sessions[s.id].holdTxId
    requires Inv(b') && b'.forgotten == 0 && CallKeysOK(b'.log, w.sessions) && HoldsApart(b'.log, w.sessions)
             && RecordOK(b', s)
    requires forall x :: x in w.sessions && x != s.id ==> RecordOK(b', w.sessions[x])
    ensures CallsOK(Calls(b', w.sessions[s.id := s]))
  {
    hide Inv, RecordOK;
    var sessions' := w.sessions[s.id := s];
    assert sessions'.Keys == w.sessions.Keys;
    assert forall x :: x in w.sessions ==> sessions'[x].holdTxId == w.sessions[x].holdTxId;
  }

  lemma {:induction false} CloseUnconnected(w: Calls, id: string, t: Session, reason: string, now: int)
    requires CallsOK(w) && id in w.sessions && !Over(w.sessions[id].state) && SessionOK(w.book, w.sessions[id])
    requires t == w.sessions[id].(state := t.state, endedAt := t.endedAt, consumed := 0) && Over(t.state)
    ensures CallsOK(Calls(ReverseHold(w.book, t, reason, now), w.sessions[id := t]))
    ensures SessionOK(ReverseHold(w.book, t, reason, now), t)
    ensures t.holdTxId in ReverseHold(w.book, t, reason, now).reversals <==> Covered(w.book, w.sessions[id])
  {
    hide Inv, SessionOK, AdoptedOK, Covered, ReverseHold, CallKeysOK, HoldsApart, PlatformShare, Diamonds;
    var s := w.sessions[id];
    SameReverse(w.book, s, t, reason, now);
    ReverseHoldResult(w.book, s, reason, now);
    AfterReverse(w.book, s, t, reason, now);
    var b' := ReverseHold(w.book, s, reason, now);
    if b' != w.book {
      OthersKept(w, b', id, HoldReversal(w.book, s, reason, now));
    }
    Replace(w, b', t);
  }

  lemma {:induction false} SameReverse(b: Book, s: Session, t: Session, reason: string, now: int)
    requires s.id == t.id && s.holdTxId == t.holdTxId
    ensures ReverseHold(b, s, reason, now) == ReverseHold(b, t, reason, now)
  {
  }

  lemma {:induction false} SettleKeyFree(b: Book, s: Session, reason: string, now: int)
    requires Inv(b) && b.forgotten == 0 && SessionOK(b, s) && !Over(s.state)
    ensures !KeyUsed(ReverseHold(b, s, reason, now), SettleKey(s.id))
  {
    hide Inv, ReverseHold, Covered, PlatformShare, Diamonds;
    ReverseHoldResult(b, s, reason, now);
    CallKeysDistinct(s.id, s.id);
    KeyFree(ReverseHold(b, s, reason, now), SettleKey(s.id));
  }

  /** Settling a connected call. */
  lemma {:induction false} CloseConnected(w: Calls, id: string, endedAt: int)
    requires CallsOK(w) && id in w.sessions && w.sessions[id].state == Accepted && w.sessions[id].acceptedAt.Some?
    requires SessionOK(w.book, w.sessions[id]) && w.sessions[id].acceptedAt.value <= endedAt
    ensures var s := w.sessions[id].(state := Ended, endedAt := Some(endedAt));
            var (b', settled) := SettleElapsed(w.book, s, s.acceptedAt.value, endedAt);
            && CallsOK(Calls(b', w.sessions[id := settled])) && SessionOK(b', settled)
            && settled.id == id && settled.holdTxId == s.holdTxId
            && (settled.holdTxId in b'.reversals <==> Covered(w.book, w.sessions[id]))
  {
    hide Inv, SessionOK, AdoptedOK, Covered, ReverseHold, ChargeCoins, CallKeysOK, HoldsApart, PlatformShare, Diamonds,
        Minutes;
    var s := w.sessions[id];
    var t := s.(state := Ended, endedAt := Some(endedAt), consumed := 0);
    var minutes := Minutes(endedAt - s.acceptedAt.value);
    MinutesAreCeiling(endedAt - s.acceptedAt.value);
    RatePositive(w.book, s);
    CostPositive(minutes, s.rate);
    SameReverse(w.book, s, t.(consumed := s.consumed), "pv_call settlement", endedAt);
    CloseUnconnected(w, id, t, "pv_call settlement", endedAt);
    SameReverse(w.book, s, t, "pv_call settlement", endedAt);
    var mid := Calls(ReverseHold(w.book, s, "pv_call settlement", endedAt), w.sessions[id := t]);
    SettleKeyFree(w.book, s, "pv_call settlement", endedAt);
    CoverInv(mid, id);
    AfterCharge(mid.book, t, minutes * s.rate, SettleMetadata(s, minutes), endedAt);
    ChargeResult(mid.book, s.caller, s.callee, minutes * s.rate, SettleKey(id), SettleMetadata(s, minutes), endedAt);
    var (b', r) := ChargeCoins(mid.book, s.caller, s.callee, minutes * s.rate, SettleKey(id),
                               SettleMetadata(s, minutes), endedAt);
    if r.Posted? {
      OthersKept(mid, b', id, r.tx);
    }
    var settled := t.(consumed := if r.Posted? then minutes * s.rate else 0);
    Replace(mid, b', settled);
    assert mid.sessions[id := settled] == w.sessions[id := settled];
    assert SettleElapsed(w.book, t.(consumed := s.consumed), s.acceptedAt.value, endedAt) == (b', settled);
  }

  lemma {:induction false} CoverInv(w: Calls, x: string)
    requires CallsOK(w) && x in w.sessions
    ensures Inv(w.book) && w.book.forgotten == 0 && RecordOK(w.book, w.sessions[x]) && w.sessions[x].id == x
  {
  }

  lemma {:induction false} CallsInv(w: Calls)
    requires CallsOK(w)
    ensures Inv(w.book) && w.book.forgotten == 0
  {
  }

  lemma {:induction false} CostPositive(minutes: int, rate: int)
    requires minutes >= 1 && rate > 0
    ensures minutes * rate >= rate
  {
  }

  lemma {:induction false} RatePositive(b: Book, s: Session)
    requires SessionOK(b, s)
    ensures s.rate > 0
    ensures s.state == Accepted ==> s.acceptedAt.Some?
  {
  }

  /** A call is billed for the started minutes of its duration, and for at least one. */
  lemma {:induction false} MinutesAreCeiling(elapsed: int)
    requires elapsed >= 0
    ensures Minutes(elapsed) >= 1 && elapsed <= Minutes(elapsed) * MINUTE
    ensures elapsed > 0 ==> (Minutes(elapsed) - 1) * MINUTE < elapsed
    ensures elapsed == 0 ==> Minutes(elapsed) == 1
  {
  }

  lemma {:induction false} NewSessionOK(b: Book, s: Session, tx: Tx)
    requires Inv(b) && Inv(b.(log := b.log + [tx]))
    requires s.rate > 0 && s.state == Requested && s.consumed == s.rate && s.holdTxId == tx.id == TxId(|b.log| + 1)
    requires tx.kind == "pv_call" && !IsCallKey(tx.key) && tx.entries == ChargeEntries(s.caller, s.callee, s.rate)
    requires Unbilled(b.log, s.id) && Names(tx, s.id)
    ensures SessionOK(b.(log := b.log + [tx]), s) && RecordOK(b.(log := b.log + [tx]), s)
  {
    hide PlatformShare, Diamonds, KeysUnique, ReversalsOK, AdoptedOK, Names, EntrySum, NetEffect;
    var log' := b.log + [tx];
    forall j: nat | j < |log'| && log'[j].id == tx.id ensures j == |b.log| { IdsDistinct(log', |b.log|, j); }
    CallKeysDistinct(s.id, s.id);
    UnusedId(b, tx.id);
    assert HeldAt(log', s, |b.log|);
    forall k ensures NetEffect(log', s, k) == EntrySum(tx.entries, k) {
      OnlyHold(log', s, |b.log|, k);
    }
  }

  /** A session with nothing but its hold on the books nets to that one transaction. */
  lemma {:induction false} OnlyHold(log: seq<Tx>, s: Session, i: nat, k: BalanceKey)
    requires i < |log| && log[i].id == s.holdTxId && Unbilled(log, s.id)
    requires forall j: nat :: j < |log| && log[j].id == log[i].id ==> j == i
    ensures NetEffect(log, s, k) == EntrySum(log[i].entries, k)
  {
    var last := |log| - 1;
    assert log == log[..last] + [log[last]];
    if i == last {
      NoneBelong(log[..last], s, k);
    } else {
      OnlyHold(log[..last], s, i, k);
    }
  }

  /** A fresh session ID: on no record, and named by no transaction. */
  ghost predicate Fresh(w: Calls, id: string) {
    id !in w.sessions && forall i :: 0 <= i < |w.book.log| ==> !Names(w.book.log[i], id)
  }

  lemma {:induction false} RequestKeeps(w: Calls, caller: string, callee: string, rate: int, key: string, gates: Gates,
                                        id: string, now: int)
    requires CallsOK(w) && !IsCallKey(key) && Fresh(w, id)
    ensures CallsOK(RequestSession(w, caller, callee, rate, key, gates, id, now).0)
  {
    hide Inv, RecordOK, PlatformShare, Diamonds, ChargeCoins, CallKeysOK, HoldsApart, Replayed, KeyIndex;
    var (w', r) := RequestSession(w, caller, callee, rate, key, gates, id, now);
    if r.Ok? && r.isNew {
      if KeyUsed(w.book, key) {
        AdoptingKeeps(w, caller, callee, rate, key, gates, id, now);
      } else {
        ChargedKeeps(w, caller, callee, rate, key, gates, id, now);
      }
    } else if GateError(gates).None? && caller != callee && Replayed(w, key).None? {
      RefusedKeeps(w, caller, callee, rate, key, id, now);
    }
  }

  lemma {:induction false} RefusedKeeps(w: Calls, caller: string, callee: string, rate: int, key: string, id: string,
                                        now: int)
    requires ChargeCoins(w.book, caller, callee, Rate(rate), key, HoldMetadata(id, caller, callee), now).1.Rejected?
    ensures ChargeCoins(w.book, caller, callee, Rate(rate), key, HoldMetadata(id, caller, callee), now).0 == w.book
  {
    hide KeyIndex, Balanced, FirstBreach, PlatformShare, Diamonds;
  }

  /** A request on an unused key records a session with its own hold. */
  lemma {:induction false} ChargedKeeps(w: Calls, caller: string, callee: string, rate: int, key: string, gates: Gates,
                                        id: string, now: int)
    requires CallsOK(w) && !IsCallKey(key) && Fresh(w, id) && !KeyUsed(w.book, key)
    requires RequestSession(w, caller, callee, rate, key, gates, id, now).1.Ok?
    ensures var (w', r) := RequestSession(w, caller, callee, rate, key, gates, id, now);
            && CallsOK(w') && id in w'.sessions && w'.sessions[id] == r.session && SessionOK(w'.book, r.session)
            && r.session.state == Requested
            && exists tx :: w'.book.log == w.book.log + [tx] && tx.id == r.session.holdTxId
                            && tx.entries == ChargeEntries(caller, callee, r.session.consumed)
  {
    hide Inv, SessionOK, RecordOK, PlatformShare, Diamonds, ChargeCoins, CallKeysOK, HoldsApart, KeyIndex;
    var (w', r) := RequestSession(w, caller, callee, rate, key, gates, id, now);
    ChargeResult(w.book, caller, callee, Rate(rate), key, HoldMetadata(id, caller, callee), now);
    var (book, posted) := ChargeCoins(w.book, caller, callee, Rate(rate), key, HoldMetadata(id, caller, callee), now);
    UnbilledIfUnknown(w, id);
    NewSessionOK(w.book, r.session, posted.tx);
    CallKeysAppend(w.book.log, posted.tx, w.sessions, w'.sessions);
    OthersUnrelated(w, book, posted.tx);
    NewHoldApart(w, w', id, posted.tx);
    RecordsJoin(w, w', id);
  }

  lemma {:induction false} NewHoldApart(w: Calls, w': Calls, id: string, tx: Tx)
    requires CallsOK(w) && Fresh(w, id) && tx.id == TxId(|w.book.log| + 1)
    requires forall y :: Names(tx, y) ==> y == id
    requires id in w'.sessions && w'.sessions == w.sessions[id := w'.sessions[id]] && w'.sessions[id].holdTxId == tx.id
    requires w'.book.log == w.book.log + [tx]
    ensures HoldsApart(w'.book.log, w'.sessions)
  {
    hide Inv, RecordOK, CallKeysOK, Names;
    var log' := w'.book.log;
    forall x, y, i | x in w'.sessions && y in w'.sessions && 0 <= i < |log'| && log'[i].id == w'.sessions[x].holdTxId
        && Names(log'[i], y)
      ensures x == y
    {
      if i < |w.book.log| {
        assert log'[i] == w.book.log[i];
        OldId(w.book, i);
        assert x in w.sessions && y in w.sessions;
      } else if x != id {
        HoldIdOld(w.book, w.sessions[x]);
        assert false;
      }
    }
  }

  lemma {:induction false} OldId(b: Book, i: nat)
    requires Inv(b) && i < |b.log|
    ensures b.log[i].id != TxId(|b.log| + 1)
  {
    if b.log[i].id == TxId(|b.log| + 1) {
      TxIdInjective(i + 1, |b.log| + 1);
      assert false;
    }
  }

  lemma {:induction false} RecordsJoin(w: Calls, w': Calls, id: string)
    requires id in w'.sessions && w'.sessions == w.sessions[id := w'.sessions[id]] && w'.sessions[id].id == id
    requires Inv(w'.book) && w'.book.forgotten == 0 && RecordOK(w'.book, w'.sessions[id])
    requires forall x :: x in w.sessions ==> w.sessions[x].id == x && RecordOK(w'.book, w.sessions[x])
    requires CallKeysOK(w'.book.log, w'.sessions) && HoldsApart(w'.book.log, w'.sessions)
    ensures CallsOK(w')
  {
    hide Inv, RecordOK, CallKeysOK, HoldsApart;
  }

  /** A request on a key used for something else records a session that takes that transaction for its hold. */
  lemma {:induction false} AdoptingKeeps(w: Calls, caller: string, callee: string, rate: int, key: string, gates: Gates,
                                         id: string, now: int)
    requires CallsOK(w) && !IsCallKey(key) && Fresh(w, id) && KeyUsed(w.book, key)
    requires RequestSession(w, caller, callee, rate, key, gates, id, now).1.Ok?
             && RequestSession(w, caller, callee, rate, key, gates, id, now).1.isNew
    ensures var (w', r) := RequestSession(w, caller, callee, rate, key, gates, id, now);
            && CallsOK(w') && w'.book == w.book && id in w'.sessions && w'.sessions[id] == r.session
            && r.session.id == id
            && AdoptedOK(w'.book.log, r.session) && r.session.holdTxId == KeyIndex(w.book.log, 0)[key].id
  {
    hide Inv, SessionOK, AdoptedOK, PlatformShare, Diamonds, CallKeysOK, HoldsApart, Balanced, FirstBreach, KeyIndex;
    var (w', r) := RequestSession(w, caller, callee, rate, key, gates, id, now);
    var log := w.book.log;
    KeyIndexFinds(log, 0, key);
    var i: nat :| i < |log| && log[i].key == key && KeyIndex(log, 0)[key] == log[i];
    assert w' == Calls(w.book, w.sessions[id := r.session]) && r.session.holdTxId == log[i].id;
    UnbilledIfUnknown(w, id);
    NewAdopted(w.book, r.session, i);
    MoreKeys(log, w.sessions, w'.sessions);
    AdoptedApart(w, w', id, i);
    RecordsJoin(w, w', id);
  }

  lemma {:induction false} NewAdopted(b: Book, s: Session, i: nat)
    requires Inv(b) && AdoptedAt(b.log, s, i) && Unbilled(b.log, s.id) && s.rate > 0 && s.state == Requested
    ensures AdoptedOK(b.log, s) && RecordOK(b, s)
  {
    hide Inv, PlatformShare, Diamonds, NetEffect, SessionOK;
    forall j: nat | j < |b.log| && b.log[j].id == b.log[i].id ensures j == i { InvIdsDistinct(b, i, j); }
    forall k ensures NetEffect(b.log, s, k) == EntrySum(b.log[i].entries, k) { OnlyHold(b.log, s, i, k); }
    assert AdoptedNets(b.log, s, b.log[i]);
  }

  lemma {:induction false} MoreKeys(log: seq<Tx>, sessions: map<string, Session>, sessions': map<string, Session>)
    requires CallKeysOK(log, sessions) && sessions.Keys <= sessions'.Keys
    ensures CallKeysOK(log, sessions')
  {
    forall i | 0 <= i < |log| && IsCallKey(log[i].key)
      ensures exists x :: x in sessions' && (log[i].key == ReverseKey(x) || log[i].key == SettleKey(x))
    {
      var x :| x in sessions && (log[i].key == ReverseKey(x) || log[i].key == SettleKey(x));
      assert x in sessions';
    }
  }

  lemma {:induction false} AdoptedApart(w: Calls, w': Calls, id: string, i: nat)
    requires CallsOK(w) && Fresh(w, id) && i < |w.book.log| && w'.book == w.book
    requires id in w'.sessions && w'.sessions == w.sessions[id := w'.sessions[id]]
             && w'.sessions[id].holdTxId == w.book.log[i].id
    requires forall y :: y in w.sessions ==> !Names(w.book.log[i], y)
    ensures HoldsApart(w'.book.log, w'.sessions)
  {
    hide RecordOK, CallKeysOK, Names, KeysUnique, ReversalsOK;
    var log := w.book.log;
    forall x, y, j | x in w'.sessions && y in w'.sessions && 0 <= j < |log| && log[j].id == w'.sessions[x].holdTxId
        && Names(log[j], y)
      ensures x == y
    {
      if x == id { IdsDistinct(log, i, j); }
    }
  }

  lemma {:induction false} UnbilledIfUnknown(w: Calls, id: string)
    requires CallsOK(w) && id !in w.sessions
    ensures Unbilled(w.book.log, id)
  {
    hide Inv, SessionOK;
    forall i | 0 <= i < |w.book.log|
      ensures w.book.log[i].key != ReverseKey(id) && w.book.log[i].key != SettleKey(id)
    {
      CallKeysDistinct(id, id);
      if IsCallKey(w.book.log[i].key) {
        var x :| x in w.sessions && (w.book.log[i].key == ReverseKey(x) || w.book.log[i].key == SettleKey(x));
        CallKeysDistinct(x, id);
        CallKeysDistinct(id, x);
      }
    }
  }

  /** A transaction under no service key leaves every session as it was. */
  lemma {:induction false} OthersUnrelated(w: Calls, b': Book, tx: Tx)
    requires CallsOK(w) && b'.log == w.book.log + [tx] && !IsCallKey(tx.key) && tx.id == TxId(|w.book.log| + 1)
    requires forall x :: x in w.sessions && SessionOK(w.book, w.sessions[x])
               ==> (w.sessions[x].holdTxId in b'.reversals <==> w.sessions[x].holdTxId in w.book.reversals)
    ensures forall x :: x in w.sessions ==> RecordOK(b', w.sessions[x])
    ensures HoldsApart(b'.log, w.sessions)
  {
    hide Inv, SessionOK, RecordOK, CallKeysOK, HoldsApart;
    forall x | x in w.sessions
      ensures RecordOK(b', w.sessions[x]) && w.sessions[x].holdTxId != tx.id
    {
      CallKeysDistinct(x, x);
      HoldIdOld(w.book, w.sessions[x]);
      RecordUnrelated(w.book, b', tx, w.sessions[x]);
    }
    HoldsApartAppend(w.book.log, tx, w.sessions);
  }

  /** A replay of a request key that opened a session returns that session as it now stands and changes nothing. */
  lemma {:induction false} ReplayReturnsSession(w: Calls, i: nat, id: string, firstCaller: string, firstCallee: string,
                                                caller: string, callee: string, rate: int, gates: Gates, newId: string,
                                                now: int)
    requires CallsOK(w) && i < |w.book.log| && w.book.log[i].metadata == HoldMetadata(id, firstCaller, firstCallee)
    requires id in w.sessions && caller != callee
    ensures RequestSession(w, caller, callee, rate, w.book.log[i].key, gates, newId, now)
            == (w, Ok(w.sessions[id], false))
  {
    hide Inv, SessionOK, CallKeysOK, KeyIndex;
    KeyLookup(w.book, i);
  }

  // ---- Runs ----

  datatype CallOp =
    | Request(caller: string, callee: string, rate: int, key: string, gates: Gates, id: string, now: int)
    | Accept(account: string, id: string, now: int)
    | Decline(account: string, id: string, now: int)
    | End(account: string, id: string, now: int)
    | Other(op: Op)

  function Step(w: Calls, op: CallOp): Calls {
    match op
    case Request(caller, callee, rate, key, gates, id, now) =>
      RequestSession(w, caller, callee, rate, key, gates, id, now).0
    case Accept(account, id, now) => AcceptSession(w, account, id, now).0
    case Decline(account, id, now) => DeclineSession(w, account, id, now).0
    case End(account, id, now) => EndSession(w, account, id, now).0
    case Other(op) => w.(book := Apply(w.book, op))
  }

  /** Service keys are the service's own; session IDs are fresh; the clock does not run backwards over a call;
      nobody else reverses the transactions of a session that holds its own. A request may use any key. */
  ghost predicate Legal(w: Calls, op: CallOp) {
    match op
    case Request(_, _, _, key, _, id, _) => !IsCallKey(key) && Fresh(w, id)
    case End(_, id, now) =>
      id in w.sessions && w.sessions[id].acceptedAt.Some? ==> w.sessions[id].acceptedAt.value <= now
    case Other(other) =>
      && !other.RestartOp? && !IsCallKey(other.key)
      && (other.ReverseOp? ==>
            forall x, i :: x in w.sessions && Own(w.book.log, w.sessions[x]) && 0 <= i < |w.book.log|
                && w.book.log[i].id == other.originalId
              ==> !BelongsTo(w.book.log[i], w.sessions[x]))
    case _ => true
  }

  lemma {:induction false} OtherKeeps(w: Calls, op: Op)
    requires CallsOK(w) && Legal(w, Other(op))
    ensures CallsOK(w.(book := Apply(w.book, op)))
  {
    hide Inv, SessionOK, RecordOK, Apply, CallKeysOK, HoldsApart;
    ApplyAddsOne(w.book, op);
    var b' := Apply(w.book, op);
    if b' != w.book {
      forall x | x in w.sessions && SessionOK(w.book, w.sessions[x])
        ensures w.sessions[x].holdTxId in b'.reversals <==> w.sessions[x].holdTxId in w.book.reversals
      {
        if op.ReverseOp? { NotReversedElsewhere(w, op, x); }
      }
      OthersUnrelated(w, b', b'.log[|w.book.log|]);
      CallKeysAppend(w.book.log, b'.log[|w.book.log|], w.sessions, w.sessions);
    }
  }

  lemma {:induction false} NotReversedElsewhere(w: Calls, op: Op, x: string)
    requires CallsOK(w) && Legal(w, Other(op)) && x in w.sessions && SessionOK(w.book, w.sessions[x]) && op.ReverseOp?
    ensures op.originalId != w.sessions[x].holdTxId
  {
    hide Inv, CallKeysOK, HoldsApart, RecordOK, NetEffect, Owed, Unbilled;
    var s := w.sessions[x];
    var i: nat :| HeldAt(w.book.log, s, i);
    assert Own(w.book.log, s);
    assert BelongsTo(w.book.log[i], w.sessions[x]);
  }

  lemma {:induction false} AcceptKeeps(w: Calls, account: string, id: string, now: int)
    requires CallsOK(w)
    ensures CallsOK(AcceptSession(w, account, id, now).0)
  {
    hide Inv, SessionOK;
    var (w', r) := AcceptSession(w, account, id, now);
    if r.Ok? {
      if SessionOK(w.book, w.sessions[id]) {
        AcceptKeepsSession(w.book, w.sessions[id], r.session);
      } else {
        AcceptKeepsAdopted(w.book.log, w.sessions[id], r.session);
      }
      Replace(w, w.book, r.session);
    }
  }

  lemma {:induction false} AcceptKeepsSession(b: Book, s: Session, t: Session)
    requires SessionOK(b, s) && s.state == Requested && t == s.(state := Accepted, acceptedAt := t.acceptedAt)
             && t.acceptedAt.Some?
    ensures SessionOK(b, t)
  {
    hide PlatformShare, Diamonds;
    var i: nat :| HeldAt(b.log, s, i);
    assert HeldAt(b.log, t, i);
    forall k ensures NetEffect(b.log, t, k) == Owed(b, t, k) {
      SameTransactions(b.log, s, t, k);
      assert NetEffect(b.log, s, k) == Owed(b, s, k);
    }
  }

  lemma {:induction false} AcceptKeepsAdopted(log: seq<Tx>, s: Session, t: Session)
    requires AdoptedOK(log, s) && s.state == Requested && t == s.(state := Accepted, acceptedAt := t.acceptedAt)
    ensures AdoptedOK(log, t)
  {
    hide PlatformShare, Diamonds, NetEffect;
    var i: nat :| AdoptedAt(log, s, i) && AdoptedNets(log, s, log[i]);
    assert AdoptedAt(log, t, i);
    forall k ensures NetEffect(log, t, k) == NetEffect(log, s, k) { SameTransactions(log, s, t, k); }
    assert AdoptedNets(log, t, log[i]);
  }

  /** An adopting session that was open has taken its hold back, or could not. */
  lemma {:induction false} AfterTakeBack(b: Book, s: Session, t: Session, reason: string, now: int)
    requires Inv(b) && b.forgotten == 0 && AdoptedOK(b.log, s) && !Over(s.state)
    requires t == s.(state := t.state, endedAt := t.endedAt, consumed := 0) && Over(t.state)
    ensures s.holdTxId in IdIndex(b.log)
    ensures AdoptedOK(ReverseHold(b, t, reason, now).log, t)
    ensures GivenBack(ReverseHold(b, t, reason, now).log, t.id) <==> Reversible(b, s)
  {
    hide Inv, PlatformShare, Diamonds, NetEffect, ReverseHold, Reversible, IdIndex, BelongsTo;
    var i: nat :| AdoptedAt(b.log, s, i) && AdoptedNets(b.log, s, b.log[i]);
    TakenBack(b, s, t, reason, now);
    InvLog(b);
    IdLookup(b.log, i);
    var b' := ReverseHold(b, t, reason, now);
    if Reversible(b, s) {
      assert b'.log[|b.log|].key == ReverseKey(t.id);
    }
    assert AdoptedAt(b'.log, t, i);
    forall k ensures EntrySum(ChargeEntries(t.caller, t.callee, 0), k) == 0 { ZeroCharge(t.caller, t.callee, k); }
    assert AdoptedNets(b'.log, t, b'.log[i]);
  }

  /** Closing an adopting session touches no other session's account. */
  lemma {:induction false} CloseAdopted(w: Calls, id: string, t: Session, reason: string, now: int)
    requires CallsOK(w) && id in w.sessions && AdoptedOK(w.book.log, w.sessions[id]) && !Over(w.sessions[id].state)
    requires t == w.sessions[id].(state := t.state, endedAt := t.endedAt, consumed := 0) && Over(t.state)
    ensures CallsOK(Calls(ReverseHold(w.book, t, reason, now), w.sessions[id := t]))
    ensures AdoptedOK(ReverseHold(w.book, t, reason, now).log, t)
    ensures w.sessions[id].holdTxId in IdIndex(w.book.log)
    ensures GivenBack(ReverseHold(w.book, t, reason, now).log, id) <==> Reversible(w.book, w.sessions[id])
  {
    hide Inv, SessionOK, CallKeysOK, HoldsApart, AdoptedOK, Reverse, GivenBack, Reversible, IdIndex;
    CoverInv(w, id);
    AfterTakeBack(w.book, w.sessions[id], t, reason, now);
    ApplyAddsOne(w.book, ReverseOp(t.holdTxId, ReverseKey(id), reason, now));
    var b' := ReverseHold(w.book, t, reason, now);
    if b' != w.book {
      OthersKept(w, b', id, b'.log[|w.book.log|]);
    }
    Replace(w, b', t);
  }

  /** Charging an adopting session for its connected time. */
  lemma {:induction false} AfterAdoptedCharge(b: Book, t: Session, cost: int, metadata: Metadata, now: int)
    requires Inv(b) && b.forgotten == 0 && AdoptedOK(b.log, t) && Over(t.state) && t.consumed == 0 && cost >= 0
    requires !KeyUsed(b, SettleKey(t.id))
    ensures var (b', r) := ChargeCoins(b, t.caller, t.callee, cost, SettleKey(t.id), metadata, now);
            && AdoptedOK(b'.log, t.(consumed := if r.Posted? then cost else 0))
            && (GivenBack(b'.log, t.id) <==> GivenBack(b.log, t.id))
  {
    hide Inv, PlatformShare, Diamonds, NetEffect, ChargeCoins, LogBalance, KeyIndex;
    ChargeResult(b, t.caller, t.callee, cost, SettleKey(t.id), metadata, now);
    var (b', r) := ChargeCoins(b, t.caller, t.callee, cost, SettleKey(t.id), metadata, now);
    var u := t.(consumed := if r.Posted? then cost else 0);
    var i: nat :| AdoptedAt(b.log, t, i) && AdoptedNets(b.log, t, b.log[i]);
    assert AdoptedAt(b'.log, u, i);
    CallKeysDistinct(t.id, t.id);
    if r.Posted? {
      GivenBackAppend(b.log, r.tx, t.id);
    }
    forall k ensures NetEffect(b'.log, u, k)
                     == NetEffect(b.log, t, k) + EntrySum(ChargeEntries(t.caller, t.callee, u.consumed), k)
    {
      SameTransactions(b'.log, t, u, k);
      ZeroCharge(t.caller, t.callee, k);
      if r.Posted? { NetEffectAppend(b.log, r.tx, t, k); }
    }
    forall k ensures EntrySum(ChargeEntries(t.caller, t.callee, 0), k) == 0 { ZeroCharge(t.caller, t.callee, k); }
    assert AdoptedNets(b'.log, u, b'.log[i]);
  }

  lemma {:induction false} SettleAdopted(w: Calls, id: string, endedAt: int)
    requires CallsOK(w) && id in w.sessions && AdoptedOK(w.book.log, w.sessions[id])
    requires w.sessions[id].state == Accepted && w.sessions[id].acceptedAt.Some?
    requires w.sessions[id].acceptedAt.value <= endedAt
    ensures var s := w.sessions[id].(state := Ended, endedAt := Some(endedAt));
            var (b', settled) := SettleElapsed(w.book, s, s.acceptedAt.value, endedAt);
            && CallsOK(Calls(b', w.sessions[id := settled])) && AdoptedOK(b'.log, settled) && settled.id == id
            && w.sessions[id].holdTxId in IdIndex(w.book.log)
            && (GivenBack(b'.log, id) <==> Reversible(w.book, w.sessions[id]))
  {
    hide CallsOK, AdoptedOK, ChargeCoins, ReverseHold, PlatformShare, Diamonds, Minutes, GivenBack, Reversible, IdIndex,
         Inv, KeyIndex, LogBalance;
    CoverInv(w, id);
    var s := w.sessions[id].(state := Ended, endedAt := Some(endedAt));
    var t := s.(consumed := 0);
    var minutes := Minutes(endedAt - s.acceptedAt.value);
    MinutesAreCeiling(endedAt - s.acceptedAt.value);
    AdoptedRate(w.book.log, w.sessions[id]);
    CostPositive(minutes, s.rate);
    SameReverse(w.book, s, t, "pv_call settlement", endedAt);
    CloseAdopted(w, id, t, "pv_call settlement", endedAt);
    var mid := Calls(ReverseHold(w.book, s, "pv_call settlement", endedAt), w.sessions[id := t]);
    CoverInv(mid, id);
    SettleUnused(w.book, t, "pv_call settlement", endedAt);
    AfterAdoptedCharge(mid.book, t, minutes * s.rate, SettleMetadata(s, minutes), endedAt);
    ChargeResult(mid.book, s.caller, s.callee, minutes * s.rate, SettleKey(id), SettleMetadata(s, minutes), endedAt);
    var (b', r) := ChargeCoins(mid.book, s.caller, s.callee, minutes * s.rate, SettleKey(id),
                               SettleMetadata(s, minutes),
                               endedAt);
    var settled := t.(consumed := if r.Posted? then minutes * s.rate else 0);
    ReplaceAdopted(mid, b', settled, r);
    assert mid.sessions[id := settled] == w.sessions[id := settled];
    assert SettleElapsed(w.book, s, s.acceptedAt.value, endedAt) == (b', settled);
  }

  lemma {:induction false} AdoptedRate(log: seq<Tx>, s: Session)
    requires AdoptedOK(log, s)
    ensures s.rate > 0 && (!Over(s.state) ==> Unbilled(log, s.id))
  {
  }

  lemma {:induction false} SettleUnused(b: Book, s: Session, reason: string, now: int)
    requires Inv(b) && b.forgotten == 0 && Unbilled(b.log, s.id)
    ensures !KeyUsed(ReverseHold(b, s, reason, now), SettleKey(s.id))
  {
    hide Inv, Reverse, KeyIndex;
    CallKeysDistinct(s.id, s.id);
    KeyFree(b, SettleKey(s.id));
    ApplyAddsOne(b, ReverseOp(s.holdTxId, ReverseKey(s.id), reason, now));
    KeyFree(ReverseHold(b, s, reason, now), SettleKey(s.id));
  }

  lemma {:induction false} ReplaceAdopted(w: Calls, b': Book, s: Session, r: PostResult)
    requires CallsOK(w) && s.id in w.sessions && s.holdTxId == w.sessions[s.id].holdTxId && AdoptedOK(b'.log, s)
    requires Inv(b') && b'.forgotten == 0 && b'.reversals == w.book.reversals
    requires if r.Posted? then b'.log == w.book.log + [r.tx] && r.tx.key == SettleKey(s.id)
             && r.tx.id == TxId(|w.book.log| + 1)
             else b' == w.book
    ensures CallsOK(Calls(b', w.sessions[s.id := s]))
  {
    hide Inv, SessionOK, AdoptedOK, CallKeysOK, HoldsApart;
    if r.Posted? {
      OthersKept(w, b', s.id, r.tx);
    }
    Replace(w, b', s);
  }

  lemma {:induction false} EndKeeps(w: Calls, account: string, id: string, now: int)
    requires CallsOK(w) && Legal(w, End(account, id, now))
    ensures var (w', r) := EndSession(w, account, id, now);
            && CallsOK(w')
            && (r.Ok? ==> id in w.sessions && w'.sessions == w.sessions[id := r.session] && Over(r.session.state)
                          && r.session.id == id)
            && (r.Ok? && SessionOK(w.book, w.sessions[id])
                ==> SessionOK(w'.book, r.session)
                    && (r.session.holdTxId in w'.book.reversals <==> Covered(w.book, w.sessions[id])))
            && (r.Ok? && !SessionOK(w.book, w.sessions[id])
                ==> w.sessions[id].holdTxId in IdIndex(w.book.log) && AdoptedOK(w'.book.log, r.session)
                    && (GivenBack(w'.book.log, id) <==> Reversible(w.book, w.sessions[id])))
  {
    hide Inv, SessionOK, AdoptedOK, CallKeysOK, HoldsApart, SettleElapsed, ReverseHold, Covered, IdIndex, GivenBack,
        Reversible;
    var (w', r) := EndSession(w, account, id, now);
    if r.Ok? {
      CoverInv(w, id);
      var s := w.sessions[id];
      var acceptedAt := if s.acceptedAt.Some? then s.acceptedAt.value else 0;
      SettleKeepsState(w.book, s.(state := Ended, endedAt := Some(now)), acceptedAt, now);
      if SessionOK(w.book, s) {
        RatePositive(w.book, s);
        if s.state == Accepted { CloseConnected(w, id, now); }
        else { CloseUnconnected(w, id, r.session, "pv_call not connected", now); }
      } else {
        if s.state == Accepted && s.acceptedAt.Some? { SettleAdopted(w, id, now); }
        else { CloseAdopted(w, id, r.session, "pv_call not connected", now); }
      }
    }
  }

  lemma {:induction false} SettleKeepsState(b: Book, s: Session, acceptedAt: int, endedAt: int)
    ensures SettleElapsed(b, s, acceptedAt, endedAt).1.state == s.state
            && SettleElapsed(b, s, acceptedAt, endedAt).1.id == s.id
  {
    hide ChargeCoins, ReverseHold;
  }

  lemma {:induction false} DeclineKeeps(w: Calls, account: string, id: string, now: int)
    requires CallsOK(w)
    ensures var (w', r) := DeclineSession(w, account, id, now);
            && CallsOK(w')
            && (r.Ok? ==> id in w.sessions && w'.sessions == w.sessions[id := r.session] && Over(r.session.state)
                          && r.session.id == id)
            && (r.Ok? && SessionOK(w.book, w.sessions[id])
                ==> SessionOK(w'.book, r.session)
                    && (r.session.holdTxId in w'.book.reversals <==> Covered(w.book, w.sessions[id])))
            && (r.Ok? && !SessionOK(w.book, w.sessions[id])
                ==> w.sessions[id].holdTxId in IdIndex(w.book.log) && AdoptedOK(w'.book.log, r.session)
                    && (GivenBack(w'.book.log, id) <==> Reversible(w.book, w.sessions[id])))
  {
    hide Inv, SessionOK, AdoptedOK, CallKeysOK, HoldsApart, ReverseHold, Covered, IdIndex, GivenBack, Reversible;
    var (w', r) := DeclineSession(w, account, id, now);
    if r.Ok? {
      CoverInv(w, id);
      if SessionOK(w.book, w.sessions[id]) {
        CloseUnconnected(w, id, r.session, "pv_call not connected", now);
      } else {
        CloseAdopted(w, id, r.session, "pv_call not connected", now);
      }
    }
  }

  lemma {:induction false} StepKeeps(w: Calls, op: CallOp)
    requires CallsOK(w) && Legal(w, op)
    ensures CallsOK(Step(w, op))
  {
    hide CallsOK, RequestSession, AcceptSession, DeclineSession, EndSession, Apply, Fresh;
    match op
    case Request(caller, callee, rate, key, gates, id, now) =>
      RequestKeeps(w, caller, callee, rate, key, gates, id, now);
    case Accept(account, id, now) => AcceptKeeps(w, account, id, now);
    case Decline(account, id, now) => DeclineKeeps(w, account, id, now);
    case End(account, id, now) => EndKeeps(w, account, id, now);
    case Other(op) => OtherKeeps(w, op);
  }

  const NO_CALLS: Calls := Calls(EMPTY_BOOK, map[])

  function RunCalls(ops: seq<CallOp>): Calls {
    if ops == [] then NO_CALLS else Step(RunCalls(ops[..|ops| - 1]), ops[|ops| - 1])
  }

  ghost predicate LegalRun(ops: seq<CallOp>) {
    forall i :: 0 <= i < |ops| ==> Legal(RunCalls(ops[..i]), ops[i])
  }

  lemma {:induction false} RunKeepsCalls(ops: seq<CallOp>)
    requires LegalRun(ops)
    ensures CallsOK(RunCalls(ops))
  {
    hide CallsOK, Legal, Step;
    if ops == [] {
      NoCallsOK();
    } else {
      var last := |ops| - 1;
      forall i | 0 <= i < last ensures Legal(RunCalls(ops[..last][..i]), ops[..last][i]) {
        assert ops[..last][..i] == ops[..i];
      }
      RunKeepsCalls(ops[..last]);
      StepKeeps(RunCalls(ops[..last]), ops[last]);
    }
  }

  lemma {:induction false} NoCallsOK()
    ensures CallsOK(NO_CALLS)
  {
    EmptyInv();
  }

  // ---- The billing law ----

  /** In every state of every run, on every account, what the transactions of a session opened on an unused key
      net to is one charge of its consumed coins, plus the first-minute hold when it was closed without the hold
      being given back. Other sessions may have been opened on any keys. */
  lemma {:induction false} BillingConserved(ops: seq<CallOp>, x: string, k: BalanceKey)
    requires LegalRun(ops) && x in RunCalls(ops).sessions && Own(RunCalls(ops).book.log, RunCalls(ops).sessions[x])
    ensures var w := RunCalls(ops);
            var s := w.sessions[x];
            NetEffect(w.book.log, s, k) == EntrySum(ChargeEntries(s.caller, s.callee, s.consumed), k)
                                           + if Over(s.state) && s.holdTxId !in w.book.reversals
                                             then EntrySum(ChargeEntries(s.caller, s.callee, s.rate), k) else 0
  {
    hide Inv, PlatformShare, Diamonds, NetEffect, RunCalls, LegalRun, CallKeysOK, HoldsApart, AdoptedOK;
    RunKeepsCalls(ops);
    var w := RunCalls(ops);
    OwnExactly(w.book, w.sessions[x]);
    assert NetEffect(w.book.log, w.sessions[x], k) == Owed(w.book, w.sessions[x], k);
  }

  /** The session's transactions net to one charge of its consumed coins, on all accounts. */
  ghost predicate Conserved(w: Calls, s: Session) {
    forall k :: NetEffect(w.book.log, s, k) == EntrySum(ChargeEntries(s.caller, s.callee, s.consumed), k)
  }

  lemma {:induction false} ConservedExactly(w: Calls, x: string)
    requires CallsOK(w) && x in w.sessions && Own(w.book.log, w.sessions[x])
    ensures Conserved(w, w.sessions[x]) <==> !(Over(w.sessions[x].state) && w.sessions[x].holdTxId !in w.book.reversals)
  {
    hide Inv, PlatformShare, Diamonds, NetEffect, CallKeysOK, HoldsApart, AdoptedOK;
    var s := w.sessions[x];
    OwnExactly(w.book, s);
    var k := BalanceKey(UserCoins(s.caller), COIN);
    ChargeTouchesOnce(s.caller, s.callee, s.rate);
    OnceSum(ChargeEntries(s.caller, s.callee, s.rate), 0);
    assert SessionOK(w.book, s);
    assert NetEffect(w.book.log, s, k) == Owed(w.book, s, k);
    if !(Over(s.state) && s.holdTxId !in w.book.reversals) {
      forall k ensures NetEffect(w.book.log, s, k) == EntrySum(ChargeEntries(s.caller, s.callee, s.consumed), k) {
        assert NetEffect(w.book.log, s, k) == Owed(w.book, s, k);
      }
    }
  }

  /** Declining or ending a call conserves exactly when the callee still holds the first minute's diamonds. */
  lemma {:induction false} ClosingConservesExactly(w: Calls, account: string, id: string, now: int, decline: bool)
    requires CallsOK(w) && id in w.sessions && Own(w.book.log, w.sessions[id])
             && (!decline ==> Legal(w, End(account, id, now)))
    requires (if decline then DeclineSession(w, account, id, now) else EndSession(w, account, id, now)).1.Ok?
    ensures var (w', r) := if decline then DeclineSession(w, account, id, now) else EndSession(w, account, id, now);
            id in w'.sessions && w'.sessions[id] == r.session
            && (Conserved(w', r.session) <==> Covered(w.book, w.sessions[id]))
  {
    assert Inv(w.book);
    hide CallsOK, DeclineSession, EndSession, Conserved, Covered, Inv, Own, RecordOK;
    CoverInv(w, id);
    OwnExactly(w.book, w.sessions[id]);
    if decline { DeclineKeeps(w, account, id, now); } else { EndKeeps(w, account, id, now); }
    var (w', r) := if decline then DeclineSession(w, account, id, now) else EndSession(w, account, id, now);
    CoverInv(w', id);
    OwnExactly(w'.book, r.session);
    ConservedExactly(w', id);
  }

  /** A request on an unused key is charged for once, by its own hold. On a key already used for something else
      nothing is charged and the session takes that transaction over as its hold; its account is then exact only
      if that transaction happens to move on every account what the hold would have moved. */
  lemma {:induction false} NewSessionIsChargedExactly(w: Calls, caller: string, callee: string, rate: int, key: string,
                                                      gates: Gates, id: string, now: int)
    requires CallsOK(w) && Legal(w, Request(caller, callee, rate, key, gates, id, now))
    requires RequestSession(w, caller, callee, rate, key, gates, id, now).1.Ok?
             && RequestSession(w, caller, callee, rate, key, gates, id, now).1.isNew
    ensures var (w', r) := RequestSession(w, caller, callee, rate, key, gates, id, now);
            && CallsOK(w') && id in w'.sessions && w'.sessions[id] == r.session
            && (if KeyUsed(w.book, key)
                then w'.book == w.book && r.session.holdTxId == KeyIndex(w.book.log, 0)[key].id
                else exists tx :: w'.book.log == w.book.log + [tx] && tx.id == r.session.holdTxId
                                  && tx.entries == ChargeEntries(caller, callee, r.session.consumed))
            && (Own(w'.book.log, r.session) <==> !KeyUsed(w.book, key))
            && (Conserved(w', r.session) <==>
                KeyUsed(w.book, key) ==>
                  forall k :: EntrySum(KeyIndex(w.book.log, 0)[key].entries, k)
                      == EntrySum(ChargeEntries(caller, callee, Rate(rate)), k))
  {
    hide Inv, SessionOK, AdoptedOK, PlatformShare, Diamonds, ChargeCoins, KeyIndex, Own, Conserved, CallKeysOK,
        HoldsApart;
    var (w', r) := RequestSession(w, caller, callee, rate, key, gates, id, now);
    if KeyUsed(w.book, key) {
      AdoptingKeeps(w, caller, callee, rate, key, gates, id, now);
      NotOwn(w'.book, r.session);
      AdoptedStarts(w, r.session, key);
      ConservedMeans(w', r.session, KeyIndex(w.book.log, 0)[key].entries);
    } else {
      ChargedKeeps(w, caller, callee, rate, key, gates, id, now);
      CoverInv(w', id);
      OwnExactly(w'.book, r.session);
      ConservedExactly(w', id);
    }
  }

  lemma {:induction false} NotOwn(b: Book, s: Session)
    requires Inv(b) && AdoptedOK(b.log, s)
    ensures !Own(b.log, s)
  {
    hide KeysUnique, ReversalsOK;
    var i: nat :| AdoptedAt(b.log, s, i);
    forall j: nat | j < |b.log| && b.log[j].id == s.holdTxId ensures j == i { IdsDistinct(b.log, i, j); }
  }

  /** A session that took over the transaction under a key nets to that transaction. */
  lemma {:induction false} AdoptedStarts(w: Calls, s: Session, key: string)
    requires CallsOK(w) && s.id !in w.sessions && KeyUsed(w.book, key) && s.holdTxId == KeyIndex(w.book.log, 0)[key].id
    ensures forall k :: NetEffect(w.book.log, s, k) == EntrySum(KeyIndex(w.book.log, 0)[key].entries, k)
  {
    hide RecordOK, CallKeysOK, HoldsApart, KeysUnique, ReversalsOK, NetEffect, KeyIndex, PlatformShare, Diamonds;
    UnbilledIfUnknown(w, s.id);
    KeyIndexFinds(w.book.log, 0, key);
    var i: nat :| i < |w.book.log| && w.book.log[i].key == key && KeyIndex(w.book.log, 0)[key] == w.book.log[i];
    forall j: nat | j < |w.book.log| && w.book.log[j].id == w.book.log[i].id ensures j == i {
      IdsDistinct(w.book.log, i, j);
    }
    forall k ensures NetEffect(w.book.log, s, k) == EntrySum(w.book.log[i].entries, k) {
      OnlyHold(w.book.log, s, i, k);
    }
  }

  lemma {:induction false} ConservedMeans(w: Calls, s: Session, es: seq<Entry>)
    requires forall k :: NetEffect(w.book.log, s, k) == EntrySum(es, k)
    ensures Conserved(w, s) <==> forall k :: EntrySum(es, k)
                                   == EntrySum(ChargeEntries(s.caller, s.callee, s.consumed), k)
  {
    hide NetEffect, EntrySum, ChargeEntries;
    if Conserved(w, s) {
      forall k ensures EntrySum(es, k) == EntrySum(ChargeEntries(s.caller, s.callee, s.consumed), k) {
        assert NetEffect(w.book.log, s, k) == EntrySum(es, k);
      }
    } else {
      var k :| NetEffect(w.book.log, s, k) != EntrySum(ChargeEntries(s.caller, s.callee, s.consumed), k);
      assert NetEffect(w.book.log, s, k) == EntrySum(es, k);
    }
  }

  // ---- What becomes of a session opened on somebody else's key ----

  /** The transaction a session took over for its hold. */
  function HoldOf(b: Book, s: Session): Tx
    requires s.holdTxId in IdIndex(b.log)
  {
    IdIndex(b.log)[s.holdTxId]
  }

  /** The ledger would take that transaction back. */
  ghost predicate Reversible(b: Book, s: Session)
    requires s.holdTxId in IdIndex(b.log)
  {
    && HoldOf(b, s).kind != REVERSAL_KIND && s.holdTxId !in b.reversals
    && Acceptable(b.log, Negated(HoldOf(b, s).entries))
  }

  /** In every state of every run, what the transactions of a session opened on somebody else's key net to: the
      transaction it took over, until the session takes that back, and one charge of its consumed coins once it is
      over. */
  lemma {:induction false} AdoptedBilling(ops: seq<CallOp>, x: string, k: BalanceKey)
    requires LegalRun(ops) && x in RunCalls(ops).sessions && !Own(RunCalls(ops).book.log, RunCalls(ops).sessions[x])
    ensures var w := RunCalls(ops);
            var s := w.sessions[x];
            && s.holdTxId in IdIndex(w.book.log)
            && NetEffect(w.book.log, s, k)
               == (if GivenBack(w.book.log, x) then 0 else EntrySum(HoldOf(w.book, s).entries, k))
                  + (if Over(s.state) then EntrySum(ChargeEntries(s.caller, s.callee, s.consumed), k) else 0)
  {
    hide CallsOK, LegalRun, RunCalls, NetEffect, EntrySum, ChargeEntries, IdIndex, GivenBack, RecordOK, Own;
    RunKeepsCalls(ops);
    var w := RunCalls(ops);
    CoverInv(w, x);
    AdoptedLaw(w.book, w.sessions[x]);
    assert AdoptedNets(w.book.log, w.sessions[x], HoldOf(w.book, w.sessions[x]));
  }

  lemma {:induction false} AdoptedLaw(b: Book, s: Session)
    requires Inv(b) && RecordOK(b, s) && !Own(b.log, s)
    ensures AdoptedOK(b.log, s) && s.holdTxId in IdIndex(b.log) && AdoptedNets(b.log, s, HoldOf(b, s))
  {
    hide Inv, NetEffect, Own, AdoptedNets, SessionOK, Unbilled, IdIndex;
    OwnExactly(b, s);
    var i: nat :| AdoptedAt(b.log, s, i) && AdoptedNets(b.log, s, b.log[i]);
    InvLog(b);
    IdLookup(b.log, i);
  }

  /** Declining such a session, cancelling it while it rings or ending it once connected takes the transaction back
      from whoever it paid, whenever that transaction is no reversal, is not yet reversed and its inverse is
      acceptable. Only then, or if it moved nothing, does the session cost what it shows. */
  lemma {:induction false} ClosingTakesBack(w: Calls, account: string, id: string, now: int, decline: bool)
    requires CallsOK(w) && id in w.sessions && !Own(w.book.log, w.sessions[id])
    requires !decline ==> Legal(w, End(account, id, now))
    requires (if decline then DeclineSession(w, account, id, now) else EndSession(w, account, id, now)).1.Ok?
    ensures w.sessions[id].holdTxId in IdIndex(w.book.log)
    ensures var (w', r) := if decline then DeclineSession(w, account, id, now) else EndSession(w, account, id, now);
            && (GivenBack(w'.book.log, id) <==> Reversible(w.book, w.sessions[id]))
            && (Conserved(w', r.session)
                <==> Reversible(w.book, w.sessions[id])
                     || forall k :: EntrySum(HoldOf(w.book, w.sessions[id]).entries, k) == 0)
  {
    assert Inv(w.book);
    hide CallsOK, DeclineSession, EndSession, Conserved, Inv, Own, RecordOK, GivenBack, Reversible, IdIndex,
        AdoptedNets,
         AdoptedOK;
    CoverInv(w, id);
    OwnExactly(w.book, w.sessions[id]);
    if decline { DeclineKeeps(w, account, id, now); } else { EndKeeps(w, account, id, now); }
    var (w', r) := if decline then DeclineSession(w, account, id, now) else EndSession(w, account, id, now);
    CoverInv(w', id);
    ClosingGrows(w, account, id, now, decline);
    SameHoldLater(w.book, w'.book, w.sessions[id], r.session);
    NotOwn(w'.book, r.session);
    AdoptedLaw(w'.book, r.session);
    AdoptedConserved(w', r.session);
  }

  /** A closed adopting session is exact when it took the transaction back, or that moved nothing. */
  lemma {:induction false} AdoptedConserved(w: Calls, s: Session)
    requires s.holdTxId in IdIndex(w.book.log) && AdoptedNets(w.book.log, s, HoldOf(w.book, s)) && Over(s.state)
    ensures Conserved(w, s) <==> GivenBack(w.book.log, s.id) || forall k :: EntrySum(HoldOf(w.book, s).entries, k) == 0
  {
    hide NetEffect, ChargeEntries, GivenBack, IdIndex;
    var es := HoldOf(w.book, s).entries;
    if Conserved(w, s) {
      if !GivenBack(w.book.log, s.id) {
        forall k ensures EntrySum(es, k) == 0 {
          assert NetEffect(w.book.log, s, k) == EntrySum(ChargeEntries(s.caller, s.callee, s.consumed), k);
        }
      }
    } else {
      var k :| NetEffect(w.book.log, s, k) != EntrySum(ChargeEntries(s.caller, s.callee, s.consumed), k);
      assert !GivenBack(w.book.log, s.id) && EntrySum(es, k) != 0;
    }
  }

  lemma {:induction false} ClosingGrows(w: Calls, account: string, id: string, now: int, decline: bool)
    requires id in w.sessions
    requires (if decline then DeclineSession(w, account, id, now) else EndSession(w, account, id, now)).1.Ok?
    ensures var (w', r) := if decline then DeclineSession(w, account, id, now) else EndSession(w, account, id, now);
            w.book.log <= w'.book.log && r.session.holdTxId == w.sessions[id].holdTxId
  {
    hide Reverse, Post, PlatformShare, Diamonds, Minutes;
    var s := w.sessions[id];
    ReverseGrows(w.book, s, "pv_call not connected", now);
    ReverseGrows(w.book, s, "pv_call settlement", now);
    SameReverse(w.book, s, s.(state := Ended, endedAt := Some(now)), "pv_call settlement", now);
    SameReverse(w.book, s, s.(state := Ended, endedAt := Some(now), consumed := 0), "pv_call not connected", now);
    SameReverse(w.book, s, s.(state := Declined, endedAt := Some(now), consumed := 0), "pv_call not connected", now);
    var mid := ReverseHold(w.book, s, "pv_call settlement", now);
    if s.acceptedAt.Some? {
      var minutes := Minutes(now - s.acceptedAt.value);
      ApplyGrows(mid, PostOp("pv_call", SettleKey(s.id), SettleMetadata(s, minutes),
                             ChargeEntries(s.caller, s.callee, minutes * s.rate), now));
    }
  }

  lemma {:induction false} ReverseGrows(b: Book, s: Session, reason: string, now: int)
    ensures b.log <= ReverseHold(b, s, reason, now).log
  {
    hide Reverse;
    ApplyGrows(b, ReverseOp(s.holdTxId, ReverseKey(s.id), reason, now));
  }

  lemma {:induction false} SameHoldLater(b: Book, b': Book, s: Session, t: Session)
    requires Inv(b) && Inv(b') && b.log <= b'.log && s.holdTxId == t.holdTxId && s.holdTxId in IdIndex(b.log)
    ensures t.holdTxId in IdIndex(b'.log) && HoldOf(b', t) == HoldOf(b, s)
  {
    hide Inv, IdIndex;
    IdIndexFinds(b.log, s.holdTxId);
    var i :| 0 <= i < |b.log| && b.log[i].id == s.holdTxId && IdIndex(b.log)[s.holdTxId] == b.log[i];
    InvLog(b');
    assert b'.log[i] == b.log[i];
    IdLookup(b'.log, i);
  }

  /** Declining such a session posts the exact inverse of the transaction, or nothing. */
  lemma {:induction false} DecliningTakesBack(w: Calls, account: string, id: string, now: int)
    requires CallsOK(w) && id in w.sessions && !Own(w.book.log, w.sessions[id])
             && DeclineSession(w, account, id, now).1.Ok?
    ensures w.sessions[id].holdTxId in IdIndex(w.book.log)
    ensures var (w', r) := DeclineSession(w, account, id, now);
            var hold := HoldOf(w.book, w.sessions[id]);
            && (if Reversible(w.book, w.sessions[id])
                then exists tx :: w'.book.log == w.book.log + [tx] && tx.entries == Negated(hold.entries)
                else w'.book == w.book)
            && (Conserved(w', r.session) <==> Reversible(w.book, w.sessions[id])
                                              || forall k :: EntrySum(hold.entries, k) == 0)
  {
    hide RecordOK, HoldsApart, CallKeysOK, Inv, ReverseHold, Conserved, Acceptable, IdIndex, Own, Reversible;
    CoverInv(w, id);
    OwnExactly(w.book, w.sessions[id]);
    ClosingTakesBack(w, account, id, now, true);
    AdoptedOpen(w.book, w.sessions[id]);
    TakenBack(w.book, w.sessions[id], DeclineSession(w, account, id, now).1.session, "pv_call not connected", now);
  }

  lemma {:induction false} AdoptedOpen(b: Book, s: Session)
    requires RecordOK(b, s) && !SessionOK(b, s) && !Over(s.state)
    ensures AdoptedOK(b.log, s) && Unbilled(b.log, s.id)
  {
    hide NetEffect, Owed, AdoptedNets;
  }

  /** Cancelling a ringing call leaves the books that declining it leaves. */
  lemma {:induction false} CancelIsDecline(w: Calls, id: string, now: int)
    requires id in w.sessions && w.sessions[id].state == Requested
    ensures EndSession(w, w.sessions[id].caller, id, now).1.Ok?
            && DeclineSession(w, w.sessions[id].callee, id, now).1.Ok?
    ensures EndSession(w, w.sessions[id].caller, id, now).0.book
            == DeclineSession(w, w.sessions[id].callee, id, now).0.book
  {
    hide Reverse;
  }

  lemma {:induction false} TakenBack(b: Book, s: Session, t: Session, reason: string, now: int)
    requires Inv(b) && b.forgotten == 0 && AdoptedOK(b.log, s) && Unbilled(b.log, s.id)
    requires t.id == s.id && t.holdTxId == s.holdTxId
    ensures s.holdTxId in IdIndex(b.log) && HoldOf(b, s).id == s.holdTxId
    ensures var b', hold := ReverseHold(b, t, reason, now), HoldOf(b, s);
            if Reversible(b, s)
            then |b'.log| == |b.log| + 1 && b'.log == b.log + [b'.log[|b.log|]]
                && b'.log[|b.log|].key == ReverseKey(s.id)
                 && b'.log[|b.log|].entries == Negated(hold.entries) && forall k :: NetEffect(b'.log, t, k) == 0
            else b' == b && forall k :: NetEffect(b.log, t, k) == EntrySum(hold.entries, k)
  {
    hide Inv, Acceptable, NetEffect, Reverse, IdIndex, KeyIndex, Unbilled, AdoptedNets;
    var i: nat :| AdoptedAt(b.log, s, i);
    InvLog(b);
    IdLookup(b.log, i);
    TxIdNotEmpty(b.log, i);
    UnbilledKeyFree(b, s.id);
    ReversalExactly(b, s.holdTxId, ReverseKey(s.id), reason, now);
    forall j: nat | j < |b.log| && b.log[j].id == b.log[i].id ensures j == i { InvIdsDistinct(b, i, j); }
    var b' := ReverseHold(b, t, reason, now);
    forall k ensures NetEffect(b.log, t, k) == EntrySum(b.log[i].entries, k) { OnlyHold(b.log, t, i, k); }
    if b' != b {
      var tx := b'.log[|b.log|];
      ReversedUnder(b, t, reason, now);
      forall k ensures NetEffect(b'.log, t, k) == 0 {
        NetEffectAppend(b.log, tx, t, k);
        NegatedSum(b.log[i].entries, k);
      }
    }
  }

  lemma {:induction false} UnbilledKeyFree(b: Book, id: string)
    requires b.forgotten == 0 && Unbilled(b.log, id)
    ensures !KeyUsed(b, ReverseKey(id)) && !KeyUsed(b, SettleKey(id))
  {
    hide KeyIndex;
    KeyFree(b, ReverseKey(id));
    KeyFree(b, SettleKey(id));
  }

  lemma {:induction false} ReversedUnder(b: Book, s: Session, reason: string, now: int)
    requires Inv(b) && ReverseHold(b, s, reason, now) != b
    ensures var b' := ReverseHold(b, s, reason, now);
            |b'.log| == |b.log| + 1 && b'.log[|b.log|].key == ReverseKey(s.id)
  {
    hide Inv, Reverse;
    ApplyAddsOne(b, ReverseOp(s.holdTxId, ReverseKey(s.id), reason, now));
  }

  /** A connected call costs its started minutes exactly when the caller, given back a covered hold, has that
      much; otherwise nothing. So a covered one-minute call is always paid. */
  lemma {:induction false} SettlementExactly(w: Calls, account: string, id: string, now: int)
    requires CallsOK(w) && Legal(w, End(account, id, now))
    requires id in w.sessions && Own(w.book.log, w.sessions[id])
    requires w.sessions[id].state == Accepted && EndSession(w, account, id, now).1.Ok?
    ensures w.sessions[id].acceptedAt.Some?
    ensures var s := w.sessions[id];
            var minutes := Minutes(now - s.acceptedAt.value);
            var funds := LogBalance(w.book.log, BalanceKey(UserCoins(s.caller), COIN))
                + if Covered(w.book, s) then s.rate else 0;
            && EndSession(w, account, id, now).1.session.consumed
                == (if funds >= minutes * s.rate then minutes * s.rate else 0)
            && (Covered(w.book, s) && minutes == 1 ==> EndSession(w, account, id, now).1.session.consumed == s.rate)
  {
    hide Inv, SessionOK, CallKeysOK, Covered, ReverseHold, ChargeCoins, PlatformShare, Diamonds, Minutes, LogBalance;
    CoverInv(w, id);
    var s := w.sessions[id];
    OwnExactly(w.book, s);
    RatePositive(w.book, s);
    var t := s.(state := Ended, endedAt := Some(now));
    var minutes := Minutes(now - s.acceptedAt.value);
    MinutesAreCeiling(now - s.acceptedAt.value);
    CostPositive(minutes, s.rate);
    SameReverse(w.book, s, t, "pv_call settlement", now);
    ReverseHoldResult(w.book, s, "pv_call settlement", now);
    SettleKeyFree(w.book, s, "pv_call settlement", now);
    var b1 := ReverseHold(w.book, s, "pv_call settlement", now);
    ChargeResult(b1, s.caller, s.callee, minutes * s.rate, SettleKey(id), SettleMetadata(s, minutes), now);
    FundsAfterReverse(w.book, s, "pv_call settlement", now);
    assert SettleMetadata(t, minutes) == SettleMetadata(s, minutes);
    WalletsNonNegative(w.book, s.caller);
    if minutes == 1 { assert minutes * s.rate == s.rate; }
  }

  lemma {:induction false} WalletsNonNegative(b: Book, account: string)
    requires Inv(b)
    ensures LogBalance(b.log, BalanceKey(UserCoins(account), COIN)) >= 0
  {
    UserIsNotPlatform(account);
    NonNegative(b.log, BalanceKey(UserCoins(account), COIN));
  }

  lemma {:induction false} FundsAfterReverse(b: Book, s: Session, reason: string, now: int)
    requires Inv(b) && b.forgotten == 0 && SessionOK(b, s) && !Over(s.state)
    ensures var k := BalanceKey(UserCoins(s.caller), COIN);
            LogBalance(ReverseHold(b, s, reason, now).log, k) == LogBalance(b.log, k)
                + if Covered(b, s) then s.rate else 0
  {
    hide Inv, SessionOK, Covered, ReverseHold, PlatformShare, Diamonds, IsPlatform;
    ReverseHoldResult(b, s, reason, now);
    var es := ChargeEntries(s.caller, s.callee, s.rate);
    if Covered(b, s) {
      LogBalanceAppend(b.log, HoldReversal(b, s, reason, now), KeyOf(es[0]));
      NegatedSum(es, KeyOf(es[0]));
      ChargeTouchesOnce(s.caller, s.callee, s.rate);
      OnceSum(es, 0);
    }
  }

  // ---- What was asked for ----

  /** The coins a minute costs when this rate is asked for. */
  function Asked(rate: int): int {
    if rate > 0 then rate else 10
  }

  /** A request in full: the checks in order, a replay, and for a new session the rate asked for, charged once on an
      unused key. It is refused by the ledger exactly when the caller does not have that much. */
  lemma {:induction false} RequestExactly(w: Calls, caller: string, callee: string, rate: int, key: string,
                                          gates: Gates,
                                          id: string, now: int)
    requires CallsOK(w)
    ensures var (w', r) := RequestSession(w, caller, callee, rate, key, gates, id, now);
            var purse := BalanceKey("user:" + caller + ":coins", "COIN");
            if caller == callee then w' == w && r == Err(SelfCall)
            else if Replayed(w, key).Some? then w' == w && r == Ok(Replayed(w, key).value, false)
            else if !gates.active then w' == w && r == Err(AccountNotActive)
            else if !gates.ageAssured then w' == w && r == Err(AgeNotAssured)
            else if gates.blocked then w' == w && r == Err(CalleeBlocked)
            else if !gates.permitted then w' == w && r == Err(CalleeNotReachable)
            else if !KeyUsed(w.book, key) && LogBalance(w.book.log, purse) < Asked(rate)
            then w' == w && r == Err(Refused(InsufficientBalance(purse.account, "COIN", Asked(rate),
                                                                 LogBalance(w.book.log, purse))))
            else
              && r.Ok? && r.isNew
              && r.session == Session(id, caller, callee, Requested, Asked(rate), now, None, None, Asked(rate),
                                      r.session.holdTxId)
              && w'.sessions == w.sessions[id := r.session]
              && (KeyUsed(w.book, key) ==> w'.book == w.book)
              && (!KeyUsed(w.book, key) ==>
                    && |w'.book.log| == |w.book.log| + 1
                    && w'.book == w.book.(log := w.book.log + [w'.book.log[|w.book.log|]])
                    && IsHold(w'.book.log[|w.book.log|], r.session, key, now)
                    && LogBalance(w'.book.log, purse) == LogBalance(w.book.log, purse) - Asked(rate))
  {
    hide Inv, RecordOK, PlatformShare, Diamonds, CallKeysOK, HoldsApart, Replayed, KeyIndex, Balanced, FirstBreach,
         LogBalance;
    CallsInv(w);
    if !KeyUsed(w.book, key) {
      InvLog(w.book);
      ChargeBreach(w.book.log, caller, callee, Rate(rate));
      ChargeBalances(caller, callee, Rate(rate));
      var tx := Tx(TxId(|w.book.log| + 1), "pv_call", key, HoldMetadata(id, caller, callee),
                   ChargeEntries(caller, callee, Rate(rate)), now);
      LogBalanceAppend(w.book.log, tx, BalanceKey(UserCoins(caller), COIN));
      ChargeTouchesOnce(caller, callee, Rate(rate));
      OnceSum(tx.entries, 0);
    }
  }

  /** A request replays exactly when some transaction the ledger remembers under its key names a session on record;
      it is then answered with that session. */
  lemma {:induction false} ReplayedExactly(w: Calls, key: string)
    requires Inv(w.book)
    ensures Replayed(w, key).Some? <==> exists i :: w.book.forgotten <= i < |w.book.log| && NamesSession(w, key, i)
    ensures forall i :: w.book.forgotten <= i < |w.book.log| && NamesSession(w, key, i)
                        ==> Replayed(w, key) == Some(w.sessions[w.book.log[i].metadata["session_id"].text])
  {
    hide LogOK, ReversalsOK, KeysUnique, KeyIndex;
    KeyIndexFinds(w.book.log, w.book.forgotten, key);
    forall i | w.book.forgotten <= i < |w.book.log| && w.book.log[i].key == key
      ensures KeyIndex(w.book.log, w.book.forgotten)[key] == w.book.log[i]
    {
      KeyLookup(w.book, i);
    }
    if KeyUsed(w.book, key) {
      var i :| w.book.forgotten <= i < |w.book.log| && w.book.log[i].key == key;
      assert Replayed(w, key).Some? <==> NamesSession(w, key, i);
    }
  }

  /** Transaction i was posted under the key for a session on record. */
  predicate NamesSession(w: Calls, key: string, i: nat)
    requires i < |w.book.log|
  {
    var tx := w.book.log[i];
    && tx.key == key && "session_id" in tx.metadata && tx.metadata["session_id"].Text?
    && tx.metadata["session_id"].text in w.sessions
  }

  /** The hold of a new session: one charge of a minute, under the request's key, naming the session. */
  predicate IsHold(tx: Tx, s: Session, key: string, now: int) {
    && tx.id == s.holdTxId && tx.kind == "pv_call" && tx.key == key && tx.createdAt == now
    && tx.entries == ChargeEntries(s.caller, s.callee, s.rate)
    && tx.metadata == map["session_id" := Text(s.id), "caller_id" := Text(s.caller), "callee_id" := Text(s.callee),
                          "kind" := Text("first_minute_hold")]
  }

  /** Who may accept, decline and end a call, when, and what the record then says. */
  lemma {:induction false} TurnsExactly(w: Calls, account: string, id: string, now: int)
    ensures id !in w.sessions ==>
              AcceptSession(w, account, id, now) == (w, Err(SessionNotFound))
              && DeclineSession(w, account, id, now) == (w, Err(SessionNotFound))
              && EndSession(w, account, id, now) == (w, Err(SessionNotFound))
    ensures id in w.sessions ==>
              var s := w.sessions[id];
              && (account != s.callee ==> AcceptSession(w, account, id, now) == (w, Err(NotParticipant))
                                          && DeclineSession(w, account, id, now) == (w, Err(NotParticipant)))
              && (account != s.callee && account != s.caller
                  ==> EndSession(w, account, id, now) == (w, Err(NotParticipant)))
              && (account == s.callee && s.state != Requested
                  ==> AcceptSession(w, account, id, now) == (w, Err(InvalidState))
                      && DeclineSession(w, account, id, now) == (w, Err(InvalidState)))
              && (account in {s.callee, s.caller} && s.state in {Declined, Ended}
                  ==> EndSession(w, account, id, now) == (w, Err(InvalidState)))
              && (account == s.callee && s.state == Requested
                  ==> AcceptSession(w, account, id, now)
                      == (w.(sessions := w.sessions[id := s.(state := Accepted, acceptedAt := Some(now))]),
                          Ok(s.(state := Accepted, acceptedAt := Some(now)), false))
                      && DeclineSession(w, account, id, now).1
                         == Ok(s.(state := Declined, endedAt := Some(now), consumed := 0), false))
              && (account in {s.callee, s.caller} && s.state in {Requested, Accepted}
                  ==> var r := EndSession(w, account, id, now).1;
                      r == Ok(s.(state := Ended, endedAt := Some(now), consumed := r.session.consumed), false)
                      && (s.state == Requested ==> r.session.consumed == 0)
                      && EndSession(w, account, id, now).0.sessions == w.sessions[id := r.session])
  {
    hide ReverseHold, ChargeCoins, Minutes;
  }

  /** What is fixed when a session is opened. */
  predicate SameOpening(s: Session, t: Session) {
    && s.id == t.id && s.caller == t.caller && s.callee == t.callee && s.rate == t.rate && s.createdAt == t.createdAt
    && s.holdTxId == t.holdTxId
  }

  lemma {:induction false} StepKeepsOpening(w: Calls, op: CallOp)
    requires op.Request? ==> op.id !in w.sessions
    ensures forall x :: x in w.sessions ==> x in Step(w, op).sessions
                                            && SameOpening(w.sessions[x], Step(w, op).sessions[x])
  {
    hide ReverseHold, ChargeCoins, Minutes, Apply, Replayed;
  }

  /** Over any stretch of a run a session keeps its parties, its rate and its hold. */
  lemma {:induction false} SessionsKeepOpening(ops: seq<CallOp>, n: nat)
    requires n <= |ops| && LegalRun(ops)
    ensures forall x :: x in RunCalls(ops[..n]).sessions
                        ==> x in RunCalls(ops).sessions && SameOpening(RunCalls(ops[..n]).sessions[x],
                            RunCalls(ops).sessions[x])
  {
    hide Step;
    if n == |ops| {
      assert ops[..n] == ops;
    } else {
      var last := |ops| - 1;
      forall i | 0 <= i < last ensures Legal(RunCalls(ops[..last][..i]), ops[..last][i]) {
        assert ops[..last][..i] == ops[..i];
      }
      assert ops[..last][..n] == ops[..n];
      SessionsKeepOpening(ops[..last], n);
      assert Legal(RunCalls(ops[..last]), ops[last]);
      StepKeepsOpening(RunCalls(ops[..last]), ops[last]);
    }
  }

  /** A connected call opened on an unused key costs, when it ends, its started minutes of 60 seconds times the rate
      its request asked for, or nothing; nothing only if the caller's coins, with a returned hold, fall short. */
  lemma {:induction false} ConnectedCallCosts(ops: seq<CallOp>, n: nat, account: string, now: int, minutes: int)
    requires LegalRun(ops) && n < |ops| && ops[n].Request? && RequestedNow(RunCalls(ops[..n]), ops[n])
    requires var w := RunCalls(ops);
             && ops[n].id in w.sessions && Own(w.book.log, w.sessions[ops[n].id])
             && w.sessions[ops[n].id].state == Accepted && w.sessions[ops[n].id].acceptedAt.Some?
             && w.sessions[ops[n].id].acceptedAt.value < now
             && EndSession(w, account, ops[n].id, now).1.Ok?
             && var elapsed := now - w.sessions[ops[n].id].acceptedAt.value;
             (minutes - 1) * 60_000_000_000 < elapsed <= minutes * 60_000_000_000
    ensures var w := RunCalls(ops);
            var s := w.sessions[ops[n].id];
            var cost := minutes * Asked(ops[n].rate);
            var funds := LogBalance(w.book.log, BalanceKey("user:" + ops[n].caller + ":coins", "COIN"))
                         + if Covered(w.book, s) then Asked(ops[n].rate) else 0;
            EndSession(w, account, ops[n].id, now).1.session.consumed == if funds >= cost then cost else 0
  {
    hide CallsOK, LegalRun, RunCalls, Step, EndSession, Covered, LogBalance, Own, Minutes, RequestSession;
    RunKeepsCalls(ops);
    OpenedAsAsked(ops, n);
    var w := RunCalls(ops);
    var s := w.sessions[ops[n].id];
    SettlementExactly(w, account, ops[n].id, now);
    StartedMinutes(now - s.acceptedAt.value, minutes);
  }

  /** The request opened a new session. */
  predicate RequestedNow(w: Calls, op: CallOp)
    requires op.Request?
  {
    var r := RequestSession(w, op.caller, op.callee, op.rate, op.key, op.gates, op.id, op.now).1;
    r.Ok? && r.isNew
  }

  lemma {:induction false} OpenedAsAsked(ops: seq<CallOp>, n: nat)
    requires LegalRun(ops) && n < |ops| && ops[n].Request? && RequestedNow(RunCalls(ops[..n]), ops[n])
    ensures var w := RunCalls(ops);
            && ops[n].id in w.sessions && w.sessions[ops[n].id].rate == Asked(ops[n].rate)
            && w.sessions[ops[n].id].caller == ops[n].caller && w.sessions[ops[n].id].callee == ops[n].callee
  {
    hide CallsOK, Step, RequestSession;
    var upTo := ops[..n + 1];
    assert upTo[..n] == ops[..n] && upTo[n] == ops[n];
    forall i | 0 <= i < n ensures Legal(RunCalls(ops[..n][..i]), ops[..n][i]) { assert ops[..n][..i] == ops[..i]; }
    RunKeepsCalls(ops[..n]);
    var w, op := RunCalls(ops[..n]), ops[n];
    RequestExactly(w, op.caller, op.callee, op.rate, op.key, op.gates, op.id, op.now);
    StepOfRequest(w, op);
    SessionsKeepOpening(ops, n + 1);
  }

  lemma {:induction false} StepOfRequest(w: Calls, op: CallOp)
    requires op.Request?
    ensures Step(w, op) == RequestSession(w, op.caller, op.callee, op.rate, op.key, op.gates, op.id, op.now).0
  {
    hide RequestSession;
  }

  lemma {:induction false} StartedMinutes(elapsed: int, minutes: int)
    requires elapsed > 0 && (minutes - 1) * 60_000_000_000 < elapsed <= minutes * 60_000_000_000
    ensures Minutes(elapsed) == minutes
  {
  }

  /** The transaction that gives the hold of a settled call back. */
  ghost predicate ReturnsHold(tx: Tx, s: Session, now: int) {
    && tx.kind == "reversal" && tx.key == "pv-hold-reverse-" + s.id && tx.createdAt == now
    && "reversed_transaction_id" in tx.metadata && tx.metadata["reversed_transaction_id"] == Text(s.holdTxId)
    && "reason" in tx.metadata && tx.metadata["reason"] == Text("pv_call settlement")
  }

  /** The n-th transaction of the log charges a call for its minutes, under the session's own key. */
  function Settlement(n: nat, s: Session, minutes: int, now: int): Tx {
    Tx("tx-" + Itoa(n), "pv_call", "pv-settle-" + s.id,
       map["session_id" := Text(s.id), "caller_id" := Text(s.caller), "callee_id" := Text(s.callee),
           "kind" := Text("final_settlement"), "minutes" := Count(minutes)],
       ChargeEntries(s.caller, s.callee, minutes * s.rate), now)
  }

  lemma {:induction false} HoldReturned(b: Book, s: Session, now: int)
    requires Inv(b) && b.forgotten == 0 && Unbilled(b.log, s.id)
    ensures var b' := ReverseHold(b, s, "pv_call settlement", now);
            && Inv(b') && b'.forgotten == 0 && !KeyUsed(b', SettleKey(s.id))
            && (b'.log == b.log || exists tx :: b'.log == b.log + [tx] && ReturnsHold(tx, s, now))
  {
    hide Inv, Acceptable, Reverse, IdIndex, KeyIndex, Unbilled;
    UnbilledKeyFree(b, s.id);
    ReverseKeepsInv(b, s.holdTxId, ReverseKey(s.id), "pv_call settlement", now);
    ReversalExactly(b, s.holdTxId, ReverseKey(s.id), "pv_call settlement", now);
    ApplyAddsOne(b, ReverseOp(s.holdTxId, ReverseKey(s.id), "pv_call settlement", now));
    var b' := ReverseHold(b, s, "pv_call settlement", now);
    IdIndexFinds(b.log, s.holdTxId);
    KeyIndexFinds(b'.log, 0, SettleKey(s.id));
    assert ReverseKey(s.id)[3] == 'h' && SettleKey(s.id)[3] == 's';
    assert Unbilled(b.log, s.id) ==> forall i :: 0 <= i < |b.log| ==> b.log[i].key != SettleKey(s.id) by {
      NotSettled(b.log, s.id);
    }
  }

  lemma {:induction false} NotSettled(log: seq<Tx>, id: string)
    ensures Unbilled(log, id) ==> forall i :: 0 <= i < |log| ==> log[i].key != SettleKey(id)
  {
  }

  /** Settling a connected call adds at most two transactions: the hold's return, if it can be taken back, and the
      charge for the started minutes of 60 seconds, if the caller can pay it. The record shows what was charged. */
  lemma {:induction false} SettlementOnTheBooks(b: Book, s: Session, acceptedAt: int, endedAt: int, minutes: int)
    requires Inv(b) && b.forgotten == 0 && Unbilled(b.log, s.id)
    requires acceptedAt < endedAt && (minutes - 1) * 60_000_000_000 < endedAt - acceptedAt <= minutes * 60_000_000_000
    ensures var (b', t) := SettleElapsed(b, s, acceptedAt, endedAt);
            exists returned :: SettledWith(b.log, b'.log, s, t, returned, minutes, endedAt)
  {
    hide Inv, Acceptable, KeyIndex, Unbilled, ReverseHold, ReturnsHold, ChargeEntries, Post, Minutes, SettledWith;
    StartedMinutes(endedAt - acceptedAt, minutes);
    HoldReturned(b, s, endedAt);
    var mid := ReverseHold(b, s, "pv_call settlement", endedAt);
    ExactAcceptance(mid, "pv_call", SettleKey(s.id), SettleMetadata(s, minutes),
                    ChargeEntries(s.caller, s.callee, minutes * s.rate), endedAt);
    var (b', t) := SettleElapsed(b, s, acceptedAt, endedAt);
    assert t == s.(consumed := if b'.log == mid.log then 0 else minutes * s.rate);
    if mid.log == b.log {
      SettledAs(b.log, b'.log, s, t, [], minutes, endedAt);
    } else {
      var tx :| mid.log == b.log + [tx] && ReturnsHold(tx, s, endedAt);
      SettledAs(b.log, b'.log, s, t, [tx], minutes, endedAt);
    }
  }

  lemma {:induction false} SettledAs(log: seq<Tx>, log': seq<Tx>, s: Session, t: Session, returned: seq<Tx>,
                                     minutes: int, now: int)
    requires |returned| <= 1 && (forall tx :: tx in returned ==> ReturnsHold(tx, s, now))
    requires var charge := Settlement(|log + returned| + 1, s, minutes, now);
             (log' == log + returned && t == s.(consumed := 0))
             || (log' == log + returned + [charge] && t == s.(consumed := minutes * s.rate))
    ensures SettledWith(log, log', s, t, returned, minutes, now)
  {
    hide ReturnsHold, Settlement;
  }

  /** The log grew by the hold's return, if any, and then by the charge shown on the record, or by none and nothing is
      shown. */
  ghost predicate SettledWith(log: seq<Tx>, log': seq<Tx>, s: Session, t: Session, returned: seq<Tx>, minutes: int,
                              now: int) {
    && |returned| <= 1 && (forall tx :: tx in returned ==> ReturnsHold(tx, s, now))
    && ((log' == log + returned && t == s.(consumed := 0))
        || (log' == log + returned + [Settlement(|log| + |returned| + 1, s, minutes, now)]
            && t == s.(consumed := minutes * s.rate)))
  }

  // ---- The service ----

  class CallService {
    const ledger: MemLedger
    var sessions: map<string, Session>

    ghost function State(): Calls
      reads this, ledger
    {
      Calls(ledger.book, sessions)
    }

    constructor (ledger: MemLedger)
      requires ledger.Valid()
      ensures this.ledger == ledger && sessions == map[]
    {
      this.ledger := ledger;
      sessions := map[];
    }

    method Charge(payer: string, payee: string, coins: int, key: string, metadata: Metadata, now: int)
        returns (r: PostResult)
      requires ledger.Valid()
      modifies ledger
      ensures ledger.Valid()
      ensures (ledger.book, r) == ChargeCoins(old(ledger.book), payer, payee, coins, key, metadata, now)
    {
      hide Inv;
      var platformShare := TruncDiv(coins * PLATFORM_TAKE_BPS, 10000);
      var payeeCoins := coins - platformShare;
      var payeeDiamonds := TruncDiv(payeeCoins * DIAMONDS_PER_THOUSAND_COINS, 1000);
      var entries := [Entry(UserCoins(payer), -coins, COIN), Entry(PLATFORM_REVENUE, platformShare, COIN),
                      Entry(PLATFORM_LIABILITY, payeeCoins, COIN),
                      Entry(UserDiamonds(payee), payeeDiamonds, DIAMOND),
                      Entry(PLATFORM_DIAMOND_LIABILITY, -payeeDiamonds, DIAMOND)];
      r := ledger.PostTransaction("pv_call", key, metadata, entries, now);
    }

    method Request(caller: string, callee: string, rate: int, key: string, gates: Gates, id: string, now: int)
        returns (r: Result)
      requires ledger.Valid()
      modifies this, ledger
      ensures ledger.Valid()
      ensures (State(), r) == RequestSession(old(State()), caller, callee, rate, key, gates, id, now)
    {
      hide Inv, ChargeCoins;
      if caller == callee {
        return Err(SelfCall);
      }
      var perMinute := rate;
      if perMinute <= 0 {
        perMinute := 10;
      }
      var existing := ledger.GetTransaction(key);
      if existing.Some? {
        var m := existing.value.metadata;
        if "session_id" in m && m["session_id"].Text? && m["session_id"].text in sessions {
          return Ok(sessions[m["session_id"].text], false);
        }
      }
      if !gates.active {
        return Err(AccountNotActive);
      }
      if !gates.ageAssured {
        return Err(AgeNotAssured);
      }
      if gates.blocked {
        return Err(CalleeBlocked);
      }
      if !gates.permitted {
        return Err(CalleeNotReachable);
      }
      var s := Session(id, caller, callee, Requested, perMinute, now, None, None, 0, "");
      var hold := Charge(caller, callee, perMinute, key, HoldMetadata(id, caller, callee), now);
      if hold.Rejected? {
        return Err(Refused(hold.error));
      }
      s := s.(consumed := perMinute, holdTxId := hold.tx.id);
      sessions := sessions[id := s];
      r := Ok(s, true);
    }

    method Accept(callee: string, id: string, now: int) returns (r: Result)
      modifies this`sessions
      ensures (State(), r) == AcceptSession(old(State()), callee, id, now)
    {
      if id !in sessions {
        return Err(SessionNotFound);
      }
      var s := sessions[id];
      if s.callee != callee {
        return Err(NotParticipant);
      }
      if s.state != Requested {
        return Err(InvalidState);
      }
      s := s.(state := Accepted, acceptedAt := Some(now));
      sessions := sessions[id := s];
      r := Ok(s, false);
    }

    /** Reverse the hold, ignoring a refusal. */
    method ReverseTheHold(s: Session, reason: string, now: int)
      requires ledger.Valid()
      modifies ledger
      ensures ledger.Valid() && ledger.book == ReverseHold(old(ledger.book), s, reason, now)
    {
      hide Inv;
      if s.holdTxId == "" {
        return;
      }
      var _ := ledger.ReverseTransaction(s.holdTxId, "pv-hold-reverse-" + s.id, reason, now);
    }

    method Decline(callee: string, id: string, now: int) returns (r: Result)
      requires ledger.Valid()
      modifies this, ledger
      ensures ledger.Valid()
      ensures (State(), r) == DeclineSession(old(State()), callee, id, now)
    {
      hide Inv, ReverseHold;
      if id !in sessions {
        return Err(SessionNotFound);
      }
      var s := sessions[id];
      if s.callee != callee {
        return Err(NotParticipant);
      }
      if s.state != Requested {
        return Err(InvalidState);
      }
      s := s.(state := Declined, endedAt := Some(now));
      s := s.(consumed := 0);
      ReverseTheHold(s, "pv_call not connected", now);
      sessions := sessions[id := s];
      r := Ok(s, false);
    }

    method Settle(start: Session, acceptedAt: int, endedAt: int) returns (s: Session)
      requires ledger.Valid()
      modifies ledger
      ensures ledger.Valid()
      ensures (ledger.book, s) == SettleElapsed(old(ledger.book), start, acceptedAt, endedAt)
    {
      hide Inv, ReverseHold, ChargeCoins;
      s := start;
      var elapsed := endedAt - acceptedAt;
      var minutes := TruncDiv(elapsed, MINUTE);
      if elapsed - minutes * MINUTE > 0 || minutes == 0 {
        minutes := minutes + 1;
      }
      var cost := minutes * s.rate;
      ReverseTheHold(s, "pv_call settlement", endedAt);
      s := s.(consumed := 0);
      var charged := Charge(s.caller, s.callee, cost, "pv-settle-" + s.id, SettleMetadata(s, minutes), endedAt);
      if charged.Posted? {
        s := s.(consumed := cost);
      }
    }

    method End(account: string, id: string, now: int) returns (r: Result)
      requires ledger.Valid()
      modifies this, ledger
      ensures ledger.Valid()
      ensures (State(), r) == EndSession(old(State()), account, id, now)
    {
      hide Inv, ReverseHold, SettleElapsed;
      if id !in sessions {
        return Err(SessionNotFound);
      }
      var s := sessions[id];
      if s.caller != account && s.callee != account {
        return Err(NotParticipant);
      }
      if s.state != Requested && s.state != Accepted {
        return Err(InvalidState);
      }
      var wasAccepted := s.state == Accepted;
      s := s.(state := Ended, endedAt := Some(now));
      if wasAccepted && s.acceptedAt.Some? {
        s := Settle(s, s.acceptedAt.value, now);
      } else {
        s := s.(consumed := 0);
        ReverseTheHold(s, "pv_call not connected", now);
      }
      sessions := sessions[id := s];
      r := Ok(s, false);
    }
  }
}
