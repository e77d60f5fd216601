/** A private call accepted, declined and ended by both parties at once. Each call reads its own copy of the
    session, changes the ledger in up to two steps, and writes the whole copy back without a lock. */
module CallRaces {
  import opened Decimal
  import opened Ledger
  import opened LedgerRuns
  import opened Charges
  import opened PrivateVideo

  datatype Kind = Accepting | Declining | Ending

  datatype PC = GiveBack | Settle | Write | Done

  /** A call in progress on its own copy; `settles` is when the connected time it must bill began, if any. */
  datatype Turn = Turn(s: Session, now: int, settles: Option<int>, pc: PC)

  /** One session, the calls on it, and the ledger they share with everybody else. */
  datatype Race = Race(book: Book, record: Session, turns: map<nat, Turn>)

  /** Read the record and check the copy. */
  function Opening(s: Session, kind: Kind, account: string, now: int): Option<Turn> {
    match kind
    case Accepting =>
      if s.callee != account || s.state != Requested then None
      else Some(Turn(s.(state := Accepted, acceptedAt := Some(now)), now, None, Write))
    case Declining =>
      if s.callee != account || s.state != Requested then None
      else Some(Turn(s.(state := Declined, endedAt := Some(now)), now, None, GiveBack))
    case Ending =>
      if (s.caller != account && s.callee != account) || (s.state != Requested && s.state != Accepted) then None
      else
        var settles := if s.state == Accepted then s.acceptedAt else None;
        Some(Turn(s.(state := Ended, endedAt := Some(now)), now, settles, GiveBack))
  }

  function Reason(t: Turn): string {
    if t.settles.Some? then "pv_call settlement" else "pv_call not connected"
  }

  function Cost(s: Session, minutes: int): int {
    minutes * s.rate
  }

  /** The next atomic step of a call. */
  function Advance(b: Book, record: Session, t: Turn): (Book, Session, Turn) {
    match t.pc
    case GiveBack =>
      (ReverseHold(b, t.s, Reason(t), t.now), record,
       t.(s := t.s.(consumed := 0), pc := if t.settles.Some? then Settle else Write))
    case Settle =>
      var minutes := if t.settles.Some? then Minutes(t.now - t.settles.value) else 0;
      var (book, r) := ChargeCoins(b, t.s.caller, t.s.callee, Cost(t.s, minutes), SettleKey(t.s.id),
                                   SettleMetadata(t.s, minutes), t.now);
      (book, record, t.(s := t.s.(consumed := if r.Posted? then Cost(t.s, minutes) else 0), pc := Write))
    case Write => (b, t.s, t.(pc := Done))
    case Done => (b, record, t)
  }

  datatype Action =
    | Begin(pid: nat, kind: Kind, account: string, now: int)
    | Next(pid: nat)
    | Crash(pid: nat)
    | Traffic(op: Op)

  function Act(r: Race, a: Action): Race {
    match a
    case Begin(pid, kind, account, now) =>
      (match Opening(r.record, kind, account, now)
       case None => r
       case Some(t) => r.(turns := r.turns[pid := t]))
    case Next(pid) =>
      if pid !in r.turns then r
      else
        var (book, record, t) := Advance(r.book, r.record, r.turns[pid]);
        Race(book, record, r.turns[pid := t])
    case Crash(pid) => r.(turns := r.turns - {pid})
    case Traffic(op) => r.(book := Apply(r.book, op))
  }

  /** The clock does not run backwards over a call; the session's two keys are the service's own, nobody else
      reverses its hold, and the ledger is not restarted. */
  predicate Allowed(r: Race, a: Action) {
    match a
    case Begin(_, _, _, now) => r.record.acceptedAt.Some? ==> r.record.acceptedAt.value <= now
    case Traffic(op) =>
      && !op.RestartOp? && op.key != ReverseKey(r.record.id) && op.key != SettleKey(r.record.id)
      && (op.ReverseOp? ==> op.originalId != r.record.holdTxId)
    case _ => true
  }

  function RunRace(r: Race, actions: seq<Action>): Race {
    if actions == [] then r else Act(RunRace(r, actions[..|actions| - 1]), actions[|actions| - 1])
  }

  predicate AllAllowed(r: Race, actions: seq<Action>) {
    forall i :: 0 <= i < |actions| ==> Allowed(RunRace(r, actions[..i]), actions[i])
  }

  // ---- What any interleaving keeps ----

  function CallerCoins(s: Session): BalanceKey {
    BalanceKey(UserCoins(s.caller), COIN)
  }

  /** The coins that settlements of this session took from the caller. */
  function Billed(log: seq<Tx>, s: Session): int {
    if log == [] then 0
    else
      var last := log[|log| - 1];
      Billed(log[..|log| - 1], s) - if last.key == SettleKey(s.id) then EntrySum(last.entries, CallerCoins(s)) else 0
  }

  /** A charge for some number of started minutes. */
  ghost predicate ChargesMinutes(es: seq<Entry>, s: Session) {
    exists m: nat :: m >= 1 && es == ChargeEntries(s.caller, s.callee, Cost(s, m))
  }

  function Unreturned(b: Book, s: Session, k: BalanceKey): int {
    if s.holdTxId in b.reversals then 0 else EntrySum(ChargeEntries(s.caller, s.callee, s.rate), k)
  }

  ghost predicate Nets(b: Book, s: Session) {
    forall k :: NetEffect(b.log, s, k) == EntrySum(ChargeEntries(s.caller, s.callee, Billed(b.log, s)), k)
        + Unreturned(b, s, k)
  }

  ghost predicate BillingOK(b: Book, s: Session) {
    && s.rate > 0 && (exists i: nat :: HeldAt(b.log, s, i))
    && (KeyUsed(b, ReverseKey(s.id)) <==> s.holdTxId in b.reversals)
    && (forall i :: 0 <= i < |b.log| && b.log[i].key == SettleKey(s.id) ==> ChargesMinutes(b.log[i].entries, s))
    && Nets(b, s)
  }

  /** Two copies of one session: everything fixed when it was opened agrees. */
  predicate SameCall(s: Session, t: Session) {
    s.id == t.id && s.caller == t.caller && s.callee == t.callee && s.rate == t.rate && s.holdTxId == t.holdTxId
  }

  predicate TurnOK(record: Session, t: Turn) {
    && SameCall(t.s, record)
    && (t.settles.Some? ==> t.settles.value <= t.now)
    && (t.pc == Settle ==> t.settles.Some?)
  }

  ghost predicate RaceOK(r: Race) {
    && Inv(r.book) && r.book.forgotten == 0 && BillingOK(r.book, r.record)
    && forall p :: p in r.turns ==> TurnOK(r.record, r.turns[p])
  }

  lemma {:induction false} BilledAppend(log: seq<Tx>, tx: Tx, s: Session)
    ensures Billed(log + [tx], s) == Billed(log, s)
            - if tx.key == SettleKey(s.id) then EntrySum(tx.entries, CallerCoins(s)) else 0
  {
    assert (log + [tx])[..|log|] == log;
  }

  lemma {:induction false} NothingBilled(log: seq<Tx>, s: Session)
    requires forall i :: 0 <= i < |log| ==> log[i].key != SettleKey(s.id)
    ensures Billed(log, s) == 0
  {
    if log != [] {
      NothingBilled(log[..|log| - 1], s);
    }
  }

  lemma {:induction false} SameBilling(b: Book, s: Session, t: Session)
    requires BillingOK(b, s) && SameCall(s, t)
    ensures BillingOK(b, t) && Billed(b.log, t) == Billed(b.log, s)
  {
    hide PlatformShare, Diamonds, KeyIndex;
    SameBilled(b.log, s, t);
    var i: nat :| HeldAt(b.log, s, i);
    assert HeldAt(b.log, t, i);
    forall j | 0 <= j < |b.log| && b.log[j].key == SettleKey(t.id) ensures ChargesMinutes(b.log[j].entries, t) {
      var m: nat :| m >= 1 && b.log[j].entries == ChargeEntries(s.caller, s.callee, Cost(s, m));
      assert Cost(t, m) == Cost(s, m);
    }
    forall k ensures NetEffect(b.log, t, k) == EntrySum(ChargeEntries(t.caller, t.callee, Billed(b.log, t)), k)
        + Unreturned(b, t, k) {
      SameTransactions(b.log, s, t, k);
      assert NetEffect(b.log, s, k) == EntrySum(ChargeEntries(s.caller, s.callee, Billed(b.log, s)), k)
          + Unreturned(b, s, k);
    }
  }

  lemma {:induction false} SameBilled(log: seq<Tx>, s: Session, t: Session)
    requires SameCall(s, t)
    ensures Billed(log, s) == Billed(log, t)
  {
    if log != [] {
      SameBilled(log[..|log| - 1], s, t);
    }
  }

  lemma {:induction false} UsedAppend(b: Book, b': Book, tx: Tx, key: string)
    requires b.forgotten == b'.forgotten == 0 && b'.log == b.log + [tx]
    ensures KeyUsed(b', key) <==> KeyUsed(b, key) || tx.key == key
  {
    hide KeyIndex;
    KeyFree(b, key);
    KeyFree(b', key);
    assert b'.log[|b.log|] == tx;
    assert forall i :: 0 <= i < |b.log| ==> b'.log[i] == b.log[i];
  }

  /** Other traffic leaves the session's account alone. */
  lemma {:induction false} TrafficKeeps(b: Book, b': Book, tx: Tx, s: Session)
    requires Inv(b) && b.forgotten == b'.forgotten == 0 && BillingOK(b, s)
    requires b'.log == b.log + [tx] && tx.id == TxId(|b.log| + 1) && tx.key != ReverseKey(s.id)
             && tx.key != SettleKey(s.id)
    requires s.holdTxId in b'.reversals <==> s.holdTxId in b.reversals
    ensures BillingOK(b', s)
  {
    hide Inv, PlatformShare, Diamonds, KeyIndex, ChargesMinutes;
    var i: nat :| HeldAt(b.log, s, i);
    assert HeldAt(b'.log, s, i);
    HeldIdOld(b, s, i);
    UsedAppend(b, b', tx, ReverseKey(s.id));
    BilledAppend(b.log, tx, s);
    forall k ensures NetEffect(b'.log, s, k)
        == EntrySum(ChargeEntries(s.caller, s.callee, Billed(b'.log, s)), k) + Unreturned(b', s, k) {
      NetEffectAppend(b.log, tx, s, k);
      assert NetEffect(b.log, s, k) == EntrySum(ChargeEntries(s.caller, s.callee, Billed(b.log, s)), k)
          + Unreturned(b, s, k);
    }
  }

  lemma {:induction false} HeldIdOld(b: Book, s: Session, i: nat)
    requires Inv(b) && HeldAt(b.log, s, i)
    ensures s.holdTxId != TxId(|b.log| + 1)
  {
    hide Names;
    OldId(b, i);
  }

  /** Giving the hold back, the first time or again. */
  lemma {:induction false} GiveBackKeeps(b: Book, s: Session, reason: string, now: int)
    requires Inv(b) && b.forgotten == 0 && BillingOK(b, s)
    ensures var b' := ReverseHold(b, s, reason, now);
            && Inv(b') && b'.forgotten == 0 && BillingOK(b', s) && Billed(b'.log, s) == Billed(b.log, s)
            && (s.holdTxId in b'.reversals <==> s.holdTxId in b.reversals || Covered(b, s))
            && (KeyUsed(b', SettleKey(s.id)) <==> KeyUsed(b, SettleKey(s.id)))
  {
    hide Inv, PlatformShare, Diamonds, KeyIndex, Covered, ReverseHold, ChargesMinutes, IdIndex;
    var i: nat :| HeldAt(b.log, s, i);
    var b' := ReverseHold(b, s, reason, now);
    if KeyUsed(b, ReverseKey(s.id)) {
      ReplayedGiveBack(b, s, reason, now);
    } else {
      ReverseHeld(b, s, i, reason, now);
      if Covered(b, s) {
        var tx := HoldReversal(b, s, reason, now);
        assert HeldAt(b'.log, s, i);
        CallKeysDistinct(s.id, s.id);
        UsedAppend(b, b', tx, ReverseKey(s.id));
        UsedAppend(b, b', tx, SettleKey(s.id));
        BilledAppend(b.log, tx, s);
        forall k ensures NetEffect(b'.log, s, k)
            == EntrySum(ChargeEntries(s.caller, s.callee, Billed(b'.log, s)), k) + Unreturned(b', s, k) {
          NetEffectAppend(b.log, tx, s, k);
          NegatedSum(ChargeEntries(s.caller, s.callee, s.rate), k);
          assert NetEffect(b.log, s, k) == EntrySum(ChargeEntries(s.caller, s.callee, Billed(b.log, s)), k)
              + Unreturned(b, s, k);
        }
      }
    }
  }

  lemma {:induction false} ReplayedGiveBack(b: Book, s: Session, reason: string, now: int)
    requires KeyUsed(b, ReverseKey(s.id))
    ensures ReverseHold(b, s, reason, now) == b
  {
    hide KeyIndex, Post;
  }

  /** Charging for the connected time, the first time or again. */
  lemma {:induction false} SettleKeeps(b: Book, s: Session, minutes: nat, metadata: Metadata, now: int)
    requires Inv(b) && b.forgotten == 0 && BillingOK(b, s) && minutes >= 1
    ensures var (b', r) := ChargeCoins(b, s.caller, s.callee, Cost(s, minutes), SettleKey(s.id), metadata, now);
            && Inv(b') && b'.forgotten == 0 && BillingOK(b', s) && b'.reversals == b.reversals
            && (if KeyUsed(b, SettleKey(s.id)) then r.Posted? && b' == b
                else Billed(b.log, s) == 0 && Billed(b'.log, s) == (if r.Posted? then Cost(s, minutes) else 0)
                     && (KeyUsed(b', SettleKey(s.id)) <==> r.Posted?)
                     && (r.Posted? <==> LogBalance(b.log, CallerCoins(s)) >= Cost(s, minutes)))
  {
    hide Inv, PlatformShare, Diamonds, KeyIndex, LogBalance, ChargeCoins;
    var es := ChargeEntries(s.caller, s.callee, Cost(s, minutes));
    if KeyUsed(b, SettleKey(s.id)) {
      ReplayedCharge(b, s, Cost(s, minutes), metadata, now);
    } else {
      CostPositive(minutes, s.rate);
      ChargeResult(b, s.caller, s.callee, Cost(s, minutes), SettleKey(s.id), metadata, now);
      KeyFree(b, SettleKey(s.id));
      NothingBilled(b.log, s);
      var (b', r) := ChargeCoins(b, s.caller, s.callee, Cost(s, minutes), SettleKey(s.id), metadata, now);
      if r.Posted? {
        SettledOnce(b, b', r.tx, s, minutes);
      }
    }
  }

  lemma {:induction false} ReplayedCharge(b: Book, s: Session, coins: int, metadata: Metadata, now: int)
    requires KeyUsed(b, SettleKey(s.id))
    ensures var (b', r) := ChargeCoins(b, s.caller, s.callee, coins, SettleKey(s.id), metadata, now);
            b' == b && r.Posted?
  {
    hide KeyIndex, Balanced, FirstBreach, PlatformShare, Diamonds;
  }

  lemma {:induction false} SettledOnce(b: Book, b': Book, tx: Tx, s: Session, minutes: nat)
    requires b.forgotten == b'.forgotten == 0 && BillingOK(b, s) && Billed(b.log, s) == 0 && minutes >= 1
    requires b'.log == b.log + [tx] && b'.reversals == b.reversals && tx.key == SettleKey(s.id)
    requires tx.entries == ChargeEntries(s.caller, s.callee, Cost(s, minutes))
    ensures BillingOK(b', s) && Billed(b'.log, s) == Cost(s, minutes) && KeyUsed(b', SettleKey(s.id))
  {
    hide PlatformShare, Diamonds, KeyIndex, Cost;
    var i: nat :| HeldAt(b.log, s, i);
    assert HeldAt(b'.log, s, i);
    CallKeysDistinct(s.id, s.id);
    UsedAppend(b, b', tx, ReverseKey(s.id));
    UsedAppend(b, b', tx, SettleKey(s.id));
    BilledAppend(b.log, tx, s);
    ChargeTouchesOnce(s.caller, s.callee, Cost(s, minutes));
    OnceSum(tx.entries, 0);
    forall j | 0 <= j < |b'.log| && b'.log[j].key == SettleKey(s.id) ensures ChargesMinutes(b'.log[j].entries, s) {
      if j < |b.log| { assert b'.log[j] == b.log[j]; }
    }
    forall k ensures NetEffect(b'.log, s, k)
        == EntrySum(ChargeEntries(s.caller, s.callee, Billed(b'.log, s)), k) + Unreturned(b', s, k) {
      NetEffectAppend(b.log, tx, s, k);
      ZeroCharge(s.caller, s.callee, k);
      assert NetEffect(b.log, s, k) == EntrySum(ChargeEntries(s.caller, s.callee, Billed(b.log, s)), k)
          + Unreturned(b, s, k);
    }
  }

  /** One step of a call on any copy, however stale. */
  lemma {:induction false} AdvanceKeeps(b: Book, record: Session, t: Turn)
    requires Inv(b) && b.forgotten == 0 && BillingOK(b, record) && TurnOK(record, t)
    ensures var (b', record', t') := Advance(b, record, t);
            && Inv(b') && b'.forgotten == 0 && BillingOK(b', record') && TurnOK(record', t')
            && SameCall(record', record)
  {
    hide Inv, BillingOK, ReverseHold, ChargeCoins, Minutes, Cost;
    SameBilling(b, record, t.s);
    var (b', record', t') := Advance(b, record, t);
    match t.pc
    case GiveBack =>
      GiveBackKeeps(b, t.s, Reason(t), t.now);
      SameBilling(b', t.s, record);
    case Settle =>
      var minutes := Minutes(t.now - t.settles.value);
      MinutesAreCeiling(t.now - t.settles.value);
      SettleKeeps(b, t.s, minutes, SettleMetadata(t.s, minutes), t.now);
      SameBilling(b', t.s, record);
    case Write =>
    case Done =>
  }

  lemma {:induction false} ActKeeps(r: Race, a: Action)
    requires RaceOK(r) && Allowed(r, a)
    ensures RaceOK(Act(r, a)) && SameCall(Act(r, a).record, r.record)
  {
    hide Inv, BillingOK, Advance, Apply;
    match a
    case Begin(pid, kind, account, now) =>
    case Next(pid) =>
      if pid in r.turns { AdvanceKeeps(r.book, r.record, r.turns[pid]); }
    case Crash(_) =>
    case Traffic(op) =>
      ApplyAddsOne(r.book, op);
      var b' := Apply(r.book, op);
      if b' != r.book { TrafficKeeps(r.book, b', b'.log[|r.book.log|], r.record); }
  }

  /** An open session on its own hold, nobody yet at work on it: where every race starts. */
  ghost predicate Untouched(r: Race) {
    Inv(r.book) && r.book.forgotten == 0 && SessionOK(r.book, r.record) && !Over(r.record.state) && r.turns == map[]
  }

  lemma {:induction false} UntouchedOK(r: Race)
    requires Untouched(r)
    ensures RaceOK(r) && Billed(r.book.log, r.record) == 0
  {
    hide Inv, PlatformShare, Diamonds, KeyIndex, ChargesMinutes;
    var b, s := r.book, r.record;
    KeyFree(b, ReverseKey(s.id));
    NothingBilled(b.log, s);
    forall k ensures NetEffect(b.log, s, k) == EntrySum(ChargeEntries(s.caller, s.callee, Billed(b.log, s)), k)
        + Unreturned(b, s, k) {
      ZeroCharge(s.caller, s.callee, k);
      assert NetEffect(b.log, s, k) == Owed(b, s, k);
    }
  }

  lemma {:induction false} RaceKeeps(r: Race, actions: seq<Action>)
    requires Untouched(r) && AllAllowed(r, actions)
    ensures RaceOK(RunRace(r, actions)) && SameCall(RunRace(r, actions).record, r.record)
  {
    hide Untouched, RaceOK, Act, Allowed;
    if actions == [] {
      UntouchedOK(r);
    } else {
      var last := |actions| - 1;
      forall i | 0 <= i < last ensures Allowed(RunRace(r, actions[..last][..i]), actions[..last][i]) {
        assert actions[..last][..i] == actions[..i];
      }
      RaceKeeps(r, actions[..last]);
      ActKeeps(RunRace(r, actions[..last]), actions[last]);
    }
  }

  lemma {:induction false} BilledByOne(log: seq<Tx>, s: Session, i: nat)
    requires i < |log| && log[i].key == SettleKey(s.id)
    requires forall j :: 0 <= j < |log| && log[j].key == SettleKey(s.id) ==> j == i
    ensures Billed(log, s) == -EntrySum(log[i].entries, CallerCoins(s))
  {
    var last := |log| - 1;
    if i == last {
      NothingBilled(log[..last], s);
    } else {
      BilledByOne(log[..last], s, i);
    }
  }

  /** However many times, from whatever copies and in whatever order both parties accept, decline and end a call,
      with crashes anywhere: the hold is given back at most once, at most one settlement is charged, it is for a
      whole number of started minutes, and on every account the session's transactions net to that settlement
      and the hold if it was not given back. */
  lemma {:induction false} BilledAtMostOnce(r: Race, actions: seq<Action>, k: BalanceKey)
    requires Untouched(r) && AllAllowed(r, actions)
    ensures var r' := RunRace(r, actions);
            var log, s := r'.book.log, r'.record;
            && NetEffect(log, s, k) == EntrySum(ChargeEntries(s.caller, s.callee, Billed(log, s)), k)
                + Unreturned(r'.book, s, k)
            && (Billed(log, s) == 0 || exists m: nat :: m >= 1 && Billed(log, s) == Cost(s, m))
            && (forall i, j :: 0 <= i < |log| && 0 <= j < |log| && log[i].key == log[j].key && IsCallKey(log[i].key)
                  ==> i == j)
  {
    hide Untouched, AllAllowed, RunRace, PlatformShare, Diamonds, LogOK, ReversalsOK, KeyIndex, Cost;
    RaceKeeps(r, actions);
    var r' := RunRace(r, actions);
    var log, s := r'.book.log, r'.record;
    if exists i :: 0 <= i < |log| && log[i].key == SettleKey(s.id) {
      var i: nat :| i < |log| && log[i].key == SettleKey(s.id);
      BilledByOne(log, s, i);
      var m: nat :| m >= 1 && log[i].entries == ChargeEntries(s.caller, s.callee, Cost(s, m));
      ChargeTouchesOnce(s.caller, s.callee, Cost(s, m));
      OnceSum(log[i].entries, 0);
    } else {
      NothingBilled(log, s);
    }
  }

  // ---- When the record tells the truth ----

  /** The record's consumed coins are what the session's transactions cost, on all accounts. */
  ghost predicate Truthful(r: Race) {
    forall k :: NetEffect(r.book.log, r.record, k)
        == EntrySum(ChargeEntries(r.record.caller, r.record.callee, r.record.consumed), k)
  }

  /** Once the hold is given back, the record is right exactly when it shows the coins billed. */
  lemma {:induction false} TruthfulExactly(r: Race)
    requires RaceOK(r) && r.record.holdTxId in r.book.reversals
    ensures Truthful(r) <==> r.record.consumed == Billed(r.book.log, r.record)
  {
    hide Inv, PlatformShare, Diamonds, NetEffect, Billed, KeyIndex, ChargesMinutes;
    var s := r.record;
    var billed := Billed(r.book.log, s);
    ChargeTouchesOnce(s.caller, s.callee, s.consumed);
    OnceSum(ChargeEntries(s.caller, s.callee, s.consumed), 0);
    ChargeTouchesOnce(s.caller, s.callee, billed);
    OnceSum(ChargeEntries(s.caller, s.callee, billed), 0);
    var k := CallerCoins(s);
    assert NetEffect(r.book.log, s, k) == EntrySum(ChargeEntries(s.caller, s.callee, billed), k)
        + Unreturned(r.book, s, k);
    if s.consumed == billed {
      forall k ensures NetEffect(r.book.log, s, k) == EntrySum(ChargeEntries(s.caller, s.callee, s.consumed), k) {
        assert NetEffect(r.book.log, s, k) == EntrySum(ChargeEntries(s.caller, s.callee, billed), k)
            + Unreturned(r.book, s, k);
      }
    }
  }

  function Finish(r: Race, pid: nat): Race {
    Act(Act(Act(r, Next(pid)), Next(pid)), Next(pid))
  }

  function MinutesOf(t: Turn): int {
    if t.settles.Some? then Minutes(t.now - t.settles.value) else 0
  }

  /** Run to its end in one go, a settling call does what it does when it is alone. */
  lemma {:induction false} FinishIsSettling(r: Race, pid: nat)
    requires pid in r.turns && r.turns[pid].pc == GiveBack && r.turns[pid].settles.Some?
    ensures var t := r.turns[pid];
            var (b', settled) := SettleElapsed(r.book, t.s, t.settles.value, t.now);
            Finish(r, pid) == Race(b', settled, r.turns[pid := t.(s := settled, pc := Done)])
  {
    hide ReverseHold, ChargeCoins, Minutes;
    var t := r.turns[pid];
    var r1 := Act(r, Next(pid));
    assert r1.book == ReverseHold(r.book, t.s, "pv_call settlement", t.now);
    var r2 := Act(r1, Next(pid));
    var minutes := Minutes(t.now - t.settles.value);
    assert SettleMetadata(r1.turns[pid].s, minutes) == SettleMetadata(t.s, minutes);
    var r3 := Act(r2, Next(pid));
    assert r3.turns == r.turns[pid := r3.turns[pid]];
  }

  function Serial(w: Calls, kind: Kind, account: string, id: string, now: int): (Calls, Result) {
    match kind
    case Accepting => AcceptSession(w, account, id, now)
    case Declining => DeclineSession(w, account, id, now)
    case Ending => EndSession(w, account, id, now)
  }

  /** A call that nothing overtakes is the serialised call: it goes through on the same conditions, and leaves the
      same ledger and the same record. */
  lemma {:induction false} AloneIsSerial(w: Calls, kind: Kind, account: string, id: string, now: int)
    requires id in w.sessions
    ensures var opening := Opening(w.sessions[id], kind, account, now);
            var (w', r) := Serial(w, kind, account, id, now);
            && (r.Ok? <==> opening.Some?)
            && (r.Ok? ==> var alone := Finish(Race(w.book, w.sessions[id], map[0 := opening.value]), 0);
                          w' == Calls(alone.book, w.sessions[id := alone.record]) && r.session == alone.record)
  {
    hide ReverseHold, SettleElapsed;
    var opening := Opening(w.sessions[id], kind, account, now);
    if opening.Some? {
      var t := opening.value;
      if t.settles.Some? {
        FinishIsSettling(Race(w.book, w.sessions[id], map[0 := t]), 0);
      } else {
        SameReverse(w.book, t.s, t.s.(consumed := 0), "pv_call not connected", now);
      }
    }
  }

  /** What a settling call leaves: the hold given back, one settlement on the books, and a record that shows what
      this call would have charged even if an earlier call had already been paid. */
  lemma {:induction false} SettlingResult(b: Book, s: Session, acceptedAt: int, endedAt: int)
    requires Inv(b) && b.forgotten == 0 && BillingOK(b, s) && acceptedAt <= endedAt
    requires Covered(b, s) || s.holdTxId in b.reversals
    ensures var (b', settled) := SettleElapsed(b, s, acceptedAt, endedAt);
            var cost := Cost(s, Minutes(endedAt - acceptedAt));
            var funds := LogBalance(ReverseHold(b, s, "pv_call settlement", endedAt).log, CallerCoins(s));
            && Inv(b') && b'.forgotten == 0 && BillingOK(b', settled) && s.holdTxId in b'.reversals
            && SameCall(settled, s)
            && (if KeyUsed(b, SettleKey(s.id))
                then settled.consumed == cost && Billed(b'.log, settled) == Billed(b.log, s)
                else settled.consumed == Billed(b'.log, settled) == (if funds >= cost then cost else 0))
            && (KeyUsed(b', SettleKey(s.id)) <==> KeyUsed(b, SettleKey(s.id)) || funds >= cost)
  {
    hide Inv, BillingOK, ReverseHold, ChargeCoins, Minutes, Cost, KeyIndex, Covered, Billed, LogBalance;
    var minutes := Minutes(endedAt - acceptedAt);
    MinutesAreCeiling(endedAt - acceptedAt);
    GiveBackKeeps(b, s, "pv_call settlement", endedAt);
    CostIs(s, minutes);
    SettleKeeps(ReverseHold(b, s, "pv_call settlement", endedAt), s, minutes, SettleMetadata(s, minutes), endedAt);
    var (b', settled) := SettleElapsed(b, s, acceptedAt, endedAt);
    SameBilling(b', s, settled);
  }

  lemma {:induction false} CostIs(s: Session, minutes: int)
    ensures Cost(s, minutes) == minutes * s.rate
  {
  }

  /** Both parties end a connected call, each having read it before the other wrote, and finish one after the other.
      If the hold can be given back and the caller can pay the first, the record ends up true exactly when both
      calls counted the same minutes: the first is what was charged, the second is what is recorded. */
  lemma {:induction false} BothEndExactly(r: Race, first: Turn, second: Turn)
    requires Untouched(r) && Covered(r.book, r.record)
    requires first.settles.Some? && second.settles.Some? && first.pc == second.pc == GiveBack
    requires TurnOK(r.record, first) && TurnOK(r.record, second)
    requires LogBalance(r.book.log, CallerCoins(r.record)) + r.record.rate >= Cost(r.record, MinutesOf(first))
    ensures var r' := Finish(Finish(r.(turns := map[0 := first, 1 := second]), 0), 1);
            && Billed(r'.book.log, r'.record) == Cost(r.record, MinutesOf(first))
            && r'.record.consumed == Cost(r.record, MinutesOf(second))
            && (Truthful(r') <==> MinutesOf(first) == MinutesOf(second))
  {
    hide Inv, BillingOK, Untouched, SessionOK, SettleElapsed, Minutes, Cost, KeyIndex, Covered, Billed, LogBalance,
        Truthful, Finish;
    var both := r.(turns := map[0 := first, 1 := second]);
    StartsOpen(r);
    SameBilling(r.book, r.record, first.s);
    SameCovered(r.book, r.record, first.s);
    FinishIsSettling(both, 0);
    SettlingResult(r.book, first.s, first.settles.value, first.now);
    var r1 := Finish(both, 0);
    FundsFirst(r, first);
    SameBilling(r1.book, r1.record, second.s);
    FinishIsSettling(r1, 1);
    SettlingResult(r1.book, second.s, second.settles.value, second.now);
    var r2 := Finish(r1, 1);
    CostOrder(r.record, first.s, second.s, MinutesOf(first), MinutesOf(second));
    SameBilling(r2.book, r2.record, r.record);
    TruthfulExactly(r2);
  }

  lemma {:induction false} StartsOpen(r: Race)
    requires Untouched(r)
    ensures Inv(r.book) && r.book.forgotten == 0 && BillingOK(r.book, r.record)
            && !KeyUsed(r.book, SettleKey(r.record.id))
    ensures r.record.rate > 0
  {
    hide Inv, BillingOK, NetEffect, Owed, KeyIndex;
    UntouchedOK(r);
    KeyFree(r.book, SettleKey(r.record.id));
  }

  lemma {:induction false} SameCovered(b: Book, s: Session, t: Session)
    requires SameCall(s, t)
    ensures Covered(b, s) <==> Covered(b, t)
  {
  }

  lemma {:induction false} FundsFirst(r: Race, t: Turn)
    requires Untouched(r) && Covered(r.book, r.record) && TurnOK(r.record, t)
    ensures LogBalance(ReverseHold(r.book, t.s, "pv_call settlement", t.now).log, CallerCoins(r.record))
            == LogBalance(r.book.log, CallerCoins(r.record)) + r.record.rate
  {
    hide Inv, SessionOK, Covered, LogBalance, ReverseHold;
    SameReverse(r.book, r.record, t.s, "pv_call settlement", t.now);
    FundsAfterReverse(r.book, r.record, "pv_call settlement", t.now);
  }

  lemma {:induction false} CostOrder(s: Session, t: Session, u: Session, m: int, n: int)
    requires SameCall(t, s) && SameCall(u, s) && s.rate > 0
    ensures Cost(t, m) == Cost(s, m) && Cost(u, n) == Cost(s, n)
    ensures Cost(s, m) == Cost(s, n) <==> m == n
  {
    if m < n { assert (n - m) * s.rate > 0; }
    if n < m { assert (m - n) * s.rate > 0; }
  }
}
