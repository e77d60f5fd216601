/** When the record of a private call agrees with the ledger, over every schedule of the calls on it. */
module RaceTruth {
  import opened Decimal
  import opened Ledger
  import opened LedgerRuns
  import opened Charges
  import opened PrivateVideo
  import opened CallRaces

  // ---- Who wrote last, and whose minutes were charged ----

  /** The call that last wrote the record, and the call whose settlement the ledger accepted. */
  datatype Story = Story(writer: Option<Turn>, settler: Option<Turn>)

  function Noted(story: Story, before: Race, a: Action): Story {
    if !a.Next? || a.pid !in before.turns then story
    else
      var t, key := before.turns[a.pid], SettleKey(before.record.id);
      if t.pc == Write then story.(writer := Some(t))
      else if t.pc == Settle && !KeyUsed(before.book, key) && KeyUsed(Act(before, a).book, key)
      then story.(settler := Some(t))
      else story
  }

  function Told(r: Race, actions: seq<Action>): Story {
    if actions == [] then Story(None, None)
    else
      var earlier := actions[..|actions| - 1];
      Noted(Told(r, earlier), RunRace(r, earlier), actions[|actions| - 1])
  }

  /** The minutes a record shows, by its last writer. An untouched or accepted call shows the first minute; one
      that was closed before it connected shows none; an ended one shows its own minutes, or none if its charge
      was refused. */
  function Shown(writer: Option<Turn>): int {
    match writer
    case None => 1
    case Some(t) =>
      if t.s.state == Accepted then 1
      else if t.settles.None? || t.s.consumed == 0 then 0
      else MinutesOf(t)
  }

  function Charged(settler: Option<Turn>): int {
    if settler.None? then 0 else MinutesOf(settler.value)
  }

  // ---- The record follows the story ----

  ghost predicate TurnTold(t: Turn) {
    && t.s.state != Requested
    && (t.s.state == Accepted ==> t.pc in {Write, Done})
    && (t.pc == Write ==> t.s.consumed == Cost(t.s, Shown(Some(t))))
  }

  ghost predicate StoryOK(r: Race, story: Story) {
    && RaceOK(r)
    && (KeyUsed(r.book, SettleKey(r.record.id)) <==> story.settler.Some?)
    && Billed(r.book.log, r.record) == Cost(r.record, Charged(story.settler))
    && Charged(story.settler) >= 0
    && r.record.consumed == Cost(r.record, Shown(story.writer))
    && (r.record.state == Requested ==> story.writer.None?)
    && (forall p :: p in r.turns ==> TurnTold(r.turns[p]))
  }

  lemma {:induction false} CostZero(s: Session)
    ensures Cost(s, 0) == 0 && Cost(s, 1) == s.rate
  {
  }

  lemma {:induction false} CostSame(s: Session, t: Session, minutes: int)
    requires SameCall(s, t)
    ensures Cost(s, minutes) == Cost(t, minutes)
  {
  }

  lemma {:induction false} SettleTold(r: Race, story: Story, pid: nat)
    requires StoryOK(r, story) && pid in r.turns && r.turns[pid].pc == Settle
    ensures StoryOK(Act(r, Next(pid)), Noted(story, r, Next(pid)))
  {
    hide Inv, BillingOK, ChargeCoins, Minutes, Cost, KeyIndex, Billed, LogBalance;
    var t, s := r.turns[pid], r.record;
    var minutes := Minutes(t.now - t.settles.value);
    MinutesAreCeiling(t.now - t.settles.value);
    SameBilling(r.book, s, t.s);
    SettleKeeps(r.book, t.s, minutes, SettleMetadata(t.s, minutes), t.now);
    var r' := Act(r, Next(pid));
    SameBilling(r'.book, t.s, s);
    AdvanceKeeps(r.book, s, t);
    var u := r'.turns[pid].s;
    CostSame(s, t.s, minutes);
    CostSame(t.s, u, minutes);
    CostZero(u);
    CostZero(s);
    assert TurnTold(r'.turns[pid]);
  }

  lemma {:induction false} GiveBackTold(r: Race, story: Story, pid: nat)
    requires StoryOK(r, story) && pid in r.turns && r.turns[pid].pc == GiveBack
    ensures StoryOK(Act(r, Next(pid)), Noted(story, r, Next(pid)))
  {
    hide Inv, BillingOK, ReverseHold, Minutes, Cost, KeyIndex, Billed, Covered;
    var t, s := r.turns[pid], r.record;
    SameBilling(r.book, s, t.s);
    GiveBackKeeps(r.book, t.s, Reason(t), t.now);
    AdvanceKeeps(r.book, s, t);
    var r' := Act(r, Next(pid));
    SameBilling(r'.book, t.s, s);
    CostZero(r'.turns[pid].s);
    assert TurnTold(r'.turns[pid]);
  }

  lemma {:induction false} WriteTold(r: Race, story: Story, pid: nat)
    requires StoryOK(r, story) && pid in r.turns && r.turns[pid].pc in {Write, Done}
    ensures StoryOK(Act(r, Next(pid)), Noted(story, r, Next(pid)))
  {
    hide Inv, BillingOK, Minutes, Cost, KeyIndex, Billed;
    var t, s := r.turns[pid], r.record;
    SameBilling(r.book, s, t.s);
    AdvanceKeeps(r.book, s, t);
    CostSame(s, t.s, Charged(story.settler));
  }

  lemma {:induction false} OpeningTold(r: Race, story: Story, kind: Kind, account: string, now: int)
    requires StoryOK(r, story) && Opening(r.record, kind, account, now).Some?
    ensures TurnTold(Opening(r.record, kind, account, now).value)
  {
    CostZero(r.record);
  }

  lemma {:induction false} TrafficTold(r: Race, story: Story, op: Op)
    requires StoryOK(r, story) && Allowed(r, Traffic(op))
    ensures StoryOK(Act(r, Traffic(op)), story)
  {
    hide Inv, BillingOK, Cost, KeyIndex, Billed, Apply, LogBalance;
    ApplyAddsOne(r.book, op);
    ActKeeps(r, Traffic(op));
    var b' := Apply(r.book, op);
    if b' != r.book {
      UsedAppend(r.book, b', b'.log[|r.book.log|], SettleKey(r.record.id));
      BilledAppend(r.book.log, b'.log[|r.book.log|], r.record);
    }
  }

  lemma {:induction false} NotedKeeps(r: Race, story: Story, a: Action)
    requires StoryOK(r, story) && Allowed(r, a)
    ensures StoryOK(Act(r, a), Noted(story, r, a))
  {
    match a
    case Begin(pid, kind, account, now) =>
      hide BillingOK, Inv, Cost, KeyIndex, Billed, TurnTold;
      ActKeeps(r, a);
      if Opening(r.record, kind, account, now).Some? { OpeningTold(r, story, kind, account, now); }
    case Next(pid) =>
      hide RaceOK, StoryOK, TurnTold, Advance, KeyIndex;
      if pid in r.turns {
        match r.turns[pid].pc
        case GiveBack => GiveBackTold(r, story, pid);
        case Settle => SettleTold(r, story, pid);
        case Write => WriteTold(r, story, pid);
        case Done => WriteTold(r, story, pid);
      }
    case Crash(_) =>
      hide BillingOK, Inv, Cost, KeyIndex, Billed, TurnTold;
    case Traffic(op) => TrafficTold(r, story, op);
  }

  lemma {:induction false} StoryStarts(r: Race)
    requires Untouched(r)
    ensures StoryOK(r, Story(None, None))
  {
    hide Inv, BillingOK, KeyIndex, NetEffect;
    UntouchedOK(r);
    StartsOpen(r);
    CostZero(r.record);
  }

  lemma {:induction false} StoryKeeps(r: Race, actions: seq<Action>)
    requires Untouched(r) && AllAllowed(r, actions)
    ensures StoryOK(RunRace(r, actions), Told(r, actions))
  {
    hide Untouched, StoryOK, Act, Allowed, Noted;
    if actions == [] {
      StoryStarts(r);
    } else {
      var last := |actions| - 1;
      forall i | 0 <= i < last ensures Allowed(RunRace(r, actions[..last][..i]), actions[..last][i]) {
        assert actions[..last][..i] == actions[..i];
      }
      StoryKeeps(r, actions[..last]);
      NotedKeeps(RunRace(r, actions[..last]), Told(r, actions[..last]), actions[last]);
    }
  }

  // ---- When the record is right ----

  /** One charge for both parts rounds as the two charges do. */
  predicate RoundsEvenly(a: int, b: int) {
    PlatformShare(a + b) == PlatformShare(a) + PlatformShare(b) && Diamonds(a + b) == Diamonds(a) + Diamonds(b)
  }

  /** What one charge moves on an account. */
  lemma {:induction false} ChargeSum(payer: string, payee: string, coins: int, k: BalanceKey)
    ensures var es := ChargeEntries(payer, payee, coins);
            && EntrySum(es, k) == (if k == KeyOf(es[0]) then -coins
                                   else if k == KeyOf(es[1]) then PlatformShare(coins)
                                   else if k == KeyOf(es[2]) then coins - PlatformShare(coins)
                                   else if k == KeyOf(es[3]) then Diamonds(coins)
                                   else if k == KeyOf(es[4]) then -Diamonds(coins) else 0)
            && KeyOf(es[0]) != KeyOf(es[1]) && KeyOf(es[3]) != KeyOf(es[0]) && KeyOf(es[3]) != KeyOf(es[1])
            && KeyOf(es[3]) != KeyOf(es[2])
  {
    hide PlatformShare, Diamonds;
    var es := ChargeEntries(payer, payee, coins);
    ChargeTouchesOnce(payer, payee, coins);
    if exists i :: 0 <= i < |es| && KeyOf(es[i]) == k {
      var i :| 0 <= i < |es| && KeyOf(es[i]) == k;
      OnceSum(es, i);
    } else {
      SumOfUntouched(es, k);
    }
  }

  /** Two charges come to a third on every account exactly when the coins add up and nothing is lost in rounding. */
  lemma {:induction false} ChargesAdd(payer: string, payee: string, a: int, b: int, c: int)
    ensures (forall k :: EntrySum(ChargeEntries(payer, payee, a), k) + EntrySum(ChargeEntries(payer, payee, b), k)
                         == EntrySum(ChargeEntries(payer, payee, c), k))
            <==> c == a + b && RoundsEvenly(a, b)
  {
    hide PlatformShare, Diamonds, EntrySum;
    var ea, eb, ec := ChargeEntries(payer, payee, a), ChargeEntries(payer, payee, b), ChargeEntries(payer, payee, c);
    if forall k :: EntrySum(ea, k) + EntrySum(eb, k) == EntrySum(ec, k) {
      forall i | i in {0, 1, 3}
        ensures EntrySum(ea, KeyOf(ea[i])) + EntrySum(eb, KeyOf(ea[i])) == EntrySum(ec, KeyOf(ea[i]))
        ensures EntrySum(ea, KeyOf(ea[i])) == ea[i].amount && EntrySum(eb, KeyOf(ea[i])) == eb[i].amount
        ensures EntrySum(ec, KeyOf(ea[i])) == ec[i].amount
      {
        ChargeSum(payer, payee, a, KeyOf(ea[i]));
        ChargeSum(payer, payee, b, KeyOf(ea[i]));
        ChargeSum(payer, payee, c, KeyOf(ea[i]));
      }
      assert ea[0].amount + eb[0].amount == ec[0].amount;
      assert ea[1].amount + eb[1].amount == ec[1].amount;
      assert ea[3].amount + eb[3].amount == ec[3].amount;
    } else {
      var k :| EntrySum(ea, k) + EntrySum(eb, k) != EntrySum(ec, k);
      ChargeSum(payer, payee, a, k);
      ChargeSum(payer, payee, b, k);
      ChargeSum(payer, payee, c, k);
    }
  }

  /** In a race the record is right exactly when it shows the billed coins and the hold, if that was kept. */
  lemma {:induction false} TruthfulByCoins(r: Race)
    requires RaceOK(r)
    ensures var s, billed := r.record, Billed(r.book.log, r.record);
            var kept := if s.holdTxId in r.book.reversals then 0 else s.rate;
            Truthful(r) <==> s.consumed == billed + kept && RoundsEvenly(billed, kept)
  {
    hide Inv, PlatformShare, Diamonds, NetEffect, Billed, KeyIndex, ChargesMinutes, EntrySum, ChargeEntries;
    var s, billed := r.record, Billed(r.book.log, r.record);
    var kept := if s.holdTxId in r.book.reversals then 0 else s.rate;
    forall k ensures NetEffect(r.book.log, s, k)
      == EntrySum(ChargeEntries(s.caller, s.callee, billed), k) + EntrySum(ChargeEntries(s.caller, s.callee, kept), k)
    {
      ZeroCharge(s.caller, s.callee, k);
      NetsAt(r, k);
    }
    TruthfulMeans(r, billed, kept);
    ChargesAdd(s.caller, s.callee, billed, kept, s.consumed);
  }

  lemma {:induction false} NetsAt(r: Race, k: BalanceKey)
    requires RaceOK(r)
    ensures var s := r.record;
            NetEffect(r.book.log, s, k) == EntrySum(ChargeEntries(s.caller, s.callee, Billed(r.book.log, s)), k)
                                           + Unreturned(r.book, s, k)
  {
    hide Inv, NetEffect, EntrySum, Unreturned, ChargesMinutes, KeyIndex, Billed;
    assert Nets(r.book, r.record);
  }

  lemma {:induction false} TruthfulMeans(r: Race, a: int, b: int)
    requires var s := r.record;
             forall k :: NetEffect(r.book.log, s, k) == EntrySum(ChargeEntries(s.caller, s.callee, a), k)
                                                       + EntrySum(ChargeEntries(s.caller, s.callee, b), k)
    ensures var s := r.record;
            Truthful(r) <==> forall k :: EntrySum(ChargeEntries(s.caller, s.callee, a), k)
                                         + EntrySum(ChargeEntries(s.caller, s.callee, b), k)
                                         == EntrySum(ChargeEntries(s.caller, s.callee, s.consumed), k)
  {
    hide NetEffect, EntrySum, ChargeEntries;
    var s := r.record;
    if Truthful(r) {
      forall k ensures EntrySum(ChargeEntries(s.caller, s.callee, a), k)
          + EntrySum(ChargeEntries(s.caller, s.callee, b), k)
                       == EntrySum(ChargeEntries(s.caller, s.callee, s.consumed), k)
      {
        assert NetEffect(r.book.log, s, k) == EntrySum(ChargeEntries(s.caller, s.callee, s.consumed), k);
      }
    } else {
      var k :| NetEffect(r.book.log, s, k) != EntrySum(ChargeEntries(s.caller, s.callee, s.consumed), k);
      assert NetEffect(r.book.log, s, k) == EntrySum(ChargeEntries(s.caller, s.callee, a), k)
                                            + EntrySum(ChargeEntries(s.caller, s.callee, b), k);
    }
  }

  /** Over every schedule of any number of accepts, declines and ends on copies however stale, with crashes and
      other ledger traffic anywhere: the record is right if and only if the minutes shown by the last call to
      write are the minutes charged by the call that was settled, and one more if the hold was kept. A kept hold
      and a settlement may also differ from one charge by rounding. */
  lemma {:induction false} RecordExactly(r: Race, actions: seq<Action>)
    requires Untouched(r) && AllAllowed(r, actions)
    ensures var r', story := RunRace(r, actions), Told(r, actions);
            var returned := r.record.holdTxId in r'.book.reversals;
            Truthful(r') <==>
              && Shown(story.writer) == Charged(story.settler) + (if returned then 0 else 1)
              && (returned || story.settler.None?
                  || RoundsEvenly(Cost(r.record, Charged(story.settler)), r.record.rate))
  {
    hide Untouched, AllAllowed, RunRace, Told, Inv, BillingOK, Truthful, Billed, Cost, KeyIndex, PlatformShare,
        Diamonds;
    StoryKeeps(r, actions);
    RaceKeeps(r, actions);
    var r', story := RunRace(r, actions), Told(r, actions);
    TruthfulByCoins(r');
    RatePositiveIn(r');
    CostsDiffer(r'.record, Shown(story.writer), Charged(story.settler));
    CostSame(r.record, r'.record, Charged(story.settler));
    NoRounding(Cost(r'.record, Charged(story.settler)));
    NoRounding(r.record.rate);
    CostZero(r'.record);
  }

  lemma {:induction false} RatePositiveIn(r: Race)
    requires RaceOK(r)
    ensures r.record.rate > 0
  {
  }

  lemma {:induction false} NoRounding(a: int)
    ensures RoundsEvenly(a, 0) && RoundsEvenly(0, a)
  {
  }

  lemma {:induction false} CostsDiffer(s: Session, m: int, n: int)
    requires s.rate > 0
    ensures Cost(s, m) == Cost(s, n) <==> m == n
    ensures Cost(s, m) == Cost(s, n) + s.rate <==> m == n + 1
  {
    CostOrder(s, s, s, m, n);
    CostOrder(s, s, s, m, n + 1);
    assert Cost(s, n + 1) == Cost(s, n) + s.rate;
  }

  // ---- While nothing else touches the ledger ----

  /** Some call has taken its step of giving the hold back. */
  predicate Tried(r: Race, actions: seq<Action>) {
    actions != []
    && var earlier, a := actions[..|actions| - 1], actions[|actions| - 1];
    || Tried(r, earlier)
    || (a.Next? && a.pid in RunRace(r, earlier).turns && RunRace(r, earlier).turns[a.pid].pc == GiveBack)
  }

  predicate NoTraffic(actions: seq<Action>) {
    forall i :: 0 <= i < |actions| ==> !actions[i].Traffic?
  }

  /** Nobody has given back yet: the ledger is as it was, and only accepts have been written. */
  ghost predicate Waiting(start: Race, r: Race, story: Story) {
    && r.book == start.book && story.settler.None?
    && (story.writer.Some? ==> story.writer.value.s.state == Accepted)
    && forall p :: p in r.turns ==> (r.turns[p].pc == GiveBack || r.turns[p].s.state == Accepted)
  }

  lemma {:induction false} WaitingStep(start: Race, r: Race, story: Story, a: Action)
    requires StoryOK(r, story) && Allowed(r, a) && !a.Traffic? && SameCall(r.record, start.record)
    requires Waiting(start, r, story)
    requires !(a.Next? && a.pid in r.turns && r.turns[a.pid].pc == GiveBack)
    ensures Waiting(start, Act(r, a), Noted(story, r, a))
  {
    hide RaceOK, KeyIndex, ReverseHold, ChargeCoins;
  }

  lemma {:induction false} FirstGiveBack(start: Race, r: Race, pid: nat)
    requires Untouched(start) && Covered(start.book, start.record) && r.book == start.book
    requires RaceOK(r) && SameCall(r.record, start.record) && pid in r.turns && r.turns[pid].pc == GiveBack
    ensures start.record.holdTxId in Act(r, Next(pid)).book.reversals
  {
    hide Inv, BillingOK, KeyIndex, ReverseHold, Covered, Untouched;
    var t := r.turns[pid];
    SameBilling(r.book, r.record, t.s);
    SameCovered(r.book, t.s, start.record);
    GiveBackKeeps(r.book, t.s, Reason(t), t.now);
  }

  /** A returned hold stays returned. */
  lemma {:induction false} StaysReturned(r: Race, a: Action)
    requires RaceOK(r) && Allowed(r, a) && r.record.holdTxId in r.book.reversals
    ensures r.record.holdTxId in Act(r, a).book.reversals
  {
    hide Inv, BillingOK, Apply;
    match a
    case Next(pid) =>
      if pid in r.turns { AdvanceReturned(r.book, r.record, r.turns[pid]); }
    case Traffic(op) => ApplyGrows(r.book, op);
    case _ =>
  }

  lemma {:induction false} AdvanceReturned(b: Book, record: Session, t: Turn)
    requires Inv(b) && b.forgotten == 0 && BillingOK(b, record) && TurnOK(record, t) && record.holdTxId in b.reversals
    ensures record.holdTxId in Advance(b, record, t).0.reversals
  {
    hide Inv, BillingOK, ReverseHold, ChargeCoins, Minutes, Cost, Covered, KeyIndex;
    SameBilling(b, record, t.s);
    if t.pc == GiveBack {
      GiveBackKeeps(b, t.s, Reason(t), t.now);
    } else if t.pc == Settle {
      MinutesAreCeiling(t.now - t.settles.value);
      var minutes := Minutes(t.now - t.settles.value);
      SettleKeeps(b, t.s, minutes, SettleMetadata(t.s, minutes), t.now);
    }
  }

  lemma {:induction false} ReturnedWhenTried(r: Race, actions: seq<Action>)
    requires Untouched(r) && Covered(r.book, r.record) && AllAllowed(r, actions) && NoTraffic(actions)
    ensures if Tried(r, actions) then r.record.holdTxId in RunRace(r, actions).book.reversals
            else Waiting(r, RunRace(r, actions), Told(r, actions))
  {
    hide Untouched, StoryOK, RaceOK, Act, Allowed, Noted, Waiting, Covered, SameCall;
    if actions == [] {
      WaitingStarts(r);
    } else {
      var last := |actions| - 1;
      var earlier, a := actions[..last], actions[last];
      forall i | 0 <= i < last ensures Allowed(RunRace(r, earlier[..i]), earlier[i]) {
        assert earlier[..i] == actions[..i];
      }
      ReturnedWhenTried(r, earlier);
      StoryKeeps(r, earlier);
      RaceKeeps(r, earlier);
      var before := RunRace(r, earlier);
      SameHold(before.record, r.record);
      RaceOf(before, Told(r, earlier));
      if Tried(r, earlier) {
        StaysReturned(before, a);
      } else if Tried(r, actions) {
        SameBook(r, before, Told(r, earlier));
        FirstGiveBack(r, before, a.pid);
      } else {
        WaitingStep(r, before, Told(r, earlier), a);
      }
    }
  }

  lemma {:induction false} WaitingStarts(r: Race)
    requires Untouched(r)
    ensures Waiting(r, r, Story(None, None))
  {
  }

  lemma {:induction false} SameHold(s: Session, t: Session)
    requires SameCall(s, t)
    ensures s.holdTxId == t.holdTxId
  {
  }

  lemma {:induction false} RaceOf(r: Race, story: Story)
    requires StoryOK(r, story)
    ensures RaceOK(r)
  {
  }

  lemma {:induction false} SameBook(start: Race, r: Race, story: Story)
    requires Waiting(start, r, story)
    ensures r.book == start.book && story.settler.None? && Shown(story.writer) == 1
  {
  }

  /** If the hold is covered and nothing but the calls touches the ledger, then over every schedule of them, with
      crashes anywhere, the record is right if and only if no call has yet given back, or the last to write shows
      the minutes of the one that was charged. */
  lemma {:induction false} QuietExactly(r: Race, actions: seq<Action>)
    requires Untouched(r) && Covered(r.book, r.record) && AllAllowed(r, actions) && NoTraffic(actions)
    ensures Truthful(RunRace(r, actions))
            <==> !Tried(r, actions) || Shown(Told(r, actions).writer) == Charged(Told(r, actions).settler)
  {
    hide Untouched, AllAllowed, Truthful, RunRace, Told, Tried, Waiting, Covered, Shown, RoundsEvenly;
    RecordExactly(r, actions);
    ReturnedWhenTried(r, actions);
    if !Tried(r, actions) {
      SameBook(r, RunRace(r, actions), Told(r, actions));
      NotReturnedYet(r);
    }
  }

  lemma {:induction false} NotReturnedYet(r: Race)
    requires Untouched(r)
    ensures r.record.holdTxId !in r.book.reversals
  {
  }

  /** Every call of the schedule read the record while it was ringing. */
  predicate AllRinging(r: Race, actions: seq<Action>) {
    forall i :: 0 <= i < |actions| && actions[i].Begin? ==> RunRace(r, actions[..i]).record.state == Requested
  }

  lemma {:induction false} NothingSettles(r: Race, actions: seq<Action>)
    requires r.turns == map[] && AllRinging(r, actions)
    ensures forall p :: p in RunRace(r, actions).turns ==> RunRace(r, actions).turns[p].settles.None?
    ensures Told(r, actions).writer.Some? ==> Told(r, actions).writer.value.settles.None?
    ensures forall p :: p in RunRace(r, actions).turns ==> RunRace(r, actions).turns[p].pc != Settle
    ensures Told(r, actions).settler.None?
  {
    hide KeyIndex, ReverseHold, ChargeCoins, Apply;
    if actions != [] {
      var last := |actions| - 1;
      forall i | 0 <= i < last && actions[..last][i].Begin?
        ensures RunRace(r, actions[..last][..i]).record.state == Requested
      {
        assert actions[..last][..i] == actions[..i];
      }
      NothingSettles(r, actions[..last]);
    }
  }

  /** Calls that all read a ringing call: once one of them has given the hold back, the record is right if and only
      if a decline or an end was written last; an accept written last reopens a call that was given back. */
  lemma {:induction false} RingingExactly(r: Race, actions: seq<Action>)
    requires Untouched(r) && Covered(r.book, r.record) && AllAllowed(r, actions) && NoTraffic(actions)
    requires AllRinging(r, actions)
    ensures var writer := Told(r, actions).writer;
            Truthful(RunRace(r, actions)) <==> !Tried(r, actions) || (writer.Some? && writer.value.s.state != Accepted)
  {
    hide Untouched, AllAllowed, Truthful, RunRace, Told, Tried, Covered, AllRinging, NoTraffic;
    QuietExactly(r, actions);
    NoTurns(r);
    NothingSettles(r, actions);
  }

  lemma {:induction false} NoTurns(r: Race)
    requires Untouched(r)
    ensures r.turns == map[]
  {
  }

  // ---- Schedules that show each side ----

  lemma {:induction false} OneMore(r: Race, actions: seq<Action>, a: Action)
    requires AllAllowed(r, actions) && Allowed(RunRace(r, actions), a)
    ensures AllAllowed(r, actions + [a]) && RunRace(r, actions + [a]) == Act(RunRace(r, actions), a)
    ensures Told(r, actions + [a]) == Noted(Told(r, actions), RunRace(r, actions), a)
    ensures Tried(r, actions) ==> Tried(r, actions + [a])
    ensures NoTraffic(actions) && !a.Traffic? ==> NoTraffic(actions + [a])
  {
    hide Allowed, Act, Noted;
    var all := actions + [a];
    assert all[..|actions|] == actions;
    forall i | 0 <= i < |all| ensures Allowed(RunRace(r, all[..i]), all[i]) {
      if i < |actions| { assert all[..i] == actions[..i]; }
    }
  }

  /** A ringing call is cancelled and given back while the callee's accept, which had read it ringing, is under way:
      the accept is written last, and the refunded call is open again with its first minute shown as paid. */
  lemma {:induction false} LateAcceptReopens(r: Race, now: int)
    requires Untouched(r) && Covered(r.book, r.record) && r.record.state == Requested && r.record.acceptedAt.None?
    ensures var s := r.record;
            var actions := [Begin(0, Accepting, s.callee, now), Begin(1, Ending, s.caller, now)]
                           + [Next(1)] + [Next(1)] + [Next(0)];
            var r' := RunRace(r, actions);
            && AllAllowed(r, actions) && r'.record.state == Accepted && r'.record.consumed == s.rate > 0
            && s.holdTxId in r'.book.reversals && Billed(r'.book.log, r'.record) == 0 && !Truthful(r')
  {
    hide Untouched, Covered, Billed, Truthful, ReverseHold, ChargeCoins, RunRace, AllAllowed, Told, Tried, NoTraffic,
         KeyIndex;
    var s := r.record;
    OpenRecord(r);
    var begins := [Begin(0, Accepting, s.callee, now), Begin(1, Ending, s.caller, now)];
    BothBegun(r, begins[0], begins[1]);
    var b2 := RunRace(r, begins);
    OneMore(r, begins, Next(1));
    var b3 := begins + [Next(1)];
    assert Tried(r, b3) by { TriedNow(r, begins, 1); }
    OneMore(r, b3, Next(1));
    var b4 := b3 + [Next(1)];
    OneMore(r, b4, Next(0));
    var b5 := b4 + [Next(0)];
    QuietExactly(r, b5);
    ReturnedWhenTried(r, b5);
    StoryKeeps(r, b5);
    StoryBills(r, RunRace(r, b5), Told(r, b5));
  }

  lemma {:induction false} OpenRecord(r: Race)
    requires Untouched(r)
    ensures r.turns == map[] && r.record.rate > 0 && r.record.consumed == r.record.rate
  {
  }

  lemma {:induction false} StoryBills(start: Race, r: Race, story: Story)
    requires StoryOK(r, story)
    ensures Billed(r.book.log, r.record) == Cost(r.record, Charged(story.settler))
    ensures r.record.consumed == Cost(r.record, Shown(story.writer))
    ensures Cost(r.record, 0) == 0
  {
    CostZero(r.record);
  }

  lemma {:induction false} TriedNow(r: Race, actions: seq<Action>, pid: nat)
    requires pid in RunRace(r, actions).turns && RunRace(r, actions).turns[pid].pc == GiveBack
    ensures Tried(r, actions + [Next(pid)])
  {
    var all := actions + [Next(pid)];
    assert all[..|all| - 1] == actions;
  }

  lemma {:induction false} BothBegun(r: Race, a: Action, b: Action)
    requires a.Begin? && b.Begin? && Allowed(r, a) && Allowed(r, b)
    ensures RunRace(r, [a, b]) == Act(Act(r, a), b) && AllAllowed(r, [a, b])
    ensures Told(r, [a, b]) == Story(None, None) && NoTraffic([a, b])
  {
    assert [] + [a] == [a] && [a] + [b] == [a, b];
    assert RunRace(r, []) == r && AllAllowed(r, []);
    OneMore(r, [], a);
    OneMore(r, [a], b);
  }

  /** Ends that overlap may also leave a right record though they count different minutes: the first is settled, the
      second runs to its end, and the first then writes over it what was charged. */
  lemma {:induction false} OverlapMayAgree(r: Race, now1: int, now2: int)
    requires Untouched(r) && Covered(r.book, r.record) && r.record.state == Accepted && r.record.acceptedAt.Some?
    requires r.record.acceptedAt.value <= now1 && r.record.acceptedAt.value <= now2
    requires LogBalance(r.book.log, CallerCoins(r.record)) + r.record.rate
             >= Cost(r.record, Minutes(now1 - r.record.acceptedAt.value))
    ensures var s := r.record;
            var actions := [Begin(0, Ending, s.caller, now1), Begin(1, Ending, s.callee, now2)]
                           + [Next(0)] + [Next(0)] + [Next(1)] + [Next(1)] + [Next(1)] + [Next(0)];
            var r' := RunRace(r, actions);
            && AllAllowed(r, actions) && Truthful(r')
            && r'.record.consumed == Cost(s, Minutes(now1 - s.acceptedAt.value))
  {
    hide Untouched, Covered, Billed, Truthful, ReverseHold, ChargeCoins, RunRace, AllAllowed, Told, Tried, NoTraffic,
         KeyIndex, Minutes, Cost, LogBalance, StoryOK, Act, Noted, Shown;
    var s := r.record;
    var begins := [Begin(0, Ending, s.caller, now1), Begin(1, Ending, s.callee, now2)];
    BothBegun(r, begins[0], begins[1]);
    EndsBegun(r, now1, now2);
    OneMore(r, begins, Next(0));
    var b3 := begins + [Next(0)];
    assert Tried(r, b3) by { TriedNow(r, begins, 0); }
    StoryKeeps(r, begins);
    FirstReturns(r, RunRace(r, begins), Told(r, begins));
    StoryKeeps(r, b3);
    OneMore(r, b3, Next(0));
    FirstSettles(RunRace(r, b3), Told(r, b3));
    var b4 := b3 + [Next(0)];
    StoryKeeps(r, b4);
    OneMore(r, b4, Next(1));
    OtherSteps(RunRace(r, b4), Told(r, b4));
    var b5 := b4 + [Next(1)];
    StoryKeeps(r, b5);
    OneMore(r, b5, Next(1));
    OtherSteps(RunRace(r, b5), Told(r, b5));
    var b6 := b5 + [Next(1)];
    StoryKeeps(r, b6);
    OneMore(r, b6, Next(1));
    OtherSteps(RunRace(r, b6), Told(r, b6));
    var b7 := b6 + [Next(1)];
    OneMore(r, b7, Next(0));
    FirstWrites(RunRace(r, b7), Told(r, b7));
    var b8 := b7 + [Next(0)];
    QuietExactly(r, b8);
    StoryKeeps(r, b8);
    StoryBills(r, RunRace(r, b8), Told(r, b8));
    RaceKeeps(r, b8);
    CostSame(RunRace(r, b8).record, s, Minutes(now1 - s.acceptedAt.value));
  }

  lemma {:induction false} EndsBegun(r: Race, now1: int, now2: int)
    requires Untouched(r) && r.record.state == Accepted && r.record.acceptedAt.Some?
    ensures var s := r.record;
            var r' := Act(Act(r, Begin(0, Ending, s.caller, now1)), Begin(1, Ending, s.callee, now2));
            && r'.book == r.book && r'.record == s && 0 in r'.turns && 1 in r'.turns
            && r'.turns[0] == Turn(s.(state := Ended, endedAt := Some(now1)), now1, s.acceptedAt, GiveBack)
  {
    hide Untouched;
  }

  /** The first call, still unwritten, has given back; what it will pay is there. */
  lemma {:induction false} FirstReturns(start: Race, r: Race, story: Story)
    requires Untouched(start) && Covered(start.book, start.record) && r.book == start.book && r.record == start.record
    requires StoryOK(r, story) && story.settler.None? && 0 in r.turns && 1 in r.turns && r.turns[0].pc == GiveBack
    requires r.turns[0].settles.Some?
    ensures var r' := Act(r, Next(0));
            && r'.record == r.record && 0 in r'.turns && 1 in r'.turns && Noted(story, r, Next(0)) == story
            && r'.turns[0] == r.turns[0].(s := r.turns[0].s.(consumed := 0), pc := Settle)
            && LogBalance(r'.book.log, CallerCoins(r.record))
               == LogBalance(start.book.log, CallerCoins(r.record)) + r.record.rate
  {
    hide Untouched, Covered, BillingOK, Inv, ReverseHold, KeyIndex, LogBalance, Billed, TurnTold;
    FundsFirst(start, r.turns[0]);
  }

  lemma {:induction false} FirstSettles(r: Race, story: Story)
    requires StoryOK(r, story) && story.settler.None? && 0 in r.turns && 1 in r.turns && r.turns[0].pc == Settle
    requires r.turns[0].settles.Some?
    requires LogBalance(r.book.log, CallerCoins(r.record)) >= Cost(r.record, MinutesOf(r.turns[0]))
    ensures var r', t := Act(r, Next(0)), r.turns[0];
            && r'.record == r.record && 0 in r'.turns && 1 in r'.turns && Noted(story, r, Next(0)).settler == Some(t)
            && r'.turns[0] == t.(s := t.s.(consumed := Cost(r.record, MinutesOf(t))), pc := Write)
            && MinutesOf(t) >= 1 && Cost(r.record, MinutesOf(t)) > 0
  {
    hide Inv, BillingOK, ChargeCoins, Minutes, KeyIndex, Billed, LogBalance, Cost;
    var t := r.turns[0];
    MinutesAreCeiling(t.now - t.settles.value);
    SameBilling(r.book, r.record, t.s);
    CostSame(r.record, t.s, MinutesOf(t));
    SettleKeeps(r.book, t.s, MinutesOf(t), SettleMetadata(t.s, MinutesOf(t)), t.now);
    RatePositiveIn(r);
    CostOrder(r.record, r.record, r.record, MinutesOf(t), 0);
    PositiveCost(r.record, MinutesOf(t));
  }

  lemma {:induction false} PositiveCost(s: Session, minutes: int)
    requires minutes >= 1 && s.rate > 0
    ensures Cost(s, minutes) > 0
  {
    CostPositive(minutes, s.rate);
  }

  /** The other call's steps leave the first call's turn and its settlement alone. */
  lemma {:induction false} OtherSteps(r: Race, story: Story)
    requires StoryOK(r, story) && story.settler.Some? && 0 in r.turns && 1 in r.turns
    ensures var r' := Act(r, Next(1));
            && 0 in r'.turns && 1 in r'.turns && r'.turns[0] == r.turns[0]
            && Noted(story, r, Next(1)).settler == story.settler
  {
    hide RaceOK, Advance, KeyIndex, Billed;
  }

  lemma {:induction false} FirstWrites(r: Race, story: Story)
    requires 0 in r.turns && r.turns[0].pc == Write && r.turns[0].settles.Some? && r.turns[0].s.state == Ended
    requires r.turns[0].s.consumed > 0
    ensures var r', t := Act(r, Next(0)), r.turns[0];
            && r'.record == t.s && Noted(story, r, Next(0)) == story.(writer := Some(t))
            && Shown(Some(t)) == MinutesOf(t)
  {
    hide KeyIndex, Minutes;
  }

  // ---- One call at a time ----

  datatype Turnwise = Whole(kind: Kind, account: string, now: int) | Between(op: Op)

  /** A whole call, begun when no other is unfinished. */
  function OneByOne(r: Race, step: Turnwise): Race {
    match step
    case Whole(kind, account, now) => Act(Finish(Act(r, Begin(0, kind, account, now)), 0), Crash(0))
    case Between(op) => Act(r, Traffic(op))
  }

  predicate TurnAllowed(r: Race, step: Turnwise) {
    match step
    case Whole(kind, account, now) => Allowed(r, Begin(0, kind, account, now))
    case Between(op) => Allowed(r, Traffic(op))
  }

  function InTurn(r: Race, steps: seq<Turnwise>): Race {
    if steps == [] then r else OneByOne(InTurn(r, steps[..|steps| - 1]), steps[|steps| - 1])
  }

  ghost predicate Idle(r: Race) {
    Inv(r.book) && r.book.forgotten == 0 && SessionOK(r.book, r.record) && r.turns == map[]
  }

  /** What a whole call does: nothing if its checks fail, else the serialised call's ledger and record. */
  lemma {:induction false} WholeCall(r: Race, kind: Kind, account: string, now: int)
    requires r.turns == map[]
    ensures var opening, after := Opening(r.record, kind, account, now), OneByOne(r, Whole(kind, account, now));
            && after.turns == map[]
            && (opening.None? ==> after == r)
            && (opening.Some? ==>
                  var t := opening.value;
                  if kind == Accepting then after == r.(record := t.s)
                  else if t.settles.Some?
                  then (after.book, after.record) == SettleElapsed(r.book, t.s, t.settles.value, now)
                  else after.book == ReverseHold(r.book, t.s, "pv_call not connected", now)
                       && after.record == t.s.(consumed := 0))
  {
    hide ReverseHold, SettleElapsed;
    var opening := Opening(r.record, kind, account, now);
    if opening.Some? && opening.value.settles.Some? {
      FinishIsSettling(Act(r, Begin(0, kind, account, now)), 0);
    }
  }

  lemma {:induction false} SessionTruth(r: Race)
    requires Idle(r)
    ensures Truthful(r) <==> !Over(r.record.state) || r.record.holdTxId in r.book.reversals
  {
    hide Inv, PlatformShare, Diamonds, NetEffect, Unbilled;
    var s := r.record;
    var k := BalanceKey(UserCoins(s.caller), COIN);
    ChargeTouchesOnce(s.caller, s.callee, s.rate);
    OnceSum(ChargeEntries(s.caller, s.callee, s.rate), 0);
    assert NetEffect(r.book.log, s, k) == Owed(r.book, s, k);
    if !Over(s.state) || s.holdTxId in r.book.reversals {
      forall k ensures NetEffect(r.book.log, s, k) == EntrySum(ChargeEntries(s.caller, s.callee, s.consumed), k) {
        assert NetEffect(r.book.log, s, k) == Owed(r.book, s, k);
      }
    }
  }

  /** Settling alone keeps the session's account, and gives the hold back exactly when it is covered. */
  lemma {:induction false} SettleAlone(b: Book, s: Session, t: Session, acceptedAt: int, now: int)
    requires Inv(b) && b.forgotten == 0 && SessionOK(b, s) && s.state == Accepted && acceptedAt <= now
    requires t == s.(state := Ended, endedAt := Some(now))
    ensures var (b', settled) := SettleElapsed(b, t, acceptedAt, now);
            && Inv(b') && b'.forgotten == 0 && SessionOK(b', settled) && settled.state == Ended
            && settled.holdTxId == s.holdTxId && (s.holdTxId in b'.reversals <==> Covered(b, s))
  {
    hide Inv, SessionOK, Covered, ReverseHold, ChargeCoins, PlatformShare, Diamonds, Minutes;
    var minutes := Minutes(now - acceptedAt);
    MinutesAreCeiling(now - acceptedAt);
    RatePositive(b, s);
    CostPositive(minutes, s.rate);
    var closed := t.(consumed := 0);
    SameReverse(b, s, t, "pv_call settlement", now);
    ReverseHoldResult(b, s, "pv_call settlement", now);
    AfterReverse(b, s, closed, "pv_call settlement", now);
    SettleKeyFree(b, s, "pv_call settlement", now);
    var mid := ReverseHold(b, s, "pv_call settlement", now);
    AfterCharge(mid, closed, minutes * s.rate, SettleMetadata(t, minutes), now);
    ChargeResult(mid, s.caller, s.callee, minutes * s.rate, SettleKey(s.id), SettleMetadata(t, minutes), now);
    var (b', r) := ChargeCoins(mid, s.caller, s.callee, minutes * s.rate, SettleKey(s.id), SettleMetadata(t, minutes),
                               now);
    assert SettleElapsed(b, t, acceptedAt, now) == (b', closed.(consumed := if r.Posted? then minutes * s.rate else 0));
  }

  lemma {:induction false} CloseAlone(b: Book, s: Session, t: Session, now: int)
    requires Inv(b) && b.forgotten == 0 && SessionOK(b, s) && !Over(s.state)
    requires t == s.(state := t.state, endedAt := t.endedAt) && Over(t.state)
    ensures var b' := ReverseHold(b, t, "pv_call not connected", now);
            && Inv(b') && b'.forgotten == 0 && SessionOK(b', t.(consumed := 0))
            && (s.holdTxId in b'.reversals <==> Covered(b, s))
  {
    hide Inv, SessionOK, Covered, ReverseHold, PlatformShare, Diamonds;
    SameReverse(b, s, t, "pv_call not connected", now);
    ReverseHoldResult(b, s, "pv_call not connected", now);
    AfterReverse(b, s, t.(consumed := 0), "pv_call not connected", now);
  }

  /** A whole call keeps the session's account. If it closes the session, the record is right exactly when the hold
      was covered as the call began. */
  lemma {:induction false} WholeCallExactly(r: Race, kind: Kind, account: string, now: int)
    requires Idle(r) && TurnAllowed(r, Whole(kind, account, now))
    ensures var after := OneByOne(r, Whole(kind, account, now));
            && Idle(after)
            && (!Over(r.record.state) && Over(after.record.state) ==> (Truthful(after) <==> Covered(r.book, r.record)))
  {
    hide Inv, SessionOK, Covered, ReverseHold, SettleElapsed, OneByOne, Truthful;
    WholeCall(r, kind, account, now);
    var opening, after := Opening(r.record, kind, account, now), OneByOne(r, Whole(kind, account, now));
    if opening.Some? {
      var s, t := r.record, opening.value;
      if kind == Accepting {
        AcceptKeepsSession(r.book, s, t.s);
      } else if t.settles.Some? {
        SettleAlone(r.book, s, t.s, t.settles.value, now);
        SessionTruth(after);
      } else {
        CloseAlone(r.book, s, t.s, now);
        SessionTruth(after);
      }
    }
  }

  lemma {:induction false} BetweenKeeps(r: Race, op: Op)
    requires Idle(r) && Allowed(r, Traffic(op))
    ensures Idle(Act(r, Traffic(op)))
  {
    hide Inv, SessionOK, Apply;
    ApplyAddsOne(r.book, op);
    var b' := Apply(r.book, op);
    if b' != r.book {
      var tx := b'.log[|r.book.log|];
      OpenHoldOld(r.book, r.record);
      Unrelated(r.book, b', tx, r.record);
    }
  }

  lemma {:induction false} OpenHoldOld(b: Book, s: Session)
    requires Inv(b) && SessionOK(b, s)
    ensures s.holdTxId != TxId(|b.log| + 1)
  {
    hide Inv, NetEffect, Owed, Unbilled;
    HoldIdOld(b, s);
  }

  /** If no call begins while another is unfinished, then whatever the calls and the other traffic, the record is
      right if and only if the session is open or its hold was given back. */
  lemma {:induction false} InTurnExactly(r: Race, steps: seq<Turnwise>)
    requires Idle(r) && forall i :: 0 <= i < |steps| ==> TurnAllowed(InTurn(r, steps[..i]), steps[i])
    ensures var r' := InTurn(r, steps);
            Idle(r') && (Truthful(r') <==> !Over(r'.record.state) || r'.record.holdTxId in r'.book.reversals)
  {
    hide Idle, OneByOne, TurnAllowed, Truthful;
    if steps != [] {
      var last := |steps| - 1;
      forall i | 0 <= i < last ensures TurnAllowed(InTurn(r, steps[..last][..i]), steps[..last][i]) {
        assert steps[..last][..i] == steps[..i];
      }
      InTurnExactly(r, steps[..last]);
      StepInTurn(InTurn(r, steps[..last]), steps[last]);
    }
    SessionTruth(InTurn(r, steps));
  }

  lemma {:induction false} StepInTurn(r: Race, step: Turnwise)
    requires Idle(r) && TurnAllowed(r, step)
    ensures Idle(OneByOne(r, step))
  {
    hide Idle, Finish, Apply;
    match step
    case Whole(kind, account, now) => WholeCallExactly(r, kind, account, now);
    case Between(op) => BetweenKeeps(r, op);
  }
}
