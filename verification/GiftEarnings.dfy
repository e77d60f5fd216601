/** What a gift is to its recipient: lines of earnings, locked for 14 days, counted under the gift sent. */
module GiftEarnings {
  import opened Ledger
  import opened LedgerRuns
  import opened Charges
  import Gifts
  import opened Payouts

  /** The one line a charge leaves on an account's diamonds: the payee's. */
  lemma {:induction false} ChargeLines(tx: Tx, payer: string, payee: string, coins: int, account: string)
    requires tx.entries == ChargeEntries(payer, payee, coins)
    ensures ItemsFor(tx, tx.entries, UserDiamonds(account))
            == if account == payee
               then [HistoryItem(tx.id, tx.kind, Diamonds(coins), DIAMOND, tx.metadata, tx.createdAt)] else []
  {
    hide PlatformShare, Diamonds, IsPlatform;
    var es, wallet := tx.entries, UserDiamonds(account);
    UserIsNotPlatform(account);
    PlatformAccounts();
    CoinsAreNotDiamonds(payer, account);
    if account != payee && UserDiamonds(account) == UserDiamonds(payee) { WalletInjective(account, payee); }
    assert es[..5] == es && es[..5][..4] == es[..4] && es[..4][..3] == es[..3] && es[..3][..2] == es[..2]
        && es[..2][..1] == es[..1] && es[..1][..0] == [];
    assert ItemsFor(tx, es[..1], wallet) == [];
    assert ItemsFor(tx, es[..2], wallet) == [];
    assert ItemsFor(tx, es[..3], wallet) == [];
  }

  lemma {:induction false} CoinsAreNotDiamonds(a: string, b: string)
    ensures UserCoins(a) != UserDiamonds(b)
  {
    assert UserCoins(a)[|UserCoins(a)| - 3] == 'i' && UserDiamonds(b)[|UserDiamonds(b)| - 3] == 'n';
  }

  lemma {:induction false} OneMoreLine(lines: seq<HistoryItem>, e: HistoryItem, time: int, gift: string)
    ensures PaidInBefore(lines + [e], time)
            == PaidInBefore(lines, time) + if e.amount > 0 && e.createdAt < time then e.amount else 0
    ensures PaidInSince(lines + [e], time)
            == PaidInSince(lines, time) + if e.amount > 0 && time <= e.createdAt then e.amount else 0
    ensures GiftTally(lines + [e], gift)
            == if PaidForGift(e, gift)
               then GiftTotal(GiftTally(lines, gift).count + 1, GiftTally(lines, gift).diamonds + e.amount)
               else GiftTally(lines, gift)
  {
    assert (lines + [e])[..|lines|] == lines;
  }

  lemma {:induction false} DiamondsPositive(giftId: string, quantity: int)
    requires Gifts.GiftCoins(giftId).Some? && 0 < quantity <= Gifts.MAX_QUANTITY
    ensures Diamonds(Gifts.GiftCoins(giftId).value * quantity) > 0
  {
    Gifts.NoOverflow(giftId, quantity);
    var gross := Gifts.GiftCoins(giftId).value * quantity;
    assert gross >= 10;
    DiamondsExact(gross);
  }

  lemma {:induction false} SameSummary(b: Book, b': Book, account: string, now: int)
    requires AccountHistory(b'.log, UserDiamonds(account)) == AccountHistory(b.log, UserDiamonds(account))
    requires LogBalance(b'.log, Wallet(account)) == LogBalance(b.log, Wallet(account))
    ensures EarningsSummary(b', account, now) == EarningsSummary(b, account, now)
  {
  }

  lemma {:induction false} ChargeAppended(b: Book, b': Book, tx: Tx, payer: string, payee: string, coins: int,
                                          account: string)
    requires b'.log == b.log + [tx] && tx.entries == ChargeEntries(payer, payee, coins)
    ensures var wallet := UserDiamonds(account);
            if account == payee
            then
              && LogBalance(b'.log, Wallet(account)) == LogBalance(b.log, Wallet(account)) + Diamonds(coins)
              && AccountHistory(b'.log, wallet)
                 == AccountHistory(b.log, wallet)
                    + [HistoryItem(tx.id, tx.kind, Diamonds(coins), DIAMOND, tx.metadata, tx.createdAt)]
            else
              && LogBalance(b'.log, Wallet(account)) == LogBalance(b.log, Wallet(account))
              && AccountHistory(b'.log, wallet) == AccountHistory(b.log, wallet)
  {
    hide PlatformShare, Diamonds, ChargeEntries, ItemsFor, LogBalance;
    assert b'.log[..|b.log|] == b.log;
    ChargeLines(tx, payer, payee, coins, account);
    LogBalanceAppend(b.log, tx, Wallet(account));
    ItemsSum(tx, tx.entries, Wallet(account));
    var line := HistoryItem(tx.id, tx.kind, Diamonds(coins), DIAMOND, tx.metadata, tx.createdAt);
    assert [line][..0] == [];
  }

  /** One more line of a gift in a summary. */
  lemma {:induction false} GiftLine(b: Book, b': Book, account: string, e: HistoryItem, gift: string, now: int)
    requires Inv(b) && Inv(b') && PaidForGift(e, gift)
    requires AccountHistory(b'.log, UserDiamonds(account)) == AccountHistory(b.log, UserDiamonds(account)) + [e]
    ensures var before, after := EarningsSummary(b, account, now), EarningsSummary(b', account, now);
            && after.earned == before.earned + e.amount
            && after.locked == before.locked + (if now <= e.createdAt + 14 * 86_400_000_000_000 then e.amount else 0)
            && TotalOf(after.byGift, gift).count == TotalOf(before.byGift, gift).count + 1
            && TotalOf(after.byGift, gift).diamonds == TotalOf(before.byGift, gift).diamonds + e.amount
  {
    hide Inv, EarningsSummary, LogBalance, Unlocked, PaidForGift, GiftTally, PaidInBefore, PaidInSince, TakenOut;
    var lines := AccountHistory(b.log, UserDiamonds(account));
    EarningsExactly(b, account, now);
    EarningsExactly(b', account, now);
    OneMoreLine(lines, e, now - 14 * 86_400_000_000_000, gift);
    BreakdownIsExact(b, account, now, gift);
    BreakdownIsExact(b', account, now, gift);
    NoneTallied(lines, gift);
    assert e.amount > 0 by { assert PaidForGift(e, gift); OfAGift(e, gift); }
    CountedIsPositive(lines, gift);
  }

  lemma {:induction false} OfAGift(e: HistoryItem, gift: string)
    requires PaidForGift(e, gift)
    ensures e.amount > 0
  {
  }

  lemma {:induction false} NoneTallied(lines: seq<HistoryItem>, gift: string)
    ensures GiftTally(lines, gift).count == 0 ==> GiftTally(lines, gift) == GiftTotal(0, 0)
  {
    if lines != [] {
      NoneTallied(lines[..|lines| - 1], gift);
      CountedIsPositive(lines[..|lines| - 1], gift);
    }
  }

  /** A fresh gift that is sent counts once more under its name in the recipient's breakdown, for seven tenths of what
      the platform left of its price; all of it is locked until 14 days have passed, and nobody else's earnings
      change. */
  lemma {:induction false} GiftIsEarned(b: Book, sender: string, recipient: string, room: string, giftId: string,
                                        quantity: int, key: string, gates: Gifts.Gates, now: int, account: string,
                                        later: int)
    requires Inv(b) && Gifts.Reaches(b, sender, recipient, room, giftId, quantity, key, gates)
    requires Gifts.SendGift(b, sender, recipient, room, giftId, quantity, key, gates, now).1.Sent?
    ensures var b' := Gifts.SendGift(b, sender, recipient, room, giftId, quantity, key, gates, now).0;
            var diamonds := Diamonds(Gifts.GiftCoins(giftId).value * quantity);
            var before, after := EarningsSummary(b, account, later), EarningsSummary(b', account, later);
            && Inv(b') && diamonds > 0
            && (account == recipient ==>
                  && after.earned == before.earned + diamonds && after.balance == before.balance + diamonds
                  && after.locked == before.locked + (if later <= now + 14 * 86_400_000_000_000 then diamonds else 0)
                  && TotalOf(after.byGift, giftId).count == TotalOf(before.byGift, giftId).count + 1
                  && TotalOf(after.byGift, giftId).diamonds == TotalOf(before.byGift, giftId).diamonds + diamonds)
            && (account != recipient ==> after == before)
  {
    hide Inv, PlatformShare, Diamonds, Gifts.GiftCoins, KeyIndex, Gifts.SendGift, EarningsSummary,
         ChargeEntries, AccountHistory, LogBalance, Gifts.ResultOf, TotalOf, SumElse;
    var gross := Gifts.GiftCoins(giftId).value * quantity;
    var b' := Gifts.SendGift(b, sender, recipient, room, giftId, quantity, key, gates, now).0;
    Gifts.GiftOnTheBooks(b, sender, recipient, room, giftId, quantity, key, gates, now);
    var tx := b'.log[|b.log|];
    DiamondsPositive(giftId, quantity);
    ChargeAppended(b, b', tx, sender, recipient, gross, account);
    assert Inv(b') by { Gifts.GiftKeepsInv(b, sender, recipient, room, giftId, quantity, key, gates, now); }
    EarningsAddUp(b, account, later);
    EarningsAddUp(b', account, later);
    if account == recipient {
      var e := HistoryItem(tx.id, tx.kind, Diamonds(gross), DIAMOND, tx.metadata, tx.createdAt);
      assert PaidForGift(e, giftId) by { Gifts.NamedGift(giftId); }
      GiftLine(b, b', account, e, giftId, later);
    } else {
      SameSummary(b, b', account, later);
    }
  }
}
