/** Paying someone coins: the platform's cut, the diamonds earned, and sending a gift once per key. */
module Charges {
  import opened Ledger
  import opened LedgerRuns

  const PLATFORM_TAKE_BPS := 3000
  const DIAMONDS_PER_THOUSAND_COINS := 700

  /** Go's integer division truncates toward zero. */
  function TruncDiv(a: int, b: int): int
    requires b > 0
  {
    if a >= 0 then a / b else -(-a / b)
  }

  function PlatformShare(coins: int): int {
    TruncDiv(coins * PLATFORM_TAKE_BPS, 10000)
  }

  function Diamonds(coins: int): int {
    TruncDiv((coins - PlatformShare(coins)) * DIAMONDS_PER_THOUSAND_COINS, 1000)
  }

  /** The five legs of a payment of coins from one user to another. */
  function ChargeEntries(payer: string, payee: string, coins: int): seq<Entry> {
    [Entry(UserCoins(payer), -coins, COIN),
     Entry(PLATFORM_REVENUE, PlatformShare(coins), COIN),
     Entry(PLATFORM_LIABILITY, coins - PlatformShare(coins), COIN),
     Entry(UserDiamonds(payee), Diamonds(coins), DIAMOND),
     Entry(PLATFORM_DIAMOND_LIABILITY, -Diamonds(coins), DIAMOND)]
  }

  /** A charge spelled out: three tenths of the coins to the platform, the rest its liability, and seven tenths of the
      rest in diamonds to the payee, rounded down. */
  lemma {:induction false} ChargeSpelledOut(payer: string, payee: string, coins: int)
    requires coins >= 0
    ensures var share := coins * 3 / 10;
            var diamonds := (coins - share) * 7 / 10;
            ChargeEntries(payer, payee, coins)
            == [Entry("user:" + payer + ":coins", -coins, "COIN"),
                Entry("platform:revenue", share, "COIN"),
                Entry("platform:liability", coins - share, "COIN"),
                Entry("user:" + payee + ":diamonds", diamonds, "DIAMOND"),
                Entry("platform:diamond_liability", -diamonds, "DIAMOND")]
  {
    DiamondsExact(coins);
  }

  /** The legs balance in both currencies, for any amount. */
  lemma {:induction false} ChargeBalances(payer: string, payee: string, coins: int)
    ensures Balanced(ChargeEntries(payer, payee, coins)) && Balanced(Negated(ChargeEntries(payer, payee, coins)))
  {
    var es := ChargeEntries(payer, payee, coins);
    forall c: Currency | c == COIN || c == DIAMOND
      ensures CurrencySum(es, c) == 0
    {
      hide PlatformShare, Diamonds;
      CurrencySumStep(es, 0, c);
      CurrencySumStep(es, 1, c);
      CurrencySumStep(es, 2, c);
      CurrencySumStep(es, 3, c);
      CurrencySumStep(es, 4, c);
      assert es[..0] == [] && es[..5] == es;
    }
    hide ChargeEntries, CurrencySum;
    NegatedCurrencySum(es, COIN);
    NegatedCurrencySum(es, DIAMOND);
    ChargeCurrencies(payer, payee, coins);
  }

  lemma {:induction false} ChargeCurrencies(payer: string, payee: string, coins: int)
    ensures forall i :: 0 <= i < |ChargeEntries(payer, payee, coins)|
                        ==> ChargeEntries(payer, payee, coins)[i].currency in {COIN, DIAMOND}
  {
  }

  lemma {:induction false} ChargeTouchesOnce(payer: string, payee: string, coins: int)
    ensures TouchesOnce(ChargeEntries(payer, payee, coins)) && TouchesOnce(Negated(ChargeEntries(payer, payee, coins)))
  {
    hide PlatformShare, Diamonds, IsPlatform;
    UserIsNotPlatform(payer);
    UserIsNotPlatform(payee);
    PlatformAccounts();
    assert PLATFORM_REVENUE[9] == 'r' && PLATFORM_LIABILITY[9] == 'l';
    var es := ChargeEntries(payer, payee, coins);
    assert KeyOf(es[0]).currency == COIN && KeyOf(es[3]).currency == DIAMOND;
  }

  lemma {:induction false} PlatformAccounts()
    ensures IsPlatform(PLATFORM_REVENUE) && IsPlatform(PLATFORM_LIABILITY) && IsPlatform(PLATFORM_DIAMOND_LIABILITY)
  {
  }

  lemma {:induction false} SharesInRange(coins: int)
    requires coins >= 0
    ensures 0 <= PlatformShare(coins) <= coins && 0 <= Diamonds(coins) <= coins
  {
  }

  /** A charge is refused exactly when the payer cannot cover it. */
  lemma {:induction false} ChargeBreach(log: seq<Tx>, payer: string, payee: string, coins: int)
    requires LogOK(log) && coins >= 0
    ensures FirstBreach(log, ChargeEntries(payer, payee, coins), 0)
            == if LogBalance(log, BalanceKey(UserCoins(payer), COIN)) < coins then 0 else 5
  {
    hide PlatformShare, Diamonds, IsPlatform, LogOK;
    var es := ChargeEntries(payer, payee, coins);
    ChargeTouchesOnce(payer, payee, coins);
    SharesInRange(coins);
    UserIsNotPlatform(payer);
    PlatformAccounts();
    UserIsNotPlatform(payee);
    NonNegative(log, KeyOf(es[3]));
    OnceBreach(log, es, 0);
    OnceBreach(log, es, 1);
    OnceBreach(log, es, 2);
    OnceBreach(log, es, 3);
    OnceBreach(log, es, 4);
  }

  /** Taking a charge back is refused exactly when the payee no longer holds the diamonds. */
  lemma {:induction false} RefundBreach(log: seq<Tx>, payer: string, payee: string, coins: int)
    requires LogOK(log) && coins >= 0
    ensures FirstBreach(log, Negated(ChargeEntries(payer, payee, coins)), 0)
            == if LogBalance(log, BalanceKey(UserDiamonds(payee), DIAMOND)) < Diamonds(coins) then 3 else 5
  {
    hide PlatformShare, Diamonds, IsPlatform, LogOK;
    var es := Negated(ChargeEntries(payer, payee, coins));
    ChargeTouchesOnce(payer, payee, coins);
    SharesInRange(coins);
    UserIsNotPlatform(payer);
    PlatformAccounts();
    UserIsNotPlatform(payee);
    NonNegative(log, KeyOf(es[0]));
    OnceBreach(log, es, 0);
    OnceBreach(log, es, 1);
    OnceBreach(log, es, 2);
    OnceBreach(log, es, 3);
    OnceBreach(log, es, 4);
  }

  // ---- Rounding ----

  /** Paying in two parts changes the diamonds by at most one; in multiples of ten it never pays more. */
  lemma {:induction false} SplittingAPayment(a: nat, b: nat)
    ensures -1 <= Diamonds(a) + Diamonds(b) - Diamonds(a + b) <= 1
    ensures a % 10 == 0 && b % 10 == 0 ==> Diamonds(a) + Diamonds(b) <= Diamonds(a + b)
  {
    DiamondsExact(a);
    DiamondsExact(b);
    DiamondsExact(a + b);
    hide PlatformShare, Diamonds;
    SplitFloors(a, b, a + b, PlatformShare(a), PlatformShare(b), PlatformShare(a + b), Diamonds(a), Diamonds(b),
                Diamonds(a + b));
  }

  /** Two nested floors, of 3/10 and of 7/10 of the rest, on parts and on the whole. */
  lemma {:induction false} SplitFloors(a: int, b: int, c: int, sa: int, sb: int, sc: int, da: int, db: int, dc: int)
    requires c == a + b
    requires 10 * sa <= 3 * a < 10 * sa + 10 && 10 * sb <= 3 * b < 10 * sb + 10 && 10 * sc <= 3 * c < 10 * sc + 10
    requires 10 * da <= 7 * (a - sa) < 10 * da + 10 && 10 * db <= 7 * (b - sb) < 10 * db + 10
             && 10 * dc <= 7 * (c - sc) < 10 * dc + 10
    ensures -1 <= da + db - dc <= 1
    ensures a % 10 == 0 && b % 10 == 0 ==> da + db <= dc
  {
    assert sa + sb <= sc <= sa + sb + 1;
    if a % 10 == 0 && b % 10 == 0 {
      assert 10 * sa == 3 * a && 10 * sb == 3 * b;
    }
  }

  /** The amounts without truncation operators: the share is the floor of 3/10, the diamonds the floor of 7/10
      of the rest. */
  lemma {:induction false} DiamondsExact(coins: nat)
    ensures 10 * PlatformShare(coins) <= 3 * coins < 10 * PlatformShare(coins) + 10
    ensures 10 * Diamonds(coins) <= 7 * (coins - PlatformShare(coins)) < 10 * Diamonds(coins) + 10
  {
    SharesInRange(coins);
  }

  /** Both bounds are met: 3 + 3 coins pay one diamond more than 6, and 1 + 1 one less than 2. */
  lemma {:induction false} SplittingBoundsAreMet()
    ensures Diamonds(3) + Diamonds(3) == Diamonds(6) + 1
    ensures Diamonds(1) + Diamonds(1) == Diamonds(2) - 1
  {
  }
}

module Gifts {
  import opened Decimal
  import opened Ledger
  import opened LedgerRuns
  import opened MemLedgers
  import opened Charges

  const MAX_QUANTITY := 10_000
  const INT64_MAX: int := 0x7FFF_FFFF_FFFF_FFFF

  function GiftCoins(giftId: string): Option<int> {
    if giftId == "g_rose" then Some(10)
    else if giftId == "g_heart" then Some(50)
    else if giftId == "g_crown" then Some(500)
    else if giftId == "g_aurora" then Some(2000)
    else None
  }

  /** No step of the arithmetic leaves int64, for every catalogue gift and allowed quantity; and the gross is
      always a multiple of ten, so splitting a gift never pays the recipient more. */
  lemma {:induction false} NoOverflow(giftId: string, quantity: int)
    requires GiftCoins(giftId).Some? && 0 < quantity <= MAX_QUANTITY
    ensures var gross := GiftCoins(giftId).value * quantity;
            && 0 < gross <= gross * PLATFORM_TAKE_BPS <= INT64_MAX
            && 0 <= PlatformShare(gross) <= gross
            && 0 <= (gross - PlatformShare(gross)) * DIAMONDS_PER_THOUSAND_COINS <= INT64_MAX
            && 0 <= Diamonds(gross) <= gross
            && gross % 10 == 0
  {
    var price := GiftCoins(giftId).value;
    GrossInRange(price, quantity);
    SharesInRange(price * quantity);
  }

  lemma {:induction false} GrossInRange(price: int, quantity: int)
    requires price in {10, 50, 500, 2000} && 0 < quantity <= MAX_QUANTITY
    ensures 0 < price * quantity <= 20_000_000 && price * quantity % 10 == 0
  {
    var tens := if price == 10 then 1 else if price == 50 then 5 else if price == 500 then 50 else 200;
    assert price == 10 * tens;
    assert 0 < tens * quantity <= 2_000_000 by {
      if tens == 1 {} else if tens == 5 {} else if tens == 50 {} else { assert tens == 200; }
    }
    assert price * quantity == 10 * (tens * quantity);
    TenTimes(tens * quantity);
  }

  lemma {:induction false} TenTimes(k: int)
    ensures 10 * k % 10 == 0
  {
  }

  datatype GiftError = SelfGift | InvalidQuantity | GiftNotFound | VelocityLimit | RecipientNotRoomHost
                     | Refused(error: LedgerError)

  datatype GiftResult = GiftResult(txId: string, isNew: bool, giftId: string, quantity: int, coinsSpent: int,
                                   creatorDiamonds: int, platformTook: int, newSenderBalance: int)

  datatype Sent = Sent(result: GiftResult) | NotSent(error: GiftError)

  /** The injected gates: whether the velocity check refuses, and the room-host check if one is configured. */
  datatype Gates = Gates(velocityRefuses: bool, hostCheck: Option<bool>)

  function GiftMetadata(sender: string, recipient: string, room: string, giftId: string, quantity: int): Metadata {
    map["gift_id" := Text(giftId), "room_id" := Text(room), "quantity" := Count(quantity),
        "sender_id" := Text(sender), "recipient_id" := Text(recipient)]
  }

  /** The amounts read back from a transaction's entries, later entries winning. */
  datatype Amounts = Amounts(spent: int, took: int, diamonds: int)

  function AmountsOf(es: seq<Entry>, sender: string): Amounts {
    if es == [] then Amounts(0, 0, 0)
    else
      var a, e := AmountsOf(es[..|es| - 1], sender), es[|es| - 1];
      if e.account == UserCoins(sender) && e.currency == COIN then a.(spent := -e.amount)
      else if e.account == PLATFORM_REVENUE && e.currency == COIN then a.(took := e.amount)
      else if e.currency == DIAMOND && e.amount > 0 then a.(diamonds := e.amount)
      else a
  }

  function MetaText(m: Metadata, key: string): string {
    if key in m && m[key].Text? then m[key].text else ""
  }

  function MetaCount(m: Metadata, key: string): int {
    if key in m && m[key].Count? then m[key].count else 0
  }

  function ResultOf(b: Book, tx: Tx, sender: string, isNew: bool): GiftResult {
    var a := AmountsOf(tx.entries, sender);
    GiftResult(tx.id, isNew, MetaText(tx.metadata, "gift_id"), MetaCount(tx.metadata, "quantity"), a.spent, a.diamonds,
               a.took,
               LogBalance(b.log, BalanceKey(UserCoins(sender), COIN)))
  }

  function SendGift(b: Book, sender: string, recipient: string, room: string, giftId: string, quantity: int,
                    key: string, gates: Gates, now: int): (Book, Sent)
  {
    if sender == recipient then (b, NotSent(SelfGift))
    else if quantity <= 0 || quantity > MAX_QUANTITY then (b, NotSent(InvalidQuantity))
    else if GiftCoins(giftId).None? then (b, NotSent(GiftNotFound))
    else if KeyUsed(b, key) then (b, Sent(ResultOf(b, KeyIndex(b.log, b.forgotten)[key], sender, false)))
    else if gates.velocityRefuses then (b, NotSent(VelocityLimit))
    else if gates.hostCheck.Some? && (room == "" || !gates.hostCheck.value) then (b, NotSent(RecipientNotRoomHost))
    else
      var (b', r) := Post(b, "gift", key, GiftMetadata(sender, recipient, room, giftId, quantity),
                          ChargeEntries(sender, recipient, GiftCoins(giftId).value * quantity), now);
      match r
      case Rejected(error) => (b', NotSent(Refused(error)))
      case Posted(tx, isNew) => (b', Sent(ResultOf(b', tx, sender, isNew)))
  }

  /** Reading a gift's amounts back gives what was computed when it was sent. */
  lemma {:induction false} AmountsReadBack(sender: string, recipient: string, coins: int)
    requires coins >= 0
    ensures AmountsOf(ChargeEntries(sender, recipient, coins), sender)
            == Amounts(coins, PlatformShare(coins), Diamonds(coins))
  {
    hide PlatformShare, Diamonds, IsPlatform;
    var es := ChargeEntries(sender, recipient, coins);
    SharesInRange(coins);
    UserIsNotPlatform(sender);
    PlatformAccounts();
    assert PLATFORM_REVENUE[9] == 'r' && PLATFORM_LIABILITY[9] == 'l';
    assert es[..5] == es && es[..5][..4] == es[..4] && es[..4][..3] == es[..3] && es[..3][..2] == es[..2]
        && es[..2][..1] == es[..1] && es[..1][..0] == [];
    assert AmountsOf(es[..1], sender) == Amounts(coins, 0, 0);
    assert AmountsOf(es[..2], sender) == Amounts(coins, PlatformShare(coins), 0);
    assert AmountsOf(es[..3], sender) == Amounts(coins, PlatformShare(coins), 0);
    assert AmountsOf(es[..4], sender) == Amounts(coins, PlatformShare(coins), Diamonds(coins));
  }

  /** The requests that reach the ledger. */
  predicate Reaches(b: Book, sender: string, recipient: string, room: string, giftId: string, quantity: int,
                    key: string, gates: Gates) {
    && sender != recipient && 0 < quantity <= MAX_QUANTITY && GiftCoins(giftId).Some? && !KeyUsed(b, key)
    && !gates.velocityRefuses && (gates.hostCheck.Some? ==> room != "" && gates.hostCheck.value)
  }

  /** A fresh gift goes through exactly when the sender can cover it: the sender pays the gross, the recipient
      earns the diamonds and the result reports both. Otherwise nothing moves, and the reported shortfall is
      exactly what the sender is missing. */
  lemma {:induction false} FreshGift(b: Book, sender: string, recipient: string, room: string, giftId: string,
                                     quantity: int, key: string, gates: Gates, now: int)
    requires Inv(b) && Reaches(b, sender, recipient, room, giftId, quantity, key, gates)
    ensures var gross := GiftCoins(giftId).value * quantity;
            var coins := LogBalance(b.log, BalanceKey(UserCoins(sender), COIN));
            var earned := BalanceKey(UserDiamonds(recipient), DIAMOND);
            var (b', r) := SendGift(b, sender, recipient, room, giftId, quantity, key, gates, now);
            if coins >= gross
            then
              && r.Sent? && Inv(b')
              && r.result == GiftResult(TxId(|b.log| + 1), true, giftId, quantity, gross, Diamonds(gross),
                                        PlatformShare(gross), coins - gross)
              && LogBalance(b'.log, earned) == LogBalance(b.log, earned) + Diamonds(gross)
            else
              && b' == b && r.NotSent? && r.error.Refused?
              && r.error.error == InsufficientBalance(UserCoins(sender), COIN, gross, coins)
              && r.error.error.Shortfall() == gross - coins > 0
  {
    hide Inv, PlatformShare, Diamonds, LogOK, AmountsOf, GiftCoins;
    var gross := GiftCoins(giftId).value * quantity;
    var es := ChargeEntries(sender, recipient, gross);
    NoOverflow(giftId, quantity);
    InvLog(b);
    ChargeBreach(b.log, sender, recipient, gross);
    ChargeBalances(sender, recipient, gross);
    AmountsReadBack(sender, recipient, gross);
    PostKeepsInv(b, "gift", key, GiftMetadata(sender, recipient, room, giftId, quantity), es, now);
    var (b', r) := SendGift(b, sender, recipient, room, giftId, quantity, key, gates, now);
    if r.Sent? {
      var tx := Tx(TxId(|b.log| + 1), "gift", key, GiftMetadata(sender, recipient, room, giftId, quantity), es, now);
      assert b'.log == b.log + [tx];
      ChargeTouchesOnce(sender, recipient, gross);
      OnceSum(es, 0);
      OnceSum(es, 3);
      LogBalanceAppend(b.log, tx, KeyOf(es[0]));
      LogBalanceAppend(b.log, tx, KeyOf(es[3]));
    }
  }

  /** A replay by the sender, at any later time and whatever gift it asks for, moves nothing and reports the
      amounts of the gift first sent under the key. */
  lemma {:induction false} GiftReplay(b: Book, i: nat, sender: string, recipient: string, room: string, giftId: string,
                                      quantity: int, firstRecipient: string, firstRoom: string, firstGift: string,
                                      firstQuantity: int, gates: Gates, now: int)
    requires Inv(b) && b.forgotten <= i < |b.log|
    requires sender != recipient && 0 < quantity <= MAX_QUANTITY && GiftCoins(giftId).Some?
    requires GiftCoins(firstGift).Some? && 0 < firstQuantity <= MAX_QUANTITY
    requires b.log[i].entries == ChargeEntries(sender, firstRecipient, GiftCoins(firstGift).value * firstQuantity)
    requires b.log[i].metadata == GiftMetadata(sender, firstRecipient, firstRoom, firstGift, firstQuantity)
    ensures var gross := GiftCoins(firstGift).value * firstQuantity;
            SendGift(b, sender, recipient, room, giftId, quantity, b.log[i].key, gates, now)
            == (b, Sent(GiftResult(b.log[i].id, false, firstGift, firstQuantity, gross, Diamonds(gross),
                                   PlatformShare(gross),
                                   LogBalance(b.log, BalanceKey(UserCoins(sender), COIN)))))
  {
    hide PlatformShare, Diamonds, Inv, AmountsOf, KeyIndex;
    KeyLookup(b, i);
    NoOverflow(firstGift, firstQuantity);
    AmountsReadBack(sender, firstRecipient, GiftCoins(firstGift).value * firstQuantity);
  }

  predicate IsPayment(e: Entry, sender: string) {
    e.account == "user:" + sender + ":coins" && e.currency == "COIN"
  }

  predicate IsCut(e: Entry) {
    e.account == "platform:revenue" && e.currency == "COIN"
  }

  predicate IsEarning(e: Entry) {
    e.currency == "DIAMOND" && e.amount > 0
  }

  lemma {:induction false} OneEntry(es: seq<Entry>, sender: string)
    requires es != []
    ensures var last := |es| - 1;
            var before, a := AmountsOf(es[..last], sender), AmountsOf(es, sender);
            && a.spent == (if IsPayment(es[last], sender) then -es[last].amount else before.spent)
            && a.took == (if IsCut(es[last]) then es[last].amount else before.took)
            && a.diamonds == (if IsEarning(es[last]) then es[last].amount else before.diamonds)
  {
    assert UserCoins(sender)[0] == 'u' && PLATFORM_REVENUE[0] == 'p';
  }

  /** On any entries at all, each amount is read from the last entry of its kind. */
  lemma {:induction false} LastEntryWins(es: seq<Entry>, sender: string, n: nat)
    requires n < |es|
    ensures var a := AmountsOf(es, sender);
            && (IsPayment(es[n], sender) && (forall i :: n < i < |es| ==> !IsPayment(es[i], sender))
                ==> a.spent == -es[n].amount)
            && (IsCut(es[n]) && (forall i :: n < i < |es| ==> !IsCut(es[i])) ==> a.took == es[n].amount)
            && (IsEarning(es[n]) && (forall i :: n < i < |es| ==> !IsEarning(es[i])) ==> a.diamonds == es[n].amount)
  {
    hide AmountsOf, IsPayment, IsCut, IsEarning;
    OneEntry(es, sender);
    if n < |es| - 1 {
      LastEntryWins(es[..|es| - 1], sender, n);
    }
  }

  /** An amount no entry is of the kind of is 0. */
  lemma {:induction false} NoEntryNothing(es: seq<Entry>, sender: string)
    ensures var a := AmountsOf(es, sender);
            && ((forall i :: 0 <= i < |es| ==> !IsPayment(es[i], sender)) ==> a.spent == 0)
            && ((forall i :: 0 <= i < |es| ==> !IsCut(es[i])) ==> a.took == 0)
            && ((forall i :: 0 <= i < |es| ==> !IsEarning(es[i])) ==> a.diamonds == 0)
  {
    hide IsPayment, IsCut, IsEarning;
    if es != [] {
      OneEntry(es, sender);
      NoEntryNothing(es[..|es| - 1], sender);
    }
  }

  /** A request on any remembered key, whoever used it and for whatever, moves nothing and is answered as sent, under
      the ID of the transaction that holds the key and with the gift and quantity it names, if any. */
  lemma {:induction false} UsedKeySendsNothing(b: Book, i: nat, sender: string, recipient: string, room: string,
                                               giftId: string, quantity: int, gates: Gates, now: int)
    requires Inv(b) && b.forgotten <= i < |b.log|
    requires sender != recipient && 0 < quantity <= MAX_QUANTITY && GiftCoins(giftId).Some?
    ensures var (b', r) := SendGift(b, sender, recipient, room, giftId, quantity, b.log[i].key, gates, now);
            var named := b.log[i].metadata;
            && b' == b && r.Sent? && !r.result.isNew && r.result.txId == b.log[i].id
            && (forall gift :: "gift_id" in named && named["gift_id"] == Text(gift) ==> r.result.giftId == gift)
            && ("gift_id" !in named || !named["gift_id"].Text? ==> r.result.giftId == "")
            && (forall n :: "quantity" in named && named["quantity"] == Count(n) ==> r.result.quantity == n)
            && ("quantity" !in named || !named["quantity"].Count? ==> r.result.quantity == 0)
  {
    hide Inv, AmountsOf, KeyIndex, LogBalance;
    KeyLookup(b, i);
  }

  lemma {:induction false} WalletsDiffer(a: string, b: string)
    requires a != b
    ensures UserCoins(a) != UserCoins(b)
  {
    var s, t := UserCoins(a), UserCoins(b);
    assert |s| == |a| + 11 && |t| == |b| + 11;
    assert s[5..5 + |a|] == a && t[5..5 + |b|] == b;
  }

  lemma {:induction false} OthersAmounts(first: string, recipient: string, coins: int, sender: string)
    requires coins > 0 && first != sender
    ensures AmountsOf(ChargeEntries(first, recipient, coins), sender)
            == Amounts(0, PlatformShare(coins), if Diamonds(coins) > 0 then Diamonds(coins) else 0)
  {
    hide PlatformShare, Diamonds, IsPlatform;
    var es := ChargeEntries(first, recipient, coins);
    SharesInRange(coins);
    UserIsNotPlatform(sender);
    PlatformAccounts();
    WalletsDiffer(first, sender);
    UserIsNotPlatform(first);
    assert PLATFORM_REVENUE[9] == 'r' && PLATFORM_LIABILITY[9] == 'l';
    assert es[..5] == es && es[..5][..4] == es[..4] && es[..4][..3] == es[..3] && es[..3][..2] == es[..2]
        && es[..2][..1] == es[..1] && es[..1][..0] == [];
    assert AmountsOf(es[..1], sender) == Amounts(0, 0, 0);
    assert AmountsOf(es[..2], sender) == Amounts(0, PlatformShare(coins), 0);
    assert AmountsOf(es[..3], sender) == Amounts(0, PlatformShare(coins), 0);
  }

  /** On the key of somebody else's gift the sender is told that gift went out, with its platform cut and its
      recipient's diamonds, at no cost; the recipient asked for gets nothing. */
  lemma {:induction false} OthersGiftKey(b: Book, i: nat, sender: string, recipient: string, room: string,
                                         giftId: string,
                                         quantity: int, first: string, firstRecipient: string, firstRoom: string,
                                         firstGift: string, firstQuantity: int, gates: Gates, now: int)
    requires Inv(b) && b.forgotten <= i < |b.log| && first != sender
    requires sender != recipient && 0 < quantity <= MAX_QUANTITY && GiftCoins(giftId).Some?
    requires GiftCoins(firstGift).Some? && 0 < firstQuantity <= MAX_QUANTITY
    requires b.log[i].entries == ChargeEntries(first, firstRecipient, GiftCoins(firstGift).value * firstQuantity)
    requires b.log[i].metadata == GiftMetadata(first, firstRecipient, firstRoom, firstGift, firstQuantity)
    ensures var gross := GiftCoins(firstGift).value * firstQuantity;
            SendGift(b, sender, recipient, room, giftId, quantity, b.log[i].key, gates, now)
            == (b, Sent(GiftResult(b.log[i].id, false, firstGift, firstQuantity, 0, Diamonds(gross),
                                   PlatformShare(gross),
                                   LogBalance(b.log, BalanceKey(UserCoins(sender), COIN)))))
  {
    hide PlatformShare, Diamonds, Inv, AmountsOf, KeyIndex;
    KeyLookup(b, i);
    NoOverflow(firstGift, firstQuantity);
    SharesInRange(GiftCoins(firstGift).value * firstQuantity);
    GrossPositive(firstGift, firstQuantity);
    OthersAmounts(first, firstRecipient, GiftCoins(firstGift).value * firstQuantity, sender);
  }

  lemma {:induction false} GrossPositive(giftId: string, quantity: int)
    requires GiftCoins(giftId).Some? && quantity > 0
    ensures GiftCoins(giftId).value * quantity > 0
  {
  }

  /** The prices, and the only gifts there are. */
  lemma {:induction false} Catalogue(giftId: string)
    ensures GiftCoins("g_rose") == Some(10) && GiftCoins("g_heart") == Some(50)
    ensures GiftCoins("g_crown") == Some(500) && GiftCoins("g_aurora") == Some(2_000)
    ensures GiftCoins(giftId).Some? <==> giftId in {"g_rose", "g_heart", "g_crown", "g_aurora"}
  {
    assert "g_rose"[2] == 'r' && "g_heart"[2] == 'h' && "g_crown"[2] == 'c' && "g_aurora"[2] == 'a';
  }

  /** The refusals before the ledger is asked, in order, each exactly under its own condition; the velocity and
      room checks are not made for a key already used. A refusal changes nothing. */
  lemma {:induction false} GiftRefusals(b: Book, sender: string, recipient: string, room: string, giftId: string,
                                        quantity: int, key: string, gates: Gates, now: int)
    requires Inv(b)
    ensures var (b', r) := SendGift(b, sender, recipient, room, giftId, quantity, key, gates, now);
            var proper := sender != recipient && 1 <= quantity <= 10_000;
            var listed := giftId in {"g_rose", "g_heart", "g_crown", "g_aurora"};
            var unused := proper && listed && !KeyUsed(b, key);
            var outside := gates.hostCheck.Some? && (gates.hostCheck.value ==> room == "");
            && (r == NotSent(SelfGift) <==> sender == recipient)
            && (r == NotSent(InvalidQuantity) <==> sender != recipient && (quantity < 1 || quantity > 10_000))
            && (r == NotSent(GiftNotFound) <==> proper && !listed)
            && (r == NotSent(VelocityLimit) <==> unused && gates.velocityRefuses)
            && (r == NotSent(RecipientNotRoomHost) <==> unused && !gates.velocityRefuses && outside)
            && (r.NotSent? ==> b' == b)
            && (Reaches(b, sender, recipient, room, giftId, quantity, key, gates)
                <==> unused && !gates.velocityRefuses && !outside)
  {
    hide Inv, KeyIndex, ResultOf, GiftCoins, Post, ChargeEntries;
    Catalogue(giftId);
    if Reaches(b, sender, recipient, room, giftId, quantity, key, gates) {
      RefusedUnchanged(b, "gift", key, GiftMetadata(sender, recipient, room, giftId, quantity),
                       ChargeEntries(sender, recipient, GiftCoins(giftId).value * quantity), now);
    }
  }

  lemma {:induction false} RefusedUnchanged(b: Book, kind: string, key: string, metadata: Metadata, es: seq<Entry>,
                                            now: int)
    ensures Post(b, kind, key, metadata, es, now).1.Rejected? ==> Post(b, kind, key, metadata, es, now).0 == b
  {
    hide KeyIndex, Balanced, FirstBreach;
  }

  /** A fresh gift that is sent stands on the books under its key as the charge of its price times its quantity, with
      what was sent, where, by whom and to whom. */
  lemma {:induction false} GiftOnTheBooks(b: Book, sender: string, recipient: string, room: string, giftId: string,
                                          quantity: int, key: string, gates: Gates, now: int)
    requires Inv(b) && Reaches(b, sender, recipient, room, giftId, quantity, key, gates)
    requires SendGift(b, sender, recipient, room, giftId, quantity, key, gates, now).1.Sent?
    ensures SendGift(b, sender, recipient, room, giftId, quantity, key, gates, now).0.log
            == b.log + [Tx("tx-" + Itoa(|b.log| + 1), "gift", key,
                           map["gift_id" := Text(giftId), "room_id" := Text(room), "quantity" := Count(quantity),
                               "sender_id" := Text(sender), "recipient_id" := Text(recipient)],
                           ChargeEntries(sender, recipient, GiftCoins(giftId).value * quantity), now)]
  {
    hide Inv, ResultOf, GiftCoins, PlatformShare, Diamonds, KeyIndex, Acceptable, ChargeEntries;
    ExactAcceptance(b, "gift", key, GiftMetadata(sender, recipient, room, giftId, quantity),
                    ChargeEntries(sender, recipient, GiftCoins(giftId).value * quantity), now);
  }

  /** Whatever becomes of a request, the ledger stays in order. */
  lemma {:induction false} GiftKeepsInv(b: Book, sender: string, recipient: string, room: string, giftId: string,
                                        quantity: int, key: string, gates: Gates, now: int)
    requires Inv(b)
    ensures Inv(SendGift(b, sender, recipient, room, giftId, quantity, key, gates, now).0)
  {
    hide Inv, KeyIndex, ResultOf, GiftCoins, PlatformShare, Diamonds, ChargeEntries, Post;
    if GiftCoins(giftId).Some? {
      PostKeepsInv(b, "gift", key, GiftMetadata(sender, recipient, room, giftId, quantity),
                   ChargeEntries(sender, recipient, GiftCoins(giftId).value * quantity), now);
    }
  }

  lemma {:induction false} NamedGift(giftId: string)
    requires GiftCoins(giftId).Some?
    ensures giftId != ""
  {
  }

  class GiftService {
    const ledger: MemLedger

    constructor (ledger: MemLedger)
      ensures this.ledger == ledger
    {
      this.ledger := ledger;
    }

    method FinalizeResult(tx: Tx, sender: string, isNew: bool) returns (r: GiftResult)
      requires ledger.Valid()
      ensures r == ResultOf(ledger.book, tx, sender, isNew)
    {
      hide Inv;
      r := GiftResult(tx.id, isNew, MetaText(tx.metadata, "gift_id"), MetaCount(tx.metadata, "quantity"), 0, 0, 0, 0);
      var senderAcct := UserCoins(sender);
      for i := 0 to |tx.entries|
        invariant r.txId == tx.id && r.isNew == isNew && r.giftId == MetaText(tx.metadata, "gift_id")
                  && r.quantity == MetaCount(tx.metadata, "quantity")
        invariant AmountsOf(tx.entries[..i], sender) == Amounts(r.coinsSpent, r.platformTook, r.creatorDiamonds)
      {
        assert tx.entries[..i + 1][..i] == tx.entries[..i];
        var e := tx.entries[i];
        if e.account == senderAcct && e.currency == COIN {
          r := r.(coinsSpent := -e.amount);
        } else if e.account == PLATFORM_REVENUE && e.currency == COIN {
          r := r.(platformTook := e.amount);
        } else if e.currency == DIAMOND && e.amount > 0 {
          r := r.(creatorDiamonds := e.amount);
        }
      }
      assert tx.entries[..|tx.entries|] == tx.entries;
      var balance := ledger.Balance(senderAcct, COIN);
      r := r.(newSenderBalance := balance);
    }

    method Send(sender: string, recipient: string, room: string, giftId: string, quantity: int, key: string,
                gates: Gates, now: int)
      returns (sent: Sent)
      requires ledger.Valid()
      modifies ledger
      ensures ledger.Valid()
      ensures (ledger.book, sent) == SendGift(old(ledger.book), sender, recipient, room, giftId, quantity, key, gates,
                                              now)
    {
      hide Inv, PlatformShare, Diamonds, ResultOf, GiftCoins;
      if sender == recipient {
        return NotSent(SelfGift);
      }
      if quantity <= 0 || quantity > MAX_QUANTITY {
        return NotSent(InvalidQuantity);
      }
      var coins := GiftCoins(giftId);
      if coins.None? {
        return NotSent(GiftNotFound);
      }
      var existing := ledger.GetTransaction(key);
      if existing.Some? {
        var r := FinalizeResult(existing.value, sender, false);
        return Sent(r);
      }
      if gates.velocityRefuses {
        return NotSent(VelocityLimit);
      }
      if gates.hostCheck.Some? && (room == "" || !gates.hostCheck.value) {
        return NotSent(RecipientNotRoomHost);
      }
      var posted := ledger.PostTransaction("gift", key, GiftMetadata(sender, recipient, room, giftId, quantity),
                                           ChargeEntries(sender, recipient, coins.value * quantity), now);
      if posted.Rejected? {
        return NotSent(Refused(posted.error));
      }
      var r := FinalizeResult(posted.tx, sender, posted.isNew);
      sent := Sent(r);
    }
  }
}
