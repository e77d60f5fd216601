# Lumena money core: a verified model

This project models the parts of Lumena that move money, and two message paths whose fast forms must agree with a
plain log, and proves what they promise.

- **Ledger.** A book is a log of posted transactions. The in-memory ledger keeps balances, two indexes, account
  histories and a reversal table beside it; every one of them is proved to be a function of the log after any
  sequence of posts, reversals and restarts (`Ledger`, `LedgerRuns`, `MemLedgers`, `Paging`, `Decimal`).
- **Coin orders.** The verify-and-credit call is cut into its atomic steps. One model lets any number of calls on
  stale copies interleave and crash; a second serialises them. The service's own code is proved to take exactly
  those steps (`Orders`, `OrderRecovery`, `OrderRaces`, `OrderOutcomes`, `OrderServices`).
- **Spend limits.** Delayed raises resolved lazily, and caps over sliding windows (`SpendLimit`, `SpendWindows`).
- **Gifts, private calls, payouts.** Services that post to the ledger, and the conservation laws that tie their own
  records to it (`Charges`, `Gifts`, `PrivateVideo`, `Payouts`, `GiftEarnings`). Private calls are also cut
  into atomic steps and raced (`CallRaces`, `RaceTruth`), and runs that reach the exceptions are given (`CallCases`).
- **Event bus and chat log.** A 500-slot ring against the full log, and cursor paging against an append-only log
  (`Bus`, `Chat`).

Each service appears twice: as functions on plain values, about which the laws are proved, and as a class with the
source's fields, loops and early returns, whose methods are proved to compute those functions.

## Assumptions

- Amounts are mathematical integers. The gift arithmetic is proved to stay inside int64; list lengths that become
  cursors are below 2^63.
- Keys the services derive themselves (`order-...`, `pv-hold-reverse-...`, `pv-settle-...`, `payout-reversal:...`) are
  used by nobody else, and only the payout service posts the kinds `payout` and `payout_reversal`.
- The token hash is injective (it is modelled as a constructor). Session IDs are fresh. Store verification, account
  gates and the clock are inputs: a verdict, a record of gate answers, and time readings.
- Except after `RestartOp` in `LedgerRuns`, the ledger is not restarted between a service's calls: a restart forgets
  idempotency keys.

## Where the code and its documentation disagree

The model follows the code. For each point there is a statement of exactly when it happens and one that it does.

- `Shortfall()` is documented as the exact top-up. It is the least top-up exactly when the earlier entries of the
  transaction leave the rejected account where it was (`ShortfallIsLeastTopUp`, `ShortfallMayBeNegative`).
- A history cursor that reads as 2^63 or more becomes a negative slice index (`PanicsExactlyOn`, `CursorPanics`).
- The snapshot comment calls a retry across a restart harmless; the same request posts again
  (`RestartForgetsOnlyKeys`).
- `VerifyOrder` is documented as safe to repeat, in particular beside the reconciler. An uninterrupted call leaves a
  credited order failed in one case only: given another order's token while its order is posted but not yet marked
  (`FailedWithCreditExactly`, `CreditLost`, `CreditCanBeLost`); callers that repeat the stored token are safe when
  calls are serialised (`RepeatingRunIsSafe`). A call that is overtaken can also fail, or set back to pending, an order
  that a faster call has credited, if the store answers the two differently (`OverlapUndoes`). In every interleaving
  no failed order has a credit if no token is passed for two orders and the store never both confirms an order and
  calls its token invalid (`InterleavedFailedIsUncredited`).
- A declined call is documented as never paid for. It is given back exactly when the callee still holds the first
  minute's diamonds (`ClosingConservesExactly`), and the callee can always spend them first
  (`DiamondsSpentWhileRinging`, `HoldKept`).
- A session opened on a key already used for something else is not charged and adopts the earlier transaction as its
  hold (`NewSessionIsChargedExactly`, `DepositTakenForHold`); closing it takes that transaction back from whoever it
  paid (`ClosingTakesBack`, `AdoptedBilling`).
- A session's consumed coins are documented as what was actually charged. They are as long as calls run whole,
  none begins while another is unfinished, and the hold can be given back (`WholeCallExactly`, `InTurnExactly`). When calls overlap, or
  are retried after a crash, the session is still billed once (`BilledAtMostOnce`), and the record is right exactly
  when the last call to write shows the minutes of the call that was charged (`RecordExactly`, `QuietExactly`): two
  ends may leave it wrong (`BothEndExactly`, `RecordDisagrees`) or right (`OverlapMayAgree`), and an accept written
  after a cancellation reopens a call that was given back (`RingingExactly`, `LateAcceptReopens`).
- A payout requested on a used key is recorded without a debit, and rejecting it pays it out of nothing
  (`RequestConservesExactly`, `SurplusIsUndebited`, `UndebitedPayout`).
- A gift sent on a key already used for anything else is answered as sent, and nothing is (`UsedKeySendsNothing`,
  `OthersGiftKey`).
- A raise is documented as taking 48 hours. All caps share one due time, so any request that leaves a window alone,
  by 0 or by its present cap, restarts the delay of that window's pending raise (`RequestTakesEffect`,
  `RequestPostponesOthers`, `WeeklyRaisePostponed`).

## Model

| member | source | states |
|---|---|---|
| `Decimal.FormatInt` | ledger/mem_ledger.go:330-350 | the digit buffer holds the shortest decimal text of any int64 but the least, for which it holds "-" alone; its 20 bytes always suffice |
| `Decimal.SignedText` | ledger/mem_ledger.go:330-350 | that text reads back as the number, after a sign if it is negative |
| `Decimal.ParseDecimal` | ledger/mem_ledger.go:352-364 | exactly the non-empty all-digit texts are accepted, with their value modulo 2^64 |
| `Decimal.ParseItoa` | ledger/mem_ledger.go:330-364 | reading a printed number back gives the number below 2^64, and its remainder above |
| `Ledger.BalanceIsHistorySum` | ledger/mem_ledger.go:183-205 | on every log, an account's balance equals the sum of its own history lines |
| `LedgerRuns.ExactAcceptance` | ledger/mem_ledger.go:142-205 | on an unused key a post succeeds if and only if the entries are non-empty, sum to zero per currency and keep every wallet non-negative after every prefix; it then appends exactly the transaction asked for, otherwise the book is unchanged |
| `LedgerRuns.RefusalExactly` | ledger/mem_ledger.go:146-181 | a post on an unused key is refused as empty if and only if it has no entries, as unbalanced if and only if some currency does not sum to zero, and otherwise its first overdraft is named with what it takes and what the wallet held |
| `LedgerRuns.ReplayPostsNothing` | ledger/mem_ledger.go:143-145 | a remembered key answers with the transaction first posted under it and changes nothing |
| `LedgerRuns.ShortfallIsLeastTopUp` | ledger/ledger.go:57-67 | the least top-up that carries a retry past the rejected entry is the shortfall less what the earlier entries add to that account; with none, the shortfall is positive |
| `LedgerRuns.ShortfallMayBeNegative` | ledger/mem_ledger.go:165-181 | from any non-empty wallet, a transaction touching it twice is rejected with a shortfall of nothing or less |
| `LedgerRuns.RunKeepsInv` | ledger/mem_ledger.go:142-278 | after any posts, reversals and restarts: every transaction was acceptable when posted, IDs count up, remembered keys are unique, each recorded reversal is the later exact inverse of a non-reversal |
| `LedgerRuns.RunBalances` | ledger/mem_ledger.go:142-205 | from an empty ledger no run leaves a wallet negative, and balances equal history sums |
| `LedgerRuns.RunGrows` | ledger/ledger.go:87-88 | later states only extend the log and the reversal record |
| `LedgerRuns.ReversalExactly` | ledger/mem_ledger.go:242-278 | on an unused key a reversal posts if and only if the original exists, is no reversal, is not yet reversed and its inverse is acceptable; it is then the exact inverse and names the original, its kind and the reason, otherwise nothing changes |
| `LedgerRuns.ReversalRefusal` | ledger/mem_ledger.go:242-263 | each refusal of a reversal has exactly its own condition: not on the books, itself a reversal, already reversed; a remembered key answers with its first transaction |
| `LedgerRuns.ReversedAtMostOnce` | ledger/mem_ledger.go:256-258 | in any run, restarts included, an original is reversed at most once |
| `LedgerRuns.NoReversalReversed` | ledger/mem_ledger.go:253-255 | no reversal is itself reversed |
| `LedgerRuns.ReversalCancels` | ledger/mem_ledger.go:260-263 | a transaction and its reversal net to zero on every account, whatever lies between |
| `LedgerRuns.ImmediateReversal` | ledger/mem_ledger.go:242-278 | a transaction can be reversed right after posting if and only if every tail of its entries is covered; all balances are then restored |
| `LedgerRuns.TouchedOnceIsReversible` | ledger/mem_ledger.go:242-278 | touching each account and currency at most once is enough for that |
| `LedgerRuns.TouchedTwiceMayBeIrreversible` | ledger/mem_ledger.go:260-273 | a concrete accepted transaction touching a wallet twice that cannot be reversed at once |
| `LedgerRuns.RestartForgetsOnlyKeys` | ledger/mem_ledger.go:60-108 | after a restart the books, reversals and invariant stand and IDs are not reused, but any old request posts again if acceptable |
| `MemLedgers.CurrencyConserved` | ledger/mem_ledger.go:110-125 | over any set of accounts covering a log of acceptable transactions, each currency totals zero |
| `MemLedgers.MemLedger.Balance` | ledger/mem_ledger.go:127-131 | the materialised balance is the log's |
| `MemLedgers.MemLedger.SumsToZero` | ledger/mem_ledger.go:150-158 | accepts exactly the entries whose every currency sums to zero |
| `MemLedgers.MemLedger.Propose` | ledger/mem_ledger.go:165-181 | finds the first entry that overdraws a wallet, and otherwise the exact resulting balance of every touched account |
| `MemLedgers.MemLedger.RecordHistory` | ledger/mem_ledger.go:198-203 | every account's history grows by its own legs in order and no other changes |
| `MemLedgers.MemLedger.PostTransaction` | ledger/mem_ledger.go:133-205 | all five maps and the counter are again the views of the log after the post; failure changes nothing |
| `MemLedgers.MemLedger.GetTransaction` | ledger/mem_ledger.go:225-229 | finds exactly the remembered transaction under a key |
| `MemLedgers.MemLedger.GetTransactionByID` | ledger/mem_ledger.go:231-240 | finds a posted transaction under an ID exactly when there is one |
| `MemLedgers.MemLedger.ReverseTransaction` | ledger/mem_ledger.go:242-278 | posts and records the reversal with every view kept in step |
| `MemLedgers.MemLedger.History` | ledger/mem_ledger.go:280-317 | the page is that of the account's history in the log |
| `MemLedgers.MemLedger.WholeHistory` | feed/cmd/api/main.go:620-646 | the loop that follows next_cursor ends with the account's whole history, newest first |
| `MemLedgers.MemLedger.IntegrityCheck` | ledger/mem_ledger.go:117-125 | reports every currency on the books, each with sum zero |
| `MemLedgers.SumByCurrency` | ledger/mem_ledger.go:117-125 | on any balance map, right or wrong, the reported sums are the totals per currency |
| `MemLedgers.Flatten` | ledger/mem_ledger.go:77-79 | whatever order the map is walked in, rebuilding its flattening gives the map back |
| `MemLedgers.MemLedger.TakeSnapshot` | ledger/mem_ledger.go:67-81 | the snapshot holds every view of the book but the keys |
| `MemLedgers.MemLedger.Restore` | ledger/mem_ledger.go:83-108 | a fresh ledger restored from it has the same balances, histories, lookups and reversals, valid, with only the keys forgotten |
| `Paging.PageOf` | ledger/mem_ledger.go:280-317 | the reversing and slicing loops give the page at the cursor's offset |
| `Paging.PanicsExactlyOn` | ledger/mem_ledger.go:294-303 | a request panics if and only if the cursor reads as 2^63 or more; no cursor handed out does |
| `Paging.CursorPanics` | ledger/mem_ledger.go:294-303 | every list panics on the printed form of any number from 2^63 up to 2^64 |
| `Paging.PageHonoursLimit` | ledger/mem_ledger.go:280-317 | a page holds at most the lines asked for, 50 if the limit is not from 1 to 200, and exactly that many when a cursor follows; without a decimal cursor it starts from the newest |
| `Paging.WalkSkipsNothing` | ledger/mem_ledger.go:280-317 | on any list that only grows, a walk following next_cursor shows every line that existed when it began |
| `Ledger.AccountHistoryGrows` | ledger/mem_ledger.go:198-203 | a longer log only adds lines to the end of an account's history |
| `Ledger.HistoryTellsLog` | ledger/mem_ledger.go:190-205 | an account's history is one line for each leg on it anywhere in the log, in the order of posting, with that leg's amount and currency and its transaction's ID, kind, metadata and time |
| `Ledger.PlatformExactly` | ledger/mem_ledger.go:319-328 | exactly the accounts beginning with the platform's prefix may float negative |
| `MemLedgers.WalkOverRun` | ledger/mem_ledger.go:280-317 | in every run of posts, reversals and restarts, a walk whose requests fall anywhere in it shows every line the history had when it began |
| `Paging.QuietWalkIsReversal` | ledger/mem_ledger.go:280-317 | with no writes the pages concatenate to exactly the reversed history, and every page before the last makes progress |
| `Orders.AtMostOnceCredit` | ledger/ordersvc/service.go:181-277 | in every interleaving of calls on stale copies, with crashes anywhere: at most one ledger transaction per order, moving exactly its coins from platform liability to its buyer, and a credited order names it |
| `Orders.OrdersKeepIdentity` | ledger/mem_orders.go:106-119 | blind overwrites never change an order's buyer, product or coins, and no log entry is lost |
| `Orders.MicroKeeps` | ledger/ordersvc/service.go:181-277 | each atomic step on any stale copy keeps the world's invariant |
| `Orders.CreditPosts` | ledger/ordersvc/service.go:252-274 | the credit post always ends with the order's one transaction, new or earlier |
| `Orders.CallFinishes` | ledger/ordersvc/service.go:181-277 | a call finishes within seven steps |
| `Orders.UndisturbedIsInterleaving` | ledger/ordersvc/service.go:161-166 | a call left alone is one of the interleavings |
| `OrderRecovery.CallForward` | ledger/ordersvc/service.go:181-277 | a serialised call, stopped after any number of steps, moves its order's status forward, never leaves a terminal state, changes no other order and keeps tokens unique |
| `OrderRecovery.TokensStayUnique` | ledger/ordersvc/service.go:194-210 | with serialised calls and any tokens, no two orders store one token hash and the index names the holder |
| `OrderRecovery.RaceStoresTokenTwice` | ledger/mem_orders.go:70-119 | without serialisation two orders can both store one token |
| `OrderRecovery.StatusNeverFalls` | ledger/ordersvc/service.go:181-238 | over any stretch of a serialised run no status falls and terminal orders do not change |
| `OrderRecovery.FailedWithCreditExactly` | ledger/ordersvc/service.go:194-201 | whatever has happened to other orders, an uninterrupted call leaves its order failed with a credit on the books if and only if the order was crediting and posted and the token belongs to another order |
| `OrderRecovery.RepeatingIsSafe` | ledger/ordersvc/service.go:189-201 | repeating the stored token or passing none never does that |
| `OrderRecovery.FailedIsUncredited` | ledger/ordersvc/service.go:181-277 | in runs without such a call, posted orders are crediting or credited and failed orders have no credit |
| `OrderRecovery.RepeatingRunIsSafe` | ledger/ordersvc/service.go:189-201 | in every run whose calls repeat the stored token, pass none or are the first on their order, no failed order has a credit |
| `OrderRecovery.CreditLost` | ledger/ordersvc/service.go:194-201 | from any sound store with two new orders and two unused tokens, three calls leave a credited order failed |
| `OrderRecovery.CreditCanBeLost` | ledger/ordersvc/service.go:194-201 | a run from the empty store reaches such an order |
| `OrderRaces.OverlapUndoes` | ledger/ordersvc/service.go:212-238 | of two calls that read one pending order, the slower, told invalid or still pending, undoes the credited status the faster wrote |
| `OrderRaces.InterleavedFailedIsUncredited` | ledger/ordersvc/service.go:181-277 | in every interleaving on stale copies, with crashes: if each token is used for one order and the store never gives both answers about one order, no failed order has a credit |
| `OrderRecovery.CreditCompletes` | ledger/ordersvc/service.go:240-274 | from the paid or crediting stage nothing in the stores can stop the credit |
| `OrderRecovery.RetryResult` | ledger/ordersvc/service.go:279-283 | an undisturbed retry credits a paid or crediting order, and a pending one exactly when the store confirms |
| `OrderRecovery.PassRecovers` | ledger/reconciler/reconciler.go:71-83 | after any serialised crashes, one pass credits exactly the paid, the crediting and the confirmed pending orders, each naming an existing transaction |
| `OrderOutcomes.SettledOrderOutcome` | ledger/ordersvc/service.go:181-187 | a call on a credited order returns it as stored with no error, on a failed or refunded one it is refused as terminal; nothing changes |
| `OrderOutcomes.TakenTokenOutcome` | ledger/ordersvc/service.go:189-201 | a call on an unsettled order fails it as used if and only if the token is another order's |
| `OrderOutcomes.CheckedOutcome` | ledger/ordersvc/service.go:203-277 | on a created or pending order with its own or a new token: token invalid, verifier failed, returned pending or returned credited exactly by the verdict, with the whole record each leaves; paid and crediting orders always return credited |
| `OrderOutcomes.CreditSpelledOut` | ledger/ordersvc/service.go:252-274 | a credit is one transaction of the order's coins from platform liability to its buyer, under the order's own key |
| `OrderOutcomes.CoinsAsNamed` | ledger/order.go:43-47 | there are three products, each of the coins in its name |
| `OrderServices.MemOrderRepo.CreateOrder` | ledger/mem_orders.go:28-57 | a known product becomes a new order under a fresh ID, listed last for its account |
| `OrderServices.MemOrderRepo.ListOrders` | ledger/mem_orders.go:81-92 | the account's orders in creation order, or those of them with the asked status; when the lists are exact, precisely the orders asked for |
| `OrderServices.ListingIsExact` | ledger/mem_orders.go:81-92 | when every order is listed once under its own account, a listing holds an order if and only if it is stored, the account's and of the asked status |
| `OrderServices.MemOrderRepo.ListNonTerminal` | ledger/mem_orders.go:94-104 | every non-terminal order exactly once, in some order |
| `OrderServices.MemOrderRepo.UpdateOrder` | ledger/mem_orders.go:106-119 | the whole record and the token index entry are overwritten; an unknown order changes nothing |
| `OrderServices.OrderService.Advance` | ledger/ordersvc/service.go:181-277 | the code takes exactly the machine's steps to the end, with the machine's outcome and final copy |
| `OrderServices.OrderService.VerifyOrder` | ledger/ordersvc/service.go:167-176 | unknown and foreign orders change nothing; the owner's call is one complete serialised call, with its outcome and its final copy of the order |
| `OrderServices.OrderService.RunOnce` | ledger/reconciler/reconciler.go:71-83 | retries each copy of the queue taken at the start, once |
| `OrderServices.OrderService.CoinsPurchasedSince` | ledger/ordersvc/service.go:125-144 | totals exactly the account's orders that have not failed and are recent enough |
| `OrderServices.OrderService.CheckSpendLimits` | ledger/ordersvc/service.go:89-123 | refuses during cooling-off, then exactly when some set cap would be exceeded |
| `OrderServices.OrderService.CreateOrder` | ledger/ordersvc/service.go:59-83 | one order per key: a replay returns the order as placed, otherwise product and limits decide |
| `OrderServices.OrderService.ChangeCaps` | ledger/spendlimits.go:80-108 | from then on every reader at every time sees the cap the delay rule gives, and no other account's caps change |
| `SpendLimit.LazyIsEager` | ledger/spendlimits.go:110-138 | no reader can tell lazy promotion from a job promoting at any times, the exact due time included |
| `SpendLimit.ResolveTwice` | ledger/spendlimits.go:113-138 | resolving early and again later is resolving later |
| `SpendLimit.RequestTakesEffect` | ledger/spendlimits.go:80-108 | the cap seen at every later time: first and lower caps at once, higher ones after exactly 48 hours; a request for no change or for the cap in force only restarts a pending delay |
| `SpendLimit.RaiseAfterTwoDays` | ledger/spendlimits.go:80-130 | a raise from 100 to 200 is in force from 172800 seconds on and not before, in every window |
| `SpendLimit.OnlyCapsChange` | ledger/spendlimits.go:80-130 | time and requests leave the account and its cooling-off period alone; whatever is pending is due 48 hours after the request |
| `SpendLimit.RequestPostponesOthers` | ledger/spendlimits.go:80-94 | a request that leaves a window alone puts its pending raise off until 48 hours after the request, and no longer |
| `SpendLimit.WeeklyRaisePostponed` | ledger/spendlimits.go:80-94 | a daily change one hour before a weekly raise is due keeps the old weekly cap for 47 more hours |
| `SpendLimit.PendingExceedsCap` | ledger/spendlimits.go:80-108 | in any run of non-negative requests a pending raise exceeds the set cap and was asked for at least 48 hours before it is due |
| `SpendLimit.RaisesAreDelayed` | ledger/spendlimits.go:80-130 | a set cap stays set, and is above its value at any earlier moment only if at least that much was asked for 48 hours or more before |
| `SpendLimit.StaysSetExactly` | ledger/spendlimits.go:100-108 | a set cap survives a request if and only if the request is not negative |
| `SpendWindows.RunShop` | ledger/ordersvc/service.go:59-144 | in every run of purchases, attempts, retries and cap changes, the window ending at each order is within the cap it was checked against |
| `SpendWindows.IntervalWithinCap` | ledger/ordersvc/service.go:85-144 | over any closed interval of a cap's length, the coins of the account's non-failed orders are within the cap in force when its last order was placed; the list summed over holds each of the account's orders once |
| `SpendWindows.KeyAnswersOnce` | ledger/ordersvc/service.go:60-83 | in every run, once a purchase under a key is answered with an order, every later one under that key, whatever it asks for, answers with that order as placed and changes nothing |
| `SpendWindows.OneOrderPerKey` | ledger/ordersvc/service.go:60-83 | the orders of a run are one for each remembered key, none for two |
| `SpendWindows.PurchaseExactly` | ledger/ordersvc/service.go:59-144 | a purchase on an unused key is refused during cooling-off, and otherwise exactly when it would put the last 24 hours, 7 days or 30 days over a set cap; if not, it places the order asked for, listed last for its account |
| `SpendWindows.NothingSetNothingRefused` | ledger/spendlimits.go:59-67 | an account that has set nothing is never refused, whatever it has spent |
| `SpendWindows.ForwardSpendsLess` | ledger/ordersvc/service.go:135-137 | because failed is absorbing, what counts as spent only shrinks |
| `Charges.ChargeBalances` | ledger/giftsvc/service.go:199-210 | the five legs, and their inverse, balance in both currencies for any amount |
| `Charges.ChargeSpelledOut` | ledger/giftsvc/service.go:199-210 | the platform takes three tenths of the coins, its liability the rest, and the payee is credited seven tenths of the rest in diamonds, each rounded down |
| `Charges.ChargeBreach` | pv/pvsvc/service.go:74-91 | a charge is refused exactly when the payer cannot cover it, on the payer's leg |
| `Charges.RefundBreach` | pv/pvsvc/service.go:319-324 | taking a charge back is refused exactly when the payee no longer holds the diamonds |
| `Charges.SplittingAPayment` | ledger/giftsvc/service.go:199-202 | splitting a payment changes the diamonds by at most one, and never pays more in multiples of ten |
| `Charges.SplittingBoundsAreMet` | ledger/giftsvc/service.go:199-202 | both bounds are attained |
| `Gifts.NoOverflow` | ledger/giftsvc/service.go:65-80 | for every catalogue gift and allowed quantity no step leaves int64, and the gross is a multiple of ten |
| `Gifts.FreshGift` | ledger/giftsvc/service.go:158-224 | a fresh gift goes through if and only if the sender covers it, with the exact amounts moved and reported; otherwise the shortfall is exactly what is missing |
| `Gifts.GiftRefusals` | ledger/giftsvc/service.go:158-192 | each refusal before the ledger has exactly its own condition, in the source's order, and changes nothing; velocity and room are not checked on a used key |
| `Gifts.GiftOnTheBooks` | ledger/giftsvc/service.go:194-224 | a fresh gift that is sent adds one transaction: the charge of price times quantity, naming the gift, quantity, room, sender and recipient |
| `GiftEarnings.GiftIsEarned` | creator/creatorsvc/service.go:149-195 | such a gift counts once more in its recipient's breakdown for exactly its diamonds, which are earned at once and locked for 14 days; nobody else's earnings change |
| `Gifts.GiftReplay` | ledger/giftsvc/service.go:170-174 | a replay by the sender moves nothing and reports the first gift's amounts |
| `Gifts.UsedKeySendsNothing` | ledger/giftsvc/service.go:170-174 | on any remembered key nothing moves and the answer is Sent under the ID of the transaction holding the key, with the gift and quantity it names, if any |
| `Gifts.OthersGiftKey` | ledger/giftsvc/service.go:170-174 | on the key of another sender's gift, the answer shows that gift's shares at no cost to the sender |
| `Gifts.GiftService.FinalizeResult` | ledger/giftsvc/service.go:226-255 | the loop reads back the amounts, the last matching entry of each kind wins |
| `Gifts.LastEntryWins` | ledger/giftsvc/service.go:226-255 | on any entries at all, each amount reported is that of the last entry of its kind |
| `Gifts.NoEntryNothing` | ledger/giftsvc/service.go:226-255 | and 0 when there is no such entry |
| `Gifts.GiftService.Send` | ledger/giftsvc/service.go:158-224 | the gates, the short-circuit and the post in the source's order |
| `PrivateVideo.BillingConserved` | pv/pvsvc/service.go:100-324 | in every state of every run, on every account, the transactions of a session opened on an unused key net to one charge of its consumed coins, plus the hold if it was closed without being given back; other sessions may be opened on any keys |
| `PrivateVideo.ClosingConservesExactly` | pv/pvsvc/service.go:213-282 | declining or ending a session that holds its own charge conserves if and only if the callee's diamonds cover the first minute |
| `PrivateVideo.ConservedExactly` | pv/pvsvc/service.go:319-324 | such a session's account is exact if and only if it is open or its hold was given back |
| `PrivateVideo.SettlementExactly` | pv/pvsvc/service.go:284-312 | a connected call costs its minutes if the caller, given back a covered hold, has that much, and nothing otherwise; a covered one-minute call is always paid |
| `PrivateVideo.MinutesAreCeiling` | pv/pvsvc/service.go:292-297 | the ceiling of the elapsed minutes is billed, and at least one |
| `PrivateVideo.NewSessionIsChargedExactly` | pv/pvsvc/service.go:107-154 | a session is charged its own hold if and only if its key is unused; otherwise nothing is charged, and its account is exact if and only if the transaction it takes over moves what the hold would have moved |
| `PrivateVideo.RequestExactly` | pv/pvsvc/service.go:100-165 | each check in order; a new session carries the rate asked for, or 10 if none was, holds one minute of it and, on an unused key, takes exactly that from the caller |
| `PrivateVideo.ConnectedCallCosts` | pv/pvsvc/service.go:284-312 | over any run, a connected call opened on an unused key costs its started minutes of 60 seconds times the rate its request asked for, or nothing when the caller's coins fall short of that |
| `PrivateVideo.SettlementOnTheBooks` | pv/pvsvc/service.go:284-324 | settling adds at most the return of the hold and one charge of the started minutes under the session's own key, naming session, parties and minutes; the record shows what was charged |
| `PrivateVideo.SessionsKeepOpening` | pv/pvsvc/service.go:141-312 | over any stretch of a run a session keeps its parties, rate and hold |
| `PrivateVideo.TurnsExactly` | pv/pvsvc/service.go:187-282 | who may accept, decline and end a call in which state, every refusal, and what the record then says |
| `PrivateVideo.DecliningTakesBack` | pv/pvsvc/service.go:213-241 | declining a session on somebody else's key posts the exact inverse of the transaction it took over if and only if that is reversible, and nothing otherwise |
| `PrivateVideo.ClosingTakesBack` | pv/pvsvc/service.go:213-312 | declining, cancelling or ending such a session takes the transaction back if and only if it is reversible; the session then costs what it shows, and otherwise only if the transaction moved nothing |
| `PrivateVideo.AdoptedBilling` | pv/pvsvc/service.go:100-324 | in every state of every run, such a session's transactions net to the transaction it took over until it is taken back, and one charge of its consumed coins once it is over |
| `PrivateVideo.CancelIsDecline` | pv/pvsvc/service.go:213-282 | cancelling a ringing call leaves the books that declining it leaves |
| `CallCases.DiamondsSpentWhileRinging` | pv/pvsvc/service.go:319-324 | in any state, the callee of a ringing call can pay the first minute's diamonds away, and declining then keeps the hold |
| `CallCases.HoldKept` | pv/pvsvc/service.go:216-241 | a run from the empty ledger reaches a declined call whose hold was its own and was not given back |
| `CallCases.DepositTakenForHold` | pv/pvsvc/service.go:107-154 | a run from the empty ledger reaches a session with no charge of its own whose account is not exact |
| `CallRaces.BilledAtMostOnce` | pv/pvsvc/service.go:187-324 | in every interleaving of accepts, declines and ends on stale copies, with crashes anywhere: one reversal and one settlement at most, for whole started minutes, and the session nets to that on every account |
| `CallRaces.AloneIsSerial` | pv/pvsvc/service.go:187-282 | a call nothing overtakes leaves the ledger and record of the serialised call, on the same conditions |
| `CallRaces.TruthfulExactly` | pv/pvsvc/service.go:291-312 | once the hold is given back, the record agrees with the ledger on every account if and only if it shows the coins billed |
| `CallRaces.BothEndExactly` | pv/pvsvc/service.go:245-282 | two ends that read one connected call and finish one after the other bill the minutes of the first and record those of the second, so the record is right if and only if they agree |
| `RaceTruth.RecordExactly` | pv/pvsvc/service.go:187-324 | over every schedule of any calls, crashes and other traffic: the record is right if and only if the minutes shown by the last writer are those of the settled call, and one more if the hold was kept, up to rounding |
| `RaceTruth.QuietExactly` | pv/pvsvc/service.go:187-324 | with the hold covered and no other traffic, the record is right if and only if nobody has given back yet or the last writer shows the minutes charged |
| `RaceTruth.RingingExactly` | pv/pvsvc/service.go:187-282 | of calls that all read a ringing session, once one has given back, the record is right if and only if a decline or an end was written last |
| `RaceTruth.LateAcceptReopens` | pv/pvsvc/service.go:187-211 | an accept written after an overlapping cancellation leaves a refunded call open with its first minute shown as paid |
| `RaceTruth.OverlapMayAgree` | pv/pvsvc/service.go:245-282 | overlapping ends with any minutes leave a right record when the one that was charged writes last |
| `RaceTruth.WholeCallExactly` | pv/pvsvc/service.go:187-282 | a call begun when no other is unfinished keeps the session's account, and if it closes the session the record is right if and only if the hold was covered as it began |
| `RaceTruth.InTurnExactly` | pv/pvsvc/service.go:187-324 | in every run of calls one at a time among other traffic, the record is right if and only if the session is open or its hold was given back |
| `RaceTruth.ChargesAdd` | pv/pvsvc/service.go:74-91 | two charges come to a third on every account if and only if the coins add up and neither share loses in rounding |
| `CallCases.RecordDisagrees` | pv/pvsvc/service.go:245-282 | a session of a run from the empty ledger, ended by both parties at once, is billed one minute and recorded as two |
| `PrivateVideo.ReplayReturnsSession` | pv/pvsvc/service.go:107-113 | replaying a request returns its session as it now stands and changes nothing |
| `PrivateVideo.ReplayedExactly` | pv/pvsvc/service.go:107-113 | a request replays if and only if a transaction remembered under its key names a session on record, and is answered with that session |
| `PrivateVideo.CallService.Charge` | pv/pvsvc/service.go:78-91 | posts the five legs under the key |
| `PrivateVideo.CallService.Request` | pv/pvsvc/service.go:100-165 | self-call, replay, gates, hold and record in the source's order |
| `PrivateVideo.CallService.Accept` | pv/pvsvc/service.go:187-211 | only the callee, only a ringing call, no money moved |
| `PrivateVideo.CallService.ReverseTheHold` | pv/pvsvc/service.go:319-324 | reverses the hold under the session's key and drops a refusal |
| `PrivateVideo.CallService.Decline` | pv/pvsvc/service.go:216-241 | closes a ringing call and attempts the refund |
| `PrivateVideo.CallService.Settle` | pv/pvsvc/service.go:291-312 | reversal, then the charge for the started minutes, consumed only if charged |
| `PrivateVideo.CallService.End` | pv/pvsvc/service.go:245-282 | settles a connected call, refunds a ringing one, and closes it either way |
| `Payouts.PayoutConservation` | creator/creatorsvc/service.go:239-312 | in every state of every run, a creator's diamonds are all other movements less the requested, approved, processing and paid payouts, if and only if every accepted request had an unused key |
| `Payouts.SurplusIsUndebited` | creator/creatorsvc/service.go:239-312 | with requests on any keys, the diamonds exceed that law by exactly the payouts recorded without a debit |
| `Payouts.UndebitedExactly` | creator/creatorsvc/service.go:291-303 | that excess is never negative, and zero if and only if every accepted request had an unused key |
| `Payouts.ReversedExactlyOnce` | creator/creatorsvc/service.go:411-434 | a payout has exactly one reversal, of its amount, if it is rejected or failed, and none otherwise |
| `Payouts.RequestConservesExactly` | creator/creatorsvc/service.go:291-303 | an accepted request keeps that law if and only if its key is unused |
| `Payouts.RequestSurplus` | creator/creatorsvc/service.go:291-303 | an accepted request moves the account away from the law by nothing on an unused key and by its amount on a used one |
| `Payouts.UndebitedPayout` | creator/creatorsvc/service.go:291-303 | after one deposit of 20000, a request under the deposit's key and its rejection leave 30000 |
| `Payouts.AcceptedIsCovered` | creator/creatorsvc/service.go:264-289 | a request that passes the gates is always covered by the ledger, net of payouts in flight |
| `Payouts.ReversalPosts` | creator/creatorsvc/service.go:411-434 | a reserved payout can always be given back |
| `Payouts.TransitionConserves` | creator/creatorsvc/service.go:347-387 | approving, processing and paying move no money and keep the payout committed |
| `Payouts.RejectOrFailConserves` | creator/creatorsvc/service.go:411-434 | rejecting or failing returns to the balance exactly what leaves the committed payouts |
| `Payouts.EarningsAddUp` | creator/creatorsvc/service.go:149-201 | on every history, earned less paid out is the ledger balance plus the account's lines in other currencies; available is still held, never negative, and with what is locked no more than was earned |
| `Payouts.EarningsExactly` | creator/creatorsvc/service.go:149-201 | locked is what came in less than 14 days ago or just then; available is what came in before, as far as the account still holds it; both together were earned; what went out is paid out; the lines are listed newest first |
| `Payouts.GatesExactly` | creator/creatorsvc/service.go:239-289 | each refusal has exactly its own condition, in order; an accepted request has at least 10000 diamonds free, older than 14 days and net of payouts in flight, and asks for a positive amount within them |
| `Payouts.RequestExactly` | creator/creatorsvc/service.go:239-312 | a refused request changes nothing; an accepted one debits its amount on an unused key and records a new payout under a new ID |
| `Payouts.TransitionExactly` | creator/creatorsvc/service.go:347-387 | each transition happens from exactly one status, paying only with a reference; who, when and what is recorded, and every refusal changes nothing |
| `Payouts.ReturnExactly` | creator/creatorsvc/service.go:359-434 | rejected from requested or approved, failed from processing, and never otherwise; the amount is then always returned and the record names the reversal and the reason |
| `Payouts.PayoutOnlyMovesOn` | creator/creatorsvc/service.go:347-465 | over any run a payout keeps what was asked for, its status only moves on, and a settled record never changes |
| `Payouts.BreakdownIsExact` | creator/creatorsvc/service.go:163-193 | the gift breakdown names exactly the gifts the account was paid for, with the count and diamonds its ledger history shows |
| `Payouts.PayoutIdInjective` | creator/mem_repo.go:82-91 | zero-padded payout IDs never repeat |
| `Payouts.PayoutIdSpelledOut` | creator/mem_repo.go:82-91 | the number is padded with zeros to four digits |
| `Payouts.CreatorService.GetEarningsSummary` | creator/creatorsvc/service.go:149-195 | the loop over the whole paged history gives the capped summary, the totals per gift and the entries |
| `Payouts.CreatorService.PendingOrProcessingTotal` | creator/mem_repo.go:148-171 | totals exactly the account's reserved payouts |
| `Payouts.CreatorService.Request` | creator/creatorsvc/service.go:239-312 | the gates in order, then the debit, then the record |
| `Payouts.CreatorService.Move` | creator/creatorsvc/service.go:440-465 | a transition happens only from its one starting status |
| `Payouts.CreatorService.GiveBack` | creator/creatorsvc/service.go:411-434 | status check, reversal and status change as one step |
| `Bus.StreamsAreOrdered` | gateway/bus/bus.go:74-115 | whatever is dropped, every event sent to a subscriber is the log's own, later than the seq given at subscription and than every event sent before |
| `Bus.CompleteExactly` | gateway/bus/bus.go:74-115 | in every run, a subscriber that has not left was sent the whole log since its subscription if and only if no publish found 64 events waiting in its channel |
| `Bus.PublishExactly` | gateway/bus/bus.go:74-95 | the next event is appended to every subscriber's channel with fewer than 64 waiting and to what it was sent, and no other channel or stream changes |
| `Bus.ReceiveExactly` | gateway/bus/bus.go:100-115 | a receive hands over the longest-waiting event, and nothing when none waits |
| `Bus.SubscriptionExactly` | gateway/bus/bus.go:100-115 | a new subscriber gets an unused ID, an empty channel and the last seq; leaving removes only its own subscription |
| `Bus.ClientRecovers` | gateway/bus/bus.go:97-142 | a gap-free received prefix is exactly the log from the subscription on, and with the backfill it is all of it if and only if at most 500 events are missing |
| `Bus.TopicState.Publish` | gateway/bus/bus.go:74-95 | numbers the event, keeps the ring the last 500 of the log, and fans out |
| `Bus.Offer` | gateway/bus/bus.go:88-93 | every subscriber with room gets the event, no other channel changes |
| `Bus.TopicState.Subscribe` | gateway/bus/bus.go:100-115 | a new empty channel and the current last seq |
| `Bus.UnsubscribedGetsNothing` | gateway/bus/bus.go:88-114 | a subscriber that has left is sent nothing more in any later run |
| `Bus.TopicState.Backfill` | gateway/bus/bus.go:119-142 | exactly the log after fromSeq when at most 500 are missing, refusal otherwise; the slot-mismatch branch never happens |
| `Chat.RunKeeps` | chat/mem_repo.go:177-212 | in every run the i-th message of a conversation has seq i and conversations only grow |
| `Chat.StoredAsSent` | chat/mem_repo.go:177-212 | after every run a conversation holds exactly the messages of the first inserts under each client message ID, one for one and in order, with the sender, body, attachment and time sent |
| `Chat.InsertExactly` | chat/mem_repo.go:177-212 | after every run an insert fails if and only if its conversation was never opened, and stores a new message if and only if its client message ID is new to the open conversation |
| `Chat.IdsAreUnique` | chat/mem_repo.go:187-211 | no two messages share an ID and the ID index holds each of them |
| `Chat.OpenExactly` | chat/mem_repo.go:51-75 | opening a conversation again changes nothing, and a first time adds it above all others and touches nothing else |
| `Chat.InsertRanksFirst` | chat/mem_repo.go:205-210 | a stored message ranks its conversation above all others |
| `Chat.RetryReturnsStored` | chat/mem_repo.go:181-184 | at any later time a retried client_msg_id returns the stored message and changes nothing |
| `Chat.WalkIsExact` | chat/mem_repo.go:214-249 | a cursor walk interleaved with inserts returns every message exactly once in order |
| `Chat.PageHonoursLimit` | chat/mem_repo.go:214-249 | a page holds at most the messages asked for, 50 if the limit is not from 1 to 200, and exactly that many when another follows |
| `Chat.MemChatRepo.InsertMessage` | chat/mem_repo.go:177-212 | inserts once per client key and keeps index and logs the same messages |
| `Chat.MemChatRepo.ListMessages` | chat/mem_repo.go:214-249 | the page after the cursor, with a next cursor exactly when more follow |
| `Chat.FindAfter` | chat/mem_repo.go:223-233 | the first message past the cursor's sequence number, or the end |

## Left out

- PrivateVideo.BillingConserved: the hold and the record of a new session are one step; a crash between them is not modelled.
- CallRaces.BilledAtMostOnce: nobody else reverses the session's hold or uses its two keys.
- Payouts.PayoutConservation: each request and transition is one step; concurrent requests of one creator passing the gates together are not modelled.
- SpendWindows.IntervalWithinCap: creations and attempts are serialised, as the check and the creation take no common lock.
- Gifts.NoOverflow: the other services' amounts are mathematical integers; 64-bit wrap-around is modelled only for gifts and cursors.
- OrderServices.OrderService.CreateOrder: the service is modelled with spend limits configured; two first requests racing on one key are not.
- MemLedgers.MemLedger.Restore: JSON is the identity on the snapshot, and an absent table in the file is not modelled.
- Order prices, update times, disputes and the stores behind the verifier: they only feed the verifier's answer.
- The bus's map of topics: topics share nothing, so one topic is modelled. Sequence numbers are unbounded.
- Chat read marks, deletions, conversation folders and pairing: they edit messages in place and would only add easy members.
- Payouts.CreatorService.GetEarningsSummary: the breakdown is a map, as the order of the returned list is arbitrary.
- Session and follower analytics, payout profiles and KYC storage: lookups and counters.
- ListByKind, transaction hooks, publishing to clients and logging.
- The legacy payout status "completed" and the direct status setter, which the payout service does not use.
- HTTP handlers, SQL repositories, authentication, feeds, moderation and matching.
