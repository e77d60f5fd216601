/** The coin-purchase order machine: one verify-and-credit call cut into its atomic steps. Each step makes at
    most one change to a shared store; a call may be overtaken between any two steps, or stop after any. */
module Orders {
  import opened Decimal
  import opened Ledger
  import opened LedgerRuns

  datatype OrderStatus = Created | PendingPayment | Paid | Crediting | Credited | OrderFailed | Refunded

  /** The hash of a purchase token, idealised as injective; Unset is the empty string of a new order. */
  datatype TokenHash = Unset | HashOf(token: string)

  /** The status texts shown to the buyer. */
  datatype Reason = NoReason | TokenConsumed | WaitingForStore | InvalidPurchaseToken | PaymentConfirmed | CoinsCredited

  datatype Order = Order(id: string, account: string, sku: string, coins: int, platform: string,
                         token: string, tokenHash: TokenHash, status: OrderStatus, reason: Reason,
                         txId: string, createdAt: int)

  datatype OrderRepo = OrderRepo(byID: map<string, Order>, byToken: map<TokenHash, string>,
                                 byAccount: map<string, seq<string>>, orderSeq: nat)

  /** The shared stores. */
  datatype World = World(repo: OrderRepo, book: Book)

  const EMPTY_REPO: OrderRepo := OrderRepo(map[], map[], map[], 0)

  const DEV_STORE := "dev_store"

  function CoinsOf(sku: string): Option<int> {
    if sku == "coins_100" then Some(100)
    else if sku == "coins_500" then Some(500)
    else if sku == "coins_2000" then Some(2000)
    else None
  }

  predicate NonTerminal(s: OrderStatus) {
    s in {PendingPayment, Paid, Crediting}
  }

  function OrderId(n: nat): string {
    "order-" + Itoa(n)
  }

  /** The idempotency key of an order's credit. */
  function OrderKey(id: string): string {
    "order-" + id
  }

  predicate IsOrderKey(key: string) {
    "order-" <= key
  }

  // ---- The order store ----

  function OrdersOf(repo: OrderRepo, account: string): seq<string> {
    if account in repo.byAccount then repo.byAccount[account] else []
  }

  function NewOrderRecord(repo: OrderRepo, account: string, sku: string, coins: int, platform: string,
                          now: int): Order {
    Order(OrderId(repo.orderSeq + 1), account, sku, coins, if platform == "" then DEV_STORE else platform,
          "", Unset, Created, NoReason, "", now)
  }

  function CreateOrder(repo: OrderRepo, account: string, sku: string, platform: string,
                       now: int): (OrderRepo, Option<Order>) {
    if CoinsOf(sku).None? then (repo, None)
    else
      var o := NewOrderRecord(repo, account, sku, CoinsOf(sku).value, platform, now);
      (repo.(byID := repo.byID[o.id := o], byAccount := repo.byAccount[account := OrdersOf(repo, account) + [o.id]],
             orderSeq := repo.orderSeq + 1),
       Some(o))
  }

  /** Blind overwrite of the whole record, which also points the token index at it. */
  function UpdateOrder(repo: OrderRepo, o: Order): OrderRepo {
    if o.id !in repo.byID then repo
    else repo.(byID := repo.byID[o.id := o],
               byToken := if o.tokenHash != Unset then repo.byToken[o.tokenHash := o.id] else repo.byToken)
  }

  // ---- One call, step by step ----

  /** The store verifier's answer. */
  datatype Verdict = Confirmed | StillPending | InvalidToken | VerifierError

  datatype OrderError = OrderNotFound | NotOwned | OrderTerminal | TokenAlreadyUsed | TokenInvalid | VerifierFailed
                      | LedgerRefused(error: LedgerError)

  datatype Outcome = Returned | Refused(error: OrderError)

  /** Where a call stands. The Save steps write the local copy back. */
  datatype PC = Begin | Store | Verify | SavePending | SavePaid | StartCrediting | PostCredit | SaveCredited
              | SaveFailed(error: OrderError) | Finished(outcome: Outcome)

  /** A call in progress: its own copy of the order, the token it was given, and its next step. */
  datatype Call = Call(order: Order, token: string, pc: PC)

  /** What crediting an order moves. */
  function CreditEntries(o: Order): seq<Entry> {
    [Entry(UserCoins(o.account), o.coins, COIN), Entry(PLATFORM_LIABILITY, -o.coins, COIN)]
  }

  function CreditMetadata(o: Order): Metadata {
    map["order_id" := Text(o.id), "sku" := Text(o.sku), "account_id" := Text(o.account)]
  }

  function PostOrder(b: Book, o: Order, now: int): (Book, PostResult) {
    Post(b, "purchase", OrderKey(o.id), CreditMetadata(o), CreditEntries(o), now)
  }

  /** Write the local copy back; the call ends if the order is unknown. */
  function Persist(w: World, o: Order, token: string, next: PC): (World, Call) {
    if o.id !in w.repo.byID then (w, Call(o, token, Finished(Refused(OrderNotFound))))
    else (w.(repo := UpdateOrder(w.repo, o)), Call(o, token, next))
  }

  /** The next atomic step of a call. */
  function Micro(w: World, c: Call, verdict: Verdict, now: int): (World, Call) {
    var o := c.order;
    match c.pc
    case Begin =>
      if o.status == Credited then (w, c.(pc := Finished(Returned)))
      else if o.status == OrderFailed || o.status == Refunded then (w, c.(pc := Finished(Refused(OrderTerminal))))
      else
        var token := if c.token == "" then o.token else c.token;
        if HashOf(token) in w.repo.byToken && w.repo.byToken[HashOf(token)] != o.id then
          (w, Call(o.(status := OrderFailed, reason := TokenConsumed), token, SaveFailed(TokenAlreadyUsed)))
        else (w, Call(o, token, Store))
    case Store =>
      if o.status == Created then Persist(w, o.(token := c.token, tokenHash := HashOf(c.token),
                                                status := PendingPayment), c.token, Verify)
      else (w, c.(pc := Verify))
    case Verify =>
      if o.status != PendingPayment then (w, c.(pc := StartCrediting))
      else
        (match verdict
         case Confirmed => (w, Call(o.(status := Paid, reason := PaymentConfirmed), c.token, SavePaid))
         case StillPending => (w, Call(o.(reason := WaitingForStore), c.token, SavePending))
         case InvalidToken => (w, Call(o.(status := OrderFailed, reason := InvalidPurchaseToken), c.token,
                                       SaveFailed(TokenInvalid)))
         case VerifierError => (w, c.(pc := Finished(Refused(VerifierFailed)))))
    case SavePending => (w.(repo := UpdateOrder(w.repo, o)), c.(pc := Finished(Returned)))
    case SavePaid => Persist(w, o, c.token, StartCrediting)
    case StartCrediting =>
      if o.status == Paid then Persist(w, o.(status := Crediting), c.token, PostCredit)
      else (w, c.(pc := PostCredit))
    case PostCredit =>
      if o.status != Crediting then (w, c.(pc := Finished(Returned)))
      else
        var (book, r) := PostOrder(w.book, o, now);
        (match r
         case Rejected(error) => (w.(book := book), c.(pc := Finished(Refused(LedgerRefused(error)))))
         case Posted(tx, _) =>
           (w.(book := book), Call(o.(status := Credited, reason := CoinsCredited, txId := tx.id), c.token,
                                   SaveCredited)))
    case SaveCredited => Persist(w, o, c.token, Finished(Returned))
    case SaveFailed(error) => (w.(repo := UpdateOrder(w.repo, o)), c.(pc := Finished(Refused(error))))
    case Finished(_) => (w, c)
  }

  /** The first n steps of a call run without interruption; a crash leaves the stores as they are then. */
  function MicroN(w: World, c: Call, verdict: Verdict, now: int, n: nat): (World, Call) {
    if n == 0 then (w, c)
    else
      var (w', c') := MicroN(w, c, verdict, now, n - 1);
      Micro(w', c', verdict, now)
  }

  /** Enough steps for any call. */
  const STEPS: nat := 7

  function StepsLeft(pc: PC): nat {
    match pc
    case Begin => 7
    case Store => 6
    case Verify => 5
    case SavePaid => 4
    case StartCrediting => 3
    case PostCredit => 2
    case SaveCredited => 1
    case SavePending => 1
    case SaveFailed(_) => 1
    case Finished(_) => 0
  }

  lemma {:induction false} MicroDescends(w: World, c: Call, verdict: Verdict, now: int)
    ensures StepsLeft(Micro(w, c, verdict, now).1.pc) <= if c.pc.Finished? then 0 else StepsLeft(c.pc) - 1
    ensures c.pc.Finished? ==> Micro(w, c, verdict, now) == (w, c)
  {
    hide PostOrder, UpdateOrder, Persist;
    PersistEnds(w, c.token);
  }

  lemma {:induction false} PersistEnds(w: World, token: string)
    ensures forall o: Order, next: PC :: Persist(w, o, token, next).1.pc == next
              || Persist(w, o, token, next).1.pc == Finished(Refused(OrderNotFound))
  {
  }

  lemma {:induction false} CallFinishes(w: World, c: Call, verdict: Verdict, now: int, n: nat)
    ensures StepsLeft(MicroN(w, c, verdict, now, n).1.pc) <= if n <= StepsLeft(c.pc) then StepsLeft(c.pc) - n else 0
  {
    hide Micro;
    if n > 0 {
      CallFinishes(w, c, verdict, now, n - 1);
      MicroDescends(MicroN(w, c, verdict, now, n - 1).0, MicroN(w, c, verdict, now, n - 1).1, verdict, now);
    }
  }

  /** A finished call stays as it is. */
  lemma {:induction false} FinishedStays(w: World, c: Call, verdict: Verdict, now: int, m: nat, n: nat)
    requires m <= n && MicroN(w, c, verdict, now, m).1.pc.Finished?
    ensures MicroN(w, c, verdict, now, n) == MicroN(w, c, verdict, now, m)
  {
    hide Micro;
    if m < n {
      FinishedStays(w, c, verdict, now, m, n - 1);
      MicroDescends(MicroN(w, c, verdict, now, n - 1).0, MicroN(w, c, verdict, now, n - 1).1, verdict, now);
    }
  }

  // ---- What any interleaving keeps ----

  /** Two copies of one order: everything fixed at creation agrees. */
  predicate SameOrder(o: Order, p: Order) {
    o.id == p.id && o.account == p.account && o.sku == p.sku && o.coins == p.coins && o.platform == p.platform
        && o.createdAt == p.createdAt
  }

  /** The ledger holds the transaction that a credited copy names. */
  ghost predicate PaidBy(log: seq<Tx>, o: Order) {
    exists i :: 0 <= i < |log| && log[i].key == OrderKey(o.id) && log[i].id == o.txId
  }

  /** A transaction under an order key credits exactly that order. */
  ghost predicate CreditsOrder(repo: OrderRepo, tx: Tx) {
    exists x :: x in repo.byID && tx.key == OrderKey(x) && tx.entries == CreditEntries(repo.byID[x])
  }

  /** The order IDs handed out so far. */
  ghost predicate Issued(repo: OrderRepo, x: string) {
    exists n: nat :: 1 <= n <= repo.orderSeq && x == OrderId(n)
  }

  ghost predicate RepoOK(repo: OrderRepo) {
    forall x :: x in repo.byID ==>
      repo.byID[x].id == x && repo.byID[x].coins > 0 && Issued(repo, x)
  }

  ghost predicate WorldOK(w: World) {
    && Inv(w.book) && w.book.forgotten == 0
    && RepoOK(w.repo)
    && (forall i :: 0 <= i < |w.book.log| && IsOrderKey(w.book.log[i].key) ==> CreditsOrder(w.repo, w.book.log[i]))
    && (forall x :: x in w.repo.byID && w.repo.byID[x].status == Credited ==> PaidBy(w.book.log, w.repo.byID[x]))
  }

  /** A copy that may be stale in every field that changes, but is never credited without a transaction. */
  ghost predicate CopyOK(w: World, o: Order) {
    && o.id in w.repo.byID && SameOrder(o, w.repo.byID[o.id])
    && (o.status == Credited ==> PaidBy(w.book.log, o))
  }

  /** Nothing fixed is lost: the log grows, orders keep their identity. */
  ghost predicate Extends(w: World, w': World) {
    && w.book.log <= w'.book.log
    && (forall x :: x in w.repo.byID ==> x in w'.repo.byID && SameOrder(w.repo.byID[x], w'.repo.byID[x]))
  }

  lemma {:induction false} WorldInv(w: World)
    requires WorldOK(w)
    ensures Inv(w.book) && w.book.forgotten == 0
  {
  }

  lemma {:induction false} PaidByExtends(log: seq<Tx>, log': seq<Tx>, o: Order)
    requires PaidBy(log, o) && log <= log'
    ensures PaidBy(log', o)
  {
    var i :| 0 <= i < |log| && log[i].key == OrderKey(o.id) && log[i].id == o.txId;
    assert log'[i] == log[i];
  }

  lemma {:induction false} CopyExtends(w: World, w': World, o: Order)
    requires CopyOK(w, o) && Extends(w, w')
    ensures CopyOK(w', o)
  {
    if o.status == Credited {
      PaidByExtends(w.book.log, w'.book.log, o);
    }
  }

  lemma {:induction false} CreditsExtends(repo: OrderRepo, repo': OrderRepo, tx: Tx)
    requires CreditsOrder(repo, tx)
    requires forall x :: x in repo.byID ==> x in repo'.byID && SameOrder(repo.byID[x], repo'.byID[x])
    ensures CreditsOrder(repo', tx)
  {
    var x :| x in repo.byID && tx.key == OrderKey(x) && tx.entries == CreditEntries(repo.byID[x]);
    assert CreditEntries(repo.byID[x]) == CreditEntries(repo'.byID[x]);
  }

  /** Overwriting an order with any copy of it, however stale. */
  lemma {:induction false} SaveKeeps(w: World, o: Order)
    requires WorldOK(w) && CopyOK(w, o)
    ensures WorldOK(w.(repo := UpdateOrder(w.repo, o))) && Extends(w, w.(repo := UpdateOrder(w.repo, o)))
    ensures CopyOK(w.(repo := UpdateOrder(w.repo, o)), o)
  {
    var w' := w.(repo := UpdateOrder(w.repo, o));
    forall i | 0 <= i < |w.book.log| && IsOrderKey(w.book.log[i].key)
      ensures CreditsOrder(w'.repo, w.book.log[i])
    {
      CreditsExtends(w.repo, w'.repo, w.book.log[i]);
    }
  }

  /** The credit is always accepted: it only ever adds coins to a wallet. */
  lemma {:induction false} CreditAcceptable(log: seq<Tx>, o: Order)
    requires LogOK(log) && o.coins > 0
    ensures Acceptable(log, CreditEntries(o))
  {
    UserIsNotPlatform(o.account);
    NonNegative(log, BalanceKey(UserCoins(o.account), COIN));
    assert IsPlatform(PLATFORM_LIABILITY);
    TwoLegsAcceptable(log, UserCoins(o.account), o.coins, PLATFORM_LIABILITY, COIN);
    assert CreditEntries(o) == TwoLegs(UserCoins(o.account), o.coins, PLATFORM_LIABILITY, COIN);
  }

  /** Crediting always ends with the order's one transaction, posted now or before. */
  lemma {:induction false} CreditPosts(b: Book, o: Order, now: int)
    requires Inv(b) && b.forgotten == 0 && o.coins > 0
    ensures var (b', r) := PostOrder(b, o, now);
            && r.Posted? && Inv(b') && b'.forgotten == 0
            && (b'.log == b.log || (b'.log == b.log + [r.tx] && r.tx.entries == CreditEntries(o)))
            && r.tx.key == OrderKey(o.id) && exists i :: 0 <= i < |b'.log| && b'.log[i] == r.tx
  {
    var (b', r) := PostOrder(b, o, now);
    PostKeepsInv(b, "purchase", OrderKey(o.id), CreditMetadata(o), CreditEntries(o), now);
    if KeyUsed(b, OrderKey(o.id)) {
      KeyIndexFinds(b.log, 0, OrderKey(o.id));
    } else {
      CreditAcceptable(b.log, o);
      ExactAcceptance(b, "purchase", OrderKey(o.id), CreditMetadata(o), CreditEntries(o), now);
      assert b'.log[|b.log|] == r.tx;
    }
  }

  lemma {:induction false} OrderKeyInjective(x: string, y: string)
    requires OrderKey(x) == OrderKey(y)
    ensures x == y
  {
    assert OrderKey(x)[6..] == x && OrderKey(y)[6..] == y;
  }

  lemma {:induction false} PostingKeeps(w: World, o: Order, now: int)
    requires WorldOK(w) && CopyOK(w, o)
    ensures var (book, r) := PostOrder(w.book, o, now);
            && r.Posted? && WorldOK(w.(book := book)) && Extends(w, w.(book := book))
            && CopyOK(w.(book := book), o.(status := Credited, reason := CoinsCredited, txId := r.tx.id))
  {
    var (book, r) := PostOrder(w.book, o, now);
    CreditPosts(w.book, o, now);
    assert book.log == w.book.log + [r.tx] ==> CreditsOrder(w.repo, r.tx) by {
      assert CreditEntries(o) == CreditEntries(w.repo.byID[o.id]);
    }
    forall x | x in w.repo.byID && w.repo.byID[x].status == Credited
      ensures PaidBy(book.log, w.repo.byID[x])
    {
      PaidByExtends(w.book.log, book.log, w.repo.byID[x]);
    }
    assert PaidBy(book.log, o.(status := Credited, reason := CoinsCredited, txId := r.tx.id));
  }

  /** Every step of every call, on any copy of the order, keeps the world in order. */
  lemma {:induction false} MicroKeeps(w: World, c: Call, verdict: Verdict, now: int)
    requires WorldOK(w) && CopyOK(w, c.order)
    ensures var (w', c') := Micro(w, c, verdict, now);
            WorldOK(w') && Extends(w, w') && CopyOK(w', c'.order)
  {
    hide WorldOK, PaidBy, Post;
    var o := c.order;
    match c.pc
    case Store =>
      if o.status == Created {
        SaveKeeps(w, o.(token := c.token, tokenHash := HashOf(c.token), status := PendingPayment));
      }
    case StartCrediting =>
      if o.status == Paid {
        SaveKeeps(w, o.(status := Crediting));
      }
    case PostCredit =>
      if o.status == Crediting {
        PostingKeeps(w, o, now);
      }
    case SavePending => SaveKeeps(w, o);
    case SavePaid => SaveKeeps(w, o);
    case SaveCredited => SaveKeeps(w, o);
    case SaveFailed(_) => SaveKeeps(w, o);
    case _ =>
  }

  // ---- Interleavings ----

  /** The stores, and the calls in progress by process ID. */
  datatype System = System(w: World, calls: map<nat, Call>)

  datatype Action =
    | NewOrder(account: string, sku: string, platform: string, now: int)
    | StartCall(pid: nat, id: string, token: string)  // copy the stored order; a retry passes ""
    | StepCall(pid: nat, verdict: Verdict, now: int)
    | Crash(pid: nat)
    | Elsewhere(op: Op)                               // other ledger traffic

  /** Order keys belong to the order service, and the ledger is not restarted. */
  predicate Legal(a: Action) {
    a.Elsewhere? ==>
      match a.op
      case PostOp(_, key, _, _, _) => !IsOrderKey(key)
      case ReverseOp(_, key, _, _) => !IsOrderKey(key)
      case RestartOp => false
  }

  function Act(s: System, a: Action): System {
    match a
    case NewOrder(account, sku, platform, now) =>
      s.(w := s.w.(repo := CreateOrder(s.w.repo, account, sku, platform, now).0))
    case StartCall(pid, id, token) =>
      if id in s.w.repo.byID then s.(calls := s.calls[pid := Call(s.w.repo.byID[id], token, Begin)]) else s
    case StepCall(pid, verdict, now) =>
      if pid in s.calls then
        var (w, c) := Micro(s.w, s.calls[pid], verdict, now);
        System(w, s.calls[pid := c])
      else s
    case Crash(pid) => s.(calls := s.calls - {pid})
    case Elsewhere(op) => s.(w := s.w.(book := Apply(s.w.book, op)))
  }

  const START: System := System(World(EMPTY_REPO, EMPTY_BOOK), map[])

  function RunSystem(actions: seq<Action>): System {
    if actions == [] then START else Act(RunSystem(actions[..|actions| - 1]), actions[|actions| - 1])
  }

  ghost predicate SystemOK(s: System) {
    WorldOK(s.w) && forall p :: p in s.calls ==> CopyOK(s.w, s.calls[p].order)
  }

  lemma {:induction false} OrderIdFresh(repo: OrderRepo)
    requires RepoOK(repo)
    ensures OrderId(repo.orderSeq + 1) !in repo.byID
  {
    var id := OrderId(repo.orderSeq + 1);
    if id in repo.byID {
      var n: nat :| 1 <= n <= repo.orderSeq && id == OrderId(n);
      assert OrderId(n)[6..] == Itoa(n) && id[6..] == Itoa(repo.orderSeq + 1);
      ItoaInjective(n, repo.orderSeq + 1);
      assert false;
    }
  }

  lemma {:induction false} IssuedLater(repo: OrderRepo, repo': OrderRepo, x: string)
    requires repo'.orderSeq == repo.orderSeq + 1
    ensures Issued(repo, x) ==> Issued(repo', x)
    ensures Issued(repo', OrderId(repo.orderSeq + 1))
  {
    hide OrderId;
    if Issued(repo, x) {
      var n: nat :| 1 <= n <= repo.orderSeq && x == OrderId(n);
      assert 1 <= n <= repo'.orderSeq;
    }
    assert 1 <= repo'.orderSeq;
  }

  lemma {:induction false} NewOrderRepoOK(repo: OrderRepo, account: string, sku: string, platform: string, now: int)
    requires RepoOK(repo)
    ensures var repo' := CreateOrder(repo, account, sku, platform, now).0;
            RepoOK(repo') && forall x :: x in repo.byID ==> x in repo'.byID && repo'.byID[x] == repo.byID[x]
  {
    hide Issued, OrderId;
    OrderIdFresh(repo);
    var repo' := CreateOrder(repo, account, sku, platform, now).0;
    forall x | x in repo'.byID
      ensures Issued(repo', x)
    {
      if CoinsOf(sku).Some? { IssuedLater(repo, repo', x); }
    }
  }

  /** A created order has no credit on the books yet, and its status is the only one added. */
  lemma {:induction false} NewOrderKeeps(w: World, account: string, sku: string, platform: string, now: int)
    requires WorldOK(w)
    ensures var w' := w.(repo := CreateOrder(w.repo, account, sku, platform, now).0);
            WorldOK(w') && Extends(w, w')
  {
    hide Inv, CoinsOf, PaidBy, CreditsOrder, RepoOK;
    NewOrderRepoOK(w.repo, account, sku, platform, now);
    var repo' := CreateOrder(w.repo, account, sku, platform, now).0;
    forall i | 0 <= i < |w.book.log| && IsOrderKey(w.book.log[i].key)
      ensures CreditsOrder(repo', w.book.log[i])
    {
      CreditsExtends(w.repo, repo', w.book.log[i]);
    }
  }

  lemma {:induction false} ElsewhereAdds(b: Book, op: Op)
    requires Inv(b) && Legal(Elsewhere(op))
    ensures Inv(Apply(b, op)) && Apply(b, op).forgotten == b.forgotten
    ensures Apply(b, op).log == b.log || exists tx :: Apply(b, op).log == b.log + [tx] && !IsOrderKey(tx.key)
  {
    match op
    case PostOp(kind, key, metadata, entries, now) => PostKeepsInv(b, kind, key, metadata, entries, now);
    case ReverseOp(originalId, key, reason, now) => ReverseKeepsInv(b, originalId, key, reason, now);
    case RestartOp =>
  }

  lemma {:induction false} ElsewhereKeeps(w: World, op: Op)
    requires WorldOK(w) && Legal(Elsewhere(op))
    ensures var w' := w.(book := Apply(w.book, op));
            WorldOK(w') && Extends(w, w')
  {
    hide Apply;
    ElsewhereAdds(w.book, op);
    var log' := Apply(w.book, op).log;
    forall x | x in w.repo.byID && w.repo.byID[x].status == Credited
      ensures PaidBy(log', w.repo.byID[x])
    {
      PaidByExtends(w.book.log, log', w.repo.byID[x]);
    }
  }

  lemma {:induction false} ActKeeps(s: System, a: Action)
    requires SystemOK(s) && Legal(a)
    ensures SystemOK(Act(s, a)) && Extends(s.w, Act(s, a).w)
  {
    hide WorldOK, CopyOK, Extends, Micro, Apply, CreateOrder;
    match a
    case NewOrder(account, sku, platform, now) =>
      NewOrderKeeps(s.w, account, sku, platform, now);
      CopiesExtend(s, Act(s, a).w);
    case StartCall(pid, id, token) =>
      ExtendsSelf(s.w);
      if id in s.w.repo.byID { StoredCopyOK(s.w, id); }
    case StepCall(pid, verdict, now) =>
      ExtendsSelf(s.w);
      if pid in s.calls {
        MicroKeeps(s.w, s.calls[pid], verdict, now);
        CopiesExtend(s, Micro(s.w, s.calls[pid], verdict, now).0);
      }
    case Crash(pid) => ExtendsSelf(s.w);
    case Elsewhere(op) =>
      ElsewhereKeeps(s.w, op);
      CopiesExtend(s, Act(s, a).w);
  }

  lemma {:induction false} ExtendsSelf(w: World)
    ensures Extends(w, w)
  {
  }

  lemma {:induction false} CopiesExtend(s: System, w': World)
    requires SystemOK(s) && Extends(s.w, w')
    ensures forall p :: p in s.calls ==> CopyOK(w', s.calls[p].order)
  {
    forall p | p in s.calls ensures CopyOK(w', s.calls[p].order) {
      CopyExtends(s.w, w', s.calls[p].order);
    }
  }

  lemma {:induction false} StoredCopyOK(w: World, id: string)
    requires WorldOK(w) && id in w.repo.byID
    ensures CopyOK(w, w.repo.byID[id])
  {
  }

  lemma {:induction false} RunKeeps(actions: seq<Action>)
    requires forall i :: 0 <= i < |actions| ==> Legal(actions[i])
    ensures SystemOK(RunSystem(actions))
  {
    if actions == [] {
      EmptyInv();
    } else {
      RunKeeps(actions[..|actions| - 1]);
      ActKeeps(RunSystem(actions[..|actions| - 1]), actions[|actions| - 1]);
    }
  }

  /** At-most-once credit. Whatever the interleaving of verify and reconcile calls on stale copies, with
      crashes anywhere: the ledger holds at most one transaction per order, it moves exactly the order's coins
      from the platform liability to the buyer, and a credited order names it. */
  lemma {:induction false} AtMostOnceCredit(actions: seq<Action>)
    requires forall i :: 0 <= i < |actions| ==> Legal(actions[i])
    ensures var s := RunSystem(actions);
            && (forall i, j :: 0 <= i < j < |s.w.book.log| ==> s.w.book.log[i].key != s.w.book.log[j].key)
            && (forall i :: 0 <= i < |s.w.book.log| && IsOrderKey(s.w.book.log[i].key)
                  ==> CreditsOrder(s.w.repo, s.w.book.log[i]))
            && (forall x :: x in s.w.repo.byID && s.w.repo.byID[x].status == Credited
                  ==> PaidBy(s.w.book.log, s.w.repo.byID[x]))
  {
    RunKeeps(actions);
  }

  /** The buyer, product and coins of an order never change, so the one credit is for what was ordered. */
  lemma {:induction false} OrdersKeepIdentity(actions: seq<Action>, n: nat)
    requires n <= |actions| && forall i :: 0 <= i < |actions| ==> Legal(actions[i])
    ensures Extends(RunSystem(actions[..n]).w, RunSystem(actions).w)
  {
    if n == |actions| {
      assert actions[..n] == actions;
    } else {
      var last := |actions| - 1;
      OrdersKeepIdentity(actions[..last], n);
      assert actions[..last][..n] == actions[..n];
      RunKeeps(actions[..last]);
      ActKeeps(RunSystem(actions[..last]), actions[last]);
    }
  }

  function RunFrom(s: System, actions: seq<Action>): System {
    if actions == [] then s else Act(RunFrom(s, actions[..|actions| - 1]), actions[|actions| - 1])
  }

  /** An undisturbed call is one of the interleavings: its steps, taken one by one by its process. */
  lemma {:induction false} UndisturbedIsInterleaving(s: System, pid: nat, verdict: Verdict, now: int, n: nat)
    requires pid in s.calls
    ensures var (w, c) := MicroN(s.w, s.calls[pid], verdict, now, n);
            RunFrom(s, seq(n, _ => StepCall(pid, verdict, now))) == System(w, s.calls[pid := c])
  {
    hide Micro;
    var steps := seq(n, _ => StepCall(pid, verdict, now));
    if n == 0 {
      assert s.calls[pid := s.calls[pid]] == s.calls;
    } else {
      UndisturbedIsInterleaving(s, pid, verdict, now, n - 1);
      assert steps[..n - 1] == seq(n - 1, _ => StepCall(pid, verdict, now));
      var (w, c) := MicroN(s.w, s.calls[pid], verdict, now, n - 1);
      var c' := Micro(w, c, verdict, now).1;
      assert s.calls[pid := c][pid := c'] == s.calls[pid := c'];
    }
  }
}
