/** Orders when calls are serialised: tokens stay unique, statuses only move forward, failed orders hold no
    credit, and one pass of the reconciler recovers every crashed call. */
module OrderRecovery {
  import opened LedgerRuns
  import opened Orders

  function Rank(s: OrderStatus): nat {
    match s
    case Created => 0
    case PendingPayment => 1
    case Paid => 2
    case Crediting => 3
    case Credited => 4
    case OrderFailed => 5
    case Refunded => 5
  }

  predicate Terminal(s: OrderStatus) {
    s in {Credited, OrderFailed, Refunded}
  }

  // ---- Invariants of serialised runs ----

  /** A stored token hash names its one holder, an index entry names an order storing that hash, and a hash is
      stored from the first verification on. */
  ghost predicate TokensOK(repo: OrderRepo) {
    && (forall x :: x in repo.byID ==> HolderOK(repo, repo.byID[x], x))
    && (forall h :: h in repo.byToken ==> h != Unset && repo.byToken[h] in repo.byID
                                          && repo.byID[repo.byToken[h]].tokenHash == h)
  }

  predicate HolderOK(repo: OrderRepo, o: Order, x: string) {
    && (o.tokenHash != Unset ==> o.tokenHash == HashOf(o.token) && o.tokenHash in repo.byToken
                                 && repo.byToken[o.tokenHash] == x)
    && (o.status == Created ==> o.tokenHash == Unset)
    && (o.status in {PendingPayment, Paid, Crediting, Credited} ==> o.tokenHash != Unset)
  }

  ghost predicate HasCredit(w: World, id: string) {
    exists i :: 0 <= i < |w.book.log| && w.book.log[i].key == OrderKey(id)
  }

  /** If the order has a credit on the books, it is crediting or credited. */
  ghost predicate MarkedOK(w: World, x: string) {
    x in w.repo.byID && HasCredit(w, x) ==> w.repo.byID[x].status in {Crediting, Credited}
  }

  ghost predicate PostedOK(w: World) {
    forall x :: x in w.repo.byID ==> MarkedOK(w, x)
  }

  /** The token belongs to another order. */
  predicate Foreign(repo: OrderRepo, id: string, token: string) {
    HashOf(token) in repo.byToken && repo.byToken[HashOf(token)] != id
  }

  /** How a call's copy relates to the stored record when nothing else runs: equal, but for the change a Save
      step is about to write. */
  ghost predicate Current(w: World, c: Call) {
    && CopyOK(w, c.order)
    && var r, o := w.repo.byID[c.order.id], c.order;
    match c.pc
    case Begin => o == r
    case Store => o == r && !Terminal(r.status) && !Foreign(w.repo, r.id, c.token)
    case Verify => o == r && NonTerminal(r.status)
    case SavePending => r.status == PendingPayment && o == r.(reason := o.reason)
    case SavePaid => r.status == PendingPayment && o == r.(status := Paid, reason := o.reason)
    case StartCrediting => o == r && r.status in {Paid, Crediting}
    case PostCredit => o == r && r.status == Crediting
    case SaveCredited => r.status == Crediting && o == r.(status := Credited, reason := o.reason, txId := o.txId)
    case SaveFailed(_) => !Terminal(r.status) && o == r.(status := OrderFailed, reason := o.reason)
    case Finished(_) => true
  }

  /** What one change to the store may do: move the one order forward, and never out of a terminal state. */
  ghost predicate Forward(repo: OrderRepo, repo': OrderRepo, id: string) {
    forall x :: x in repo.byID ==>
      && x in repo'.byID
      && (x != id || Terminal(repo.byID[x].status) ==> repo'.byID[x] == repo.byID[x])
      && Rank(repo.byID[x].status) <= Rank(repo'.byID[x].status)
  }

  /** Writing a record that keeps its token. */
  lemma {:induction false} SaveKeepsTokens(repo: OrderRepo, o: Order)
    requires TokensOK(repo) && o.id in repo.byID && HolderOK(repo, o, o.id)
    requires o.tokenHash == repo.byID[o.id].tokenHash
    ensures TokensOK(UpdateOrder(repo, o))
  {
    var repo' := UpdateOrder(repo, o);
    assert repo'.byToken == repo.byToken;
    forall x | x in repo'.byID
      ensures HolderOK(repo', repo'.byID[x], x)
    {
      assert HolderOK(repo, repo.byID[x], x);
    }
  }

  /** Writing a record's first token, which no other order holds. */
  lemma {:induction false} SaveStoresToken(repo: OrderRepo, o: Order)
    requires TokensOK(repo) && o.id in repo.byID && repo.byID[o.id].tokenHash == Unset
    requires o.status == PendingPayment && o.tokenHash == HashOf(o.token) && !Foreign(repo, o.id, o.token)
    ensures TokensOK(UpdateOrder(repo, o))
  {
    var repo' := UpdateOrder(repo, o);
    forall x | x in repo'.byID
      ensures HolderOK(repo', repo'.byID[x], x)
    {
      assert HolderOK(repo, repo.byID[x], x);
    }
    forall h | h in repo'.byToken
      ensures repo'.byToken[h] in repo'.byID && repo'.byID[repo'.byToken[h]].tokenHash == h
    {
      if h != o.tokenHash { assert repo.byID[repo.byToken[h]].tokenHash == h; }
    }
  }

  /** A Save step's record relative to the stored one r. */
  predicate Advances(repo: OrderRepo, r: Order, o: Order) {
    && o.id == r.id && !Terminal(r.status) && Rank(r.status) <= Rank(o.status) && o.status != Created
    && (if r.status == Created && o.status == PendingPayment
        then o.tokenHash == HashOf(o.token) && !Foreign(repo, o.id, o.token)
        else o.token == r.token && o.tokenHash == r.tokenHash && (r.status == Created ==> o.status == OrderFailed))
  }

  lemma {:induction false} SaveForward(repo: OrderRepo, o: Order)
    requires TokensOK(repo) && o.id in repo.byID && Advances(repo, repo.byID[o.id], o)
    ensures TokensOK(UpdateOrder(repo, o)) && Forward(repo, UpdateOrder(repo, o), o.id)
    ensures UpdateOrder(repo, o).byID == repo.byID[o.id := o]
  {
    hide TokensOK;
    CurrentHolder(repo, o.id);
    if o.status == PendingPayment && repo.byID[o.id].status == Created {
      SaveStoresToken(repo, o);
    } else {
      SaveKeepsTokens(repo, o);
    }
  }

  ghost predicate StepForward(w: World, c: Call, w': World, c': Call) {
    WorldOK(w') && TokensOK(w'.repo) && Current(w', c') && Forward(w.repo, w'.repo, c.order.id)
        && c'.order.id == c.order.id
  }

  lemma {:induction false} SaveStep(w: World, c: Call, verdict: Verdict, now: int)
    requires c.order.id in w.repo.byID && (c.pc in {SavePending, SavePaid, SaveCredited} || c.pc.SaveFailed?)
    ensures var (w', c') := Micro(w, c, verdict, now);
            w' == w.(repo := UpdateOrder(w.repo, c.order)) && c'.order == c.order
            && (if c.pc == SavePaid then c'.pc == StartCrediting else c'.pc.Finished?)
  {
    hide UpdateOrder;
  }

  /** What a Save step writes moves the record forward. */
  lemma {:induction false} SaveAdvances(w: World, c: Call)
    requires Current(w, c) && (c.pc in {SavePending, SavePaid, SaveCredited} || c.pc.SaveFailed?)
    requires w.repo.byID[c.order.id].id == c.order.id && HolderOK(w.repo, w.repo.byID[c.order.id], c.order.id)
    ensures Advances(w.repo, w.repo.byID[c.order.id], c.order)
    ensures c.pc == SavePaid ==> c.order.status == Paid
  {
    hide PaidBy, Foreign;
  }

  lemma {:induction false} CurrentOnceSaved(w: World, c: Call)
    requires CopyOK(w, c.order) && w.repo.byID[c.order.id] == c.order
    requires c.pc.Finished? || (c.pc == StartCrediting && c.order.status == Paid)
    ensures Current(w, c)
  {
  }

  lemma {:induction false} SaveStepForward(w: World, c: Call, verdict: Verdict, now: int)
    requires WorldOK(w) && TokensOK(w.repo) && Current(w, c)
    requires c.pc in {SavePending, SavePaid, SaveCredited} || c.pc.SaveFailed?
    ensures StepForward(w, c, Micro(w, c, verdict, now).0, Micro(w, c, verdict, now).1)
  {
    assert CopyOK(w, c.order);
    hide WorldOK, Current, TokensOK, CopyOK, UpdateOrder, Forward, HolderOK, Advances, Micro;
    CopyFacts(w, c.order);
    CurrentHolder(w.repo, c.order.id);
    SaveAdvances(w, c);
    SaveForward(w.repo, c.order);
    SaveStep(w, c, verdict, now);
    MicroKeeps(w, c, verdict, now);
    CurrentOnceSaved(Micro(w, c, verdict, now).0, Micro(w, c, verdict, now).1);
  }

  lemma {:induction false} StoreStepForward(w: World, c: Call, verdict: Verdict, now: int)
    requires WorldOK(w) && TokensOK(w.repo) && Current(w, c) && c.pc in {Store, StartCrediting}
    ensures StepForward(w, c, Micro(w, c, verdict, now).0, Micro(w, c, verdict, now).1)
  {
    hide WorldOK, PaidBy, TokensOK, PostOrder, CopyOK, UpdateOrder, Forward, Foreign;
    MicroKeeps(w, c, verdict, now);
    CopyFacts(w, c.order);
    CurrentHolder(w.repo, c.order.id);
    ForwardSelf(w.repo, c.order.id);
    var o := c.order;
    if c.pc == Store && o.status == Created {
      SaveForward(w.repo, o.(token := c.token, tokenHash := HashOf(c.token), status := PendingPayment));
    } else if c.pc == StartCrediting && o.status == Paid {
      SaveForward(w.repo, o.(status := Crediting));
    }
  }

  /** One step of an undisturbed call: the stores stay in order, its copy stays current, its order moves
      forward and no other order changes. */
  lemma {:induction false} MicroForward(w: World, c: Call, verdict: Verdict, now: int)
    requires WorldOK(w) && TokensOK(w.repo) && Current(w, c)
    ensures StepForward(w, c, Micro(w, c, verdict, now).0, Micro(w, c, verdict, now).1)
  {
    hide WorldOK, PaidBy, TokensOK, PostOrder, CopyOK, UpdateOrder, Forward;
    if c.pc in {SavePending, SavePaid, SaveCredited} || c.pc.SaveFailed? {
      SaveStepForward(w, c, verdict, now);
    } else if c.pc in {Store, StartCrediting} {
      StoreStepForward(w, c, verdict, now);
    } else {
      MicroKeeps(w, c, verdict, now);
      ForwardSelf(w.repo, c.order.id);
      if c.pc == PostCredit {
        PostingKeeps(w, c.order, now);
      }
    }
  }

  lemma {:induction false} CopyFacts(w: World, o: Order)
    requires WorldOK(w) && CopyOK(w, o)
    ensures RepoOK(w.repo) && o.id in w.repo.byID && w.repo.byID[o.id].id == o.id
  {
  }

  lemma {:induction false} CurrentHolder(repo: OrderRepo, id: string)
    requires TokensOK(repo) && id in repo.byID
    ensures HolderOK(repo, repo.byID[id], id)
  {
  }

  lemma {:induction false} ForwardSelf(repo: OrderRepo, id: string)
    ensures Forward(repo, repo, id)
  {
  }

  lemma {:induction false} ForwardJoin(a: OrderRepo, b: OrderRepo, c: OrderRepo, id: string)
    requires Forward(a, b, id) && Forward(b, c, id)
    ensures Forward(a, c, id)
  {
  }

  /** A call run undisturbed for any number of steps, then finished or crashed. */
  lemma {:induction false} CallForward(w: World, c: Call, verdict: Verdict, now: int, n: nat)
    requires WorldOK(w) && TokensOK(w.repo) && Current(w, c)
    ensures StepForward(w, c, MicroN(w, c, verdict, now, n).0, MicroN(w, c, verdict, now, n).1)
  {
    hide WorldOK, TokensOK, Current, Forward, Micro;
    if n == 0 {
      ForwardSelf(w.repo, c.order.id);
    } else {
      CallForward(w, c, verdict, now, n - 1);
      var (w', c') := MicroN(w, c, verdict, now, n - 1);
      MicroForward(w', c', verdict, now);
      ForwardJoin(w.repo, w'.repo, Micro(w', c', verdict, now).0.repo, c.order.id);
    }
  }

  /** Serialising calls is needed: two orders whose calls both check one unused token before either stores it
      both end up holding it, and the index names only the later. */
  lemma {:induction false} RaceStoresTokenTwice(w: World, x: string, y: string, token: string, verdict: Verdict,
                                                now: int)
    requires x != y && token != "" && HashOf(token) !in w.repo.byToken
    requires x in w.repo.byID && w.repo.byID[x].id == x && w.repo.byID[x].status == Created
    requires y in w.repo.byID && w.repo.byID[y].id == y && w.repo.byID[y].status == Created
    ensures var (w1, cx) := Micro(w, StartOf(w, x, token), verdict, now);
            var (w2, cy) := Micro(w1, StartOf(w, y, token), verdict, now);
            var w3 := Micro(w2, cx, verdict, now).0;
            var repo := Micro(w3, cy, verdict, now).0.repo;
            && x in repo.byID && y in repo.byID && repo.byID[x].tokenHash == repo.byID[y].tokenHash == HashOf(token)
            && HashOf(token) in repo.byToken && repo.byToken[HashOf(token)] == y
  {
    hide PostOrder;
  }

  // ---- When a failed order can hold a credit ----

  /** The one way to lose a credit: an order already posted but not yet marked credited is verified again with
      another order's token. */
  ghost predicate LosesCredit(w: World, id: string, token: string) {
    && id in w.repo.byID && w.repo.byID[id].status == Crediting && HasCredit(w, id)
    && token != "" && Foreign(w.repo, id, token)
  }

  ghost predicate Careful(w: World, c: Call) {
    && (c.pc == Begin ==> !LosesCredit(w, c.order.id, c.token))
    && (c.pc.SaveFailed? ==> !HasCredit(w, c.order.id))
  }

  lemma {:induction false} SaveCareful(w: World, o: Order)
    requires o.id in w.repo.byID
    requires HasCredit(w, o.id) ==> o.status in {Crediting, Credited}
    ensures MarkedOK(w.(repo := UpdateOrder(w.repo, o)), o.id)
    ensures forall x :: HasCredit(w.(repo := UpdateOrder(w.repo, o)), x) <==> HasCredit(w, x)
  {
  }

  /** Nothing is posted for any order but the one called on. */
  ghost predicate PostsOnlyFor(w: World, w': World, id: string) {
    forall x :: HasCredit(w', x) ==> x == id || HasCredit(w, x)
  }

  ghost predicate CarefulStep(w: World, c: Call, w': World, c': Call) {
    MarkedOK(w', c.order.id) && Careful(w', c') && PostsOnlyFor(w, w', c.order.id)
  }

  /** With its own or no token, a posted order is not taken for another's. */
  lemma {:induction false} BeginCareful(w: World, c: Call, verdict: Verdict, now: int)
    requires TokensOK(w.repo) && MarkedOK(w, c.order.id) && Careful(w, c)
    requires c.pc == Begin && c.order.id in w.repo.byID && c.order == w.repo.byID[c.order.id]
    ensures Micro(w, c, verdict, now).0 == w && Careful(w, Micro(w, c, verdict, now).1)
  {
    hide TokensOK, HasCredit;
    CurrentHolder(w.repo, c.order.id);
  }

  lemma {:induction false} MicroCareful(w: World, c: Call, verdict: Verdict, now: int)
    requires WorldOK(w) && TokensOK(w.repo) && Current(w, c) && MarkedOK(w, c.order.id) && Careful(w, c)
    ensures CarefulStep(w, c, Micro(w, c, verdict, now).0, Micro(w, c, verdict, now).1)
  {
    hide WorldOK, PaidBy, TokensOK, PostOrder, CopyOK, HasCredit, UpdateOrder, Foreign;
    CopyFacts(w, c.order);
    var o := c.order;
    match c.pc
    case Begin => BeginCareful(w, c, verdict, now);
    case Store =>
      if o.status == Created {
        SaveCareful(w, o.(token := c.token, tokenHash := HashOf(c.token), status := PendingPayment));
      }
    case Verify =>
    case StartCrediting => SaveCareful(w, o.(status := Crediting));
    case PostCredit => PostedGrows(w, o, now);
    case SavePending => SaveCareful(w, o);
    case SavePaid => SaveCareful(w, o);
    case SaveCredited => SaveCareful(w, o);
    case SaveFailed(_) => SaveCareful(w, o);
    case Finished(_) =>
  }

  /** Crediting an order posts nothing for any other order. */
  lemma {:induction false} PostedGrows(w: World, o: Order, now: int)
    requires WorldOK(w) && CopyOK(w, o)
    ensures PostsOnlyFor(w, w.(book := PostOrder(w.book, o, now).0), o.id)
  {
    hide PostOrder;
    CreditPosts(w.book, o, now);
    var (book, r) := PostOrder(w.book, o, now);
    forall x | HasCredit(w.(book := book), x) && x != o.id
      ensures HasCredit(w, x)
    {
      var i :| 0 <= i < |book.log| && book.log[i].key == OrderKey(x);
      if OrderKey(x) == OrderKey(o.id) { OrderKeyInjective(x, o.id); }
      assert book.log[i] == w.book.log[i];
    }
  }

  lemma {:induction false} CallCareful(w: World, c: Call, verdict: Verdict, now: int, n: nat)
    requires WorldOK(w) && TokensOK(w.repo) && Current(w, c) && MarkedOK(w, c.order.id) && Careful(w, c)
    ensures CarefulStep(w, c, MicroN(w, c, verdict, now, n).0, MicroN(w, c, verdict, now, n).1)
  {
    hide WorldOK, TokensOK, Current, MarkedOK, HasCredit, Careful, Micro;
    if n > 0 {
      CallForward(w, c, verdict, now, n - 1);
      CallCareful(w, c, verdict, now, n - 1);
      var (w', c') := MicroN(w, c, verdict, now, n - 1);
      MicroCareful(w', c', verdict, now);
    }
  }

  /** A call that does not lose its order's credit leaves every order's marking right. */
  lemma {:induction false} CallKeepsPosted(w: World, id: string, token: string, verdict: Verdict, now: int, n: nat)
    requires WorldOK(w) && TokensOK(w.repo) && PostedOK(w) && id in w.repo.byID && !LosesCredit(w, id, token)
    ensures PostedOK(MicroN(w, StartOf(w, id, token), verdict, now, n).0)
  {
    hide WorldOK, TokensOK, Current, HasCredit, MicroN, LosesCredit;
    var c := StartOf(w, id, token);
    StartIsCurrent(w, id, token);
    CallForward(w, c, verdict, now, n);
    CallCareful(w, c, verdict, now, n);
    var w' := MicroN(w, c, verdict, now, n).0;
    CallKeepsIds(w, c, verdict, now, n);
    forall x | x in w'.repo.byID ensures MarkedOK(w', x) {
      if x != id { assert MarkedOK(w, x); }
    }
  }

  lemma {:induction false} MicroKeepsIds(w: World, c: Call, verdict: Verdict, now: int)
    ensures Micro(w, c, verdict, now).0.repo.byAccount == w.repo.byAccount
    ensures Micro(w, c, verdict, now).0.repo.byID.Keys == w.repo.byID.Keys
  {
    hide PostOrder;
  }

  /** Calls create no orders. */
  lemma {:induction false} CallKeepsIds(w: World, c: Call, verdict: Verdict, now: int, n: nat)
    ensures MicroN(w, c, verdict, now, n).0.repo.byAccount == w.repo.byAccount
    ensures MicroN(w, c, verdict, now, n).0.repo.byID.Keys == w.repo.byID.Keys
  {
    hide Micro;
    if n > 0 {
      CallKeepsIds(w, c, verdict, now, n - 1);
      MicroKeepsIds(MicroN(w, c, verdict, now, n - 1).0, MicroN(w, c, verdict, now, n - 1).1, verdict, now);
    }
  }

  function StartOf(w: World, id: string, token: string): Call
    requires id in w.repo.byID
  {
    Call(w.repo.byID[id], token, Begin)
  }

  lemma {:induction false} StartIsCurrent(w: World, id: string, token: string)
    requires WorldOK(w) && id in w.repo.byID
    ensures Current(w, StartOf(w, id, token)) && StartOf(w, id, token).order.id == id
  {
  }

  lemma {:induction false} MicroNTwo(w: World, c: Call, verdict: Verdict, now: int)
    ensures MicroN(w, c, verdict, now, 1) == Micro(w, c, verdict, now)
    ensures MicroN(w, c, verdict, now, 2) == Micro(Micro(w, c, verdict, now).0, Micro(w, c, verdict, now).1, verdict,
                                                   now)
  {
    hide Micro;
    assert MicroN(w, c, verdict, now, 0) == (w, c);
  }

  lemma {:induction false} ForeignTokenFails(w: World, id: string, token: string, verdict: Verdict, now: int)
    requires id in w.repo.byID && w.repo.byID[id].id == id && !Terminal(w.repo.byID[id].status)
    requires token != "" && Foreign(w.repo, id, token)
    ensures var (w', c') := MicroN(w, StartOf(w, id, token), verdict, now, 2);
            c'.pc.Finished? && w'.book == w.book && id in w'.repo.byID && w'.repo.byID[id].status == OrderFailed
  {
    hide PostOrder;
    var c := StartOf(w, id, token);
    MicroNTwo(w, c, verdict, now);
    var (w1, c1) := Micro(w, c, verdict, now);
    assert w1 == w && c1.pc == SaveFailed(TokenAlreadyUsed) && c1.order.status == OrderFailed && c1.order.id == id;
  }

  /** A call on an order whose credit, if any, is marked leaves it failed with a credit on the books exactly when
      it loses one, whatever has happened to other orders. */
  lemma {:induction false} FailedWithCreditExactly(w: World, id: string, token: string, verdict: Verdict, now: int)
    requires WorldOK(w) && TokensOK(w.repo) && MarkedOK(w, id) && id in w.repo.byID
    ensures var w' := MicroN(w, StartOf(w, id, token), verdict, now, STEPS).0;
            (id in w'.repo.byID && w'.repo.byID[id].status == OrderFailed && HasCredit(w', id))
                <==> LosesCredit(w, id, token)
  {
    hide Inv, Micro, TokensOK, CopyOK, CreditsOrder, MicroN;
    var c := StartOf(w, id, token);
    StartIsCurrent(w, id, token);
    if LosesCredit(w, id, token) {
      assert RepoOK(w.repo);
      ForeignTokenFails(w, id, token, verdict, now);
      FinishedStays(w, c, verdict, now, 2, STEPS);
    } else {
      CallCareful(w, c, verdict, now, STEPS);
    }
  }

  /** Repeating the stored token, or passing none, never loses a credit. */
  lemma {:induction false} RepeatingIsSafe(w: World, id: string, token: string)
    requires TokensOK(w.repo) && id in w.repo.byID
    requires token == "" || w.repo.byID[id].status == Created || token == w.repo.byID[id].token
    ensures !LosesCredit(w, id, token)
  {
    assert HolderOK(w.repo, w.repo.byID[id], id);
  }

  // ---- Serialised runs ----

  datatype Request =
    | Place(account: string, sku: string, platform: string, now: int)
    | CallOn(id: string, token: string, verdict: Verdict, now: int, steps: nat)  // crashes after `steps`, or finishes
    | Traffic(op: Op)

  function Serve(w: World, q: Request): World {
    match q
    case Place(account, sku, platform, now) => w.(repo := CreateOrder(w.repo, account, sku, platform, now).0)
    case CallOn(id, token, verdict, now, steps) =>
      if id in w.repo.byID then MicroN(w, StartOf(w, id, token), verdict, now, steps).0 else w
    case Traffic(op) => w.(book := Apply(w.book, op))
  }

  predicate Allowed(q: Request) {
    q.Traffic? ==> Legal(Elsewhere(q.op))
  }

  function ServeAll(qs: seq<Request>): World {
    if qs == [] then START.w else Serve(ServeAll(qs[..|qs| - 1]), qs[|qs| - 1])
  }

  ghost predicate ForwardAll(repo: OrderRepo, repo': OrderRepo) {
    forall x :: x in repo.byID ==>
      && x in repo'.byID
      && (Terminal(repo.byID[x].status) ==> repo'.byID[x] == repo.byID[x])
      && Rank(repo.byID[x].status) <= Rank(repo'.byID[x].status)
  }

  lemma {:induction false} PlaceForward(w: World, account: string, sku: string, platform: string, now: int)
    requires WorldOK(w) && TokensOK(w.repo)
    ensures var repo' := CreateOrder(w.repo, account, sku, platform, now).0;
            TokensOK(repo') && ForwardAll(w.repo, repo')
  {
    hide RepoOK, Inv, CoinsOf;
    assert RepoOK(w.repo);
    OrderIdFresh(w.repo);
    var repo' := CreateOrder(w.repo, account, sku, platform, now).0;
    forall x | x in repo'.byID
      ensures HolderOK(repo', repo'.byID[x], x)
    {
      if x in w.repo.byID { assert HolderOK(w.repo, w.repo.byID[x], x); }
    }
  }

  lemma {:induction false} ServeForward(w: World, q: Request)
    requires WorldOK(w) && TokensOK(w.repo) && Allowed(q)
    ensures WorldOK(Serve(w, q)) && TokensOK(Serve(w, q).repo) && ForwardAll(w.repo, Serve(w, q).repo)
  {
    hide WorldOK, TokensOK, Apply, CreateOrder, MicroN;
    match q
    case Place(account, sku, platform, now) =>
      NewOrderKeeps(w, account, sku, platform, now);
      PlaceForward(w, account, sku, platform, now);
    case CallOn(id, token, verdict, now, steps) =>
      if id in w.repo.byID {
        StartIsCurrent(w, id, token);
        CallForward(w, StartOf(w, id, token), verdict, now, steps);
      }
    case Traffic(op) => ElsewhereKeeps(w, op);
  }

  /** With serialised calls, crashing anywhere and given any tokens: no two orders ever store the same token
      hash, and the index names the holder. */
  lemma {:induction false} TokensStayUnique(qs: seq<Request>)
    requires forall i :: 0 <= i < |qs| ==> Allowed(qs[i])
    ensures WorldOK(ServeAll(qs)) && TokensOK(ServeAll(qs).repo)
    ensures var byID := ServeAll(qs).repo.byID;
            forall x, y :: x in byID && y in byID && byID[x].tokenHash == byID[y].tokenHash != Unset ==> x == y
  {
    hide WorldOK;
    if qs == [] {
      RunKeeps([]);
    } else {
      TokensStayUnique(qs[..|qs| - 1]);
      ServeForward(ServeAll(qs[..|qs| - 1]), qs[|qs| - 1]);
    }
    var repo := ServeAll(qs).repo;
    forall x, y | x in repo.byID && y in repo.byID && repo.byID[x].tokenHash == repo.byID[y].tokenHash != Unset
      ensures x == y
    {
      assert HolderOK(repo, repo.byID[x], x) && HolderOK(repo, repo.byID[y], y);
    }
  }

  /** Over any stretch of a serialised run, no status falls and terminal orders do not change at all. */
  lemma {:induction false} StatusNeverFalls(qs: seq<Request>, n: nat)
    requires n <= |qs| && forall i :: 0 <= i < |qs| ==> Allowed(qs[i])
    ensures ForwardAll(ServeAll(qs[..n]).repo, ServeAll(qs).repo)
  {
    hide WorldOK, TokensOK, Serve;
    if n == |qs| {
      assert qs[..n] == qs;
    } else {
      var last := |qs| - 1;
      assert qs[..last][..n] == qs[..n];
      StatusNeverFalls(qs[..last], n);
      TokensStayUnique(qs[..last]);
      ServeForward(ServeAll(qs[..last]), qs[last]);
    }
  }

  /** No call of the run, when it starts, is given another order's token for an order posted but not marked. */
  ghost predicate NeverLosesCredit(qs: seq<Request>) {
    forall i :: 0 <= i < |qs| && qs[i].CallOn? ==> !LosesCredit(ServeAll(qs[..i]), qs[i].id, qs[i].token)
  }

  lemma {:induction false} TrafficKeepsPosted(w: World, op: Op)
    requires WorldOK(w) && PostedOK(w) && Legal(Elsewhere(op))
    ensures PostedOK(w.(book := Apply(w.book, op)))
  {
    hide Apply, Inv;
    ElsewhereAdds(w.book, op);
    var w' := w.(book := Apply(w.book, op));
    forall x | x in w.repo.byID && HasCredit(w', x)
      ensures HasCredit(w, x)
    {
      var i :| 0 <= i < |w'.book.log| && w'.book.log[i].key == OrderKey(x);
      assert IsOrderKey(OrderKey(x));
      assert w'.book.log[i] == w.book.log[i];
    }
  }

  lemma {:induction false} PlaceKeepsPosted(w: World, account: string, sku: string, platform: string, now: int)
    requires WorldOK(w) && PostedOK(w)
    ensures PostedOK(w.(repo := CreateOrder(w.repo, account, sku, platform, now).0))
  {
    hide Inv, CoinsOf, RepoOK;
    assert RepoOK(w.repo);
    OrderIdFresh(w.repo);
    var w' := w.(repo := CreateOrder(w.repo, account, sku, platform, now).0);
    forall x | x in w'.repo.byID && HasCredit(w', x)
      ensures x in w.repo.byID
    {
      var i :| 0 <= i < |w.book.log| && w.book.log[i].key == OrderKey(x);
      assert IsOrderKey(w.book.log[i].key);
      var y :| y in w.repo.byID && w.book.log[i].key == OrderKey(y);
      OrderKeyInjective(x, y);
    }
  }

  /** In a run that never loses a credit, a posted order is crediting or credited throughout; so a failed order
      has no credit. */
  lemma {:induction false} FailedIsUncredited(qs: seq<Request>)
    requires forall i :: 0 <= i < |qs| ==> Allowed(qs[i])
    requires NeverLosesCredit(qs)
    ensures PostedOK(ServeAll(qs))
  {
    hide WorldOK, TokensOK, Apply, CreateOrder, MicroN, PostedOK, LosesCredit;
    if qs == [] {
      NothingPosted();
    } else {
      var last := |qs| - 1;
      var w := ServeAll(qs[..last]);
      assert NeverLosesCredit(qs[..last]) by {
        forall i | 0 <= i < last && qs[..last][i].CallOn?
          ensures !LosesCredit(ServeAll(qs[..last][..i]), qs[..last][i].id, qs[..last][i].token)
        {
          assert qs[..last][..i] == qs[..i];
        }
      }
      FailedIsUncredited(qs[..last]);
      TokensStayUnique(qs[..last]);
      match qs[last]
      case Place(account, sku, platform, now) => PlaceKeepsPosted(w, account, sku, platform, now);
      case CallOn(id, token, verdict, now, steps) =>
        if id in w.repo.byID { CallKeepsPosted(w, id, token, verdict, now, steps); }
      case Traffic(op) => TrafficKeepsPosted(w, op);
    }
  }

  /** Each call of the run repeats the token its order has stored, passes none, or is the order's first. */
  ghost predicate RepeatsTokens(qs: seq<Request>) {
    forall i :: 0 <= i < |qs| && qs[i].CallOn? ==> Repeats(ServeAll(qs[..i]).repo, qs[i].id, qs[i].token)
  }

  predicate Repeats(repo: OrderRepo, id: string, token: string) {
    id in repo.byID ==> token == "" || repo.byID[id].status == Created || token == repo.byID[id].token
  }

  /** In a run whose callers repeat tokens in that way, no failed order has a credit and every order with a credit
      is crediting or credited. */
  lemma {:induction false} RepeatingRunIsSafe(qs: seq<Request>)
    requires forall i :: 0 <= i < |qs| ==> Allowed(qs[i])
    requires RepeatsTokens(qs)
    ensures PostedOK(ServeAll(qs))
    ensures var w := ServeAll(qs);
            forall x :: x in w.repo.byID && w.repo.byID[x].status == OrderFailed ==> !HasCredit(w, x)
  {
    hide Allowed, HasCredit, LosesCredit, Repeats, ServeAll;
    forall i | 0 <= i < |qs| && qs[i].CallOn?
      ensures !LosesCredit(ServeAll(qs[..i]), qs[i].id, qs[i].token)
    {
      TokensStayUnique(qs[..i]);
      RepeatsIsSafe(ServeAll(qs[..i]), qs[i].id, qs[i].token);
    }
    FailedIsUncredited(qs);
    var w := ServeAll(qs);
    assert forall x :: x in w.repo.byID ==> MarkedOK(w, x);
  }

  lemma {:induction false} RepeatsIsSafe(w: World, id: string, token: string)
    requires TokensOK(w.repo) && Repeats(w.repo, id, token)
    ensures !LosesCredit(w, id, token)
  {
    hide TokensOK, HasCredit, Foreign;
    if id in w.repo.byID { RepeatingIsSafe(w, id, token); }
  }

  lemma {:induction false} NothingPosted()
    ensures PostedOK(START.w)
  {
  }

  // ---- A credit that is lost ----

  lemma {:induction false} FirstTokenStored(w: World, id: string, token: string, now: int)
    requires id in w.repo.byID && w.repo.byID[id].id == id && w.repo.byID[id].status == Created
    requires token != "" && HashOf(token) !in w.repo.byToken
    ensures var o := w.repo.byID[id].(token := token, tokenHash := HashOf(token), status := PendingPayment);
            MicroN(w, StartOf(w, id, token), Confirmed, now, 2)
                == (w.(repo := UpdateOrder(w.repo, o)), Call(o, token, Verify))
  {
    hide PostOrder;
    MicroNTwo(w, StartOf(w, id, token), Confirmed, now);
  }

  lemma {:induction false} PaidStored(w: World, o: Order, token: string, now: int)
    requires o.id in w.repo.byID && o.status == PendingPayment
    ensures var paid := o.(status := Paid, reason := PaymentConfirmed);
            MicroN(w, Call(o, token, Verify), Confirmed, now, 2)
                == (w.(repo := UpdateOrder(w.repo, paid)), Call(paid, token, StartCrediting))
  {
    hide PostOrder, UpdateOrder;
    MicroNTwo(w, Call(o, token, Verify), Confirmed, now);
  }

  lemma {:induction false} CreditPosted(w: World, o: Order, token: string, now: int)
    requires Inv(w.book) && w.book.forgotten == 0 && o.id in w.repo.byID && o.status == Paid && o.coins > 0
    ensures var w' := MicroN(w, Call(o, token, StartCrediting), Confirmed, now, 2).0;
            w'.repo == UpdateOrder(w.repo, o.(status := Crediting)) && HasCredit(w', o.id)
  {
    hide PostOrder, UpdateOrder, Inv;
    MicroNTwo(w, Call(o, token, StartCrediting), Confirmed, now);
    CreditPosts(w.book, o.(status := Crediting), now);
  }

  /** Losing a credit takes three calls and no malice: y's call stores its token; x's call, confirmed, stops after
      posting the credit; x's buyer then retries with y's token. */
  lemma {:induction false} CreditLost(w: World, x: string, y: string, t: string, u: string, now: int)
    requires WorldOK(w) && TokensOK(w.repo) && x != y && x in w.repo.byID && y in w.repo.byID
    requires w.repo.byID[x].status == Created && w.repo.byID[y].status == Created
    requires t != "" && u != "" && t != u && HashOf(t) !in w.repo.byToken && HashOf(u) !in w.repo.byToken
    ensures var w1 := Serve(w, CallOn(y, t, Confirmed, now, 2));
            var w2 := Serve(w1, CallOn(x, u, Confirmed, now, 6));
            var w3 := Serve(w2, CallOn(x, t, Confirmed, now, STEPS));
            x in w3.repo.byID && w3.repo.byID[x].status == OrderFailed && HasCredit(w3, x)
  {
    hide WorldOK, TokensOK, Serve, HasCredit;
    TokenTaken(w, y, t, now);
    var w1 := Serve(w, CallOn(y, t, Confirmed, now, 2));
    StoppedAfterPosting(w1, x, u, now);
    var w2 := Serve(w1, CallOn(x, u, Confirmed, now, 6));
    assert LosesCredit(w2, x, t);
    FailedWithCreditExactly(w2, x, t, Confirmed, now);
    ServedAlone(w2, x, t, now);
  }

  lemma {:induction false} ServedAlone(w: World, x: string, t: string, now: int)
    requires x in w.repo.byID
    ensures Serve(w, CallOn(x, t, Confirmed, now, STEPS)) == MicroN(w, StartOf(w, x, t), Confirmed, now, STEPS).0
  {
    hide MicroN;
  }

  lemma {:induction false} TokenTaken(w: World, y: string, t: string, now: int)
    requires WorldOK(w) && TokensOK(w.repo) && y in w.repo.byID && w.repo.byID[y].status == Created
    requires t != "" && HashOf(t) !in w.repo.byToken
    ensures var w1 := Serve(w, CallOn(y, t, Confirmed, now, 2));
            && WorldOK(w1) && TokensOK(w1.repo) && w1.repo.byToken == w.repo.byToken[HashOf(t) := y]
            && (forall x :: x in w.repo.byID && x != y ==> x in w1.repo.byID && w1.repo.byID[x] == w.repo.byID[x])
  {
    hide WorldOK, TokensOK, MicroN, UpdateOrder;
    IdOfOrder(w, y);
    FirstTokenStored(w, y, t, now);
    StoredAs(w.repo, w.repo.byID[y].(token := t, tokenHash := HashOf(t), status := PendingPayment));
    ServeForward(w, CallOn(y, t, Confirmed, now, 2));
  }

  lemma {:induction false} StoppedAfterPosting(w: World, x: string, u: string, now: int)
    requires WorldOK(w) && TokensOK(w.repo) && x in w.repo.byID && w.repo.byID[x].status == Created
    requires u != "" && HashOf(u) !in w.repo.byToken
    ensures var w2 := Serve(w, CallOn(x, u, Confirmed, now, 6));
            && WorldOK(w2) && TokensOK(w2.repo) && x in w2.repo.byID && w2.repo.byID[x].status == Crediting
            && HasCredit(w2, x)
            && (forall h :: h in w.repo.byToken ==> h in w2.repo.byToken && w2.repo.byToken[h] == w.repo.byToken[h])
  {
    hide WorldOK, TokensOK, MicroN, HasCredit, UpdateOrder;
    IdOfOrder(w, x);
    var c := StartOf(w, x, u);
    FirstTokenStored(w, x, u, now);
    var o := w.repo.byID[x].(token := u, tokenHash := HashOf(u), status := PendingPayment);
    StoredAs(w.repo, o);
    var v1 := w.(repo := UpdateOrder(w.repo, o));
    PaidStored(v1, o, u, now);
    var paid := o.(status := Paid, reason := PaymentConfirmed);
    StoredAs(v1.repo, paid);
    var v2 := v1.(repo := UpdateOrder(v1.repo, paid));
    WorldInv(w);
    CreditPosted(v2, paid, u, now);
    StoredAs(v2.repo, paid.(status := Crediting));
    MicroNSplit(w, c, Confirmed, now, 2, 2);
    MicroNSplit(w, c, Confirmed, now, 4, 2);
    ServeForward(w, CallOn(x, u, Confirmed, now, 6));
  }

  lemma {:induction false} IdOfOrder(w: World, x: string)
    requires WorldOK(w) && x in w.repo.byID
    ensures w.repo.byID[x].id == x && w.repo.byID[x].coins > 0
  {
  }

  lemma {:induction false} StoredAs(repo: OrderRepo, o: Order)
    requires o.id in repo.byID && o.tokenHash != Unset
    ensures UpdateOrder(repo, o).byID == repo.byID[o.id := o]
            && UpdateOrder(repo, o).byToken == repo.byToken[o.tokenHash := o.id]
  {
  }

  /** Two orders placed on an empty store are enough. */
  lemma {:induction false} CreditCanBeLost(account: string, now: int)
    ensures exists qs, x :: (forall i :: 0 <= i < |qs| ==> Allowed(qs[i]))
              && x in ServeAll(qs).repo.byID && ServeAll(qs).repo.byID[x].status == OrderFailed
              && HasCredit(ServeAll(qs), x)
  {
    hide HasCredit, Serve, WorldOK, TokensOK, OrderId;
    var place := Place(account, "coins_100", "", now);
    var qs2 := [place, place];
    var w := ServeAll(qs2);
    assert qs2[..1] == [place] && [place][..0] == [];
    TokensStayUnique(qs2);
    TwoPlaced(account, now);
    var x, y := OrderId(1), OrderId(2);
    CreditLost(w, x, y, "t", "u", now);
    var q1, q2, q3 := CallOn(y, "t", Confirmed, now, 2), CallOn(x, "u", Confirmed, now, 6),
        CallOn(x, "t", Confirmed, now, STEPS);
    ServeOneMore(qs2, q1);
    ServeOneMore(qs2 + [q1], q2);
    ServeOneMore(qs2 + [q1] + [q2], q3);
  }

  lemma {:induction false} ServeOneMore(qs: seq<Request>, q: Request)
    ensures ServeAll(qs + [q]) == Serve(ServeAll(qs), q)
  {
    assert (qs + [q])[..|qs|] == qs;
  }

  lemma {:induction false} TwoPlaced(account: string, now: int)
    ensures var place := Place(account, "coins_100", "", now);
            var repo := ServeAll([place, place]).repo;
            && OrderId(1) != OrderId(2) && OrderId(1) in repo.byID && OrderId(2) in repo.byID && repo.byToken == map[]
            && repo.byID[OrderId(1)].status == Created && repo.byID[OrderId(2)].status == Created
  {
    hide OrderId;
    var place := Place(account, "coins_100", "", now);
    assert [place, place][..1] == [place] && [place][..0] == [];
    assert ServeAll([place]) == Serve(START.w, place);
    assert ServeAll([place, place]) == Serve(Serve(START.w, place), place);
    TwoIdsDiffer();
  }

  lemma {:induction false} TwoIdsDiffer()
    ensures OrderId(1) != OrderId(2)
  {
    assert OrderId(1)[6] == '1' && OrderId(2)[6] == '2';
  }

  // ---- Crash recovery ----

  /** What an undisturbed retry makes of a non-terminal order. */
  function Recovered(s: OrderStatus, verdict: Verdict): OrderStatus {
    if s != PendingPayment || verdict == Confirmed then Credited
    else if verdict == InvalidToken then OrderFailed
    else PendingPayment
  }

  lemma {:induction false} MicroNSplit(w: World, c: Call, verdict: Verdict, now: int, m: nat, n: nat)
    ensures var (w', c') := MicroN(w, c, verdict, now, m);
            MicroN(w, c, verdict, now, m + n) == MicroN(w', c', verdict, now, n)
  {
    hide Micro;
    if n > 0 {
      MicroNSplit(w, c, verdict, now, m, n - 1);
    }
  }

  lemma {:induction false} MicroNThree(w: World, c: Call, verdict: Verdict, now: int)
    ensures var (w1, c1) := Micro(w, c, verdict, now);
            var (w2, c2) := Micro(w1, c1, verdict, now);
            MicroN(w, c, verdict, now, 3) == Micro(w2, c2, verdict, now)
  {
    hide Micro;
    MicroNTwo(w, c, verdict, now);
  }

  /** From the crediting stage on, nothing the store or the ledger holds can stop the credit. */
  lemma {:induction false} CreditCompletes(w: World, c: Call, verdict: Verdict, now: int)
    requires WorldOK(w) && TokensOK(w.repo) && Current(w, c) && c.pc == StartCrediting
    ensures var (w', c') := MicroN(w, c, verdict, now, 3);
            c'.pc == Finished(Returned) && c.order.id in w'.repo.byID && w'.repo.byID[c.order.id].status == Credited
  {
    hide WorldOK, TokensOK, PaidBy, PostOrder, CopyOK, Forward, MicroN;
    MicroNThree(w, c, verdict, now);
    var (w1, c1) := Micro(w, c, verdict, now);
    MicroForward(w, c, verdict, now);
    CopyFacts(w, c.order);
    CopyFacts(w1, c1.order);
    assert c1.pc == PostCredit;
    PostingKeeps(w1, c1.order, now);
    var (w2, c2) := Micro(w1, c1, verdict, now);
    assert c2.pc == SaveCredited && c2.order.status == Credited;
  }

  /** A retry passes the token check and reaches verification with the stores as they were. */
  lemma {:induction false} RetryReachesVerify(w: World, id: string, verdict: Verdict, now: int)
    requires WorldOK(w) && TokensOK(w.repo) && id in w.repo.byID && NonTerminal(w.repo.byID[id].status)
    ensures MicroN(w, StartOf(w, id, ""), verdict, now, 2) == (w, Call(w.repo.byID[id], w.repo.byID[id].token, Verify))
  {
    hide Inv, PostOrder, CreditsOrder, PaidBy;
    assert RepoOK(w.repo);
    var r := w.repo.byID[id];
    assert HolderOK(w.repo, r, id);
    MicroNTwo(w, StartOf(w, id, ""), verdict, now);
    assert Micro(w, StartOf(w, id, ""), verdict, now) == (w, Call(r, r.token, Store));
  }

  lemma {:induction false} VerifyStep(w: World, c: Call, verdict: Verdict, now: int)
    requires WorldOK(w) && TokensOK(w.repo) && Current(w, c) && c.pc == Verify
    ensures var (w1, c1) := Micro(w, c, verdict, now);
            if c.order.status != PendingPayment then c1.pc == StartCrediting
            else if verdict == Confirmed then c1.pc == SavePaid
            else
              var (w2, c2) := Micro(w1, c1, verdict, now);
              c2.pc.Finished? && c.order.id in w2.repo.byID
                  && w2.repo.byID[c.order.id].status == Recovered(PendingPayment, verdict)
  {
    hide WorldOK, TokensOK, PaidBy, PostOrder, CopyOK;
    CopyFacts(w, c.order);
  }

  lemma {:induction false} SavePaidStep(w: World, c: Call, verdict: Verdict, now: int)
    requires WorldOK(w) && Current(w, c) && c.pc == SavePaid
    ensures Micro(w, c, verdict, now).1.pc == StartCrediting
  {
    hide WorldOK, PaidBy, PostOrder, CopyOK;
    CopyFacts(w, c.order);
  }

  /** An undisturbed retry of a non-terminal order, with its stored token. */
  lemma {:induction false} RetryResult(w: World, id: string, verdict: Verdict, now: int)
    requires WorldOK(w) && TokensOK(w.repo) && id in w.repo.byID && NonTerminal(w.repo.byID[id].status)
    ensures var w' := MicroN(w, StartOf(w, id, ""), verdict, now, STEPS).0;
            id in w'.repo.byID && w'.repo.byID[id].status == Recovered(w.repo.byID[id].status, verdict)
  {
    hide WorldOK, TokensOK, Current, Micro, MicroN;
    var c := StartOf(w, id, "");
    StartIsCurrent(w, id, "");
    RetryReachesVerify(w, id, verdict, now);
    CallForward(w, c, verdict, now, 2);
    var c2 := Call(w.repo.byID[id], w.repo.byID[id].token, Verify);
    VerifyStep(w, c2, verdict, now);
    MicroNTwo(w, c2, verdict, now);
    MicroNSplit(w, c, verdict, now, 2, 1);
    MicroNSplit(w, c, verdict, now, 2, 2);
    CallForward(w, c, verdict, now, 3);
    CallForward(w, c, verdict, now, 4);
    var (w3, c3) := MicroN(w, c, verdict, now, 3);
    var (w4, c4) := MicroN(w, c, verdict, now, 4);
    if c2.order.status != PendingPayment {
      CreditCompletes(w3, c3, verdict, now);
      MicroNSplit(w, c, verdict, now, 3, 3);
      FinishedStays(w, c, verdict, now, 6, STEPS);
    } else if verdict == Confirmed {
      SavePaidStep(w3, c3, verdict, now);
      CreditCompletes(w4, c4, verdict, now);
      MicroNSplit(w, c, verdict, now, 4, 3);
    } else {
      FinishedStays(w, c, verdict, now, 4, STEPS);
    }
  }

  /** The reconciler's queue: copies of the non-terminal orders, each once, in any order. */
  ghost predicate QueueOf(repo: OrderRepo, queue: seq<Order>) {
    && (forall i :: 0 <= i < |queue| ==> queue[i].id in repo.byID && repo.byID[queue[i].id] == queue[i]
                                         && NonTerminal(queue[i].status))
    && (forall i, j :: 0 <= i < j < |queue| ==> queue[i].id != queue[j].id)
    && (forall x :: x in repo.byID && NonTerminal(repo.byID[x].status)
          ==> exists i :: 0 <= i < |queue| && queue[i].id == x)
  }

  /** One pass: retry each copy taken at the start, in turn. The verifier may answer each order differently. */
  function RunOnce(w: World, queue: seq<Order>, verifier: string -> Verdict, now: int): World {
    if queue == [] then w
    else
      var o := queue[|queue| - 1];
      MicroN(RunOnce(w, queue[..|queue| - 1], verifier, now), Call(o, "", Begin), verifier(o.id), now, STEPS).0
  }

  /** Part of a pass: the orders retried so far are recovered, the rest are untouched. */
  lemma {:induction false} PassSoFar(w: World, queue: seq<Order>, verifier: string -> Verdict, now: int)
    requires WorldOK(w) && TokensOK(w.repo)
    requires forall i :: 0 <= i < |queue| ==> queue[i].id in w.repo.byID && w.repo.byID[queue[i].id] == queue[i]
                                              && NonTerminal(queue[i].status)
    requires forall i, j :: 0 <= i < j < |queue| ==> queue[i].id != queue[j].id
    ensures var w' := RunOnce(w, queue, verifier, now);
            && WorldOK(w') && TokensOK(w'.repo)
            && (forall x :: x in w.repo.byID ==> x in w'.repo.byID)
            && (forall x :: x in w.repo.byID && (forall i :: 0 <= i < |queue| ==> queue[i].id != x)
                  ==> w'.repo.byID[x] == w.repo.byID[x])
            && (forall i :: 0 <= i < |queue| ==> w'.repo.byID[queue[i].id].status
                                                 == Recovered(queue[i].status, verifier(queue[i].id)))
  {
    hide WorldOK, TokensOK, MicroN;
    if queue != [] {
      var last := |queue| - 1;
      var o := queue[last];
      PassSoFar(w, queue[..last], verifier, now);
      var before := RunOnce(w, queue[..last], verifier, now);
      assert before.repo.byID[o.id] == o;
      StartIsCurrent(before, o.id, "");
      CallForward(before, StartOf(before, o.id, ""), verifier(o.id), now, STEPS);
      RetryResult(before, o.id, verifier(o.id), now);
      var w' := RunOnce(w, queue, verifier, now);
      assert Forward(before.repo, w'.repo, o.id);
      forall i | 0 <= i < |queue|
        ensures w'.repo.byID[queue[i].id].status == Recovered(queue[i].status, verifier(queue[i].id))
      {
        if i < last { assert queue[..last][i] == queue[i]; }
      }
      forall x | x in w.repo.byID && (forall i :: 0 <= i < |queue| ==> queue[i].id != x)
        ensures w'.repo.byID[x] == w.repo.byID[x]
      {
        assert queue[last].id != x;
        forall i | 0 <= i < last ensures queue[..last][i].id != x { assert queue[..last][i] == queue[i]; }
      }
    }
  }

  /** Crash recovery. Wherever serialised calls have crashed, one uninterrupted pass leaves every paid or
      crediting order credited, every pending one credited if the store confirms it, and each credited order
      names a transaction on the books. */
  lemma {:induction false} PassRecovers(qs: seq<Request>, queue: seq<Order>, verifier: string -> Verdict, now: int,
                                        x: string)
    requires forall i :: 0 <= i < |qs| ==> Allowed(qs[i])
    requires var repo := ServeAll(qs).repo;
             QueueOf(repo, queue) && x in repo.byID && NonTerminal(repo.byID[x].status)
    ensures var w, w' := ServeAll(qs), RunOnce(ServeAll(qs), queue, verifier, now);
            && x in w'.repo.byID && w'.repo.byID[x].status == Recovered(w.repo.byID[x].status, verifier(x))
            && (w'.repo.byID[x].status == Credited <==> w.repo.byID[x].status != PendingPayment
                                                        || verifier(x) == Confirmed)
            && (w'.repo.byID[x].status == Credited ==> PaidBy(w'.book.log, w'.repo.byID[x]))
  {
    hide TokensOK, Inv, RepoOK, CreditsOrder, PaidBy;
    TokensStayUnique(qs);
    PassSoFar(ServeAll(qs), queue, verifier, now);
    var i :| 0 <= i < |queue| && queue[i].id == x;
  }
}
