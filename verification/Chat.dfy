/** The chat message log: idempotent insertion per conversation, and paging by sequence cursor. */
module Chat {
  import opened Decimal
  import Paging

  datatype Message = Message(id: string, conversation: string, sender: string, clientMsgId: string, body: string,
                             attachment: string, seqNo: nat, createdAt: int)

  datatype Conversation = Conversation(lastMessageAt: int, orderSeq: nat)

  datatype ClientKey = ClientKey(conversation: string, clientMsgId: string)

  datatype Log = Log(conversations: map<string, Conversation>, messages: map<string, seq<Message>>,
                     byClientId: map<ClientKey, Message>, byId: map<string, Message>, order: nat, msgSeq: nat)

  const EMPTY_LOG: Log := Log(map[], map[], map[], map[], 0, 0)

  datatype InsertResult = Inserted(message: Message, isNew: bool) | ConversationNotFound

  function MessagesOf(l: Log, conversation: string): seq<Message> {
    if conversation in l.messages then l.messages[conversation] else []
  }

  function MessageId(n: nat): string {
    "msg-" + Itoa(n)
  }

  function Insert(l: Log, conversation: string, sender: string, clientMsgId: string, body: string, attachment: string,
                  now: int): (Log, InsertResult) {
    var key := ClientKey(conversation, clientMsgId);
    if key in l.byClientId then (l, Inserted(l.byClientId[key], false))
    else if conversation !in l.conversations then (l, ConversationNotFound)
    else
      var all := MessagesOf(l, conversation);
      var m := Message(MessageId(l.msgSeq + 1), conversation, sender, clientMsgId, body, attachment, |all| + 1, now);
      (Log(l.conversations[conversation := Conversation(now, l.order + 1)], l.messages[conversation := all + [m]],
           l.byClientId[key := m], l.byId[m.id := m], l.order + 1, l.msgSeq + 1),
       Inserted(m, true))
  }

  /** Open a conversation under its ID, once. */
  function Open(l: Log, conversation: string): Log {
    if conversation in l.conversations then l
    else l.(conversations := l.conversations[conversation := Conversation(0, l.order + 1)], order := l.order + 1)
  }

  // ---- Invariant ----

  predicate Numbered(all: seq<Message>) {
    forall i :: 0 <= i < |all| ==> all[i].seqNo == i + 1
  }

  /** The client index and the conversation logs hold the same messages. */
  ghost predicate LogOK(l: Log) {
    && (forall c :: c in l.messages ==> Numbered(l.messages[c]))
    && (forall c, i :: c in l.messages && 0 <= i < |l.messages[c]| ==> Indexed(l, c, l.messages[c][i]))
    && (forall k :: k in l.byClientId ==> Stored(l, k))
  }

  predicate Indexed(l: Log, c: string, m: Message) {
    m.conversation == c && ClientKey(c, m.clientMsgId) in l.byClientId && l.byClientId[ClientKey(c, m.clientMsgId)] == m
  }

  ghost predicate Stored(l: Log, k: ClientKey)
    requires k in l.byClientId
  {
    && l.byClientId[k].clientMsgId == k.clientMsgId
    && k.conversation in l.messages && l.byClientId[k] in l.messages[k.conversation]
  }

  lemma {:induction false} InsertKeeps(l: Log, conversation: string, sender: string, clientMsgId: string, body: string,
                                       attachment: string, now: int)
    requires LogOK(l)
    ensures var (l', r) := Insert(l, conversation, sender, clientMsgId, body, attachment, now);
            LogOK(l') && forall c :: MessagesOf(l, c) <= MessagesOf(l', c)
  {
    hide MessageId;
    var (l', r) := Insert(l, conversation, sender, clientMsgId, body, attachment, now);
    if r.Inserted? && r.isNew {
      var key := ClientKey(conversation, clientMsgId);
      forall c, i | c in l'.messages && 0 <= i < |l'.messages[c]|
        ensures Indexed(l', c, l'.messages[c][i])
      {
        if c != conversation || i < |MessagesOf(l, c)| {
          assert Indexed(l, c, MessagesOf(l, c)[i]);
        }
      }
      forall k | k in l'.byClientId
        ensures Stored(l', k)
      {
        if k != key {
          assert Stored(l, k);
          var i :| 0 <= i < |l.messages[k.conversation]| && l.messages[k.conversation][i] == l.byClientId[k];
          assert l'.messages[k.conversation][i] == l.byClientId[k];
        } else {
          assert l'.messages[conversation][|MessagesOf(l, conversation)|] == r.message;
        }
      }
    }
  }

  datatype ChatOp = OpenOp(conversation: string)
                  | InsertOp(conversation: string, sender: string, clientMsgId: string, body: string,
                             attachment: string, now: int)

  function Step(l: Log, op: ChatOp): Log {
    match op
    case OpenOp(conversation) => Open(l, conversation)
    case InsertOp(conversation, sender, clientMsgId, body, attachment, now) =>
      Insert(l, conversation, sender, clientMsgId, body, attachment, now).0
  }

  function Run(l: Log, ops: seq<ChatOp>): Log {
    if ops == [] then l else Step(Run(l, ops[..|ops| - 1]), ops[|ops| - 1])
  }

  lemma {:induction false} StepKeeps(l: Log, op: ChatOp)
    requires LogOK(l)
    ensures LogOK(Step(l, op)) && forall c :: MessagesOf(l, c) <= MessagesOf(Step(l, op), c)
    ensures forall k :: k in l.byClientId ==> k in Step(l, op).byClientId
                                              && Step(l, op).byClientId[k] == l.byClientId[k]
  {
    match op
    case OpenOp(conversation) =>
      forall c, i | c in l.messages && 0 <= i < |l.messages[c]| ensures Indexed(Step(l, op), c, l.messages[c][i]) {
        assert Indexed(l, c, l.messages[c][i]);
      }
      forall k | k in l.byClientId ensures Stored(Step(l, op), k) { assert Stored(l, k); }
    case InsertOp(conversation, sender, clientMsgId, body, attachment, now) =>
      InsertKeeps(l, conversation, sender, clientMsgId, body, attachment, now);
  }

  /** In every run, the i-th message of a conversation has sequence number i, and conversations only grow. */
  lemma {:induction false} RunKeeps(l: Log, ops: seq<ChatOp>)
    requires LogOK(l)
    ensures LogOK(Run(l, ops))
    ensures forall c :: MessagesOf(l, c) <= MessagesOf(Run(l, ops), c) && Numbered(MessagesOf(Run(l, ops), c))
    ensures forall k :: k in l.byClientId ==> k in Run(l, ops).byClientId
                                              && Run(l, ops).byClientId[k] == l.byClientId[k]
  {
    hide Step;
    if ops != [] {
      var before := Run(l, ops[..|ops| - 1]);
      RunKeeps(l, ops[..|ops| - 1]);
      StepKeeps(before, ops[|ops| - 1]);
      forall c ensures MessagesOf(l, c) <= MessagesOf(Run(l, ops), c) {
        assert MessagesOf(l, c) <= MessagesOf(before, c) <= MessagesOf(Run(l, ops), c);
      }
    }
  }

  /** A client message ID inserted once is never inserted again: at any later time a retry, whatever it carries,
      returns the stored message and changes nothing. */
  lemma {:induction false} RetryReturnsStored(l: Log, first: ChatOp, ops: seq<ChatOp>, sender: string, body: string,
                                              attachment: string, now: int)
    requires LogOK(l) && first.InsertOp?
    requires Insert(l, first.conversation, first.sender, first.clientMsgId, first.body, first.attachment,
                    first.now).1.Inserted?
    ensures var later := Run(Step(l, first), ops);
            var stored := Insert(l, first.conversation, first.sender, first.clientMsgId, first.body, first.attachment,
                                 first.now).1.message;
            && Insert(later, first.conversation, sender, first.clientMsgId, body, attachment, now)
                == (later, Inserted(stored, false))
            && stored in MessagesOf(later, first.conversation)
  {
    hide Run, MessageId;
    StepKeeps(l, first);
    RunKeeps(Step(l, first), ops);
    var later := Run(Step(l, first), ops);
    assert Stored(later, ClientKey(first.conversation, first.clientMsgId));
  }

  // ---- What is stored ----

  predicate Opened(ops: seq<ChatOp>, conversation: string) {
    exists i :: 0 <= i < |ops| && ops[i] == OpenOp(conversation)
  }

  /** The last operation inserts a message: its conversation is open, and no earlier insert into it, once open,
      carried its client message ID. */
  ghost predicate InsertsLast(ops: seq<ChatOp>)
    requires ops != []
  {
    var op := ops[|ops| - 1];
    && op.InsertOp? && Opened(ops, op.conversation)
    && forall i :: 0 <= i < |ops| - 1 ==> !CarriedBefore(ops, i, op.conversation, op.clientMsgId)
  }

  predicate CarriedBefore(ops: seq<ChatOp>, i: nat, conversation: string, clientMsgId: string)
    requires i < |ops|
  {
    ops[i].InsertOp? && ops[i].conversation == conversation && ops[i].clientMsgId == clientMsgId
    && Opened(ops[..i], conversation)
  }

  /** The operations that put a message into a conversation, in order. */
  ghost function Inserts(ops: seq<ChatOp>, conversation: string): seq<ChatOp> {
    if ops == [] then []
    else
      var last := |ops| - 1;
      Inserts(ops[..last], conversation)
      + if InsertsLast(ops) && ops[last].conversation == conversation then [ops[last]] else []
  }

  /** What a message stores of the request that sent it. */
  predicate Tells(m: Message, op: ChatOp) {
    && op.InsertOp? && m.conversation == op.conversation && m.sender == op.sender && m.clientMsgId == op.clientMsgId
    && m.body == op.body && m.attachment == op.attachment && m.createdAt == op.now
  }

  /** The indexes agree with what was done so far. */
  ghost predicate Reflects(l: Log, ops: seq<ChatOp>) {
    && (forall c :: c in l.conversations <==> Opened(ops, c))
    && (forall c, x :: ClientKey(c, x) in l.byClientId <==>
                       exists i :: 0 <= i < |ops| && CarriedBefore(ops, i, c, x))
  }

  lemma {:induction false} OpenedStep(ops: seq<ChatOp>, op: ChatOp, c: string)
    ensures Opened(ops + [op], c) <==> Opened(ops, c) || op == OpenOp(c)
  {
    if Opened(ops, c) {
      var i :| 0 <= i < |ops| && ops[i] == OpenOp(c);
      assert (ops + [op])[i] == OpenOp(c);
    }
    if op == OpenOp(c) { assert (ops + [op])[|ops|] == OpenOp(c); }
  }

  lemma {:induction false} CarriedStep(ops: seq<ChatOp>, op: ChatOp, c: string, x: string)
    ensures (exists i :: 0 <= i < |ops + [op]| && CarriedBefore(ops + [op], i, c, x))
            <==> (exists i :: 0 <= i < |ops| && CarriedBefore(ops, i, c, x))
                 || (op.InsertOp? && op.conversation == c && op.clientMsgId == x && Opened(ops, c))
  {
    hide Opened;
    var ops' := ops + [op];
    assert ops'[..|ops|] == ops;
    forall i | 0 <= i < |ops| ensures CarriedBefore(ops', i, c, x) <==> CarriedBefore(ops, i, c, x) {
      assert ops'[..i] == ops[..i];
    }
    if op.InsertOp? && op.conversation == c && op.clientMsgId == x && Opened(ops, c) {
      assert CarriedBefore(ops', |ops|, c, x);
    }
  }

  lemma {:induction false} ReflectsStep(l: Log, ops: seq<ChatOp>, op: ChatOp)
    requires Reflects(l, ops)
    ensures Reflects(Step(l, op), ops + [op])
  {
    hide Opened, CarriedBefore, MessageId;
    forall c ensures c in Step(l, op).conversations <==> Opened(ops + [op], c) { OpenedStep(ops, op, c); }
    forall c, x
      ensures ClientKey(c, x) in Step(l, op).byClientId <==>
              exists i :: 0 <= i < |ops + [op]| && CarriedBefore(ops + [op], i, c, x)
    {
      CarriedStep(ops, op, c, x);
    }
  }

  lemma {:induction false} RunReflects(ops: seq<ChatOp>)
    ensures Reflects(Run(EMPTY_LOG, ops), ops)
  {
    hide Step;
    if ops == [] {
      assert forall c :: !Opened([], c);
    } else {
      RunReflects(ops[..|ops| - 1]);
      ReflectsStep(Run(EMPTY_LOG, ops[..|ops| - 1]), ops[..|ops| - 1], ops[|ops| - 1]);
      assert ops == ops[..|ops| - 1] + [ops[|ops| - 1]];
    }
  }

  /** One insert after any run: it fails exactly on a conversation never opened, stores a message as sent under a
      client message ID not yet carried into the conversation, and otherwise returns an earlier one. */
  lemma {:induction false} InsertExactly(ops: seq<ChatOp>, op: ChatOp)
    requires op.InsertOp?
    ensures var l := Run(EMPTY_LOG, ops);
            var (l', r) := Insert(l, op.conversation, op.sender, op.clientMsgId, op.body, op.attachment, op.now);
            var carried := exists i :: 0 <= i < |ops| && CarriedBefore(ops, i, op.conversation, op.clientMsgId);
            && (r == ConversationNotFound <==> !Opened(ops, op.conversation) && !carried)
            && (r.ConversationNotFound? || !r.isNew ==> l' == l)
            && (r.Inserted? && r.isNew <==> InsertsLast(ops + [op]))
            && (r.Inserted? && r.isNew ==> Tells(r.message, op))
  {
    hide Opened, CarriedBefore, MessageId;
    RunReflects(ops);
    var ops' := ops + [op];
    OpenedStep(ops, op, op.conversation);
    forall i | 0 <= i < |ops|
      ensures CarriedBefore(ops', i, op.conversation, op.clientMsgId)
              <==> CarriedBefore(ops, i, op.conversation, op.clientMsgId)
    {
      CarriedHere(ops, op, i, op.conversation, op.clientMsgId);
    }
    assert InsertsLast(ops') <==>
           && Opened(ops, op.conversation)
           && forall i :: 0 <= i < |ops| ==> !CarriedBefore(ops, i, op.conversation, op.clientMsgId);
  }

  lemma {:induction false} CarriedHere(ops: seq<ChatOp>, op: ChatOp, i: nat, c: string, x: string)
    requires i < |ops|
    ensures CarriedBefore(ops + [op], i, c, x) <==> CarriedBefore(ops, i, c, x)
  {
    assert (ops + [op])[..i] == ops[..i];
  }

  /** A conversation holds exactly the messages its first inserts under each client message ID asked for: sender,
      body, attachment and time, one for one and in order. */
  lemma {:induction false} StoredAsSent(ops: seq<ChatOp>, conversation: string)
    ensures var stored, sent := MessagesOf(Run(EMPTY_LOG, ops), conversation), Inserts(ops, conversation);
            |stored| == |sent| && forall i :: 0 <= i < |sent| ==> Tells(stored[i], sent[i])
  {
    hide InsertsLast, MessageId;
    if ops != [] {
      var last := |ops| - 1;
      var op := ops[last];
      StoredAsSent(ops[..last], conversation);
      assert ops == ops[..last] + [op];
      if op.InsertOp? {
        InsertExactly(ops[..last], op);
      } else {
        assert !InsertsLast(ops) by { NotAnInsert(ops); }
      }
    }
  }

  lemma {:induction false} NotAnInsert(ops: seq<ChatOp>)
    requires ops != [] && !ops[|ops| - 1].InsertOp?
    ensures !InsertsLast(ops)
  {
  }

  /** Message IDs are given out in order and never twice, the ID index holds every message, and a conversation is
      ranked above all others when a message arrives. */
  ghost predicate IdsOK(l: Log) {
    && (forall c, i :: 0 <= i < |MessagesOf(l, c)| ==> IndexedById(l, MessagesOf(l, c)[i]))
    && (forall c, d, i, j :: 0 <= i < |MessagesOf(l, c)| && 0 <= j < |MessagesOf(l, d)|
          ==> MessagesOf(l, c)[i].id == MessagesOf(l, d)[j].id ==> c == d && i == j)
    && (forall c :: c in l.conversations ==> l.conversations[c].orderSeq <= l.order)
  }

  ghost predicate IndexedById(l: Log, m: Message) {
    m.id in l.byId && l.byId[m.id] == m && Issued(m.id, l.msgSeq)
  }

  /** One of the first n IDs. */
  ghost predicate Issued(id: string, n: nat) {
    exists k: nat :: 1 <= k <= n && id == MessageId(k)
  }

  lemma {:induction false} IssuedStep(id: string, n: nat)
    ensures Issued(MessageId(n + 1), n + 1) && !Issued(MessageId(n + 1), n)
    ensures Issued(id, n) ==> Issued(id, n + 1)
  {
    if Issued(MessageId(n + 1), n) {
      var k: nat :| 1 <= k <= n && MessageId(n + 1) == MessageId(k);
      assert MessageId(k)[4..] == Itoa(k) && MessageId(n + 1)[4..] == Itoa(n + 1);
      ItoaInjective(k, n + 1);
    }
  }

  /** A message that was on record keeps its place in the ID index, and the next ID is not its own. */
  lemma {:induction false} IdKept(l: Log, op: ChatOp, m: Message)
    requires IndexedById(l, m)
    ensures m.id != MessageId(l.msgSeq + 1) && IndexedById(Step(l, op), m)
  {
    hide Issued, MessageId;
    IssuedStep(m.id, l.msgSeq);
  }

  /** A step leaves a conversation's messages alone or adds one under the next ID, to one conversation only. */
  lemma {:induction false} StepAdds(l: Log, op: ChatOp, c: string)
    ensures var l' := Step(l, op);
            || MessagesOf(l', c) == MessagesOf(l, c)
            || (&& op.InsertOp? && c == op.conversation && |MessagesOf(l', c)| == |MessagesOf(l, c)| + 1
                && MessagesOf(l', c)[..|MessagesOf(l, c)|] == MessagesOf(l, c)
                && var m := MessagesOf(l', c)[|MessagesOf(l, c)|];
                m.id == MessageId(l.msgSeq + 1) && IndexedById(l', m))
  {
    hide MessageId, Issued;
    IssuedStep("", l.msgSeq);
  }

  lemma {:induction false} OrdersStep(l: Log, op: ChatOp)
    requires forall c :: c in l.conversations ==> l.conversations[c].orderSeq <= l.order
    ensures var l' := Step(l, op);
            forall c :: c in l'.conversations ==> l'.conversations[c].orderSeq <= l'.order
  {
    hide MessageId;
  }

  lemma {:induction false} IdsStep(l: Log, op: ChatOp)
    requires IdsOK(l)
    ensures IdsOK(Step(l, op))
  {
    hide IndexedById, MessageId, Step, MessagesOf;
    OrdersStep(l, op);
    forall c ensures forall i :: 0 <= i < |MessagesOf(Step(l, op), c)|
                       ==> IndexedById(Step(l, op), MessagesOf(Step(l, op), c)[i])
    {
      StepAdds(l, op, c);
      forall m | m in MessagesOf(l, c) ensures IndexedById(Step(l, op), m) { IdKept(l, op, m); }
    }
    forall c, d, i, j | 0 <= i < |MessagesOf(Step(l, op), c)| && 0 <= j < |MessagesOf(Step(l, op), d)|
                        && MessagesOf(Step(l, op), c)[i].id == MessagesOf(Step(l, op), d)[j].id
      ensures c == d && i == j
    {
      StepAdds(l, op, c);
      StepAdds(l, op, d);
      if i < |MessagesOf(l, c)| { IdKept(l, op, MessagesOf(l, c)[i]); }
      if j < |MessagesOf(l, d)| { IdKept(l, op, MessagesOf(l, d)[j]); }
    }
  }

  /** Opening a conversation again changes nothing; opening a new one adds it with no message yet, above every other,
      and touches no other conversation and no message. */
  lemma {:induction false} OpenExactly(l: Log, conversation: string)
    requires IdsOK(l)
    ensures conversation in l.conversations ==> Open(l, conversation) == l
    ensures var l' := Open(l, conversation);
            && l'.messages == l.messages && l'.byClientId == l.byClientId && l'.byId == l.byId && l'.msgSeq == l.msgSeq
            && conversation in l'.conversations
            && (forall c :: c in l'.conversations && c != conversation
                  ==> c in l.conversations && l'.conversations[c] == l.conversations[c])
            && (conversation !in l.conversations ==>
                  && l'.conversations[conversation] == Conversation(0, l'.order)
                  && forall c :: c in l.conversations
                       ==> l'.conversations[c].orderSeq < l'.conversations[conversation].orderSeq)
  {
    hide IndexedById, MessageId;
  }

  /** An insert that stores a message marks its conversation with the time and ranks it above every other. */
  lemma {:induction false} InsertRanksFirst(l: Log, op: ChatOp)
    requires IdsOK(l) && op.InsertOp? && Step(l, op) != l
    ensures var l' := Step(l, op);
            && op.conversation in l'.conversations
            && l'.conversations[op.conversation].lastMessageAt == op.now
            && forall c :: c in l'.conversations && c != op.conversation
                 ==> c in l.conversations && l'.conversations[c] == l.conversations[c]
                     && l'.conversations[c].orderSeq < l'.conversations[op.conversation].orderSeq
  {
    hide IndexedById, MessageId;
  }

  lemma {:induction false} IdsAreUnique(ops: seq<ChatOp>)
    ensures IdsOK(Run(EMPTY_LOG, ops))
  {
    hide Step;
    if ops != [] {
      IdsAreUnique(ops[..|ops| - 1]);
      IdsStep(Run(EMPTY_LOG, ops[..|ops| - 1]), ops[|ops| - 1]);
    }
  }

  // ---- Paging ----

  datatype Page = Page(items: seq<Message>, next: string)

  /** The first place from i on holding a message after sequence n. */
  function FirstAfter(all: seq<Message>, n: nat, i: nat): (r: nat)
    requires i <= |all|
    ensures i <= r <= |all|
    decreases |all| - i
  {
    if i == |all| || all[i].seqNo > n then i else FirstAfter(all, n, i + 1)
  }

  function StartOf(all: seq<Message>, cursor: string): nat {
    if cursor == "" || ParseUint(cursor).None? then 0 else FirstAfter(all, ParseUint(cursor).value, 0)
  }

  function ListPage(all: seq<Message>, cursor: string, limit: int): Page {
    var start := StartOf(all, cursor);
    var end := start + Paging.PageSize(limit);
    if end < |all| then Page(all[start..end], Itoa(all[end - 1].seqNo)) else Page(all[start..], "")
  }

  lemma {:induction false} AfterSeq(all: seq<Message>, n: nat, i: nat)
    requires Numbered(all) && i <= |all| && i <= n
    ensures FirstAfter(all, n, i) == if n <= |all| then n else |all|
    decreases |all| - i
  {
    if i < |all| && i < n {
      AfterSeq(all, n, i + 1);
    }
  }

  /** What one request of a walk finds. */
  datatype Visit = Visit(all: seq<Message>, limit: int)

  function CursorAt(visits: seq<Visit>, n: nat): string
    requires n <= |visits|
    decreases n, 0
  {
    if n == 0 then "" else PageAt(visits, n - 1).next
  }

  function PageAt(visits: seq<Visit>, n: nat): Page
    requires n < |visits|
    decreases n, 1
  {
    ListPage(visits[n].all, CursorAt(visits, n), visits[n].limit)
  }

  function Pages(visits: seq<Visit>, n: nat): seq<Message>
    requires n <= |visits|
  {
    if n == 0 then [] else Pages(visits, n - 1) + PageAt(visits, n - 1).items
  }

  /** Messages are only appended between requests, and sequence numbers fit the cursor. */
  ghost predicate OnlyAppended(visits: seq<Visit>) {
    && (forall i :: 0 <= i < |visits| ==> Numbered(visits[i].all) && |visits[i].all| < TWO_TO_63)
    && (forall i, j :: 0 <= i <= j < |visits| ==> visits[i].all <= visits[j].all)
  }

  lemma {:induction false} PageFrom(all: seq<Message>, cursor: string, limit: int, start: nat)
    requires Numbered(all) && |all| < TWO_TO_63 && start <= |all|
    requires if start == 0 then cursor == "" else cursor == Itoa(start)
    ensures var page := ListPage(all, cursor, limit);
            var end := if start + Paging.PageSize(limit) < |all| then start + Paging.PageSize(limit) else |all|;
            && page.items == all[start..end]
            && page.next == if end < |all| then Itoa(end) else ""
  {
    if start > 0 {
      ParseItoa(start);
      AfterSeq(all, start, 0);
    }
  }

  /** A page holds at most as many messages as asked for, 50 when the limit is out of range, and exactly that many
      when another follows. A cursor that is not decimal starts from the first message. */
  lemma {:induction false} PageHonoursLimit(all: seq<Message>, cursor: string, limit: int)
    ensures var page := ListPage(all, cursor, limit);
            var size := if 1 <= limit <= 200 then limit else 50;
            |page.items| <= size && (page.next != "" ==> |page.items| == size)
    ensures !AllDigits(cursor) ==> ListPage(all, cursor, limit) == ListPage(all, "", limit)
  {
  }

  /** A walk that follows the cursors while messages arrive: at every page, the pages so far are exactly the
      first messages of the conversation, each once and in order; and when no cursor is given, all of them. */
  lemma {:induction false} WalkIsExact(visits: seq<Visit>, n: nat)
    requires n < |visits| && OnlyAppended(visits)
    requires forall i :: 0 <= i < n ==> PageAt(visits, i).next != ""
    ensures |Pages(visits, n + 1)| <= |visits[n].all| && Pages(visits, n + 1) == visits[n].all[..|Pages(visits, n + 1)|]
    ensures PageAt(visits, n).next == if |Pages(visits, n + 1)| < |visits[n].all| then Itoa(|Pages(visits, n + 1)|)
            else ""
    ensures PageAt(visits, n).next == "" ==> Pages(visits, n + 1) == visits[n].all
    ensures PageAt(visits, n).next != "" ==> |Pages(visits, n)| < |Pages(visits, n + 1)|
  {
    hide ListPage, Numbered;
    var start := |Pages(visits, n)|;
    if n > 0 {
      WalkIsExact(visits, n - 1);
      assert visits[n - 1].all <= visits[n].all;
      assert Pages(visits, n) == visits[n].all[..start];
    }
    PageFrom(visits[n].all, CursorAt(visits, n), visits[n].limit, start);
    var end := if start + Paging.PageSize(visits[n].limit) < |visits[n].all|
        then start + Paging.PageSize(visits[n].limit) else |visits[n].all|;
    assert visits[n].all[..start] + visits[n].all[start..end] == visits[n].all[..end];
  }

  // ---- The repository ----

  class MemChatRepo {
    var conversations: map<string, Conversation>
    var messages: map<string, seq<Message>>
    var byClientId: map<ClientKey, Message>
    var byId: map<string, Message>
    var order: nat
    var msgSeq: nat

    ghost function State(): Log
      reads this
    {
      Log(conversations, messages, byClientId, byId, order, msgSeq)
    }

    constructor ()
      ensures State() == EMPTY_LOG && LogOK(State())
    {
      conversations, messages, byClientId, byId, order, msgSeq := map[], map[], map[], map[], 0, 0;
    }

    method InsertMessage(conversation: string, sender: string, clientMsgId: string, body: string, attachment: string,
                         now: int) returns (r: InsertResult)
      modifies this
      ensures (State(), r) == Insert(old(State()), conversation, sender, clientMsgId, body, attachment, now)
      ensures old(LogOK(State())) ==> LogOK(State())
    {
      if LogOK(State()) {
        InsertKeeps(State(), conversation, sender, clientMsgId, body, attachment, now);
      }
      var key := ClientKey(conversation, clientMsgId);
      if key in byClientId {
        return Inserted(byClientId[key], false);
      }
      if conversation !in conversations {
        return ConversationNotFound;
      }
      msgSeq := msgSeq + 1;
      order := order + 1;
      var all := if conversation in messages then messages[conversation] else [];
      var m := Message("msg-" + Itoa(msgSeq), conversation, sender, clientMsgId, body, attachment, |all| + 1, now);
      messages := messages[conversation := all + [m]];
      byClientId := byClientId[key := m];
      byId := byId[m.id := m];
      conversations := conversations[conversation := Conversation(m.createdAt, order)];
      r := Inserted(m, true);
    }

    method ListMessages(conversation: string, cursor: string, limit: int) returns (page: Page)
      ensures page == ListPage(MessagesOf(State(), conversation), cursor, limit)
    {
      hide ListPage;
      page := PageOf(if conversation in messages then messages[conversation] else [], cursor, limit);
    }
  }

  /** Taking one message more than the page shows whether another page follows. */
  lemma {:induction false} LookAhead(all: seq<Message>, start: nat, size: nat, out: seq<Message>)
    requires start <= |all| && size > 0 && out
             == all[start..if start + (size + 1) < |all| then start + (size + 1) else |all|]
    ensures |out| > size <==> start + size < |all|
    ensures if |out| > size then out[..size] == all[start..start + size] && out[size - 1] == all[start + size - 1]
            else out == all[start..]
  {
  }

  /** The search for the page after a cursor, and the look-ahead for whether another follows. */
  method PageOf(all: seq<Message>, cursor: string, limit: int) returns (page: Page)
    ensures page == ListPage(all, cursor, limit)
  {
    hide FirstAfter, ParseUint, Itoa;
    var size := limit;
    if size <= 0 || size > 200 {
      size := 50;
    }
    var start := 0;
    if cursor != "" {
      var n := ParseDecimal(cursor);
      if n.Some? {
        start := FindAfter(all, n.value);
      }
    }
    var out := Paging.TakeFrom(all, start, size + 1);
    LookAhead(all, start, size, out);
    if |out| > size {
      page := Page(out[..size], Itoa(out[size - 1].seqNo));
    } else {
      page := Page(out, "");
    }
  }

  method FindAfter(all: seq<Message>, n: nat) returns (start: nat)
    ensures start == FirstAfter(all, n, 0)
  {
    start := |all|;
    for i := 0 to |all|
      invariant start == |all|
      invariant FirstAfter(all, n, 0) == FirstAfter(all, n, i)
    {
      if all[i].seqNo > n {
        return i;
      }
    }
  }
}
