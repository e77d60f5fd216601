/** One topic of the event bus: a 500-slot ring against the full log, and what each subscriber is sent. */
module Bus {
  import opened Decimal

  const BACKFILL_LIMIT: nat := 500
  const CHANNEL_SIZE: nat := 64

  datatype Event = Event(msgId: string, kind: string, topic: string, seqNo: nat, ts: string, payload: string)

  const NO_EVENT: Event := Event("", "", "", 0, "", "")

  /** A subscriber's stream: the last seq it was told at subscription, and every event put into its channel. */
  datatype Stream = Stream(from: nat, sent: seq<Event>)

  /** The topic as an unbounded log. `buffers` holds what each channel still has to hand over. */
  datatype Topic = Topic(log: seq<Event>, subs: set<nat>, buffers: map<nat, seq<Event>>, streams: map<nat, Stream>,
                         next: nat)

  const NEW_TOPIC: Topic := Topic([], {}, map[], map[], 0)

  predicate HasRoom(t: Topic, id: nat) {
    id in t.subs && id in t.buffers && |t.buffers[id]| < CHANNEL_SIZE
  }

  function BufferAfter(t: Topic, id: nat, ev: Event): seq<Event>
    requires id in t.buffers
  {
    if HasRoom(t, id) then t.buffers[id] + [ev] else t.buffers[id]
  }

  function StreamAfter(t: Topic, id: nat, ev: Event): Stream
    requires id in t.streams
  {
    if HasRoom(t, id) then t.streams[id].(sent := t.streams[id].sent + [ev]) else t.streams[id]
  }

  /** Sends never block: a full channel drops the event for that subscriber. */
  function Fan(t: Topic, ev: Event): Topic {
    t.(buffers := map id | id in t.buffers :: BufferAfter(t, id, ev),
       streams := map id | id in t.streams :: StreamAfter(t, id, ev))
  }

  function Publish(t: Topic, ev: Event): Topic {
    Fan(t, ev).(log := t.log + [ev])
  }

  function Subscribe(t: Topic): Topic {
    t.(subs := t.subs + {t.next}, buffers := t.buffers[t.next := []],
       streams := t.streams[t.next := Stream(|t.log|, [])], next := t.next + 1)
  }

  function Receive(t: Topic, id: nat): Topic {
    if id in t.buffers && t.buffers[id] != [] then t.(buffers := t.buffers[id := t.buffers[id][1..]]) else t
  }

  /** What a backfill from a seq owes its caller: everything after it, or a refusal if that is too much. */
  function BackfillOf(log: seq<Event>, from: nat): Option<seq<Event>> {
    if from >= |log| then Some([])
    else if |log| - from > BACKFILL_LIMIT then None
    else Some(log[from..])
  }

  // ---- Streams ----

  predicate Numbered(log: seq<Event>) {
    forall i :: 0 <= i < |log| ==> log[i].seqNo == i + 1
  }

  /** Everything sent is from the log, after the subscription, in strictly rising order. */
  predicate StreamOK(log: seq<Event>, s: Stream) {
    && s.from <= |log|
    && (forall i :: 0 <= i < |s.sent| ==> s.from < s.sent[i].seqNo <= |log| && s.sent[i] == log[s.sent[i].seqNo - 1])
    && (forall i, j :: 0 <= i < j < |s.sent| ==> s.sent[i].seqNo < s.sent[j].seqNo)
  }

  /** A channel holds the tail of what was sent that its subscriber has not yet taken. */
  predicate ChannelOK(s: Stream, buffer: seq<Event>) {
    |buffer| <= CHANNEL_SIZE && |buffer| <= |s.sent| && s.sent[|s.sent| - |buffer|..] == buffer
  }

  ghost predicate TopicOK(t: Topic) {
    && Numbered(t.log)
    && t.subs <= t.buffers.Keys && t.buffers.Keys == t.streams.Keys
    && (forall id :: id in t.buffers ==> id < t.next && StreamOK(t.log, t.streams[id])
                                         && ChannelOK(t.streams[id], t.buffers[id]))
  }

  lemma {:induction false} StreamGrows(log: seq<Event>, ev: Event, s: Stream)
    requires Numbered(log) && StreamOK(log, s) && ev.seqNo == |log| + 1
    ensures StreamOK(log + [ev], s) && StreamOK(log + [ev], s.(sent := s.sent + [ev]))
  {
  }

  lemma {:induction false} ChannelGrows(s: Stream, buffer: seq<Event>, ev: Event)
    requires ChannelOK(s, buffer) && |buffer| < CHANNEL_SIZE
    ensures ChannelOK(s.(sent := s.sent + [ev]), buffer + [ev])
  {
    assert (s.sent + [ev])[|s.sent| - |buffer|..] == s.sent[|s.sent| - |buffer|..] + [ev];
  }

  lemma {:induction false} ChannelTaken(s: Stream, buffer: seq<Event>)
    requires ChannelOK(s, buffer) && buffer != []
    ensures ChannelOK(s, buffer[1..])
  {
    assert s.sent[|s.sent| - |buffer| + 1..] == s.sent[|s.sent| - |buffer|..][1..];
  }

  lemma {:induction false} PublishKeeps(t: Topic, ev: Event)
    requires TopicOK(t) && ev.seqNo == |t.log| + 1
    ensures TopicOK(Publish(t, ev))
  {
    hide StreamOK, ChannelOK;
    var t' := Publish(t, ev);
    forall id | id in t'.buffers
      ensures StreamOK(t'.log, t'.streams[id]) && ChannelOK(t'.streams[id], t'.buffers[id])
    {
      StreamGrows(t.log, ev, t.streams[id]);
      if HasRoom(t, id) {
        ChannelGrows(t.streams[id], t.buffers[id], ev);
      }
    }
  }

  datatype TopicOp = PublishOp(msgId: string, kind: string, topic: string, ts: string, payload: string)
                   | SubscribeOp | UnsubscribeOp(id: nat) | ReceiveOp(id: nat)

  function NextEvent(t: Topic, op: TopicOp): Event
    requires op.PublishOp?
  {
    Event(op.msgId, op.kind, op.topic, |t.log| + 1, op.ts, op.payload)
  }

  function Step(t: Topic, op: TopicOp): Topic {
    match op
    case PublishOp(_, _, _, _, _) => Publish(t, NextEvent(t, op))
    case SubscribeOp => Subscribe(t)
    case UnsubscribeOp(id) => t.(subs := t.subs - {id})
    case ReceiveOp(id) => Receive(t, id)
  }

  lemma {:induction false} ReceiveKeeps(t: Topic, id: nat)
    requires TopicOK(t)
    ensures TopicOK(Receive(t, id))
  {
    hide StreamOK, ChannelOK;
    if id in t.buffers && t.buffers[id] != [] {
      ChannelTaken(t.streams[id], t.buffers[id]);
    }
  }

  lemma {:induction false} SubscribeKeeps(t: Topic)
    requires TopicOK(t)
    ensures TopicOK(Subscribe(t))
  {
    hide StreamOK, ChannelOK;
    NewStreamOK(t.log);
  }

  lemma {:induction false} NewStreamOK(log: seq<Event>)
    ensures StreamOK(log, Stream(|log|, [])) && ChannelOK(Stream(|log|, []), [])
  {
  }

  lemma {:induction false} StepKeeps(t: Topic, op: TopicOp)
    requires TopicOK(t)
    ensures TopicOK(Step(t, op))
  {
    hide StreamOK, ChannelOK, Publish, Subscribe, Receive;
    match op
    case PublishOp(_, _, _, _, _) => PublishKeeps(t, NextEvent(t, op));
    case SubscribeOp => SubscribeKeeps(t);
    case UnsubscribeOp(_) =>
    case ReceiveOp(id) => ReceiveKeeps(t, id);
  }

  function RunFrom(t: Topic, ops: seq<TopicOp>): Topic {
    if ops == [] then t else Step(RunFrom(t, ops[..|ops| - 1]), ops[|ops| - 1])
  }

  function RunTopic(ops: seq<TopicOp>): Topic {
    RunFrom(NEW_TOPIC, ops)
  }

  /** In every run of publishes, subscriptions, departures and receives, whatever is dropped: every event sent to
      a subscriber is the log's own, later than the seq it was told at subscription, and later than every event
      sent to it before. */
  lemma {:induction false} StreamsAreOrdered(ops: seq<TopicOp>)
    ensures TopicOK(RunTopic(ops))
    ensures forall id :: id in RunTopic(ops).streams ==> StreamOK(RunTopic(ops).log, RunTopic(ops).streams[id])
  {
    hide Step;
    if ops != [] {
      StreamsAreOrdered(ops[..|ops| - 1]);
      StepKeeps(RunTopic(ops[..|ops| - 1]), ops[|ops| - 1]);
    }
  }

  /** A subscriber that has left is sent nothing more, whatever happens on the topic afterwards: its ID is never
      given out again. */
  lemma {:induction false} UnsubscribedGetsNothing(t: Topic, id: nat, ops: seq<TopicOp>)
    requires TopicOK(t) && id in t.streams
    ensures var left := RunFrom(Step(t, UnsubscribeOp(id)), ops);
            TopicOK(left) && id in left.streams && left.streams[id] == t.streams[id] && id !in left.subs
  {
    hide StreamOK, ChannelOK, Numbered;
    var gone := Step(t, UnsubscribeOp(id));
    if ops != [] {
      UnsubscribedGetsNothing(t, id, ops[..|ops| - 1]);
      StepKeeps(RunFrom(gone, ops[..|ops| - 1]), ops[|ops| - 1]);
    }
  }

  lemma {:induction false} GapFreePrefix(log: seq<Event>, s: Stream, g: nat)
    requires Numbered(log) && StreamOK(log, s) && g <= |s.sent|
    requires g == 0 || s.sent[g - 1].seqNo == s.from + g
    ensures s.from + g <= |log| && s.sent[..g] == log[s.from..s.from + g]
  {
    if g > 0 {
      if g > 1 {
        RisesByOne(log, s, g - 1);
      }
      GapFreePrefix(log, s, g - 1);
      assert s.sent[..g] == s.sent[..g - 1] + [s.sent[g - 1]];
      assert log[s.from..s.from + g] == log[s.from..s.from + (g - 1)] + [log[s.from + g - 1]];
    }
  }

  /** Strictly rising from above `from`, the k-th event is at least from + k. */
  lemma {:induction false} RisesByOne(log: seq<Event>, s: Stream, k: nat)
    requires StreamOK(log, s) && 0 < k <= |s.sent|
    ensures s.sent[k - 1].seqNo >= s.from + k
  {
    if k > 1 {
      RisesByOne(log, s, k - 1);
      assert s.sent[k - 2].seqNo < s.sent[k - 1].seqNo;
    }
  }

  /** A subscriber that received its first g events without a gap holds exactly the log after its subscription up
      to there; with the backfill it holds all of it, exactly when at most 500 events are missing. */
  lemma {:induction false} ClientRecovers(log: seq<Event>, s: Stream, g: nat)
    requires Numbered(log) && StreamOK(log, s) && g <= |s.sent|
    requires g == 0 || s.sent[g - 1].seqNo == s.from + g
    ensures var missing := |log| - (s.from + g);
            var backfill := BackfillOf(log, s.from + g);
            && missing >= 0
            && (backfill.Some? <==> missing <= 500)
            && (backfill.Some? ==> s.sent[..g] + backfill.value == log[s.from..])
  {
    GapFreePrefix(log, s, g);
    var at := s.from + g;
    assert log[s.from..] == log[s.from..at] + log[at..];
    if at == |log| {
      assert log[at..] == [];
    }
  }

  // ---- What each operation does ----

  /** A publish appends the next event to the log, to every subscriber's channel with fewer than 64 events waiting
      and to what that subscriber was sent, and changes nothing else. */
  lemma {:induction false} PublishExactly(t: Topic, msgId: string, kind: string, topic: string, ts: string,
                                          payload: string)
    requires TopicOK(t)
    ensures var t' := Step(t, PublishOp(msgId, kind, topic, ts, payload));
            var ev := Event(msgId, kind, topic, |t.log| + 1, ts, payload);
            && t'.log == t.log + [ev] && t'.subs == t.subs && t'.next == t.next
            && t'.buffers.Keys == t.buffers.Keys && t'.streams.Keys == t.streams.Keys
            && (forall id :: id in t.subs ==> id in t.buffers && id in t.streams)
            && (forall id :: id in t.subs && |t.buffers[id]| < 64
                  ==> && t'.buffers[id] == t.buffers[id] + [ev]
                      && t'.streams[id] == Stream(t.streams[id].from, t.streams[id].sent + [ev]))
            && (forall id :: id in t.buffers && (id in t.subs ==> |t.buffers[id]| >= 64)
                  ==> t'.buffers[id] == t.buffers[id] && t'.streams[id] == t.streams[id])
  {
    hide StreamOK, ChannelOK, Numbered;
  }

  /** A new subscriber gets an ID nobody had, an empty channel and the seq of the last event so far; one that leaves
      is struck off. Either changes nothing else. */
  lemma {:induction false} SubscriptionExactly(t: Topic, id: nat)
    requires TopicOK(t)
    ensures var t' := Step(t, SubscribeOp);
            && t.next !in t.buffers && t.next !in t.subs && t'.next == t.next + 1
            && t'.subs == t.subs + {t.next} && t'.log == t.log
            && t'.buffers == t.buffers[t.next := []]
            && t'.streams == t.streams[t.next := Stream(|t.log|, [])]
    ensures var t' := Step(t, UnsubscribeOp(id));
            && (forall other :: other in t'.subs <==> other in t.subs && other != id)
            && t'.log == t.log && t'.buffers == t.buffers && t'.streams == t.streams && t'.next == t.next
  {
    hide StreamOK, ChannelOK, Numbered;
  }

  /** The events a subscriber has taken out of its channel. */
  function Taken(t: Topic, id: nat): seq<Event>
    requires id in t.streams && id in t.buffers && |t.buffers[id]| <= |t.streams[id].sent|
  {
    t.streams[id].sent[..|t.streams[id].sent| - |t.buffers[id]|]
  }

  /** A receive hands over the event that has waited longest, and nothing when none waits. */
  lemma {:induction false} ReceiveExactly(t: Topic, id: nat)
    requires TopicOK(t) && id in t.streams
    ensures var t' := Step(t, ReceiveOp(id));
            && id in t.buffers && id in t'.buffers && t'.streams == t.streams
            && |t.buffers[id]| <= |t.streams[id].sent| && |t'.buffers[id]| <= |t'.streams[id].sent|
            && t'.log == t.log && t'.subs == t.subs && t'.next == t.next
            && (t.buffers[id] == [] ==> t'.buffers == t.buffers)
            && (t.buffers[id] != [] ==> && Taken(t', id) == Taken(t, id) + [t.buffers[id][0]]
                                        && t.buffers[id] == [t.buffers[id][0]] + t'.buffers[id])
            && (forall other :: other in t.buffers && other != id ==> other in t'.buffers
                                                                      && t'.buffers[other] == t.buffers[other])
  {
    hide StreamOK, Numbered;
    assert ChannelOK(t.streams[id], t.buffers[id]);
    var sent, buffer := t.streams[id].sent, t.buffers[id];
    if buffer != [] {
      assert sent[|sent| - |buffer|] == buffer[0];
      assert sent[..|sent| - |buffer| + 1] == sent[..|sent| - |buffer|] + [buffer[0]];
    }
  }

  /** No publish of the run found 64 events waiting in the subscriber's channel. */
  ghost predicate NeverFull(ops: seq<TopicOp>, id: nat) {
    forall i :: 0 <= i < |ops| && ops[i].PublishOp? ==> !FullFor(RunTopic(ops[..i]), id)
  }

  predicate FullFor(t: Topic, id: nat) {
    id in t.buffers && |t.buffers[id]| >= 64
  }

  lemma {:induction false} NeverFullStep(ops: seq<TopicOp>, id: nat)
    requires ops != []
    ensures var last := |ops| - 1;
            NeverFull(ops, id)
            <==> NeverFull(ops[..last], id) && !(ops[last].PublishOp? && FullFor(RunTopic(ops[..last]), id))
  {
    hide RunFrom, RunTopic, FullFor;
    var last := |ops| - 1;
    assert forall i :: 0 <= i < last ==> ops[..last][..i] == ops[..i] && ops[..last][i] == ops[i];
    if NeverFull(ops, id) && ops[last].PublishOp? {
      assert !FullFor(RunTopic(ops[..last]), id);
    }
  }

  lemma {:induction false} FullNever(ops: seq<TopicOp>, id: nat)
    requires id !in RunTopic(ops).buffers
    ensures NeverFull(ops, id)
  {
    hide TopicOK;
    if ops != [] {
      var before := RunTopic(ops[..|ops| - 1]);
      assert RunTopic(ops) == Step(before, ops[|ops| - 1]);
      assert before.buffers.Keys <= Step(before, ops[|ops| - 1]).buffers.Keys;
      FullNever(ops[..|ops| - 1], id);
      NeverFullStep(ops, id);
    }
  }

  lemma {:induction false} SentFits(log: seq<Event>, s: Stream)
    requires Numbered(log) && StreamOK(log, s)
    ensures s.from + |s.sent| <= |log|
  {
    if s.sent != [] { RisesByOne(log, s, |s.sent|); }
  }

  /** A subscriber that has not left has been sent the whole log since its subscription exactly when no publish
      ever found 64 events waiting in its channel. */
  lemma {:induction false} CompleteExactly(ops: seq<TopicOp>, id: nat)
    requires id in RunTopic(ops).subs
    ensures var t := RunTopic(ops);
            && id in t.streams && t.streams[id].from <= |t.log|
            && (t.streams[id].sent == t.log[t.streams[id].from..] <==> NeverFull(ops, id))
  {
    hide StreamOK, ChannelOK, Numbered, NeverFull, Step;
    StreamsAreOrdered(ops);
    var t, last := RunTopic(ops), |ops| - 1;
    assert id in t.streams && t.streams[id].from <= |t.log| by { SentFits(t.log, t.streams[id]); }
    var before, op := RunTopic(ops[..last]), ops[last];
    StreamsAreOrdered(ops[..last]);
    assert t == Step(before, op);
    NeverFullStep(ops, id);
    if id !in before.subs {
      SubscribedNow(before, op, id);
      FullNever(ops[..last], id);
    } else {
      CompleteExactly(ops[..last], id);
      SentFits(before.log, before.streams[id]);
      CompleteStep(before, op, id);
    }
  }

  lemma {:induction false} SubscribedNow(t: Topic, op: TopicOp, id: nat)
    requires TopicOK(t) && id !in t.subs && id in Step(t, op).subs
    ensures op.SubscribeOp? && id !in t.buffers && Step(t, op).log == t.log
    ensures Step(t, op).streams[id] == Stream(|t.log|, [])
  {
    hide StreamOK, ChannelOK, Numbered;
  }

  lemma {:induction false} CompleteStep(t: Topic, op: TopicOp, id: nat)
    requires TopicOK(t) && id in t.subs && id in Step(t, op).subs && TopicOK(Step(t, op))
    requires t.streams[id].from + |t.streams[id].sent| <= |t.log|
    ensures var t' := Step(t, op);
            && t'.streams[id].from == t.streams[id].from && |t.log| <= |t'.log|
            && (t'.streams[id].sent == t'.log[t.streams[id].from..]
                <==> && t.streams[id].sent == t.log[t.streams[id].from..]
                     && !(op.PublishOp? && FullFor(t, id)))
  {
    hide StreamOK, ChannelOK, Numbered;
    var from, sent := t.streams[id].from, t.streams[id].sent;
    if op.PublishOp? {
      PublishExactly(t, op.msgId, op.kind, op.topic, op.ts, op.payload);
      var ev := NextEvent(t, op);
      assert (t.log + [ev])[from..] == t.log[from..] + [ev];
      if !FullFor(t, id) && sent + [ev] == t.log[from..] + [ev] {
        assert (sent + [ev])[..|sent|] == sent && (t.log[from..] + [ev])[..|sent|] == t.log[from..];
      }
    }
  }

  // ---- The ring ----

  /** The last 500 events of the log, each in the slot of its seq. */
  predicate RingHolds(ring: seq<Event>, log: seq<Event>) {
    |ring| == BACKFILL_LIMIT && forall i :: 0 <= i < |log| && |log| - i <= BACKFILL_LIMIT
                                  ==> ring[(i + 1) % BACKFILL_LIMIT] == log[i]
  }

  lemma {:induction false} SlotsDiffer(a: nat, b: nat)
    requires a < b < a + BACKFILL_LIMIT
    ensures a % BACKFILL_LIMIT != b % BACKFILL_LIMIT
  {
  }

  lemma {:induction false} RingPublish(ring: seq<Event>, log: seq<Event>, ev: Event)
    requires RingHolds(ring, log) && ev.seqNo == |log| + 1
    ensures RingHolds(ring[ev.seqNo % BACKFILL_LIMIT := ev], log + [ev])
  {
    var ring', log' := ring[ev.seqNo % BACKFILL_LIMIT := ev], log + [ev];
    forall i | 0 <= i < |log'| && |log'| - i <= BACKFILL_LIMIT
      ensures ring'[(i + 1) % BACKFILL_LIMIT] == log'[i]
    {
      if i < |log| { SlotsDiffer(i + 1, ev.seqNo); }
    }
  }

  lemma {:induction false} TopicKeys(t: Topic)
    requires TopicOK(t)
    ensures t.subs <= t.buffers.Keys == t.streams.Keys
  {
  }

  class TopicState {
    var seqNo: nat
    const ring: array<Event>
    var subs: set<nat>
    var buffers: map<nat, seq<Event>>
    var next: nat
    ghost var log: seq<Event>
    ghost var streams: map<nat, Stream>

    ghost function State(): Topic
      reads this
    {
      Topic(log, subs, buffers, streams, next)
    }

    ghost predicate Valid()
      reads this, ring
    {
      TopicOK(State()) && seqNo == |log| && ring.Length == BACKFILL_LIMIT && RingHolds(ring[..], log)
    }

    constructor ()
      ensures Valid() && fresh(ring) && State() == NEW_TOPIC
    {
      seqNo, subs, buffers, next := 0, {}, map[], 0;
      ring := new Event[BACKFILL_LIMIT](_ => NO_EVENT);
      log, streams := [], map[];
    }

    /** Number the event, keep it for backfill, and offer it to every subscriber in whatever order. */
    method Publish(msgId: string, kind: string, topic: string, ts: string, payload: string) returns (ev: Event)
      requires Valid()
      modifies this, ring
      ensures Valid()
      ensures ev == NextEvent(old(State()), PublishOp(msgId, kind, topic, ts, payload))
      ensures State() == Step(old(State()), PublishOp(msgId, kind, topic, ts, payload))
    {
      hide TopicOK, RingHolds, Fan;
      ghost var before := State();
      TopicKeys(before);
      seqNo := seqNo + 1;
      ev := Event(msgId, kind, topic, seqNo, ts, payload);
      RingPublish(ring[..], log, ev);
      ring[ev.seqNo % BACKFILL_LIMIT] := ev;
      PublishKeeps(before, ev);
      FanOut(ev);
      log := log + [ev];
    }

    /** The non-blocking sends. */
    method FanOut(ev: Event)
      requires subs <= buffers.Keys == streams.Keys
      modifies this`buffers, this`streams
      ensures State() == Fan(old(State()), ev)
    {
      ghost var t := State();
      buffers, streams := Offer(t, subs, buffers, ev);
    }

    method Subscribe() returns (id: nat, lastSeq: nat)
      requires Valid()
      modifies this
      ensures Valid() && State() == Step(old(State()), SubscribeOp)
      ensures id == old(next) && lastSeq == |log| == streams[id].from
    {
      hide TopicOK, RingHolds;
      SubscribeKeeps(State());
      id := next;
      next := next + 1;
      subs := subs + {id};
      buffers := buffers[id := []];
      lastSeq := seqNo;
      streams := streams[id := Stream(|log|, [])];
    }

    method Unsubscribe(id: nat)
      requires Valid()
      modifies this`subs
      ensures Valid() && State() == Step(old(State()), UnsubscribeOp(id))
    {
      subs := subs - {id};
    }

    /** Exactly the log's events after `fromSeq`, or a refusal when they are more than 500. No slot ever holds
        anything but the event looked for. */
    method Backfill(fromSeq: nat) returns (events: seq<Event>, ok: bool)
      requires Valid()
      ensures ok == BackfillOf(log, fromSeq).Some?
      ensures events == if ok then BackfillOf(log, fromSeq).value else []
    {
      if fromSeq >= seqNo {
        return [], true;
      }
      if seqNo - fromSeq > BACKFILL_LIMIT {
        return [], false;
      }
      events := [];
      var s := fromSeq + 1;
      while s <= seqNo
        invariant fromSeq < s <= seqNo + 1
        invariant events == log[fromSeq..s - 1]
      {
        var ev := ring[s % BACKFILL_LIMIT];
        assert ring[..][(s - 1 + 1) % BACKFILL_LIMIT] == log[s - 1];
        if ev.seqNo != s {
          return [], false;
        }
        events := events + [ev];
        s := s + 1;
      }
      ok := true;
    }
  }

  /** Offer the event to each subscriber's channel, in whatever order the map of them is walked. */
  method Offer(ghost t: Topic, subs: set<nat>, channels: map<nat, seq<Event>>, ev: Event)
      returns (buffers: map<nat, seq<Event>>, ghost streams: map<nat, Stream>)
    requires subs == t.subs && channels == t.buffers && t.subs <= t.buffers.Keys == t.streams.Keys
    ensures buffers == Fan(t, ev).buffers && streams == Fan(t, ev).streams
  {
    buffers := channels;
    streams := t.streams;
    var todo := subs;
    while todo != {}
      invariant todo <= subs && buffers.Keys == streams.Keys == t.buffers.Keys
      invariant forall id :: id in buffers ==> buffers[id]
                                               == if id in todo then t.buffers[id] else BufferAfter(t, id, ev)
      invariant forall id :: id in streams ==> streams[id]
                                               == if id in todo then t.streams[id] else StreamAfter(t, id, ev)
      decreases todo
    {
      var id :| id in todo;
      todo := todo - {id};
      if |buffers[id]| < CHANNEL_SIZE {
        buffers := buffers[id := buffers[id] + [ev]];
        streams := streams[id := streams[id].(sent := streams[id].sent + [ev])];
      }
    }
  }
}
