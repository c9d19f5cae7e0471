/** The Redis backend with one client is indistinguishable from the in-memory backend. */
module QueueRefinement {
  import opened Collections
  import opened MessageQueue

  function DecodeAll(raws: seq<Raw>): seq<Message> {
    seq(|raws|, i requires 0 <= i < |raws| => Decode(raws[i]))
  }

  /** Same waiting messages, same dead letters (error text aside), same messages in flight. */
  ghost predicate Refines(r: Redis, m: Memory) {
    && (forall q :: DecodeAll(Entries(r.lists, Main(q))) == GetOr(m.queues, q, []))
    && (forall q :: DecodeAll(Entries(r.lists, Dlq(q))) == GetOr(m.deadLetters, q, []))
    && r.inflight.Keys == m.inflight.Keys
    && (forall id :: id in r.inflight ==> m.inflight[id] == Delivered(Decode(r.inflight[id])))
  }

  /** The waiting messages of every queue. */
  ghost function Mains(lists: Lists): map<string, seq<Message>> {
    map key | key in lists && key.Main? :: key.queue := DecodeAll(lists[key])
  }

  /** The dead letters of every queue. */
  ghost function Dlqs(lists: Lists): map<string, seq<Message>> {
    map key | key in lists && key.Dlq? :: key.queue := DecodeAll(lists[key])
  }

  lemma MainsAt(lists: Lists, q: string)
    ensures DecodeAll(Entries(lists, Main(q))) == GetOr(Mains(lists), q, [])
  {
    if Main(q) in lists {
      assert q in Mains(lists);
    }
  }

  lemma DlqsAt(lists: Lists, q: string)
    ensures DecodeAll(Entries(lists, Dlq(q))) == GetOr(Dlqs(lists), q, [])
  {
    if Dlq(q) in lists {
      assert q in Dlqs(lists);
    }
  }

  /** The in-memory state that a server and its client stand for. */
  ghost function Twin(r: Redis): Memory {
    Memory(Mains(r.lists), map id | id in r.inflight :: Delivered(Decode(r.inflight[id])), Dlqs(r.lists))
  }

  lemma TwinRefines(r: Redis)
    ensures Refines(r, Twin(r))
  {
    hide Mains, Dlqs, DecodeAll;
    forall q ensures DecodeAll(Entries(r.lists, Main(q))) == GetOr(Twin(r).queues, q, []) {
      MainsAt(r.lists, q);
    }
    forall q ensures DecodeAll(Entries(r.lists, Dlq(q))) == GetOr(Twin(r).deadLetters, q, []) {
      DlqsAt(r.lists, q);
    }
  }

  function RedisRun(s: Redis, ops: seq<Op>): (Redis, seq<Reply>)
    decreases |ops|
  {
    if ops == [] then (s, []) else
    var (t, reply) := RedisStep(s, ops[0]);
    var (u, replies) := RedisRun(t, ops[1..]);
    (u, [reply] + replies)
  }

  function MemoryRun(s: Memory, ops: seq<Op>): (Memory, seq<Reply>)
    decreases |ops|
  {
    if ops == [] then (s, []) else
    var (t, reply) := MemoryStep(s, ops[0]);
    var (u, replies) := MemoryRun(t, ops[1..]);
    (u, [reply] + replies)
  }

  lemma DecodePush(raws: seq<Raw>, raw: Raw)
    ensures DecodeAll(raws + [raw]) == DecodeAll(raws) + [Decode(raw)]
  {
  }

  lemma PublishRefines(r: Redis, m: Memory, msg: Message)
    requires Refines(r, m)
    ensures Refines(r.(lists := RPush(r.lists, Main(msg.queue), Encode(msg))),
                    m.(queues := Append(m.queues, msg.queue, msg)))
  {
    DecodePush(Entries(r.lists, Main(msg.queue)), Encode(msg));
  }

  lemma ReserveRefines(r: Redis, m: Memory, q: string)
    requires Refines(r, m)
    ensures Refines(RedisStep(r, Reserve(q)).0, MemoryStep(m, Reserve(q)).0)
    ensures RedisStep(r, Reserve(q)).1 == MemoryStep(m, Reserve(q)).1
  {
    var raws := Entries(r.lists, Main(q));
    assert DecodeAll(raws) == GetOr(m.queues, q, []);
    if raws != [] {
      assert DecodeAll(raws)[0] == Decode(raws[0]);
      assert DecodeAll(raws[1..]) == DecodeAll(raws)[1..];
    }
  }

  lemma SettleRefines(r: Redis, m: Memory, msg: Message)
    requires Refines(r, m)
    ensures Refines(Settled(r, msg), m.(inflight := m.inflight - {msg.id}))
  {
    var lists := Settled(r, msg).lists;
    assert forall q :: Entries(lists, Main(q)) == Entries(r.lists, Main(q));
    assert forall q :: Entries(lists, Dlq(q)) == Entries(r.lists, Dlq(q));
  }

  lemma BuryRefines(r: Redis, m: Memory, msg: Message, error: string)
    requires Refines(r, m)
    ensures Refines(r.(lists := RPush(r.lists, Dlq(msg.queue), Raw(msg, Some(error)))),
                    m.(deadLetters := Append(m.deadLetters, msg.queue, msg)))
  {
    DecodePush(Entries(r.lists, Dlq(msg.queue)), Raw(msg, Some(error)));
  }

  lemma RequeueRefines(r: Redis, m: Memory, msg: Message)
    requires Refines(r, m)
    ensures Refines(RedisStep(r, Requeue(msg)).0, MemoryStep(m, Requeue(msg)).0)
  {
    SettleRefines(r, m, msg);
    PublishRefines(Settled(r, msg), m.(inflight := m.inflight - {msg.id}), msg);
  }

  lemma DeadLetterRefines(r: Redis, m: Memory, msg: Message, error: string)
    requires Refines(r, m)
    ensures Refines(RedisStep(r, DeadLetter(msg, error)).0, MemoryStep(m, DeadLetter(msg, error)).0)
  {
    SettleRefines(r, m, msg);
    BuryRefines(Settled(r, msg), m.(inflight := m.inflight - {msg.id}), msg, error);
  }

  lemma SizeRefines(r: Redis, m: Memory, q: string)
    requires Refines(r, m)
    ensures RedisStep(r, Size(q)).1 == MemoryStep(m, Size(q)).1
  {
    assert DecodeAll(Entries(r.lists, Main(q))) == GetOr(m.queues, q, []);
  }

  lemma StepRefines(r: Redis, m: Memory, op: Op)
    requires Refines(r, m)
    ensures Refines(RedisStep(r, op).0, MemoryStep(m, op).0)
    ensures RedisStep(r, op).1 == MemoryStep(m, op).1
  {
    match op
    case Publish(q, id, payload) =>
      PublishRefines(r, m, Message(id, q, payload, 0));
    case Reserve(q) =>
      ReserveRefines(r, m, q);
    case Ack(msg) =>
      SettleRefines(r, m, msg);
    case Requeue(msg) =>
      RequeueRefines(r, m, msg);
    case DeadLetter(msg, error) =>
      DeadLetterRefines(r, m, msg, error);
    case Size(q) =>
      SizeRefines(r, m, q);
  }

  /** Over every operation sequence, whatever messages it settles, both backends give the same replies. */
  lemma {:induction false} RunRefines(r: Redis, m: Memory, ops: seq<Op>)
    requires Refines(r, m)
    ensures Refines(RedisRun(r, ops).0, MemoryRun(m, ops).0)
    ensures RedisRun(r, ops).1 == MemoryRun(m, ops).1
    decreases |ops|
  {
    if ops != [] {
      StepRefines(r, m, ops[0]);
      RunRefines(RedisStep(r, ops[0]).0, MemoryStep(m, ops[0]).0, ops[1..]);
    }
  }
}
