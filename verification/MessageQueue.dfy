/**
 The message-queue port on values: what one operation does to each backend's state.

 The in-memory backend keeps decoded messages.  The Redis backend keeps raw list entries; a
 client additionally remembers the exact entry it moved to the processing list.  JSON text is
 represented by the value it encodes, so two entries are the same bytes exactly when they are
 equal values.
 */
module MessageQueue {
  import opened Collections
  import opened Messages

  datatype Message = Message(id: string, queue: string, payload: Payload, attempts: nat)

  /** One list entry as stored by Redis; `error` is present only on dead-letter entries. */
  datatype Raw = Raw(message: Message, error: Option<string>)

  /** The three Redis lists that belong to a logical queue. */
  datatype Key = Main(queue: string) | Processing(queue: string) | Dlq(queue: string)

  type Lists = map<Key, seq<Raw>>

  function Encode(m: Message): Raw {
    Raw(m, None)
  }

  function Decode(raw: Raw): Message {
    raw.message
  }

  function Delivered(m: Message): Message {
    m.(attempts := m.attempts + 1)
  }

  function Entries(lists: Lists, key: Key): seq<Raw> {
    GetOr(lists, key, [])
  }

  // The Redis commands the client issues.

  function RPush(lists: Lists, key: Key, raw: Raw): Lists {
    lists[key := Entries(lists, key) + [raw]]
  }

  function LRem(lists: Lists, key: Key, raw: Raw): Lists {
    lists[key := RemoveFirst(Entries(lists, key), raw)]
  }

  /** `LMOVE source destination LEFT RIGHT`; the caller has seen that `source` is not empty. */
  function LMove(lists: Lists, source: Key, destination: Key): Lists
    requires Entries(lists, source) != []
  {
    RPush(lists[source := Entries(lists, source)[1..]], destination, Entries(lists, source)[0])
  }

  // Operations and replies common to both backends.

  datatype Op =
    | Publish(queue: string, id: string, payload: Payload)
    | Reserve(queue: string)
    | Ack(message: Message)
    | Requeue(message: Message)
    | DeadLetter(message: Message, error: string)
    | Size(queue: string)

  datatype Reply = Done | Published(id: string) | Received(message: Option<Message>) | Waiting(count: nat)

  datatype Redis = Redis(lists: Lists, inflight: map<string, Raw>)

  /** The bytes a client removes from the processing list when it settles `m`. */
  function SettledRaw(inflight: map<string, Raw>, m: Message): Raw {
    GetOr(inflight, m.id, Encode(m))
  }

  function Settled(s: Redis, m: Message): Redis {
    Redis(LRem(s.lists, Processing(m.queue), SettledRaw(s.inflight, m)), s.inflight - {m.id})
  }

  function RedisStep(s: Redis, op: Op): (Redis, Reply) {
    match op
    case Publish(q, id, payload) =>
      (s.(lists := RPush(s.lists, Main(q), Encode(Message(id, q, payload, 0)))), Published(id))
    case Reserve(q) =>
      if Entries(s.lists, Main(q)) == [] then (s, Received(None)) else
      var raw := Entries(s.lists, Main(q))[0];
      var m := Delivered(Decode(raw));
      (Redis(LMove(s.lists, Main(q), Processing(q)), s.inflight[m.id := raw]), Received(Some(m)))
    case Ack(m) =>
      (Settled(s, m), Done)
    case Requeue(m) =>
      var t := Settled(s, m);
      (t.(lists := RPush(t.lists, Main(m.queue), Encode(m))), Done)
    case DeadLetter(m, error) =>
      var t := Settled(s, m);
      (t.(lists := RPush(t.lists, Dlq(m.queue), Raw(m, Some(error)))), Done)
    case Size(q) =>
      (s, Waiting(|Entries(s.lists, Main(q))|))
  }

  datatype Memory = Memory(
    queues: map<string, seq<Message>>,
    inflight: map<string, Message>,
    deadLetters: map<string, seq<Message>>)

  function Append(queues: map<string, seq<Message>>, q: string, m: Message): map<string, seq<Message>> {
    queues[q := GetOr(queues, q, []) + [m]]
  }

  function MemoryStep(s: Memory, op: Op): (Memory, Reply) {
    match op
    case Publish(q, id, payload) =>
      (s.(queues := Append(s.queues, q, Message(id, q, payload, 0))), Published(id))
    case Reserve(q) =>
      var waiting := GetOr(s.queues, q, []);
      if waiting == [] then (s, Received(None)) else
      var m := Delivered(waiting[0]);
      (s.(queues := s.queues[q := waiting[1..]], inflight := s.inflight[m.id := m]), Received(Some(m)))
    case Ack(m) =>
      (s.(inflight := s.inflight - {m.id}), Done)
    case Requeue(m) =>
      (s.(inflight := s.inflight - {m.id}, queues := Append(s.queues, m.queue, m)), Done)
    case DeadLetter(m, error) =>
      (s.(inflight := s.inflight - {m.id}, deadLetters := Append(s.deadLetters, m.queue, m)), Done)
    case Size(q) =>
      (s, Waiting(|GetOr(s.queues, q, [])|))
  }

  // The retry decision of the port.

  /** What a handler did with the n-th delivery of a message: `None` on success, else the error text. */
  type Handler = (string, nat) -> Option<string>

  /** Whether a failed delivery, the `attempts`-th, was the last one. */
  predicate Exhausted(attempts: nat, maxRetries: int) {
    attempts > maxRetries
  }

  /** The operation that settles a delivered message once its handler has run. */
  function Settlement(m: Message, outcome: Option<string>, maxRetries: int): Op {
    match outcome
    case None => Ack(m)
    case Some(error) => if Exhausted(m.attempts, maxRetries) then DeadLetter(m, error) else Requeue(m)
  }
}
