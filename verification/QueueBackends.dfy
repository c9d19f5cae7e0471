/** The two queue backends as objects updated in place, each proved against its step on values. */
module QueueBackends {
  import opened Collections
  import opened Messages
  import opened MessageQueue
  import opened QueueRefinement
  import opened Drain

  class InMemoryMessageQueue {
    var queues: map<string, seq<Message>>
    var inflight: map<string, Message>
    var deadLetters: map<string, seq<Message>>

    ghost function State(): Memory
      reads this
    {
      Memory(queues, inflight, deadLetters)
    }

    ghost predicate Valid()
      reads this
    {
      Sound(State())
    }

    constructor ()
      ensures Valid() && State() == Memory(map[], map[], map[])
    {
      queues, inflight, deadLetters := map[], map[], map[];
    }

    /** `uuid` is the fresh id drawn for the message. */
    method Publish(queue: string, payload: Payload, uuid: string) returns (id: string)
      requires Valid()
      modifies this
      ensures Valid() && id == uuid
      ensures State() == MemoryStep(old(State()), MessageQueue.Publish(queue, uuid, payload)).0
    {
      StepSound(State(), MessageQueue.Publish(queue, uuid, payload));
      var waiting := GetOr(queues, queue, []);
      queues := queues[queue := waiting + [Message(uuid, queue, payload, 0)]];
      return uuid;
    }

    method Reserve(queue: string) returns (message: Option<Message>)
      requires Valid()
      modifies this
      ensures Valid()
      ensures (State(), Received(message)) == MemoryStep(old(State()), MessageQueue.Reserve(queue))
      ensures message.Some? ==> message.value.queue == queue
    {
      StepSound(State(), MessageQueue.Reserve(queue));
      var waiting := GetOr(queues, queue, []);
      if waiting == [] {
        return None;
      }
      var msg := waiting[0];
      queues := queues[queue := waiting[1..]];
      msg := Message(msg.id, msg.queue, msg.payload, msg.attempts + 1);
      inflight := inflight[msg.id := msg];
      return Some(msg);
    }

    method Ack(message: Message)
      requires Valid()
      modifies this
      ensures Valid() && State() == MemoryStep(old(State()), MessageQueue.Ack(message)).0
    {
      StepSound(State(), MessageQueue.Ack(message));
      inflight := inflight - {message.id};
    }

    method Requeue(message: Message)
      requires Valid()
      modifies this
      ensures Valid() && State() == MemoryStep(old(State()), MessageQueue.Requeue(message)).0
    {
      StepSound(State(), MessageQueue.Requeue(message));
      inflight := inflight - {message.id};
      queues := queues[message.queue := GetOr(queues, message.queue, []) + [message]];
    }

    method DeadLetter(message: Message, error: string)
      requires Valid()
      modifies this
      ensures Valid() && State() == MemoryStep(old(State()), MessageQueue.DeadLetter(message, error)).0
    {
      StepSound(State(), MessageQueue.DeadLetter(message, error));
      inflight := inflight - {message.id};
      deadLetters := deadLetters[message.queue := GetOr(deadLetters, message.queue, []) + [message]];
    }

    method Size(queue: string) returns (n: nat)
      ensures (State(), Waiting(n)) == MemoryStep(State(), MessageQueue.Size(queue))
      ensures n == if queue in queues then |queues[queue]| else 0
    {
      return |GetOr(queues, queue, [])|;
    }

    /** Reserve one message and drive it through `handler`; false when the queue is empty. */
    method ConsumeOnce(queue: string, handler: Handler, maxRetries: int) returns (found: bool)
      requires Valid()
      modifies this
      ensures Valid()
      ensures var (t, got) := MemoryConsume(old(State()), queue, handler, maxRetries);
        State() == t && found == got.Some?
    {
      var message := Reserve(queue);
      if message == None {
        return false;
      }
      var m := message.value;
      match handler(m.id, m.attempts)
      case Some(error) =>
        if m.attempts > maxRetries {
          DeadLetter(m, error);
        } else {
          Requeue(m);
        }
        return true;
      case None =>
        Ack(m);
        return true;
    }

    /** The workers' drain loop: consume until the queue is empty. */
    method RunWorker(queue: string, handler: Handler, maxRetries: int)
      requires Valid()
      modifies this
      ensures Valid() && State() == DrainMemory(old(State()), queue, handler, maxRetries).0
      ensures GetOr(queues, queue, []) == []
    {
      ghost var start := State();
      ConsumeEffect(State(), queue, handler, maxRetries);
      var found := ConsumeOnce(queue, handler, maxRetries);
      while found
        invariant Valid()
        invariant DrainMemory(State(), queue, handler, maxRetries).0 == DrainMemory(start, queue, handler, maxRetries).0
        invariant !found ==> State() == DrainMemory(start, queue, handler, maxRetries).0
        invariant !found ==> GetOr(queues, queue, []) == []
        decreases found, Budget(GetOr(queues, queue, []), maxRetries)
      {
        ConsumeEffect(State(), queue, handler, maxRetries);
        found := ConsumeOnce(queue, handler, maxRetries);
      }
    }
  }

  /** What one more turn of the drain loop does, seen through the in-memory twin `m`. */
  lemma Turned(r: Redis, m: Memory, queue: string, handler: Handler, maxRetries: int)
    requires Refines(r, m) && OwnQueue(m, queue)
    ensures var (r', got) := RedisConsume(r, queue, handler, maxRetries);
      var m' := MemoryConsume(m, queue, handler, maxRetries).0;
      && Refines(r', m') && OwnQueue(m', queue)
      && (if got.Some?
          then DrainRedis(r, m, queue, handler, maxRetries).0 == DrainRedis(r', m', queue, handler, maxRetries).0
            && Budget(GetOr(m'.queues, queue, []), maxRetries) < Budget(GetOr(m.queues, queue, []), maxRetries)
          else r' == r && DrainRedis(r, m, queue, handler, maxRetries).0 == r && Entries(r.lists, Main(queue)) == [])
  {
    ConsumeRefines(r, m, queue, handler, maxRetries);
    ConsumeEffect(m, queue, handler, maxRetries);
    hide Budget;
  }

  /** The Redis server: lists shared by all clients. */
  class RedisServer {
    var lists: Lists

    constructor ()
      ensures lists == map[]
    {
      lists := map[];
    }
  }

  class RedisQueue {
    const redis: RedisServer
    var inflight: map<string, Raw>

    ghost function State(): Redis
      reads this, redis
    {
      Redis(redis.lists, inflight)
    }

    constructor (redis: RedisServer)
      ensures this.redis == redis && inflight == map[]
    {
      this.redis := redis;
      inflight := map[];
    }

    method Publish(queue: string, payload: Payload, uuid: string) returns (id: string)
      modifies redis
      ensures id == uuid && State() == RedisStep(old(State()), MessageQueue.Publish(queue, uuid, payload)).0
    {
      var msg := Message(uuid, queue, payload, 0);
      redis.lists := RPush(redis.lists, Main(queue), Encode(msg));
      return uuid;
    }

    method Reserve(queue: string) returns (message: Option<Message>)
      modifies this, redis
      ensures (State(), Received(message)) == RedisStep(old(State()), MessageQueue.Reserve(queue))
    {
      if Entries(redis.lists, Main(queue)) == [] {
        return None;
      }
      var raw := Entries(redis.lists, Main(queue))[0];
      redis.lists := LMove(redis.lists, Main(queue), Processing(queue));
      var msg := Decode(raw);
      var delivered := Message(msg.id, msg.queue, msg.payload, msg.attempts + 1);
      inflight := inflight[delivered.id := raw];
      return Some(delivered);
    }

    /** `self._inflight.pop(message.id, self._encode(message))`. */
    method PopInflight(message: Message) returns (raw: Raw)
      modifies this
      ensures raw == SettledRaw(old(inflight), message) && inflight == old(inflight) - {message.id}
    {
      raw := if message.id in inflight then inflight[message.id] else Encode(message);
      inflight := inflight - {message.id};
    }

    method Ack(message: Message)
      modifies this, redis
      ensures State() == RedisStep(old(State()), MessageQueue.Ack(message)).0
    {
      var raw := PopInflight(message);
      redis.lists := LRem(redis.lists, Processing(message.queue), raw);
    }

    method Requeue(message: Message)
      modifies this, redis
      ensures State() == RedisStep(old(State()), MessageQueue.Requeue(message)).0
    {
      var raw := PopInflight(message);
      redis.lists := LRem(redis.lists, Processing(message.queue), raw);
      redis.lists := RPush(redis.lists, Main(message.queue), Encode(message));
    }

    method DeadLetter(message: Message, error: string)
      modifies this, redis
      ensures State() == RedisStep(old(State()), MessageQueue.DeadLetter(message, error)).0
    {
      var raw := PopInflight(message);
      var entry := Encode(message).(error := Some(error));
      redis.lists := LRem(redis.lists, Processing(message.queue), raw);
      redis.lists := RPush(redis.lists, Dlq(message.queue), entry);
    }

    method Size(queue: string) returns (n: nat)
      ensures (State(), Waiting(n)) == RedisStep(State(), MessageQueue.Size(queue))
      ensures n == |Entries(redis.lists, Main(queue))|
    {
      return |Entries(redis.lists, Main(queue))|;
    }

    method ConsumeOnce(queue: string, handler: Handler, maxRetries: int) returns (found: bool)
      modifies this, redis
      ensures var (t, got) := RedisConsume(old(State()), queue, handler, maxRetries);
        State() == t && found == got.Some?
    {
      var message := Reserve(queue);
      if message == None {
        return false;
      }
      var m := message.value;
      match handler(m.id, m.attempts)
      case Some(error) =>
        if m.attempts > maxRetries {
          DeadLetter(m, error);
        } else {
          Requeue(m);
        }
        return true;
      case None =>
        Ack(m);
        return true;
    }

    /**
     The drain loop on Redis, over waiting messages that name their queue (as `RedisWorld.Inv` says they
     do).  It ends where `DrainRedis` does, which `RedisDrainAgrees` compares with the
     in-memory drain.
     */
    method RunWorker(queue: string, handler: Handler, maxRetries: int)
      requires OwnQueue(Twin(State()), queue)
      modifies this, redis
      ensures Refines(old(State()), Twin(old(State())))
      ensures State() == DrainRedis(old(State()), Twin(old(State())), queue, handler, maxRetries).0
      ensures Entries(redis.lists, Main(queue)) == []
    {
      hide Twin, Refines, OwnQueue, RedisConsume, MemoryConsume, DrainRedis, Budget;
      ghost var start, m := State(), Twin(State());
      TwinRefines(start);
      Turned(State(), m, queue, handler, maxRetries);
      ghost var end := DrainRedis(start, m, queue, handler, maxRetries).0;
      var found := ConsumeOnce(queue, handler, maxRetries);
      m := MemoryConsume(m, queue, handler, maxRetries).0;
      while found
        invariant Refines(State(), m) && OwnQueue(m, queue)
        invariant found ==> DrainRedis(State(), m, queue, handler, maxRetries).0 == end
        invariant !found ==> State() == end && Entries(redis.lists, Main(queue)) == []
        decreases found, Budget(GetOr(m.queues, queue, []), maxRetries)
      {
        Turned(State(), m, queue, handler, maxRetries);
        found := ConsumeOnce(queue, handler, maxRetries);
        m := MemoryConsume(m, queue, handler, maxRetries).0;
      }
    }
  }
}
