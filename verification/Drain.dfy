/**
 The retry driver and the workers' drain loop, over an arbitrary success or failure of every
 delivery of every message.
 */
module Drain {
  import opened Collections
  import opened MessageQueue
  import opened QueueRefinement

  // One delivery on each backend: reserve, run the handler, settle.

  function MemoryConsume(s: Memory, q: string, handler: Handler, maxRetries: int): (Memory, Option<Message>) {
    match MemoryStep(s, Reserve(q))
    case (t, Received(Some(m))) =>
      (MemoryStep(t, Settlement(m, handler(m.id, m.attempts), maxRetries)).0, Some(m))
    case _ => (s, None)
  }

  function RedisConsume(s: Redis, q: string, handler: Handler, maxRetries: int): (Redis, Option<Message>) {
    match RedisStep(s, Reserve(q))
    case (t, Received(Some(m))) =>
      (RedisStep(t, Settlement(m, handler(m.id, m.attempts), maxRetries)).0, Some(m))
    case _ => (s, None)
  }

  /** A message that always fails is dead-lettered by its `Limit`-th delivery. */
  function Limit(maxRetries: int): (n: nat)
    ensures n >= 1 && (n == maxRetries + 1 || (maxRetries < 0 && n == 1))
  {
    Max(maxRetries, 0) + 1
  }

  /** How many more deliveries the waiting messages can take: the termination measure of a drain. */
  function Budget(waiting: seq<Message>, maxRetries: int): nat {
    if waiting == [] then 0 else
    Max(1, Limit(maxRetries) - waiting[0].attempts) + Budget(waiting[1..], maxRetries)
  }

  lemma {:induction false} BudgetAppend(a: seq<Message>, b: seq<Message>, maxRetries: int)
    ensures Budget(a + b, maxRetries) == Budget(a, maxRetries) + Budget(b, maxRetries)
  {
    if a == [] {
      assert a + b == b;
    } else {
      assert (a + b)[1..] == a[1..] + b;
      BudgetAppend(a[1..], b, maxRetries);
    }
  }

  /** What a delivery of the first waiting message `m` leaves waiting. */
  function Requeued(rest: seq<Message>, m: Message, handler: Handler, maxRetries: int): seq<Message> {
    if handler(m.id, m.attempts).Some? && m.attempts <= maxRetries then rest + [m] else rest
  }

  function Buried(m: Message, handler: Handler, maxRetries: int): seq<Message> {
    if handler(m.id, m.attempts).Some? && m.attempts > maxRetries then [m] else []
  }

  lemma BudgetDecreases(waiting: seq<Message>, handler: Handler, maxRetries: int)
    requires waiting != []
    ensures Budget(Requeued(waiting[1..], Delivered(waiting[0]), handler, maxRetries), maxRetries) < Budget(waiting, maxRetries)
  {
    BudgetAppend(waiting[1..], [Delivered(waiting[0])], maxRetries);
  }

  /** The deliveries of a drain, and the messages it dead-letters, both in order. */
  datatype Outcome = Outcome(calls: seq<Message>, dead: seq<Message>)

  function DrainList(waiting: seq<Message>, handler: Handler, maxRetries: int): Outcome
    decreases Budget(waiting, maxRetries)
  {
    if waiting == [] then Outcome([], []) else
    var m := Delivered(waiting[0]);
    BudgetDecreases(waiting, handler, maxRetries);
    var later := DrainList(Requeued(waiting[1..], m, handler, maxRetries), handler, maxRetries);
    Outcome([m] + later.calls, Buried(m, handler, maxRetries) + later.dead)
  }

  /** Messages waiting on a queue carry its name. */
  ghost predicate OwnQueue(s: Memory, q: string) {
    forall m :: m in GetOr(s.queues, q, []) ==> m.queue == q
  }

  ghost predicate Sound(s: Memory) {
    forall q :: OwnQueue(s, q)
  }

  /** Every operation, whatever it settles, keeps waiting messages on the queue they name. */
  lemma StepSound(s: Memory, op: Op)
    requires Sound(s)
    ensures Sound(MemoryStep(s, op).0)
    ensures op.Reserve? ==> var reply := MemoryStep(s, op).1;
      reply.message.Some? ==> reply.message.value.queue == op.queue
  {
    var s' := MemoryStep(s, op).0;
    forall q, m | m in GetOr(s'.queues, q, []) ensures m.queue == q {
      assert OwnQueue(s, q);
    }
    if op.Reserve? && GetOr(s.queues, op.queue, []) != [] {
      assert OwnQueue(s, op.queue) && GetOr(s.queues, op.queue, [])[0] in GetOr(s.queues, op.queue, []);
    }
  }

  /** From `s` to `t` queue `q` became `waiting`, `buried` joined its dead letters, and `ids` left flight. */
  ghost predicate Effect(s: Memory, t: Memory, q: string, waiting: seq<Message>, buried: seq<Message>, ids: set<string>) {
    && GetOr(t.queues, q, []) == waiting
    && GetOr(t.deadLetters, q, []) == GetOr(s.deadLetters, q, []) + buried
    && t.inflight == s.inflight - ids
    && (forall r :: r != q ==> GetOr(t.queues, r, []) == GetOr(s.queues, r, []))
    && (forall r :: r != q ==> GetOr(t.deadLetters, r, []) == GetOr(s.deadLetters, r, []))
  }

  lemma EffectThen(s: Memory, t: Memory, u: Memory, q: string, w1: seq<Message>, w2: seq<Message>,
                   b1: seq<Message>, b2: seq<Message>, ids1: set<string>, ids2: set<string>)
    requires Effect(s, t, q, w1, b1, ids1) && Effect(t, u, q, w2, b2, ids2)
    ensures Effect(s, u, q, w2, b1 + b2, ids1 + ids2)
  {
    assert s.inflight - ids1 - ids2 == s.inflight - (ids1 + ids2);
  }

  lemma ConsumeEffect(s: Memory, q: string, handler: Handler, maxRetries: int)
    requires OwnQueue(s, q)
    ensures var (t, got) := MemoryConsume(s, q, handler, maxRetries);
      var waiting := GetOr(s.queues, q, []);
      && OwnQueue(t, q)
      && (if waiting == [] then t == s && got == None else
        var m := Delivered(waiting[0]);
        && got == Some(m)
        && Effect(s, t, q, Requeued(waiting[1..], m, handler, maxRetries), Buried(m, handler, maxRetries), {m.id})
        && Budget(GetOr(t.queues, q, []), maxRetries) < Budget(waiting, maxRetries))
  {
    hide Budget;
    var waiting := GetOr(s.queues, q, []);
    if waiting != [] {
      BudgetDecreases(waiting, handler, maxRetries);
      assert waiting[0] in waiting;
      var m := Delivered(waiting[0]);
      assert s.inflight[m.id := m] - {m.id} == s.inflight - {m.id};
    }
  }

  /** Consume until the queue is empty; also yields the deliveries made. */
  ghost function DrainMemory(s: Memory, q: string, handler: Handler, maxRetries: int): (Memory, seq<Message>)
    requires OwnQueue(s, q)
    decreases Budget(GetOr(s.queues, q, []), maxRetries)
  {
    var (t, got) := MemoryConsume(s, q, handler, maxRetries);
    ConsumeEffect(s, q, handler, maxRetries);
    if got == None then (s, []) else
    var (u, calls) := DrainMemory(t, q, handler, maxRetries);
    (u, [got.value] + calls)
  }

  /** The same loop on Redis; the in-memory twin `m` only serves to bound the recursion. */
  ghost function DrainRedis(r: Redis, m: Memory, q: string, handler: Handler, maxRetries: int): (Redis, seq<Message>)
    requires Refines(r, m) && OwnQueue(m, q)
    decreases Budget(GetOr(m.queues, q, []), maxRetries)
  {
    var (t, got) := RedisConsume(r, q, handler, maxRetries);
    ConsumeRefines(r, m, q, handler, maxRetries);
    ConsumeEffect(m, q, handler, maxRetries);
    if got == None then (r, []) else
    var (u, calls) := DrainRedis(t, MemoryConsume(m, q, handler, maxRetries).0, q, handler, maxRetries);
    (u, [got.value] + calls)
  }

  lemma ConsumeRefines(r: Redis, m: Memory, q: string, handler: Handler, maxRetries: int)
    requires Refines(r, m)
    ensures Refines(RedisConsume(r, q, handler, maxRetries).0, MemoryConsume(m, q, handler, maxRetries).0)
    ensures RedisConsume(r, q, handler, maxRetries).1 == MemoryConsume(m, q, handler, maxRetries).1
  {
    StepRefines(r, m, Reserve(q));
    var (r', reply) := RedisStep(r, Reserve(q));
    if reply.message.Some? {
      var got := reply.message.value;
      StepRefines(r', MemoryStep(m, Reserve(q)).0, Settlement(got, handler(got.id, got.attempts), maxRetries));
    }
  }

  /** Draining Redis and draining memory make the same deliveries and end in matching states. */
  lemma {:induction false} RedisDrainAgrees(r: Redis, m: Memory, q: string, handler: Handler, maxRetries: int)
    requires Refines(r, m) && OwnQueue(m, q)
    ensures Refines(DrainRedis(r, m, q, handler, maxRetries).0, DrainMemory(m, q, handler, maxRetries).0)
    ensures DrainRedis(r, m, q, handler, maxRetries).1 == DrainMemory(m, q, handler, maxRetries).1
    decreases Budget(GetOr(m.queues, q, []), maxRetries)
  {
    ConsumeRefines(r, m, q, handler, maxRetries);
    ConsumeEffect(m, q, handler, maxRetries);
    if MemoryConsume(m, q, handler, maxRetries).1 != None {
      RedisDrainAgrees(RedisConsume(r, q, handler, maxRetries).0, MemoryConsume(m, q, handler, maxRetries).0,
                       q, handler, maxRetries);
    }
  }

  function Ids(ms: seq<Message>): set<string> {
    set m | m in ms :: m.id
  }

  /** A drain empties its queue, appends to its dead letters, and touches nothing else. */
  lemma {:induction false} DrainEffect(s: Memory, q: string, handler: Handler, maxRetries: int)
    requires OwnQueue(s, q)
    ensures var (t, calls) := DrainMemory(s, q, handler, maxRetries);
      var outcome := DrainList(GetOr(s.queues, q, []), handler, maxRetries);
      calls == outcome.calls && Effect(s, t, q, [], outcome.dead, Ids(calls))
    decreases Budget(GetOr(s.queues, q, []), maxRetries)
  {
    ConsumeEffect(s, q, handler, maxRetries);
    var (t, got) := MemoryConsume(s, q, handler, maxRetries);
    if got == None {
      assert s.inflight - Ids([]) == s.inflight;
    } else {
      DrainEffect(t, q, handler, maxRetries);
      var (u, later) := DrainMemory(t, q, handler, maxRetries);
      var waiting := GetOr(t.queues, q, []);
      EffectThen(s, t, u, q, waiting, [], Buried(got.value, handler, maxRetries),
                 DrainList(waiting, handler, maxRetries).dead, {got.value.id}, Ids(later));
      assert Ids([got.value] + later) == {got.value.id} + Ids(later);
    }
  }

  // Which deliveries a drain makes, and what it buries.

  ghost predicate DistinctIds(ms: seq<Message>) {
    forall i, j :: 0 <= i < j < |ms| ==> ms[i].id != ms[j].id
  }

  function Of(calls: seq<Message>, id: string): seq<Message> {
    if calls == [] then [] else (if calls[0].id == id then [calls[0]] else []) + Of(calls[1..], id)
  }

  /** The deliveries of one message, taken on its own: repeat until it succeeds or runs out. */
  function Deliveries(m: Message, handler: Handler, maxRetries: int): seq<Message>
    decreases Max(0, maxRetries + 1 - m.attempts)
  {
    var d := Delivered(m);
    [d] + if handler(d.id, d.attempts).Some? && d.attempts <= maxRetries then Deliveries(d, handler, maxRetries) else []
  }

  lemma {:induction false} NotCalled(waiting: seq<Message>, handler: Handler, maxRetries: int, id: string)
    requires forall m :: m in waiting ==> m.id != id
    ensures Of(DrainList(waiting, handler, maxRetries).calls, id) == []
    decreases Budget(waiting, maxRetries)
  {
    if waiting != [] {
      BudgetDecreases(waiting, handler, maxRetries);
      assert waiting[0] in waiting;
      NotCalled(Requeued(waiting[1..], Delivered(waiting[0]), handler, maxRetries), handler, maxRetries, id);
    }
  }

  /** Messages do not disturb one another: each gets the deliveries it would get alone. */
  lemma {:induction false} EachOnItsOwn(waiting: seq<Message>, handler: Handler, maxRetries: int, m: Message)
    requires DistinctIds(waiting) && m in waiting
    ensures Of(DrainList(waiting, handler, maxRetries).calls, m.id) == Deliveries(m, handler, maxRetries)
    decreases Budget(waiting, maxRetries)
  {
    var d := Delivered(waiting[0]);
    var next := Requeued(waiting[1..], d, handler, maxRetries);
    BudgetDecreases(waiting, handler, maxRetries);
    if m != waiting[0] {
      assert m in waiting[1..];
      EachOnItsOwn(next, handler, maxRetries, m);
    } else if next == waiting[1..] + [d] {
      EachOnItsOwn(next, handler, maxRetries, d);
    } else {
      NotCalled(next, handler, maxRetries, m.id);
    }
  }

  /** A fresh message is delivered until its first success, but at most `Limit` times. */
  lemma {:induction false} DeliveriesMeaning(m: Message, handler: Handler, maxRetries: int)
    requires m.attempts < Limit(maxRetries)
    ensures var ds, a := Deliveries(m, handler, maxRetries), m.attempts;
      && a + |ds| <= Limit(maxRetries)
      && (forall i :: 0 <= i < |ds| ==> ds[i] == m.(attempts := a + i + 1))
      && (forall n :: a < n < a + |ds| ==> handler(m.id, n).Some?)
      && (a + |ds| == Limit(maxRetries) || handler(m.id, a + |ds|) == None)
    decreases Limit(maxRetries) - m.attempts
  {
    var d := Delivered(m);
    if handler(d.id, d.attempts).Some? && d.attempts <= maxRetries {
      DeliveriesMeaning(d, handler, maxRetries);
    }
  }

  /** Every delivery that `m` still has coming fails. */
  predicate AlwaysFails(m: Message, handler: Handler, maxRetries: int)
    decreases Max(0, Limit(maxRetries) - m.attempts)
  {
    m.attempts < Limit(maxRetries) ==>
      handler(m.id, m.attempts + 1).Some? && AlwaysFails(Delivered(m), handler, maxRetries)
  }

  lemma {:induction false} AlwaysFailsMeaning(m: Message, handler: Handler, maxRetries: int)
    ensures AlwaysFails(m, handler, maxRetries)
      <==> forall n :: m.attempts < n <= Limit(maxRetries) ==> handler(m.id, n).Some?
    decreases Max(0, Limit(maxRetries) - m.attempts)
  {
    if m.attempts < Limit(maxRetries) {
      AlwaysFailsMeaning(Delivered(m), handler, maxRetries);
    }
  }

  /** The messages of `ms` that always fail, in the order of `ms`, as they are when they run out. */
  function Doomed(ms: seq<Message>, handler: Handler, maxRetries: int): seq<Message> {
    if ms == [] then [] else
    (if AlwaysFails(ms[0], handler, maxRetries) then [ms[0].(attempts := Limit(maxRetries))] else [])
    + Doomed(ms[1..], handler, maxRetries)
  }

  lemma {:induction false} DoomedAppend(a: seq<Message>, b: seq<Message>, handler: Handler, maxRetries: int)
    ensures Doomed(a + b, handler, maxRetries) == Doomed(a, handler, maxRetries) + Doomed(b, handler, maxRetries)
  {
    if a == [] {
      assert a + b == b;
    } else {
      assert (a + b)[1..] == a[1..] + b;
      DoomedAppend(a[1..], b, handler, maxRetries);
    }
  }

  lemma DoomedOne(m: Message, handler: Handler, maxRetries: int)
    ensures Doomed([m], handler, maxRetries)
         == if AlwaysFails(m, handler, maxRetries) then [m.(attempts := Limit(maxRetries))] else []
  {
    assert [m][1..] == [];
  }

  /** What one delivery of `m` decides, as dead letters now or later. */
  function DoomedAfterDelivery(m: Message, handler: Handler, maxRetries: int): seq<Message> {
    var d := Delivered(m);
    Doomed(Requeued([], d, handler, maxRetries), handler, maxRetries) + Buried(d, handler, maxRetries)
  }

  lemma OneDelivery(m: Message, handler: Handler, maxRetries: int)
    requires m.attempts < Limit(maxRetries)
    ensures DoomedAfterDelivery(m, handler, maxRetries) == Doomed([m], handler, maxRetries)
  {
    var d := Delivered(m);
    DoomedOne(m, handler, maxRetries);
    if handler(d.id, d.attempts).Some? {
      if d.attempts <= maxRetries {
        assert Requeued([], d, handler, maxRetries) == [d];
        DoomedOne(d, handler, maxRetries);
        assert Buried(d, handler, maxRetries) == [];
      } else {
        assert Requeued([], d, handler, maxRetries) == [];
        assert d == m.(attempts := Limit(maxRetries));
      }
    }
  }

  /** One more delivery of the first message does not change who is doomed. */
  lemma DoomedFirst(rest: seq<Message>, handler: Handler, maxRetries: int)
    requires rest != [] && rest[0].attempts < Limit(maxRetries)
    ensures Doomed(rest, handler, maxRetries)
         == DoomedAfterDelivery(rest[0], handler, maxRetries) + Doomed(rest[1..], handler, maxRetries)
  {
    OneDelivery(rest[0], handler, maxRetries);
    DoomedOne(rest[0], handler, maxRetries);
  }

  lemma FirstBuried(waiting: seq<Message>, handler: Handler, maxRetries: int)
    requires waiting != []
    ensures var d := Delivered(waiting[0]);
      DrainList(waiting, handler, maxRetries).dead == Buried(d, handler, maxRetries)
        + DrainList(Requeued(waiting[1..], d, handler, maxRetries), handler, maxRetries).dead
  {
  }

  /** The order in which one turn's dead letters come out, as plain concatenation. */
  lemma TurnOrder<T>(b: seq<T>, n: seq<T>, a: seq<T>, t: seq<T>, na: seq<T>, later: seq<T>, dead: seq<T>, rest: seq<T>)
    requires b == [] || (n == [] && a == [])
    requires dead == b + later && later == na + t && na == n + a && rest == a + b + t
    ensures dead == n + rest
  {
  }

  /**
   In the middle of round `k`, `rest` waits for its k-th delivery and `next`, requeued earlier in the
   round, waits behind it: yet the dead letters come out in publish order, `next` first.
   */
  lemma {:induction false} Rounds(rest: seq<Message>, next: seq<Message>, k: nat, handler: Handler, maxRetries: int)
    requires forall m :: m in rest ==> m.attempts + 1 == k
    requires forall m :: m in next ==> m.attempts == k
    requires 1 <= k <= Limit(maxRetries) && (k == Limit(maxRetries) ==> next == [])
    ensures DrainList(rest + next, handler, maxRetries).dead
         == Doomed(next, handler, maxRetries) + Doomed(rest, handler, maxRetries)
    decreases Budget(rest + next, maxRetries), |next|
  {
    if rest == [] {
      assert rest + next == next == next + [];
      if next != [] {
        Rounds(next, [], k + 1, handler, maxRetries);
      }
    } else {
      var again := Requeued([], Delivered(rest[0]), handler, maxRetries);
      assert (rest + next)[1..] == rest[1..] + next;
      BudgetDecreases(rest + next, handler, maxRetries);
      assert Requeued(rest[1..] + next, Delivered(rest[0]), handler, maxRetries) == rest[1..] + (next + again);
      assert rest[0] in rest;
      Rounds(rest[1..], next + again, k, handler, maxRetries);
      FirstBuried(rest + next, handler, maxRetries);
      DoomedFirst(rest, handler, maxRetries);
      DoomedAppend(next, again, handler, maxRetries);
      TurnOrder(Buried(Delivered(rest[0]), handler, maxRetries), Doomed(next, handler, maxRetries),
                Doomed(again, handler, maxRetries), Doomed(rest[1..], handler, maxRetries),
                Doomed(next + again, handler, maxRetries),
                DrainList(rest[1..] + (next + again), handler, maxRetries).dead,
                DrainList(rest + next, handler, maxRetries).dead, Doomed(rest, handler, maxRetries));
    }
  }

  /** `ds` are deliveries 1, 2, 3, ... of `m`: up to its first success, or `Limit` failures. */
  ghost predicate UntilSettled(ds: seq<Message>, m: Message, handler: Handler, maxRetries: int) {
    && 1 <= |ds| <= Limit(maxRetries)
    && (forall i :: 0 <= i < |ds| ==> ds[i] == m.(attempts := i + 1))
    && (forall n :: 0 < n < |ds| ==> handler(m.id, n).Some?)
    && (|ds| == Limit(maxRetries) || handler(m.id, |ds|) == None)
  }

  /**
   Draining freshly published messages with distinct ids: each is delivered until its first success
   or `Limit` deliveries, and the dead letters are exactly the messages that always fail, in publish
   order.
   */
  lemma FreshDrain(waiting: seq<Message>, handler: Handler, maxRetries: int)
    requires DistinctIds(waiting) && forall m :: m in waiting ==> m.attempts == 0
    ensures DrainList(waiting, handler, maxRetries).dead == Doomed(waiting, handler, maxRetries)
    ensures forall m :: m in waiting ==>
      UntilSettled(Of(DrainList(waiting, handler, maxRetries).calls, m.id), m, handler, maxRetries)
  {
    assert waiting + [] == waiting;
    Rounds(waiting, [], 1, handler, maxRetries);
    forall m | m in waiting
      ensures UntilSettled(Of(DrainList(waiting, handler, maxRetries).calls, m.id), m, handler, maxRetries)
    {
      EachUntilSettled(waiting, handler, maxRetries, m);
    }
  }

  lemma EachUntilSettled(waiting: seq<Message>, handler: Handler, maxRetries: int, m: Message)
    requires DistinctIds(waiting) && m in waiting && m.attempts == 0
    ensures UntilSettled(Of(DrainList(waiting, handler, maxRetries).calls, m.id), m, handler, maxRetries)
  {
    EachOnItsOwn(waiting, handler, maxRetries, m);
    DeliveriesMeaning(m, handler, maxRetries);
  }
}
