/**
 Any number of Redis clients sharing one server.  A client settles only messages it holds, each
 of them once, and may vanish between operations; what it had reserved stays in the processing list.
 */
module RedisWorld {
  import opened Collections
  import opened MessageQueue

  /** Where a published message is: in exactly one list, or acknowledged. */
  datatype Place = In(key: Key) | Acked

  /** `held` are the messages handed to the client's handlers and not settled yet. */
  datatype Client = Client(inflight: map<string, Raw>, held: map<string, Message>)

  /** `home` and `deliveries` are history: the place of each id, and how often it was delivered. */
  datatype World = World(
    lists: Lists,
    clients: map<nat, Client>,
    home: map<string, Place>,
    deliveries: map<string, nat>)

  datatype Step = Join(client: nat) | Vanish(client: nat) | Act(client: nat, op: Op)

  const Empty := World(map[], map[], map[], map[])

  predicate Settles(op: Op) {
    op.Ack? || op.Requeue? || op.DeadLetter?
  }

  predicate Legal(w: World, step: Step) {
    match step
    case Join(c) => c !in w.clients
    case Vanish(c) => c in w.clients
    case Act(c, op) =>
      && c in w.clients
      && (op.Publish? ==> op.id !in w.home)
      && (Settles(op) ==> op.message.id in w.clients[c].held && w.clients[c].held[op.message.id] == op.message)
  }

  function Next(w: World, step: Step): World
    requires Legal(w, step)
  {
    match step
    case Join(c) => w.(clients := w.clients[c := Client(map[], map[])])
    case Vanish(c) => w.(clients := w.clients - {c})
    case Act(c, op) =>
      var (s, reply) := RedisStep(Redis(w.lists, w.clients[c].inflight), op);
      var client := Client(s.inflight, Held(w.clients[c].held, op, reply));
      World(s.lists, w.clients[c := client], Homes(w.home, op, reply), Deliveries(w.deliveries, op, reply))
  }

  function Held(held: map<string, Message>, op: Op, reply: Reply): map<string, Message> {
    if Settles(op) then held - {op.message.id}
    else if reply.Received? && reply.message.Some? then held[reply.message.value.id := reply.message.value]
    else held
  }

  function Homes(home: map<string, Place>, op: Op, reply: Reply): map<string, Place> {
    match op
    case Publish(q, id, _) => home[id := In(Main(q))]
    case Reserve(q) =>
      if reply.Received? && reply.message.Some? then home[reply.message.value.id := In(Processing(q))] else home
    case Ack(m) => home[m.id := Acked]
    case Requeue(m) => home[m.id := In(Main(m.queue))]
    case DeadLetter(m, _) => home[m.id := In(Dlq(m.queue))]
    case Size(_) => home
  }

  function Deliveries(deliveries: map<string, nat>, op: Op, reply: Reply): map<string, nat> {
    match op
    case Publish(_, id, _) => deliveries[id := 0]
    case Reserve(_) =>
      if reply.Received? && reply.message.Some? then
        var id := reply.message.value.id;
        deliveries[id := GetOr(deliveries, id, 0) + 1]
      else deliveries
    case _ => deliveries
  }

  // The invariant.

  ghost predicate Distinct(raws: seq<Raw>) {
    forall i, j :: 0 <= i < j < |raws| ==> raws[i].message.id != raws[j].message.id
  }

  /** The attempts count stored in an entry, given how often the message was delivered so far. */
  predicate Counted(key: Key, raw: Raw, deliveries: nat) {
    if key.Processing? then raw.message.attempts + 1 == deliveries else raw.message.attempts == deliveries
  }

  ghost predicate EntryOk(w: World, key: Key, raw: Raw) {
    && raw.message.queue == key.queue
    && raw.message.id in w.home
    && w.home[raw.message.id] == In(key)
    && raw.message.id in w.deliveries
    && Counted(key, raw, w.deliveries[raw.message.id])
  }

  /** Every list holds only messages whose home it is, each of them once. */
  ghost predicate ListsOk(w: World) {
    forall key :: Distinct(Entries(w.lists, key)) && forall raw :: raw in Entries(w.lists, key) ==> EntryOk(w, key, raw)
  }

  /** Every message at home in a list is there. */
  ghost predicate NothingLost(w: World) {
    forall id :: id in w.home && w.home[id].In? ==> Has(Entries(w.lists, w.home[id].key), id)
  }

  ghost predicate Has(raws: seq<Raw>, id: string) {
    exists raw :: raw in raws && raw.message.id == id
  }

  /** What a client remembers about `id` is an entry of the processing list, one delivery behind. */
  ghost predicate Tracked(w: World, client: Client, id: string)
    requires id in client.inflight
  {
    var raw := client.inflight[id];
    && raw.message.id == id
    && raw in Entries(w.lists, Processing(raw.message.queue))
    && id in client.held
    && client.held[id] == Delivered(Decode(raw))
  }

  ghost predicate Remembers(w: World, c: nat, id: string) {
    c in w.clients && id in w.clients[c].inflight
  }

  ghost predicate ClientsOk(w: World) {
    && (forall c :: c in w.clients ==> w.clients[c].held.Keys == w.clients[c].inflight.Keys)
    && (forall c, id :: Remembers(w, c, id) ==> Tracked(w, w.clients[c], id))
    && (forall c, d, id :: Remembers(w, c, id) && Remembers(w, d, id) ==> c == d)
  }

  ghost predicate Inv(w: World) {
    ListsOk(w) && NothingLost(w) && ClientsOk(w) && w.deliveries.Keys == w.home.Keys
  }

  // Taking one entry out of a list, and putting one in.

  ghost predicate Absent(lists: Lists, id: string) {
    forall key :: !Has(Entries(lists, key), id)
  }

  /** `after` is `before` without the entry of `id`: nothing else is gone and nothing is new. */
  ghost predicate TakenOut(before: Lists, after: Lists, id: string) {
    forall key, raw :: raw in Entries(after, key) <==> raw in Entries(before, key) && raw.message.id != id
  }

  lemma RemoveFirstMembers(raws: seq<Raw>, raw: Raw)
    requires Distinct(raws) && raw in raws
    ensures forall r :: r in RemoveFirst(raws, raw) <==> r in raws && r.message.id != raw.message.id
  {
    if raws[0] != raw {
      RemoveFirstMembers(raws[1..], raw);
      hide RemoveFirst;
      assert raws == [raws[0]] + raws[1..];
    }
  }

  lemma RemoveFirstDistinct(raws: seq<Raw>, raw: Raw)
    requires Distinct(raws) && raw in raws
    ensures Distinct(RemoveFirst(raws, raw))
    ensures forall r :: r in RemoveFirst(raws, raw) <==> r in raws && r.message.id != raw.message.id
  {
    RemoveFirstMembers(raws, raw);
    if raws[0] != raw {
      RemoveFirstDistinct(raws[1..], raw);
      var first, rest := raws[0], RemoveFirst(raws[1..], raw);
      assert RemoveFirst(raws, raw) == [first] + rest;
      forall j | 0 <= j < |rest| ensures rest[j].message.id != first.message.id {
        assert rest[j] in raws[1..];
      }
      hide RemoveFirst;
    }
  }

  lemma TakeOut(w: World, key: Key, raw: Raw, rest: seq<Raw>)
    requires ListsOk(w) && raw in Entries(w.lists, key)
    requires Distinct(rest) && forall r :: r in rest <==> r in Entries(w.lists, key) && r.message.id != raw.message.id
    ensures ListsOk(w.(lists := w.lists[key := rest]))
    ensures TakenOut(w.lists, w.lists[key := rest], raw.message.id)
    ensures Absent(w.lists[key := rest], raw.message.id)
  {
    var after := w.lists[key := rest];
    assert EntryOk(w, key, raw);
    forall k, r | r in Entries(w.lists, k)
      ensures EntryOk(w, k, r) && (r.message.id == raw.message.id ==> k == key)
    {
    }
    assert forall k :: k != key ==> Entries(after, k) == Entries(w.lists, k);
  }

  lemma PutIn(w: World, key: Key, raw: Raw, w': World)
    requires ListsOk(w) && Absent(w.lists, raw.message.id)
    requires w'.lists == RPush(w.lists, key, raw) && EntryOk(w', key, raw)
    requires w'.home == w.home[raw.message.id := In(key)]
    requires w'.deliveries == w.deliveries[raw.message.id := GetOr(w'.deliveries, raw.message.id, 0)]
    ensures ListsOk(w')
    ensures TakenOut(w'.lists, w.lists, raw.message.id)
    ensures raw in Entries(w'.lists, key)
  {
    forall k ensures Distinct(Entries(w'.lists, k)) {
      assert Distinct(Entries(w.lists, k));
      assert !Has(Entries(w.lists, k), raw.message.id);
    }
    forall k, r | r in Entries(w'.lists, k) ensures EntryOk(w', k, r) {
      if r in Entries(w.lists, k) {
        assert EntryOk(w, k, r);
        assert !Has(Entries(w.lists, k), raw.message.id);
      }
    }
    forall k, r ensures r in Entries(w.lists, k) <==> r in Entries(w'.lists, k) && r.message.id != raw.message.id {
      assert !Has(Entries(w.lists, k), raw.message.id);
      assert !Has(Entries(w'.lists, k), raw.message.id) || k == key;
    }
  }

  // What an operation on message `id` leaves alone.

  ghost predicate SameElsewhere(w: World, w': World, id: string) {
    forall key, raw: Raw :: raw.message.id != id ==> (raw in Entries(w.lists, key) <==> raw in Entries(w'.lists, key))
  }

  lemma NothingLostAfter(w: World, w': World, id: string, place: Place)
    requires NothingLost(w) && SameElsewhere(w, w', id)
    requires w'.home == w.home[id := place]
    requires place.In? ==> Has(Entries(w'.lists, place.key), id)
    ensures NothingLost(w')
  {
    forall x | x in w'.home && w'.home[x].In? ensures Has(Entries(w'.lists, w'.home[x].key), x) {
      if x != id {
        assert Has(Entries(w.lists, w.home[x].key), x);
        var raw :| raw in Entries(w.lists, w.home[x].key) && raw.message.id == x;
        assert raw in Entries(w'.lists, w.home[x].key);
      }
    }
  }

  ghost predicate SameExcept(client: Client, client': Client, id: string) {
    && (forall x :: x != id ==> (x in client'.inflight <==> x in client.inflight))
    && (forall x :: x != id && x in client.inflight ==> client'.inflight[x] == client.inflight[x])
    && (forall x :: x != id ==> (x in client'.held <==> x in client.held))
    && (forall x :: x != id && x in client.held ==> client'.held[x] == client.held[x])
  }

  lemma ClientsAfter(w: World, w': World, c: nat, id: string, client: Client)
    requires ClientsOk(w) && SameElsewhere(w, w', id)
    requires c in w.clients && w'.clients == w.clients[c := client]
    requires SameExcept(w.clients[c], client, id) && client.held.Keys == client.inflight.Keys
    requires forall d :: d != c ==> !Remembers(w, d, id)
    requires id in client.inflight ==> Tracked(w', client, id)
    ensures ClientsOk(w')
  {
    forall d, x | Remembers(w', d, x)
      ensures Tracked(w', w'.clients[d], x) && (if x == id then d == c else Remembers(w, d, x))
    {
      if x != id {
        assert Remembers(w, d, x);
        assert Tracked(w, w.clients[d], x);
        var raw := w.clients[d].inflight[x];
        assert w'.clients[d].inflight[x] == raw;
        assert raw in Entries(w'.lists, Processing(raw.message.queue));
      } else if d != c {
        assert Remembers(w, d, id);
      }
    }
  }

  /** A remembered message is at home in a processing list. */
  lemma RememberedHome(w: World, c: nat, id: string)
    requires ListsOk(w) && ClientsOk(w) && Remembers(w, c, id)
    ensures id in w.home && w.home[id].In? && w.home[id].key.Processing?
  {
    assert Tracked(w, w.clients[c], id);
    var raw := w.clients[c].inflight[id];
    assert EntryOk(w, Processing(raw.message.queue), raw);
  }

  lemma PublishStep(w: World, c: nat, op: Op)
    requires Inv(w) && Legal(w, Act(c, op)) && op.Publish?
    ensures Inv(Next(w, Act(c, op)))
  {
    var w' := Next(w, Act(c, op));
    var raw := Encode(Message(op.id, op.queue, op.payload, 0));
    forall key ensures !Has(Entries(w.lists, key), op.id) {
      forall r | r in Entries(w.lists, key) ensures r.message.id != op.id { assert EntryOk(w, key, r); }
    }
    forall d ensures !Remembers(w, d, op.id) {
      if Remembers(w, d, op.id) { RememberedHome(w, d, op.id); }
    }
    PutIn(w, Main(op.queue), raw, w');
    NothingLostAfter(w, w', op.id, In(Main(op.queue)));
    assert !Remembers(w, c, op.id);
    ClientsAfter(w, w', c, op.id, w'.clients[c]);
  }

  lemma ReserveStep(w: World, c: nat, q: string)
    requires Inv(w) && c in w.clients
    ensures Inv(Next(w, Act(c, Reserve(q))))
  {
    var w' := Next(w, Act(c, Reserve(q)));
    var waiting := Entries(w.lists, Main(q));
    if waiting == [] {
      assert w'.lists == w.lists && w'.home == w.home && w'.clients == w.clients;
      assert w' == w;
    } else {
      var raw := waiting[0];
      var id := raw.message.id;
      assert EntryOk(w, Main(q), raw);
      forall d ensures !Remembers(w, d, id) {
        if Remembers(w, d, id) { RememberedHome(w, d, id); }
      }
      assert Distinct(waiting);
      var mid := w.(lists := w.lists[Main(q) := waiting[1..]]);
      TakeOut(w, Main(q), raw, waiting[1..]);
      assert w'.deliveries == w.deliveries[id := w.deliveries[id] + 1];
      PutIn(mid, Processing(q), raw, w');
      NothingLostAfter(w, w', id, In(Processing(q)));
      ClientsAfter(w, w', c, id, w'.clients[c]);
    }
  }

  /** The lists once client `c` has removed the entry of its held message `m`. */
  function Cleared(w: World, c: nat, m: Message): World
    requires c in w.clients
  {
    w.(lists := LRem(w.lists, Processing(m.queue), SettledRaw(w.clients[c].inflight, m)))
  }

  lemma ClearedOk(w: World, c: nat, m: Message)
    requires ListsOk(w) && ClientsOk(w)
    requires c in w.clients && m.id in w.clients[c].held && w.clients[c].held[m.id] == m
    ensures ListsOk(Cleared(w, c, m)) && TakenOut(w.lists, Cleared(w, c, m).lists, m.id)
    ensures Absent(Cleared(w, c, m).lists, m.id)
    ensures m.id in w.home && m.id in w.deliveries && w.deliveries[m.id] == m.attempts
  {
    assert Remembers(w, c, m.id);
    assert Tracked(w, w.clients[c], m.id);
    var raw, key := w.clients[c].inflight[m.id], Processing(m.queue);
    assert EntryOk(w, key, raw);
    assert Distinct(Entries(w.lists, key));
    RemoveFirstDistinct(Entries(w.lists, key), raw);
    TakeOut(w, key, raw, RemoveFirst(Entries(w.lists, key), raw));
  }

  /** What is left after an acknowledgement. */
  lemma AckLists(mid: World, w': World, id: string)
    requires ListsOk(mid) && Absent(mid.lists, id)
    requires w'.lists == mid.lists && w'.home == mid.home[id := Acked] && w'.deliveries == mid.deliveries
    ensures ListsOk(w')
  {
    forall k, r | r in Entries(w'.lists, k) ensures EntryOk(w', k, r) {
      assert EntryOk(mid, k, r);
      assert !Has(Entries(mid.lists, k), id);
    }
    assert forall k :: Distinct(Entries(mid.lists, k));
  }

  lemma SettleLists(w: World, c: nat, op: Op)
    requires Inv(w) && Legal(w, Act(c, op)) && Settles(op)
    ensures var w' := Next(w, Act(c, op));
      ListsOk(w') && NothingLost(w') && SameElsewhere(w, w', op.message.id)
  {
    var w', m := Next(w, Act(c, op)), op.message;
    var mid := Cleared(w, c, m);
    ClearedOk(w, c, m);
    if op.Ack? {
      AckLists(mid, w', m.id);
      NothingLostAfter(w, w', m.id, Acked);
    } else if op.Requeue? {
      PutIn(mid, Main(m.queue), Encode(m), w');
      NothingLostAfter(w, w', m.id, In(Main(m.queue)));
    } else {
      PutIn(mid, Dlq(m.queue), Raw(m, Some(op.error)), w');
      NothingLostAfter(w, w', m.id, In(Dlq(m.queue)));
    }
  }

  lemma SettleStep(w: World, c: nat, op: Op)
    requires Inv(w) && Legal(w, Act(c, op)) && Settles(op)
    ensures Inv(Next(w, Act(c, op)))
  {
    var w' := Next(w, Act(c, op));
    SettleLists(w, c, op);
    assert Remembers(w, c, op.message.id);
    RememberedHome(w, c, op.message.id);
    ClientsAfter(w, w', c, op.message.id, w'.clients[c]);
  }

  /** What a client may do at any time: publish under a fresh id, reserve, ask for the size, settle what it holds. */
  lemma MayAct(w: World, c: nat, op: Op)
    requires c in w.clients
    ensures Legal(w, Act(c, op)) <==>
      match op
      case Publish(_, id, _) => id !in w.home
      case Reserve(_) => true
      case Size(_) => true
      case Ack(m) => m.id in w.clients[c].held && w.clients[c].held[m.id] == m
      case Requeue(m) => m.id in w.clients[c].held && w.clients[c].held[m.id] == m
      case DeadLetter(m, _) => m.id in w.clients[c].held && w.clients[c].held[m.id] == m
    ensures Legal(w, Vanish(c)) && forall d :: d !in w.clients ==> Legal(w, Join(d))
  {
  }

  /** The entry that an operation pushes onto a list, if it pushes one. */
  predicate Pushes(op: Op, raw: Raw) {
    match op
    case Publish(q, id, payload) => raw == Encode(Message(id, q, payload, 0))
    case Requeue(m) => raw == Encode(m)
    case DeadLetter(m, error) => raw == Raw(m, Some(error))
    case _ => false
  }

  lemma RemoveFirstSubset(raws: seq<Raw>, raw: Raw)
    ensures forall r :: r in RemoveFirst(raws, raw) ==> r in raws
  {
  }

  /** Entries are only moved around, except for the one an operation pushes. */
  lemma ActEntries(w: World, c: nat, op: Op, key: Key, raw: Raw)
    requires Legal(w, Act(c, op)) && raw in Entries(Next(w, Act(c, op)).lists, key)
    ensures (exists k :: raw in Entries(w.lists, k)) || Pushes(op, raw)
  {
    if Settles(op) {
      RemoveFirstSubset(Entries(w.lists, Processing(op.message.queue)), SettledRaw(w.clients[c].inflight, op.message));
    }
    if raw !in Entries(w.lists, key) && !Pushes(op, raw) {
      assert op.Reserve? && raw == Entries(w.lists, Main(op.queue))[0];
      assert raw in Entries(w.lists, Main(op.queue));
    }
  }

  /** Every step of every client keeps the invariant. */
  lemma StepKeepsInv(w: World, step: Step)
    requires Inv(w) && Legal(w, step)
    ensures Inv(Next(w, step))
  {
    match step
    case Join(c) =>
      var w' := Next(w, step);
      assert forall d, id :: Remembers(w', d, id) ==> Remembers(w, d, id) && w'.clients[d] == w.clients[d];
      assert forall d, id :: Remembers(w, d, id) ==> Tracked(w, w.clients[d], id);
      assert forall d, id :: Remembers(w', d, id) ==> Tracked(w', w'.clients[d], id);
      SameLists(w, w');
    case Vanish(c) =>
      var w' := Next(w, step);
      assert forall d, id :: Remembers(w', d, id) ==> Remembers(w, d, id) && w'.clients[d] == w.clients[d];
      assert forall d, id :: Remembers(w, d, id) ==> Tracked(w, w.clients[d], id);
      assert forall d, id :: Remembers(w', d, id) ==> Tracked(w', w'.clients[d], id);
      SameLists(w, w');
    case Act(c, op) =>
      if op.Publish? {
        PublishStep(w, c, op);
      } else if op.Reserve? {
        ReserveStep(w, c, op.queue);
      } else if op.Size? {
        assert Next(w, step) == w;
      } else {
        SettleStep(w, c, op);
      }
  }

  lemma SameLists(w: World, w': World)
    requires ListsOk(w) && NothingLost(w)
    requires w'.lists == w.lists && w'.home == w.home && w'.deliveries == w.deliveries
    ensures ListsOk(w') && NothingLost(w')
  {
    forall key, raw | raw in Entries(w'.lists, key) ensures EntryOk(w', key, raw) {
      assert EntryOk(w, key, raw);
    }
    assert forall key :: Distinct(Entries(w.lists, key));
  }

  // Whole runs.

  ghost predicate LegalRun(w: World, steps: seq<Step>)
    decreases |steps|
  {
    steps != [] ==> Legal(w, steps[0]) && LegalRun(Next(w, steps[0]), steps[1..])
  }

  ghost function Run(w: World, steps: seq<Step>): World
    requires LegalRun(w, steps)
    decreases |steps|
  {
    if steps == [] then w else Run(Next(w, steps[0]), steps[1..])
  }

  function PublishedBy(steps: seq<Step>): set<string> {
    set s | s in steps && s.Act? && s.op.Publish? :: s.op.id
  }

  function AckedBy(steps: seq<Step>): set<string> {
    set s | s in steps && s.Act? && s.op.Ack? :: s.op.message.id
  }

  lemma {:induction false} RunKeepsInv(w: World, steps: seq<Step>)
    requires Inv(w) && LegalRun(w, steps)
    ensures Inv(Run(w, steps))
    decreases |steps|
  {
    if steps != [] {
      StepKeepsInv(w, steps[0]);
      RunKeepsInv(Next(w, steps[0]), steps[1..]);
    }
  }

  lemma ByFirst(steps: seq<Step>)
    requires steps != []
    ensures PublishedBy(steps) == PublishedBy([steps[0]]) + PublishedBy(steps[1..])
    ensures AckedBy(steps) == AckedBy([steps[0]]) + AckedBy(steps[1..])
  {
    assert steps == [steps[0]] + steps[1..];
  }

  /** The ids ever published are those with a home; those acknowledged are those whose home says so. */
  lemma {:induction false} RunHomes(w: World, steps: seq<Step>)
    requires Inv(w) && LegalRun(w, steps)
    ensures Run(w, steps).home.Keys == w.home.Keys + PublishedBy(steps)
    ensures AckedHomes(Run(w, steps)) == AckedHomes(w) + AckedBy(steps)
    decreases |steps|
  {
    if steps != [] {
      ByFirst(steps);
      StepKeepsInv(w, steps[0]);
      HomeAfter(w, steps[0]);
      RunHomes(Next(w, steps[0]), steps[1..]);
    }
  }

  function AckedHomes(w: World): set<string> {
    set id | id in w.home && w.home[id] == Acked
  }

  lemma OfOne(step: Step)
    ensures PublishedBy([step]) == if step.Act? && step.op.Publish? then {step.op.id} else {}
    ensures AckedBy([step]) == if step.Act? && step.op.Ack? then {step.op.message.id} else {}
  {
    assert step in [step];
  }

  lemma AckedHomesUpdate(w: World, w': World, id: string, place: Place)
    requires w'.home == w.home[id := place]
    ensures AckedHomes(w') == if place == Acked then AckedHomes(w) + {id} else AckedHomes(w) - {id}
  {
  }

  /** A step publishes at most its own id, acknowledges at most its own message, and unacknowledges none. */
  lemma HomeAfter(w: World, step: Step)
    requires Inv(w) && Legal(w, step)
    ensures Next(w, step).home.Keys == w.home.Keys + PublishedBy([step])
    ensures AckedHomes(Next(w, step)) == AckedHomes(w) + AckedBy([step])
  {
    OfOne(step);
    if step.Act? {
      var w', op := Next(w, step), step.op;
      if Settles(op) {
        var id := op.message.id;
        assert Remembers(w, step.client, id);
        RememberedHome(w, step.client, id);
        AckedHomesUpdate(w, w', id, w'.home[id]);
      } else if op.Publish? {
        AckedHomesUpdate(w, w', op.id, In(Main(op.queue)));
      } else if op.Reserve? && Entries(w.lists, Main(op.queue)) != [] {
        var raw := Entries(w.lists, Main(op.queue))[0];
        assert EntryOk(w, Main(op.queue), raw);
        AckedHomesUpdate(w, w', raw.message.id, In(Processing(op.queue)));
      }
    }
  }

  /**
   Conservation: after any interleaving of any clients, every published id is acknowledged and in no
   list, or it is in exactly one list, exactly once.  Nothing else is in any list.
   */
  lemma Conservation(steps: seq<Step>)
    requires LegalRun(Empty, steps)
    ensures var w := Run(Empty, steps);
      && (forall key, raw :: raw in Entries(w.lists, key) ==> raw.message.id in PublishedBy(steps))
      && forall id :: id in PublishedBy(steps) ==>
        if id in AckedBy(steps) then Absent(w.lists, id) else OncePresent(w.lists, id)
  {
    assert Inv(Empty);
    RunKeepsInv(Empty, steps);
    RunHomes(Empty, steps);
    var w := Run(Empty, steps);
    assert forall id :: id in AckedHomes(w) <==> id in w.home && w.home[id] == Acked;
    forall key, raw | raw in Entries(w.lists, key) ensures raw.message.id in PublishedBy(steps) {
      assert EntryOk(w, key, raw);
    }
    forall id | id in PublishedBy(steps)
      ensures if id in AckedBy(steps) then Absent(w.lists, id) else OncePresent(w.lists, id)
    {
      forall key | Has(Entries(w.lists, key), id) ensures w.home[id] == In(key) {
        var raw :| raw in Entries(w.lists, key) && raw.message.id == id;
        assert EntryOk(w, key, raw);
      }
      if w.home[id].In? {
        Located(w, id);
      }
    }
  }

  ghost predicate At(lists: Lists, key: Key, i: int, id: string) {
    0 <= i < |Entries(lists, key)| && Entries(lists, key)[i].message.id == id
  }

  ghost predicate OncePresent(lists: Lists, id: string) {
    exists key, i :: At(lists, key, i, id) && forall k, j :: At(lists, k, j, id) ==> k == key && j == i
  }

  lemma Located(w: World, id: string)
    requires Inv(w) && id in w.home && w.home[id].In?
    ensures OncePresent(w.lists, id)
  {
    var key := w.home[id].key;
    assert Has(Entries(w.lists, key), id);
    var raw :| raw in Entries(w.lists, key) && raw.message.id == id;
    var i :| 0 <= i < |Entries(w.lists, key)| && Entries(w.lists, key)[i] == raw;
    assert At(w.lists, key, i, id);
    forall k, j | At(w.lists, k, j, id) ensures k == key && j == i {
      assert EntryOk(w, k, Entries(w.lists, k)[j]);
      assert Distinct(Entries(w.lists, key));
    }
  }

  /** Settling a held message removes exactly its own entry, from exactly the processing list it is in. */
  lemma LRemRemovesTheRightEntry(steps: seq<Step>, c: nat, m: Message)
    requires LegalRun(Empty, steps)
    requires var w := Run(Empty, steps); c in w.clients && m.id in w.clients[c].held && w.clients[c].held[m.id] == m
    ensures var w := Run(Empty, steps);
      var before := Entries(w.lists, Processing(m.queue));
      var after := RemoveFirst(before, SettledRaw(w.clients[c].inflight, m));
      exists i :: At(w.lists, Processing(m.queue), i, m.id) && after == before[..i] + before[i + 1..]
  {
    assert Inv(Empty);
    RunKeepsInv(Empty, steps);
    var w := Run(Empty, steps);
    assert Remembers(w, c, m.id);
    assert Tracked(w, w.clients[c], m.id);
    var before := Entries(w.lists, Processing(m.queue));
    var i := RemoveFirstAt(before, w.clients[c].inflight[m.id]);
    assert At(w.lists, Processing(m.queue), i, m.id);
  }

  /**
   Why requeue and dead-letter count as one step each: between their LREM and their RPUSH the message
   is in no list at all, so a client that vanished there would lose it.
   */
  lemma NowhereBetweenCommands(steps: seq<Step>, c: nat, m: Message)
    requires LegalRun(Empty, steps)
    requires var w := Run(Empty, steps); c in w.clients && m.id in w.clients[c].held && w.clients[c].held[m.id] == m
    ensures var w := Run(Empty, steps);
      m.id in PublishedBy(steps) && m.id !in AckedBy(steps)
      && Absent(LRem(w.lists, Processing(m.queue), SettledRaw(w.clients[c].inflight, m)), m.id)
  {
    assert Inv(Empty);
    RunKeepsInv(Empty, steps);
    RunHomes(Empty, steps);
    var w := Run(Empty, steps);
    assert Remembers(w, c, m.id);
    RememberedHome(w, c, m.id);
    assert m.id !in AckedHomes(w);
    ClearedOk(w, c, m);
  }

  lemma RemoveFirstAt(raws: seq<Raw>, raw: Raw) returns (i: nat)
    requires raw in raws
    ensures i < |raws| && raws[i] == raw && RemoveFirst(raws, raw) == raws[..i] + raws[i + 1..]
  {
    if raws[0] == raw {
      i := 0;
    } else {
      var j := RemoveFirstAt(raws[1..], raw);
      i := j + 1;
      assert raws[..i] == [raws[0]] + raws[1..][..j];
    }
  }

  /** The messages handed out by `reserve` over a run, oldest first. */
  ghost function Log(w: World, steps: seq<Step>): seq<Message>
    requires LegalRun(w, steps)
    decreases |steps|
  {
    if steps == [] then [] else HandedOut(w, steps[0]) + Log(Next(w, steps[0]), steps[1..])
  }

  function HandedOut(w: World, step: Step): seq<Message> {
    if step.Act? && step.client in w.clients then
      match RedisStep(Redis(w.lists, w.clients[step.client].inflight), step.op).1
      case Received(Some(m)) => [m]
      case _ => []
    else []
  }

  function TimesIn(log: seq<Message>, id: string): nat {
    if log == [] then 0 else (if log[0].id == id then 1 else 0) + TimesIn(log[1..], id)
  }

  /** The n-th time a message is handed out, to whichever client, it reports `attempts == n`. */
  lemma NthDeliveryReportsN(steps: seq<Step>, i: nat)
    requires LegalRun(Empty, steps) && i < |Log(Empty, steps)|
    ensures var log := Log(Empty, steps); log[i].attempts == TimesIn(log[..i + 1], log[i].id)
  {
    assert Inv(Empty);
    DeliveryCount(Empty, steps);
  }

  /** Each message of `log` reports its base count plus how often it occurs in `log` so far. */
  ghost predicate Consecutive(base: map<string, nat>, log: seq<Message>) {
    forall i :: 0 <= i < |log| ==> log[i].attempts == GetOr(base, log[i].id, 0) + TimesIn(log[..i + 1], log[i].id)
  }

  lemma ConsecutiveFrom(base: map<string, nat>, next: map<string, nat>, out: seq<Message>, later: seq<Message>)
    requires Consecutive(next, later) && |out| <= 1
    requires out == [] ==> forall id :: GetOr(next, id, 0) == GetOr(base, id, 0)
    requires out != [] ==> next == base[out[0].id := GetOr(base, out[0].id, 0) + 1] && out[0].attempts == next[out[0].id]
    ensures Consecutive(base, out + later)
  {
    var log := out + later;
    if out == [] {
      assert log == later;
      forall i | 0 <= i < |log| ensures log[i].attempts == GetOr(base, log[i].id, 0) + TimesIn(log[..i + 1], log[i].id) {
        assert GetOr(next, log[i].id, 0) == GetOr(base, log[i].id, 0);
      }
    } else {
      forall i | 0 <= i < |log| ensures log[i].attempts == GetOr(base, log[i].id, 0) + TimesIn(log[..i + 1], log[i].id) {
        assert log[..i + 1][1..] == later[..i];
        if i > 0 {
          assert log[i] == later[i - 1] && later[..i - 1 + 1] == later[..i];
        }
      }
    }
  }

  lemma {:induction false} DeliveryCount(w: World, steps: seq<Step>)
    requires Inv(w) && LegalRun(w, steps)
    ensures Consecutive(w.deliveries, Log(w, steps))
    decreases |steps|
  {
    if steps != [] {
      var w', rest := Next(w, steps[0]), steps[1..];
      StepKeepsInv(w, steps[0]);
      DeliveryCount(w', rest);
      DeliveredOnce(w, steps[0]);
      ConsecutiveFrom(w.deliveries, w'.deliveries, HandedOut(w, steps[0]), Log(w', rest));
    }
  }

  lemma DeliveredOnce(w: World, step: Step)
    requires Inv(w) && Legal(w, step)
    ensures var w', out := Next(w, step), HandedOut(w, step);
      && |out| <= 1
      && (out == [] ==> forall id :: GetOr(w'.deliveries, id, 0) == GetOr(w.deliveries, id, 0))
      && (out != [] ==> w'.deliveries == w.deliveries[out[0].id := GetOr(w.deliveries, out[0].id, 0) + 1]
                        && out[0].attempts == w'.deliveries[out[0].id])
  {
    if step.Act? {
      var op := step.op;
      if op.Reserve? && Entries(w.lists, Main(op.queue)) != [] {
        assert EntryOk(w, Main(op.queue), Entries(w.lists, Main(op.queue))[0]);
      }
    }
  }
}
