/**
 The protocol as deployed: workers are clients of one Redis server, and `consume_once` drives their
 handlers.  Every step of the deployment is at most one step of the protocol, so what the protocol
 guarantees holds of the deployment.
 */
module Deployment {
  import opened Collections
  import opened Models
  import opened Messages
  import Q = MessageQueue
  import R = RedisWorld
  import P = Pipeline
  import V = Provenance
  import W = Workers

  datatype Settings = Settings(jobQueue: string, resultsQueue: string, maxRetries: int)

  /** The two queues have different names. */
  type Config = c: Settings | c.jobQueue != c.resultsQueue
    witness Settings("scrapeforge:jobs", "scrapeforge:results", 5)

  /** Where a client's `consume_once` is: at rest, or in the handler of a message, which has got this far. */
  datatype Activity =
    | Idle
    | Scraping(message: Q.Message, job: P.JobPhase)
    | Transforming(message: Q.Message, result: P.ResultPhase)

  datatype World = World(
    redis: R.World,
    workers: map<nat, Activity>,
    submitting: map<string, P.Submission>,
    jobs: map<string, P.Job>,
    store: map<ObjectKey, P.Raw>,
    articles: map<Digest, P.Row>)

  const Empty := World(R.Empty, map[], map[], map[], map[], map[])

  datatype Step =
    | Join(client: nat)
    | Vanish(client: nat)
    | Create(jobId: string, submission: P.Submission)
    | Submit(client: nat, jobId: string, id: string)
    | Reserve(client: nat, queue: string)
    | Archive(client: nat, page: ScrapeResult)
    | PublishPointer(client: nat, id: string)
    | Transform(client: nat, act: P.TransformStep)
    | Settle(client: nat, outcome: Option<string>)

  function JobOf(m: Q.Message, phase: P.JobPhase): P.JobMessage
    requires m.payload.JobPayload?
  {
    P.JobMessage(m.payload.jobId, m.payload.url, m.payload.bucket, phase)
  }

  function ResultOf(m: Q.Message, phase: P.ResultPhase): P.ResultMessage
    requires m.payload.PointerPayload?
  {
    P.ResultMessage(m.payload.pointer, phase)
  }

  /** The queue command that a step issues, if it issues one. */
  function Command(cfg: Config, w: World, step: Step): Option<Q.Op> {
    match step
    case Submit(_, j, id) =>
      if j in w.submitting
      then Some(Q.Publish(cfg.jobQueue, id, JobPayload(j, w.submitting[j].url, w.submitting[j].bucket)))
      else None
    case Reserve(_, q) => Some(Q.Reserve(q))
    case PublishPointer(c, id) =>
      if c in w.workers && w.workers[c].Scraping? && w.workers[c].job.Archived?
      then Some(Q.Publish(cfg.resultsQueue, id, PointerPayload(w.workers[c].job.pointer)))
      else None
    case Settle(c, outcome) =>
      if c in w.workers && !w.workers[c].Idle?
      then Some(Q.Settlement(w.workers[c].message, outcome, cfg.maxRetries))
      else None
    case _ => None
  }

  /** A handler returns after its last effect, and raises only before it. */
  predicate MayEnd(activity: Activity, outcome: Option<string>) {
    match activity
    case Idle => false
    case Scraping(_, phase) =>
      if outcome == None then phase.PointerPublished? else phase.JobReserved? || phase.Archived?
    case Transforming(_, phase) =>
      if outcome == None then phase.Finished? else phase.Reserved? || phase.MarkedRunning? || phase.RowWritten?
  }

  /** The steps of the transform protocol that are the handler's own, not the queue's. */
  predicate IsHandlers(act: P.TransformStep) {
    !act.TakeResult? && !act.AckResult? && !act.RaiseResult? && !act.VanishResult?
  }

  predicate Legal(cfg: Config, site: P.Site, w: World, step: Step) {
    match step
    case Join(c) => R.Legal(w.redis, R.Join(c))
    case Vanish(c) => c in w.workers && R.Legal(w.redis, R.Vanish(c))
    case Create(j, _) => j !in w.jobs
    case Submit(c, j, id) =>
      && c in w.workers && w.workers[c].Idle? && j in w.submitting
      && R.Legal(w.redis, R.Act(c, Command(cfg, w, step).value))
    case Reserve(c, q) =>
      && c in w.workers && w.workers[c].Idle? && (q == cfg.jobQueue || q == cfg.resultsQueue)
      && R.Legal(w.redis, R.Act(c, Q.Reserve(q)))
    case Archive(c, _) =>
      c in w.workers && w.workers[c].Scraping? && w.workers[c].message.payload.JobPayload? && w.workers[c].job.JobReserved?
    case PublishPointer(c, id) =>
      && c in w.workers && w.workers[c].Scraping? && w.workers[c].message.payload.JobPayload? && w.workers[c].job.Archived?
      && R.Legal(w.redis, R.Act(c, Command(cfg, w, step).value))
    case Transform(c, act) =>
      && c in w.workers && w.workers[c].Transforming? && w.workers[c].message.payload.PointerPayload? && IsHandlers(act)
      && P.TransformEnabled(site, w.jobs, w.store, ResultOf(w.workers[c].message, w.workers[c].result), act)
    case Settle(c, outcome) =>
      && c in w.workers && MayEnd(w.workers[c], outcome)
      && R.Legal(w.redis, R.Act(c, Command(cfg, w, step).value))
  }

  function Reply(w: World, c: nat, op: Q.Op): Q.Reply
    requires c in w.redis.clients
  {
    Q.RedisStep(Q.Redis(w.redis.lists, w.redis.clients[c].inflight), op).1
  }

  /** What a client does with the answer to `reserve` on queue `q`. */
  function Taken(cfg: Config, q: string, reply: Q.Reply): Activity {
    match reply
    case Received(Some(m)) =>
      if q == cfg.jobQueue then Scraping(m, P.JobReserved(m.attempts)) else Transforming(m, P.Reserved(m.attempts))
    case _ => Idle
  }

  function Next(cfg: Config, site: P.Site, w: World, step: Step): World
    requires Legal(cfg, site, w, step)
  {
    match step
    case Join(c) => w.(redis := R.Next(w.redis, R.Join(c)), workers := w.workers[c := Idle])
    case Vanish(c) => w.(redis := R.Next(w.redis, R.Vanish(c)), workers := w.workers - {c})
    case Create(j, s) => w.(jobs := w.jobs[j := P.NewJob], submitting := w.submitting[j := s])
    case Submit(c, j, _) =>
      w.(redis := R.Next(w.redis, R.Act(c, Command(cfg, w, step).value)), submitting := w.submitting - {j})
    case Reserve(c, q) =>
      w.(redis := R.Next(w.redis, R.Act(c, Q.Reserve(q))), workers := w.workers[c := Taken(cfg, q, Reply(w, c, Q.Reserve(q)))])
    case Archive(c, result) =>
      var m := JobOf(w.workers[c].message, w.workers[c].job);
      w.(store := P.StoreAfter(w.store, m, P.Archive(result)),
         workers := w.workers[c := w.workers[c].(job := P.JobPhaseAfter(m, P.Archive(result), cfg.maxRetries))])
    case PublishPointer(c, id) =>
      w.(redis := R.Next(w.redis, R.Act(c, Command(cfg, w, step).value)),
         workers := w.workers[c := w.workers[c].(job := P.PointerPublished)])
    case Transform(c, act) =>
      var p := w.workers[c].message.payload.pointer;
      w.(jobs := P.JobsAfter(w.jobs, p, act), articles := P.ArticlesAfter(site, w.store, w.articles, p, act),
         workers := w.workers[c := w.workers[c].(result := P.ResultPhaseAfter(w.workers[c].result, act, cfg.maxRetries))])
    case Settle(c, _) =>
      w.(redis := R.Next(w.redis, R.Act(c, Command(cfg, w, step).value)), workers := w.workers[c := Idle])
  }

  /** The protocol step that a step of the deployment is, if it is one. */
  function Shadow(cfg: Config, site: P.Site, w: World, step: Step): Option<P.Step>
    requires Legal(cfg, site, w, step)
  {
    match step
    case Join(_) => None
    case Vanish(c) =>
      (match w.workers[c]
       case Idle => None
       case Scraping(m, _) => Some(P.Scraper(m.id, P.Vanish))
       case Transforming(m, _) => Some(P.Transform(m.id, P.VanishResult)))
    case Create(j, s) => Some(P.Create(j, s))
    case Submit(_, j, id) => Some(P.PublishJob(j, id))
    case Reserve(c, q) =>
      (match Taken(cfg, q, Reply(w, c, Q.Reserve(q)))
       case Idle => None
       case Scraping(m, _) => Some(P.Scraper(m.id, P.Take))
       case Transforming(m, _) => Some(P.Transform(m.id, P.TakeResult)))
    case Archive(c, result) => Some(P.Scraper(w.workers[c].message.id, P.Archive(result)))
    case PublishPointer(c, id) => Some(P.Scraper(w.workers[c].message.id, P.PublishPointer(id)))
    case Transform(c, act) => Some(P.Transform(w.workers[c].message.id, act))
    case Settle(c, outcome) =>
      if w.workers[c].Scraping?
      then Some(P.Scraper(w.workers[c].message.id, if outcome == None then P.Ack else P.Raise))
      else Some(P.Transform(w.workers[c].message.id, if outcome == None then P.AckResult else P.RaiseResult))
  }

  // How the two states correspond.

  /** A queued message carries what the protocol knows about it. */
  ghost predicate Carries(cfg: Config, a: P.World, m: Q.Message) {
    if m.queue == cfg.jobQueue
    then m.id in a.jobQueue && m.payload.JobPayload? && JobOf(m, a.jobQueue[m.id].phase) == a.jobQueue[m.id]
    else m.queue == cfg.resultsQueue && m.id in a.results && m.payload == PointerPayload(a.results[m.id].pointer)
  }

  /** The place of a JOB message and its phase. */
  predicate JobPlace(place: R.Place, deliveries: nat, phase: P.JobPhase) {
    match place
    case In(Main(_)) => phase == P.JobWaiting(deliveries)
    case In(Processing(_)) => !phase.JobWaiting? && !phase.JobSettled?
    case In(Dlq(_)) => phase.JobSettled?
    case Acked => phase.JobSettled?
  }

  predicate ResultPlace(place: R.Place, deliveries: nat, phase: P.ResultPhase) {
    match place
    case In(Main(_)) => phase == P.Waiting(deliveries)
    case In(Processing(_)) => !phase.Waiting? && !phase.Dead? && !phase.Acked?
    case In(Dlq(_)) => phase.Dead?
    case Acked => phase.Acked?
  }

  ghost predicate PlaceOk(redis: R.World, a: P.World, id: string) {
    && id in redis.home && id in redis.deliveries
    && (id in a.jobQueue ==> id !in a.results && JobPlace(redis.home[id], redis.deliveries[id], a.jobQueue[id].phase))
    && (id in a.results ==> ResultPlace(redis.home[id], redis.deliveries[id], a.results[id].phase))
  }

  predicate HasTries(phase: P.JobPhase, tries: nat) {
    phase == P.JobReserved(tries) || (phase.Archived? && phase.tries == tries) || phase.PointerPublished?
  }

  predicate HasDeliveries(phase: P.ResultPhase, tries: nat) {
    phase == P.Reserved(tries) || phase == P.MarkedRunning(tries) || phase == P.RowWritten(tries) || phase.Finished?
  }

  /** A client at work holds exactly the message it handles, and is where the protocol has it. */
  ghost predicate WorkerOk(cfg: Config, activity: Activity, client: R.Client, a: P.World) {
    match activity
    case Idle => client.held == map[]
    case Scraping(m, phase) =>
      && client.held == map[m.id := m] && m.queue == cfg.jobQueue && Carries(cfg, a, m)
      && a.jobQueue[m.id].phase == phase && HasTries(phase, m.attempts)
    case Transforming(m, phase) =>
      && client.held == map[m.id := m] && m.queue == cfg.resultsQueue && Carries(cfg, a, m)
      && a.results[m.id].phase == phase && HasDeliveries(phase, m.attempts)
  }

  ghost predicate EntriesOk(cfg: Config, redis: R.World, a: P.World) {
    forall key, raw :: raw in Q.Entries(redis.lists, key) ==> Carries(cfg, a, raw.message)
  }

  ghost predicate PlacesOk(redis: R.World, a: P.World) {
    && a.jobQueue.Keys + a.results.Keys == redis.home.Keys
    && forall id :: id in redis.home ==> PlaceOk(redis, a, id)
  }

  ghost predicate WorkersOk(cfg: Config, w: World, a: P.World) {
    && w.workers.Keys == w.redis.clients.Keys
    && forall c :: c in w.workers ==> WorkerOk(cfg, w.workers[c], w.redis.clients[c], a)
  }

  ghost predicate Sim(cfg: Config, w: World, a: P.World) {
    && R.Inv(w.redis)
    && a.jobs == w.jobs && a.store == w.store && a.articles == w.articles && a.submitting == w.submitting
    && EntriesOk(cfg, w.redis, a)
    && PlacesOk(w.redis, a)
    && WorkersOk(cfg, w, a)
  }

  // What a step leaves alone.

  /** The protocol knows the same about message `id`. */
  ghost predicate SameMessage(a: P.World, a': P.World, id: string) {
    && (id in a'.jobQueue <==> id in a.jobQueue) && (id in a.jobQueue ==> a'.jobQueue[id] == a.jobQueue[id])
    && (id in a'.results <==> id in a.results) && (id in a.results ==> a'.results[id] == a.results[id])
  }

  /** No message is forgotten, and none changes its content. */
  ghost predicate ContentsKept(a: P.World, a': P.World) {
    && (forall id :: id in a.jobQueue ==>
        id in a'.jobQueue && a'.jobQueue[id] == a.jobQueue[id].(phase := a'.jobQueue[id].phase))
    && (forall id :: id in a.results ==> id in a'.results && a'.results[id].pointer == a.results[id].pointer)
  }

  /** An operation on message `id` alone. */
  ghost predicate Touches(redis: R.World, redis': R.World, c: nat, id: string, client: R.Client) {
    && redis'.home.Keys == redis.home.Keys + {id} && redis'.deliveries.Keys == redis.deliveries.Keys + {id}
    && (forall x :: x in redis.home && x != id ==> redis'.home[x] == redis.home[x])
    && (forall x :: x in redis.deliveries && x != id ==> redis'.deliveries[x] == redis.deliveries[x])
    && redis'.clients == redis.clients[c := client]
  }

  /** The protocol knows something new only about message `id`. */
  ghost predicate OneMessage(a: P.World, a': P.World, id: string) {
    && ContentsKept(a, a') && (forall x :: x != id ==> SameMessage(a, a', x))
    && a'.jobQueue.Keys + a'.results.Keys == a.jobQueue.Keys + a.results.Keys + {id}
  }

  lemma CarriesKept(cfg: Config, a: P.World, a': P.World, m: Q.Message)
    requires ContentsKept(a, a') && Carries(cfg, a, m)
    ensures Carries(cfg, a', m)
  {
  }

  lemma EntriesKept(cfg: Config, redis: R.World, c: nat, op: Q.Op, a: P.World, a': P.World)
    requires EntriesOk(cfg, redis, a) && ContentsKept(a, a') && R.Legal(redis, R.Act(c, op))
    requires forall raw :: R.Pushes(op, raw) ==> Carries(cfg, a', raw.message)
    ensures EntriesOk(cfg, R.Next(redis, R.Act(c, op)), a')
  {
    forall key, raw | raw in Q.Entries(R.Next(redis, R.Act(c, op)).lists, key) ensures Carries(cfg, a', raw.message) {
      R.ActEntries(redis, c, op, key, raw);
      if k :| raw in Q.Entries(redis.lists, k) {
        CarriesKept(cfg, a, a', raw.message);
      }
    }
  }

  lemma PlacesKept(redis: R.World, redis': R.World, a: P.World, a': P.World, c: nat, id: string, client: R.Client)
    requires PlacesOk(redis, a) && Touches(redis, redis', c, id, client) && OneMessage(a, a', id)
    requires PlaceOk(redis', a', id)
    ensures PlacesOk(redis', a')
  {
    forall x | x in redis'.home ensures PlaceOk(redis', a', x) {
      if x != id {
        assert PlaceOk(redis, a, x);
        assert SameMessage(a, a', x);
      }
    }
  }

  /** Only client `c` has moved on. */
  lemma WorkersKept(cfg: Config, w: World, w': World, a: P.World, a': P.World, c: nat, activity: Activity, client: R.Client)
    requires WorkersOk(cfg, w, a) && ContentsKept(a, a')
    requires w'.workers == w.workers[c := activity] && w'.redis.clients == w.redis.clients[c := client]
    requires WorkerOk(cfg, activity, client, a')
    requires forall d :: d in w.workers && d != c && !w.workers[d].Idle? ==> SameMessage(a, a', w.workers[d].message.id)
    ensures WorkersOk(cfg, w', a')
  {
    forall d | d in w'.workers ensures WorkerOk(cfg, w'.workers[d], w'.redis.clients[d], a') {
      if d != c {
        assert WorkerOk(cfg, w.workers[d], w.redis.clients[d], a);
      }
    }
  }

  /** The message of a client at work is in the processing list, and no other client works on it. */
  lemma WorkedOn(cfg: Config, w: World, a: P.World, c: nat)
    requires Sim(cfg, w, a) && c in w.workers && !w.workers[c].Idle?
    ensures var id := w.workers[c].message.id;
      && id in w.redis.home && w.redis.home[id].In? && w.redis.home[id].key.Processing?
      && R.Remembers(w.redis, c, id)
      && id in w.redis.deliveries && w.redis.deliveries[id] == w.workers[c].message.attempts
      && PlaceOk(w.redis, a, id)
      && forall d :: d in w.workers && d != c && !w.workers[d].Idle? ==> w.workers[d].message.id != id
  {
    var m := w.workers[c].message;
    assert WorkerOk(cfg, w.workers[c], w.redis.clients[c], a);
    assert R.Remembers(w.redis, c, m.id);
    R.RememberedHome(w.redis, c, m.id);
    R.ClearedOk(w.redis, c, m);
    forall d | d in w.workers && d != c && !w.workers[d].Idle? ensures w.workers[d].message.id != m.id {
      assert WorkerOk(cfg, w.workers[d], w.redis.clients[d], a);
      if w.workers[d].message.id == m.id {
        assert R.Remembers(w.redis, d, m.id);
      }
    }
  }

  /** A message that is not in a processing list is worked on by no one. */
  lemma NotWorkedOn(cfg: Config, w: World, a: P.World, id: string)
    requires Sim(cfg, w, a)
    requires id in w.redis.home ==> !w.redis.home[id].In? || !w.redis.home[id].key.Processing?
    ensures forall d :: d in w.workers && !w.workers[d].Idle? ==> w.workers[d].message.id != id
  {
    forall d | d in w.workers && !w.workers[d].Idle? ensures w.workers[d].message.id != id {
      WorkedOn(cfg, w, a, d);
    }
  }

  // Each step of the deployment is at most one step of the protocol.

  /** `step` of the deployment is matched from `a`: by its shadow, or by nothing. */
  ghost predicate Matched(cfg: Config, site: P.Site, w: World, step: Step, a: P.World)
    requires Legal(cfg, site, w, step)
  {
    match Shadow(cfg, site, w, step)
    case None => Sim(cfg, Next(cfg, site, w, step), a)
    case Some(s) => P.Legal(site, a, s) && Sim(cfg, Next(cfg, site, w, step), P.Next(site, cfg.maxRetries, a, s))
  }

  lemma CreateMatched(cfg: Config, site: P.Site, w: World, step: Step, a: P.World)
    requires Sim(cfg, w, a) && Legal(cfg, site, w, step) && step.Create?
    ensures Matched(cfg, site, w, step, a)
  {
    var w', a' := Next(cfg, site, w, step), P.Next(site, cfg.maxRetries, a, P.Create(step.jobId, step.submission));
    Unmoved(cfg, w, w', a, a');
  }

  /** Neither the queues, the workers nor the messages have changed. */
  lemma Unmoved(cfg: Config, w: World, w': World, a: P.World, a': P.World)
    requires Sim(cfg, w, a) && w'.redis == w.redis && w'.workers == w.workers
    requires a'.jobQueue == a.jobQueue && a'.results == a.results
    ensures EntriesOk(cfg, w'.redis, a') && PlacesOk(w'.redis, a') && WorkersOk(cfg, w', a')
  {
    forall key, raw | raw in Q.Entries(w'.redis.lists, key) ensures Carries(cfg, a', raw.message) {
      assert Carries(cfg, a, raw.message);
    }
    forall id | id in w'.redis.home ensures PlaceOk(w'.redis, a', id) {
      assert PlaceOk(w.redis, a, id);
    }
    forall c | c in w'.workers ensures WorkerOk(cfg, w'.workers[c], w'.redis.clients[c], a') {
      assert WorkerOk(cfg, w.workers[c], w.redis.clients[c], a);
    }
  }

  lemma JoinMatched(cfg: Config, site: P.Site, w: World, step: Step, a: P.World)
    requires Sim(cfg, w, a) && Legal(cfg, site, w, step) && step.Join?
    ensures Matched(cfg, site, w, step, a)
  {
    var c, w' := step.client, Next(cfg, site, w, step);
    R.StepKeepsInv(w.redis, R.Join(c));
    Unmoved(cfg, w, w, a, a);
    WorkersKept(cfg, w, w', a, a, c, Idle, R.Client(map[], map[]));
    forall id | id in w'.redis.home ensures PlaceOk(w'.redis, a, id) {
      assert PlaceOk(w.redis, a, id);
    }
  }

  // What the steps of the two systems do, in the terms of the correspondence.

  lemma Published(redis: R.World, c: nat, op: Q.Op)
    requires R.Inv(redis) && R.Legal(redis, R.Act(c, op)) && op.Publish?
    ensures var redis' := R.Next(redis, R.Act(c, op));
      && R.Inv(redis') && Touches(redis, redis', c, op.id, redis.clients[c])
      && op.id !in redis.home && redis'.home[op.id] == R.In(Q.Main(op.queue)) && redis'.deliveries[op.id] == 0
  {
    R.StepKeepsInv(redis, R.Act(c, op));
  }

  /** Where an operation that settles `m` leaves it. */
  function SettledPlace(op: Q.Op, m: Q.Message): R.Place {
    if op.Ack? then R.Acked else R.In(if op.Requeue? then Q.Main(m.queue) else Q.Dlq(m.queue))
  }

  lemma Settled(redis: R.World, c: nat, op: Q.Op)
    requires R.Inv(redis) && R.Legal(redis, R.Act(c, op)) && R.Settles(op)
    ensures var redis', m := R.Next(redis, R.Act(c, op)), op.message;
      && R.Inv(redis') && m.id in redis.home && m.id in redis.deliveries
      && m.id in redis.clients[c].held
      && Touches(redis, redis', c, m.id, redis'.clients[c])
      && redis'.clients[c].held == redis.clients[c].held - {m.id}
      && m.id in redis'.home && m.id in redis'.deliveries && redis'.home[m.id] == SettledPlace(op, m)
      && redis'.deliveries[m.id] == redis.deliveries[m.id] == m.attempts
  {
    R.StepKeepsInv(redis, R.Act(c, op));
    R.ClearedOk(redis, c, op.message);
  }

  /** The message that `reserve` hands out. */
  ghost predicate HandedOut(redis: R.World, redis': R.World, c: nat, q: string, m: Q.Message) {
    && c in redis'.clients && c in redis.clients
    && Touches(redis, redis', c, m.id, redis'.clients[c])
    && m.id in redis.home && redis.home[m.id] == R.In(Q.Main(q)) && redis'.home[m.id] == R.In(Q.Processing(q))
    && m.id in redis.deliveries && redis'.deliveries[m.id] == m.attempts == redis.deliveries[m.id] + 1
    && redis'.clients[c].held == redis.clients[c].held[m.id := m]
    && m.queue == q
    && exists raw :: raw in Q.Entries(redis.lists, Q.Main(q)) && m == Q.Delivered(raw.message)
  }

  lemma Reserved(redis: R.World, c: nat, q: string)
    requires R.Inv(redis) && c in redis.clients
    ensures var redis', waiting := R.Next(redis, R.Act(c, Q.Reserve(q))), Q.Entries(redis.lists, Q.Main(q));
      var reply := Q.RedisStep(Q.Redis(redis.lists, redis.clients[c].inflight), Q.Reserve(q)).1;
      && R.Inv(redis')
      && (if waiting == [] then reply == Q.Received(None) && redis' == redis else
          && reply == Q.Received(Some(Q.Delivered(waiting[0].message)))
          && HandedOut(redis, redis', c, q, Q.Delivered(waiting[0].message)))
  {
    R.StepKeepsInv(redis, R.Act(c, Q.Reserve(q)));
    var waiting := Q.Entries(redis.lists, Q.Main(q));
    if waiting != [] {
      assert waiting[0] in waiting;
      assert R.EntryOk(redis, Q.Main(q), waiting[0]);
    } else {
      var redis' := R.Next(redis, R.Act(c, Q.Reserve(q)));
      assert redis'.lists == redis.lists && redis'.clients == redis.clients;
    }
  }

  /** An operation on one message, matched by a step of the protocol on that message. */
  lemma OneMessageMatched(cfg: Config, w: World, w': World, a: P.World, a': P.World, c: nat, op: Q.Op, id: string)
    requires Sim(cfg, w, a) && R.Legal(w.redis, R.Act(c, op)) && c in w.workers
    requires w'.redis == R.Next(w.redis, R.Act(c, op)) && c in w'.redis.clients && c in w'.workers
    requires w'.workers == w.workers[c := w'.workers[c]]
    requires Touches(w.redis, w'.redis, c, id, w'.redis.clients[c]) && OneMessage(a, a', id)
    requires forall raw :: R.Pushes(op, raw) ==> Carries(cfg, a', raw.message)
    requires PlaceOk(w'.redis, a', id) && WorkerOk(cfg, w'.workers[c], w'.redis.clients[c], a')
    requires forall d :: d in w.workers && d != c && !w.workers[d].Idle? ==> w.workers[d].message.id != id
    ensures EntriesOk(cfg, w'.redis, a') && PlacesOk(w'.redis, a') && WorkersOk(cfg, w', a')
  {
    hide R.Next, R.Legal, R.Pushes, Carries, PlaceOk, WorkerOk, R.Inv;
    EntriesKept(cfg, w.redis, c, op, a, a');
    PlacesKept(w.redis, w'.redis, a, a', c, id, w'.redis.clients[c]);
    WorkersKept(cfg, w, w', a, a', c, w'.workers[c], w'.redis.clients[c]);
  }

  /** A message published in the protocol is new there, and its content is what was published. */
  lemma NewJobMessage(site: P.Site, maxRetries: int, a: P.World, j: string, id: string)
    requires j in a.submitting && id !in a.jobQueue && id !in a.results
    ensures var a' := P.Next(site, maxRetries, a, P.PublishJob(j, id));
      && OneMessage(a, a', id) && id !in a'.results && a'.jobs == a.jobs && a'.store == a.store && a'.articles == a.articles
      && a'.submitting == a.submitting - {j}
      && id in a'.jobQueue
      && a'.jobQueue[id] == P.JobMessage(j, a.submitting[j].url, a.submitting[j].bucket, P.JobWaiting(0))
  {
  }

  /** A client at rest stays at rest. */
  lemma IdleStays(cfg: Config, w: World, a: P.World, a': P.World, c: nat)
    requires Sim(cfg, w, a) && c in w.workers && w.workers[c].Idle?
    ensures WorkerOk(cfg, w.workers[c], w.redis.clients[c], a')
  {
    assert WorkerOk(cfg, w.workers[c], w.redis.clients[c], a);
  }

  lemma NewId(cfg: Config, w: World, a: P.World, id: string)
    requires Sim(cfg, w, a)
    ensures id !in w.redis.home <==> id !in a.jobQueue && id !in a.results
  {
    assert id in a.jobQueue.Keys + a.results.Keys <==> id in a.jobQueue || id in a.results;
  }

  lemma SubmitMatched(cfg: Config, site: P.Site, w: World, step: Step, a: P.World)
    requires Sim(cfg, w, a) && Legal(cfg, site, w, step) && step.Submit?
    ensures Matched(cfg, site, w, step, a)
  {
    hide R.Next, R.Inv, P.Next, EntriesOk, PlacesOk, WorkersOk, WorkerOk;
    var c, j, id := step.client, step.jobId, step.id;
    var op := Command(cfg, w, step).value;
    var w' := Next(cfg, site, w, step);
    Client(cfg, w, a, c);
    Published(w.redis, c, op);
    NotWorkedOn(cfg, w, a, id);
    NewId(cfg, w, a, id);
    var a' := P.Next(site, cfg.maxRetries, a, P.PublishJob(j, id));
    NewJobMessage(site, cfg.maxRetries, a, j, id);
    IdleStays(cfg, w, a, a', c);
    OneMessageMatched(cfg, w, w', a, a', c, op, id);
  }

  lemma Client(cfg: Config, w: World, a: P.World, c: nat)
    requires Sim(cfg, w, a) && c in w.workers
    ensures c in w.redis.clients && WorkerOk(cfg, w.workers[c], w.redis.clients[c], a)
  {
  }

  /** A JOB message stays one, and a RESULTS message too. */
  ghost predicate SameKind(a: P.World, a': P.World, id: string) {
    (id in a'.jobQueue <==> id in a.jobQueue) && (id in a'.results <==> id in a.results)
  }

  /** A handler moves on without a queue operation. */
  lemma AdvancedPlace(cfg: Config, w: World, activity: Activity, a: P.World, a': P.World, c: nat)
    requires Sim(cfg, w, a) && c in w.workers && !w.workers[c].Idle? && !activity.Idle?
    requires activity.message == w.workers[c].message && activity.Scraping? == w.workers[c].Scraping?
    requires SameKind(a, a', activity.message.id) && WorkerOk(cfg, activity, w.redis.clients[c], a')
    ensures PlaceOk(w.redis, a', activity.message.id)
  {
    WorkedOn(cfg, w, a, c);
    Client(cfg, w, a, c);
    hide R.Inv, EntriesOk, PlacesOk, WorkersOk;
  }

  lemma Advanced(cfg: Config, w: World, w': World, a: P.World, a': P.World, c: nat)
    requires Sim(cfg, w, a) && c in w.workers && !w.workers[c].Idle? && w'.redis == w.redis
    requires c in w'.workers && w'.workers == w.workers[c := w'.workers[c]]
    requires !w'.workers[c].Idle? && w'.workers[c].message == w.workers[c].message
    requires w'.workers[c].Scraping? == w.workers[c].Scraping?
    requires OneMessage(a, a', w.workers[c].message.id) && SameKind(a, a', w.workers[c].message.id) && c in w.redis.clients
    requires WorkerOk(cfg, w'.workers[c], w.redis.clients[c], a')
    ensures EntriesOk(cfg, w'.redis, a') && PlacesOk(w'.redis, a') && WorkersOk(cfg, w', a')
  {
    hide Carries, WorkerOk, PlaceOk, R.Inv, EntriesOk, PlacesOk, WorkersOk, SameKind;
    var id := w.workers[c].message.id;
    WorkedOn(cfg, w, a, c);
    AdvancedPlace(cfg, w, w'.workers[c], a, a', c);
    SameEntries(cfg, w.redis, a, a');
    InHome(w.redis, a, id);
    PlacesKept(w.redis, w.redis, a, a', c, id, w.redis.clients[c]);
    WorkersKept(cfg, w, w', a, a', c, w'.workers[c], w.redis.clients[c]);
  }

  lemma SameEntries(cfg: Config, redis: R.World, a: P.World, a': P.World)
    requires EntriesOk(cfg, redis, a) && ContentsKept(a, a')
    ensures EntriesOk(cfg, redis, a')
  {
    forall key, raw | raw in Q.Entries(redis.lists, key) ensures Carries(cfg, a', raw.message) {
      CarriesKept(cfg, a, a', raw.message);
    }
  }

  lemma InHome(redis: R.World, a: P.World, id: string)
    requires R.Inv(redis) && PlacesOk(redis, a) && id in redis.home
    ensures redis.home.Keys == redis.home.Keys + {id} && redis.deliveries.Keys == redis.deliveries.Keys + {id}
  {
  }

  /** A scraper step other than a publication changes the phase of its message, and the store. */
  lemma ScraperMessage(a: P.World, id: string, act: P.ScraperStep, maxRetries: int)
    requires id in a.jobQueue && P.ScraperEnabled(a.results.Keys, a.jobQueue[id], act) && !act.PublishPointer?
    ensures var a' := P.ScraperNext(a, id, act, maxRetries);
      && OneMessage(a, a', id) && SameKind(a, a', id)
      && id in a'.jobQueue
      && a'.jobQueue[id] == a.jobQueue[id].(phase := P.JobPhaseAfter(a.jobQueue[id], act, maxRetries))
      && a'.jobs == a.jobs && a'.articles == a.articles && a'.submitting == a.submitting
      && a'.store == P.StoreAfter(a.store, a.jobQueue[id], act)
  {
    hide P.JobPhaseAfter, P.StoreAfter;
  }

  lemma TransformMessage(site: P.Site, a: P.World, id: string, act: P.TransformStep, maxRetries: int)
    requires id in a.results && P.TransformEnabled(site, a.jobs, a.store, a.results[id], act)
    ensures var a' := P.TransformNext(site, a, id, act, maxRetries);
      && OneMessage(a, a', id) && SameKind(a, a', id)
      && id in a'.results
      && a'.results[id] == a.results[id].(phase := P.ResultPhaseAfter(a.results[id].phase, act, maxRetries))
      && a'.store == a.store && a'.submitting == a.submitting
      && a'.jobs == P.JobsAfter(a.jobs, a.results[id].pointer, act)
      && a'.articles == P.ArticlesAfter(site, a.store, a.articles, a.results[id].pointer, act)
  {
    hide P.JobsAfter, P.ArticlesAfter, P.ResultPhaseAfter;
  }

  lemma ArchiveMatched(cfg: Config, site: P.Site, w: World, step: Step, a: P.World)
    requires Sim(cfg, w, a) && Legal(cfg, site, w, step) && step.Archive?
    ensures Matched(cfg, site, w, step, a)
  {
    hide R.Inv, R.Next, EntriesOk, PlacesOk, WorkersOk, P.PointerFor, P.RawPayload;
    var c, act := step.client, P.Archive(step.page);
    var w', id := Next(cfg, site, w, step), w.workers[c].message.id;
    Client(cfg, w, a, c);
    assert a.jobQueue[id] == JobOf(w.workers[c].message, w.workers[c].job);
    ScraperMessage(a, id, act, cfg.maxRetries);
    Advanced(cfg, w, w', a, P.ScraperNext(a, id, act, cfg.maxRetries), c);
  }

  lemma TransformMatched(cfg: Config, site: P.Site, w: World, step: Step, a: P.World)
    requires Sim(cfg, w, a) && Legal(cfg, site, w, step) && step.Transform?
    ensures Matched(cfg, site, w, step, a)
  {
    hide R.Inv, R.Next, EntriesOk, PlacesOk, WorkersOk, P.JobsAfter, P.ArticlesAfter;
    var c, act := step.client, step.act;
    var w', m := Next(cfg, site, w, step), w.workers[c].message;
    Client(cfg, w, a, c);
    assert a.results[m.id] == ResultOf(m, w.workers[c].result);
    TransformMessage(site, a, m.id, act, cfg.maxRetries);
    Advanced(cfg, w, w', a, P.TransformNext(site, a, m.id, act, cfg.maxRetries), c);
  }

  /** The protocol's publication of a pointer in two parts: the new message, and the phase of the old one. */
  lemma PointerMessages(a: P.World, b: P.World, id: string, out: string, maxRetries: int)
    requires id in a.jobQueue && P.ScraperEnabled(a.results.Keys, a.jobQueue[id], P.PublishPointer(out))
    requires out !in a.jobQueue && out !in a.results
    requires b == a.(results := a.results[out := P.ResultMessage(a.jobQueue[id].phase.pointer, P.Waiting(0))])
    ensures var a' := P.ScraperNext(a, id, P.PublishPointer(out), maxRetries);
      && OneMessage(b, a', id) && SameKind(b, a', id)
      && id in a'.jobQueue && a'.jobQueue[id] == a.jobQueue[id].(phase := P.PointerPublished)
      && a'.jobs == a.jobs && a'.store == a.store && a'.articles == a.articles && a'.submitting == a.submitting
  {
  }

  lemma NewResultMessage(a: P.World, b: P.World, out: string, m: P.ResultMessage)
    requires out !in a.jobQueue && out !in a.results && b == a.(results := a.results[out := m])
    ensures OneMessage(a, b, out)
  {
  }

  /** Publishing a pointer: first the new message appears. */
  lemma PointerAppears(cfg: Config, w: World, w': World, a: P.World, b: P.World, c: nat, out: string, pointer: Pointer)
    requires Sim(cfg, w, a) && c in w.workers && c in w.redis.clients
    requires var op := Q.Publish(cfg.resultsQueue, out, PointerPayload(pointer));
      R.Legal(w.redis, R.Act(c, op)) && w' == w.(redis := R.Next(w.redis, R.Act(c, op)))
    requires b == a.(results := a.results[out := P.ResultMessage(pointer, P.Waiting(0))])
    ensures Sim(cfg, w', b) && w'.redis.clients == w.redis.clients
  {
    hide R.Inv, R.Next, EntriesOk, PlacesOk, WorkersOk, OneMessage, WorkerOk;
    var op := Q.Publish(cfg.resultsQueue, out, PointerPayload(pointer));
    Client(cfg, w, a, c);
    Published(w.redis, c, op);
    NotWorkedOn(cfg, w, a, out);
    NewId(cfg, w, a, out);
    NewResultMessage(a, b, out, P.ResultMessage(pointer, P.Waiting(0)));
    StillOk(cfg, w.workers[c], w.redis.clients[c], a, b);
    OneMessageMatched(cfg, w, w', a, b, c, op, out);
  }

  lemma StillOk(cfg: Config, activity: Activity, client: R.Client, a: P.World, b: P.World)
    requires WorkerOk(cfg, activity, client, a) && (!activity.Idle? ==> SameMessage(a, b, activity.message.id))
    ensures WorkerOk(cfg, activity, client, b)
  {
  }

  /** Then the handler moves on. */
  lemma PointerPublished(cfg: Config, w: World, w': World, a: P.World, c: nat, out: string)
    requires Sim(cfg, w, a) && c in w.workers && c in w.redis.clients && w.workers[c].Scraping? && w.workers[c].job.Archived?
    requires var op := Q.Publish(cfg.resultsQueue, out, PointerPayload(w.workers[c].job.pointer));
      && R.Legal(w.redis, R.Act(c, op))
      && w' == w.(redis := R.Next(w.redis, R.Act(c, op)), workers := w.workers[c := w.workers[c].(job := P.PointerPublished)])
    ensures var id := w.workers[c].message.id;
      && id in a.jobQueue && P.ScraperEnabled(a.results.Keys, a.jobQueue[id], P.PublishPointer(out))
      && Sim(cfg, w', P.ScraperNext(a, id, P.PublishPointer(out), cfg.maxRetries))
  {
    hide R.Inv, R.Next, EntriesOk, PlacesOk, WorkersOk, Touches, OneMessage, SameKind, P.ScraperNext;
    var m, pointer := w.workers[c].message, w.workers[c].job.pointer;
    Client(cfg, w, a, c);
    Published(w.redis, c, Q.Publish(cfg.resultsQueue, out, PointerPayload(pointer)));
    NewId(cfg, w, a, out);
    var between := w.(redis := w'.redis);
    var b := a.(results := a.results[out := P.ResultMessage(pointer, P.Waiting(0))]);
    PointerMessages(a, b, m.id, out, cfg.maxRetries);
    PointerAppears(cfg, w, between, a, b, c, out, pointer);
    var a' := P.ScraperNext(a, m.id, P.PublishPointer(out), cfg.maxRetries);
    Advanced(cfg, between, w', b, a', c);
  }

  lemma PublishMatched(cfg: Config, site: P.Site, w: World, step: Step, a: P.World)
    requires Sim(cfg, w, a) && Legal(cfg, site, w, step) && step.PublishPointer?
    ensures Matched(cfg, site, w, step, a)
  {
    hide R.Next, R.Inv, Sim, P.ScraperNext;
    PointerPublished(cfg, w, Next(cfg, site, w, step), a, step.client, step.id);
  }

  /** A delivered message has the content of its queue entry. */
  lemma DeliveredCarries(cfg: Config, redis: R.World, a: P.World, q: string, m: Q.Message)
    requires EntriesOk(cfg, redis, a)
    requires exists raw :: raw in Q.Entries(redis.lists, Q.Main(q)) && m == Q.Delivered(raw.message)
    ensures Carries(cfg, a, m)
  {
    var raw :| raw in Q.Entries(redis.lists, Q.Main(q)) && m == Q.Delivered(raw.message);
    assert Carries(cfg, a, raw.message);
  }

  /** The protocol message that `reserve` hands out is waiting, with one delivery less. */
  lemma Awaited(cfg: Config, w: World, a: P.World, redis': R.World, c: nat, q: string, m: Q.Message)
    requires Sim(cfg, w, a) && HandedOut(w.redis, redis', c, q, m) && (q == cfg.jobQueue || q == cfg.resultsQueue)
    ensures Carries(cfg, a, m) && PlaceOk(w.redis, a, m.id)
    ensures q == cfg.jobQueue ==> m.id in a.jobQueue && a.jobQueue[m.id].phase == P.JobWaiting(m.attempts - 1)
    ensures q != cfg.jobQueue ==> m.id in a.results && a.results[m.id].phase == P.Waiting(m.attempts - 1)
  {
    DeliveredCarries(cfg, w.redis, a, q, m);
  }

  lemma JobTaken(cfg: Config, w: World, w': World, a: P.World, c: nat, m: Q.Message)
    requires Sim(cfg, w, a) && c in w.workers && w.workers[c].Idle?
    requires w'.redis == R.Next(w.redis, R.Act(c, Q.Reserve(cfg.jobQueue))) && R.Legal(w.redis, R.Act(c, Q.Reserve(cfg.jobQueue)))
    requires HandedOut(w.redis, w'.redis, c, cfg.jobQueue, m)
    requires w'.workers == w.workers[c := Scraping(m, P.JobReserved(m.attempts))]
    ensures m.id in a.jobQueue && P.ScraperEnabled(a.results.Keys, a.jobQueue[m.id], P.Take)
    ensures var a' := P.ScraperNext(a, m.id, P.Take, cfg.maxRetries);
      && EntriesOk(cfg, w'.redis, a') && PlacesOk(w'.redis, a') && WorkersOk(cfg, w', a')
      && a' == a.(jobQueue := a'.jobQueue)
  {
    hide R.Next, R.Inv, EntriesOk, PlacesOk, WorkersOk;
    Client(cfg, w, a, c);
    Awaited(cfg, w, a, w'.redis, c, cfg.jobQueue, m);
    NotWorkedOn(cfg, w, a, m.id);
    ScraperMessage(a, m.id, P.Take, cfg.maxRetries);
    var a' := P.ScraperNext(a, m.id, P.Take, cfg.maxRetries);
    assert PlaceOk(w'.redis, a', m.id) && WorkerOk(cfg, w'.workers[c], w'.redis.clients[c], a');
    hide PlaceOk, WorkerOk, OneMessage;
    OneMessageMatched(cfg, w, w', a, a', c, Q.Reserve(cfg.jobQueue), m.id);
  }

  lemma ResultTaken(cfg: Config, site: P.Site, w: World, w': World, a: P.World, c: nat, m: Q.Message)
    requires Sim(cfg, w, a) && c in w.workers && w.workers[c].Idle?
    requires w'.redis == R.Next(w.redis, R.Act(c, Q.Reserve(cfg.resultsQueue))) && R.Legal(w.redis, R.Act(c, Q.Reserve(cfg.resultsQueue)))
    requires HandedOut(w.redis, w'.redis, c, cfg.resultsQueue, m)
    requires w'.workers == w.workers[c := Transforming(m, P.Reserved(m.attempts))]
    ensures m.id in a.results && P.TransformEnabled(site, a.jobs, a.store, a.results[m.id], P.TakeResult)
    ensures var a' := P.TransformNext(site, a, m.id, P.TakeResult, cfg.maxRetries);
      && EntriesOk(cfg, w'.redis, a') && PlacesOk(w'.redis, a') && WorkersOk(cfg, w', a')
      && a' == a.(results := a'.results)
  {
    hide R.Next, R.Inv, EntriesOk, PlacesOk, WorkersOk;
    Client(cfg, w, a, c);
    Awaited(cfg, w, a, w'.redis, c, cfg.resultsQueue, m);
    NotWorkedOn(cfg, w, a, m.id);
    TransformMessage(site, a, m.id, P.TakeResult, cfg.maxRetries);
    var a' := P.TransformNext(site, a, m.id, P.TakeResult, cfg.maxRetries);
    assert PlaceOk(w'.redis, a', m.id) && WorkerOk(cfg, w'.workers[c], w'.redis.clients[c], a');
    hide PlaceOk, WorkerOk, OneMessage;
    OneMessageMatched(cfg, w, w', a, a', c, Q.Reserve(cfg.resultsQueue), m.id);
  }

  lemma ReserveMatched(cfg: Config, site: P.Site, w: World, step: Step, a: P.World)
    requires Sim(cfg, w, a) && Legal(cfg, site, w, step) && step.Reserve?
    ensures Matched(cfg, site, w, step, a)
  {
    hide R.Next, R.Inv, EntriesOk, PlacesOk, WorkersOk, HandedOut, P.ScraperNext, P.TransformNext;
    var c, q := step.client, step.queue;
    var w', waiting := Next(cfg, site, w, step), Q.Entries(w.redis.lists, Q.Main(q));
    Reserved(w.redis, c, q);
    if waiting == [] {
      assert w'.workers == w.workers;
    } else if q == cfg.jobQueue {
      JobTaken(cfg, w, w', a, c, Q.Delivered(waiting[0].message));
    } else {
      ResultTaken(cfg, site, w, w', a, c, Q.Delivered(waiting[0].message));
    }
  }

  /** A client that has settled its only message holds none. */
  lemma NothingHeld(client: R.Client, client': R.Client, m: Q.Message)
    requires client.held == map[m.id := m] && client'.held == client.held - {m.id}
    ensures client'.held == map[]
  {
  }

  /** Whatever settling `m` pushes has the content of `m`. */
  lemma PushedCarries(cfg: Config, a: P.World, a': P.World, m: Q.Message, op: Q.Op)
    requires R.Settles(op) && op.message == m && Carries(cfg, a, m) && ContentsKept(a, a')
    ensures forall raw :: R.Pushes(op, raw) ==> Carries(cfg, a', raw.message)
  {
    CarriesKept(cfg, a, a', m);
  }

  /** Where a settled message is, against the phase the protocol gives it. */
  lemma JobSettledPlace(cfg: Config, redis': R.World, a: P.World, a': P.World, m: Q.Message, outcome: Option<string>, act: P.ScraperStep)
    requires m.id in a.jobQueue && m.id !in a.results && SameKind(a, a', m.id)
    requires act == (if outcome == None then P.Ack else P.Raise) && P.ScraperEnabled({}, a.jobQueue[m.id], act)
    requires act.Raise? ==> a.jobQueue[m.id].phase.tries == m.attempts
    requires a'.jobQueue[m.id].phase == P.JobPhaseAfter(a.jobQueue[m.id], act, cfg.maxRetries)
    requires m.id in redis'.home && m.id in redis'.deliveries && redis'.deliveries[m.id] == m.attempts
    requires redis'.home[m.id] == SettledPlace(Q.Settlement(m, outcome, cfg.maxRetries), m)
    ensures PlaceOk(redis', a', m.id)
  {
  }

  lemma ResultSettledPlace(cfg: Config, redis': R.World, a: P.World, a': P.World, m: Q.Message, outcome: Option<string>, act: P.TransformStep)
    requires m.id in a.results && m.id !in a.jobQueue && SameKind(a, a', m.id)
    requires act == (if outcome == None then P.AckResult else P.RaiseResult)
    requires var phase := a.results[m.id].phase;
      && (if act.AckResult? then phase.Finished? else HasDeliveries(phase, m.attempts) && !phase.Finished?)
      && a'.results[m.id].phase == P.ResultPhaseAfter(phase, act, cfg.maxRetries)
    requires m.id in redis'.home && m.id in redis'.deliveries && redis'.deliveries[m.id] == m.attempts
    requires redis'.home[m.id] == SettledPlace(Q.Settlement(m, outcome, cfg.maxRetries), m)
    ensures PlaceOk(redis', a', m.id)
  {
  }

  lemma JobSettled(cfg: Config, w: World, w': World, a: P.World, c: nat, outcome: Option<string>, act: P.ScraperStep)
    requires Sim(cfg, w, a) && c in w.workers && w.workers[c].Scraping? && MayEnd(w.workers[c], outcome)
    requires act == (if outcome == None then P.Ack else P.Raise)
    requires var op := Q.Settlement(w.workers[c].message, outcome, cfg.maxRetries);
      R.Legal(w.redis, R.Act(c, op)) && w' == w.(redis := R.Next(w.redis, R.Act(c, op)), workers := w.workers[c := Idle])
    ensures var id := w.workers[c].message.id;
      && id in a.jobQueue && P.ScraperEnabled(a.results.Keys, a.jobQueue[id], act)
      && Sim(cfg, w', P.ScraperNext(a, id, act, cfg.maxRetries))
  {
    hide R.Next, R.Inv, EntriesOk, PlacesOk, WorkersOk, P.ScraperNext, OneMessage, Touches;
    var m := w.workers[c].message;
    var op := Q.Settlement(m, outcome, cfg.maxRetries);
    Client(cfg, w, a, c);
    WorkedOn(cfg, w, a, c);
    Settled(w.redis, c, op);
    ScraperMessage(a, m.id, act, cfg.maxRetries);
    var a' := P.ScraperNext(a, m.id, act, cfg.maxRetries);
    NothingHeld(w.redis.clients[c], w'.redis.clients[c], m);
    JobSettledPlace(cfg, w'.redis, a, a', m, outcome, act);
    Content(a, a', m.id);
    PushedCarries(cfg, a, a', m, op);
    OneMessageMatched(cfg, w, w', a, a', c, op, m.id);
  }

  lemma Content(a: P.World, a': P.World, id: string)
    requires OneMessage(a, a', id)
    ensures ContentsKept(a, a')
  {
  }

  lemma ResultSettled(cfg: Config, site: P.Site, w: World, w': World, a: P.World, c: nat, outcome: Option<string>, act: P.TransformStep)
    requires Sim(cfg, w, a) && c in w.workers && w.workers[c].Transforming? && MayEnd(w.workers[c], outcome)
    requires act == (if outcome == None then P.AckResult else P.RaiseResult)
    requires var op := Q.Settlement(w.workers[c].message, outcome, cfg.maxRetries);
      R.Legal(w.redis, R.Act(c, op)) && w' == w.(redis := R.Next(w.redis, R.Act(c, op)), workers := w.workers[c := Idle])
    ensures var id := w.workers[c].message.id;
      && id in a.results && P.TransformEnabled(site, a.jobs, a.store, a.results[id], act)
      && Sim(cfg, w', P.TransformNext(site, a, id, act, cfg.maxRetries))
  {
    hide R.Next, R.Inv, EntriesOk, PlacesOk, WorkersOk, P.TransformNext, OneMessage, Touches;
    var m := w.workers[c].message;
    var op := Q.Settlement(m, outcome, cfg.maxRetries);
    Client(cfg, w, a, c);
    WorkedOn(cfg, w, a, c);
    Settled(w.redis, c, op);
    TransformMessage(site, a, m.id, act, cfg.maxRetries);
    var a' := P.TransformNext(site, a, m.id, act, cfg.maxRetries);
    NothingHeld(w.redis.clients[c], w'.redis.clients[c], m);
    ResultSettledPlace(cfg, w'.redis, a, a', m, outcome, act);
    Content(a, a', m.id);
    PushedCarries(cfg, a, a', m, op);
    OneMessageMatched(cfg, w, w', a, a', c, op, m.id);
  }

  lemma SettleMatched(cfg: Config, site: P.Site, w: World, step: Step, a: P.World)
    requires Sim(cfg, w, a) && Legal(cfg, site, w, step) && step.Settle?
    ensures Matched(cfg, site, w, step, a)
  {
    hide R.Next, R.Inv, Sim, P.ScraperNext, P.TransformNext;
    var c, w' := step.client, Next(cfg, site, w, step);
    if w.workers[c].Scraping? {
      JobSettled(cfg, w, w', a, c, step.outcome, if step.outcome == None then P.Ack else P.Raise);
    } else {
      ResultSettled(cfg, site, w, w', a, c, step.outcome, if step.outcome == None then P.AckResult else P.RaiseResult);
    }
  }

  lemma PlacesAfterVanish(redis: R.World, redis': R.World, a: P.World, a': P.World, id: string)
    requires PlacesOk(redis, a) && redis'.home == redis.home && redis'.deliveries == redis.deliveries
    requires id in redis.home && OneMessage(a, a', id) && PlaceOk(redis, a', id)
    ensures PlacesOk(redis', a')
  {
    forall x | x in redis'.home ensures PlaceOk(redis', a', x) {
      if x != id {
        assert PlaceOk(redis, a, x) && SameMessage(a, a', x);
      }
    }
  }

  lemma WorkersAfterVanish(cfg: Config, w: World, w': World, a: P.World, a': P.World, c: nat)
    requires WorkersOk(cfg, w, a) && w'.workers == w.workers - {c} && w'.redis.clients == w.redis.clients - {c}
    requires forall d :: d in w.workers && d != c && !w.workers[d].Idle? ==> SameMessage(a, a', w.workers[d].message.id)
    ensures WorkersOk(cfg, w', a')
  {
    hide SameMessage;
    forall d | d in w'.workers ensures WorkerOk(cfg, w'.workers[d], w'.redis.clients[d], a') {
      StillOk(cfg, w.workers[d], w.redis.clients[d], a, a');
    }
  }

  /** A client is gone; the message it worked on, if any, stays in its processing list for good. */
  lemma Vanished(cfg: Config, w: World, w': World, a: P.World, a': P.World, c: nat, id: string)
    requires Sim(cfg, w, a) && c in w.workers && R.Legal(w.redis, R.Vanish(c))
    requires w' == w.(redis := R.Next(w.redis, R.Vanish(c)), workers := w.workers - {c})
    requires id in w.redis.home && OneMessage(a, a', id) && PlaceOk(w.redis, a', id)
    requires forall d :: d in w.workers && d != c && !w.workers[d].Idle? ==> w.workers[d].message.id != id
    ensures R.Inv(w'.redis) && EntriesOk(cfg, w'.redis, a') && PlacesOk(w'.redis, a') && WorkersOk(cfg, w', a')
  {
    hide R.Inv, PlaceOk, PlacesOk, WorkersOk, Carries, SameMessage;
    R.StepKeepsInv(w.redis, R.Vanish(c));
    SameEntries(cfg, w.redis, a, a');
    PlacesAfterVanish(w.redis, w'.redis, a, a', id);
    WorkersAfterVanish(cfg, w, w', a, a', c);
  }

  lemma IdleVanished(cfg: Config, w: World, w': World, a: P.World, c: nat)
    requires Sim(cfg, w, a) && c in w.workers && R.Legal(w.redis, R.Vanish(c))
    requires w' == w.(redis := R.Next(w.redis, R.Vanish(c)), workers := w.workers - {c})
    ensures R.Inv(w'.redis) && EntriesOk(cfg, w'.redis, a) && PlacesOk(w'.redis, a) && WorkersOk(cfg, w', a)
  {
    R.StepKeepsInv(w.redis, R.Vanish(c));
    forall x | x in w'.redis.home ensures PlaceOk(w'.redis, a, x) {
      assert PlaceOk(w.redis, a, x);
    }
  }

  lemma ScraperVanished(cfg: Config, w: World, w': World, a: P.World, c: nat)
    requires Sim(cfg, w, a) && c in w.workers && w.workers[c].Scraping? && R.Legal(w.redis, R.Vanish(c))
    requires w' == w.(redis := R.Next(w.redis, R.Vanish(c)), workers := w.workers - {c})
    ensures var id := w.workers[c].message.id;
      && id in a.jobQueue && P.ScraperEnabled(a.results.Keys, a.jobQueue[id], P.Vanish)
      && Sim(cfg, w', P.ScraperNext(a, id, P.Vanish, cfg.maxRetries))
  {
    hide R.Next, R.Inv, EntriesOk, PlacesOk, WorkersOk;
    var id := w.workers[c].message.id;
    Client(cfg, w, a, c);
    WorkedOn(cfg, w, a, c);
    ScraperMessage(a, id, P.Vanish, cfg.maxRetries);
    var a' := P.ScraperNext(a, id, P.Vanish, cfg.maxRetries);
    assert PlaceOk(w.redis, a', id);
    hide PlaceOk, WorkerOk, OneMessage, P.ScraperNext;
    Vanished(cfg, w, w', a, a', c, id);
  }

  lemma TransformerVanished(cfg: Config, site: P.Site, w: World, w': World, a: P.World, c: nat)
    requires Sim(cfg, w, a) && c in w.workers && w.workers[c].Transforming? && R.Legal(w.redis, R.Vanish(c))
    requires w' == w.(redis := R.Next(w.redis, R.Vanish(c)), workers := w.workers - {c})
    ensures var id := w.workers[c].message.id;
      && id in a.results && P.TransformEnabled(site, a.jobs, a.store, a.results[id], P.VanishResult)
      && Sim(cfg, w', P.TransformNext(site, a, id, P.VanishResult, cfg.maxRetries))
  {
    hide R.Next, R.Inv, EntriesOk, PlacesOk, WorkersOk;
    var id := w.workers[c].message.id;
    Client(cfg, w, a, c);
    WorkedOn(cfg, w, a, c);
    TransformMessage(site, a, id, P.VanishResult, cfg.maxRetries);
    var a' := P.TransformNext(site, a, id, P.VanishResult, cfg.maxRetries);
    assert PlaceOk(w.redis, a', id);
    hide PlaceOk, WorkerOk, OneMessage, P.TransformNext;
    Vanished(cfg, w, w', a, a', c, id);
  }

  lemma VanishMatched(cfg: Config, site: P.Site, w: World, step: Step, a: P.World)
    requires Sim(cfg, w, a) && Legal(cfg, site, w, step) && step.Vanish?
    ensures Matched(cfg, site, w, step, a)
  {
    hide R.Next, R.Inv, P.ScraperNext, P.TransformNext, EntriesOk, PlacesOk, WorkersOk;
    var c, w' := step.client, Next(cfg, site, w, step);
    match w.workers[c]
    case Idle => IdleVanished(cfg, w, w', a, c);
    case Scraping(_, _) => ScraperVanished(cfg, w, w', a, c);
    case Transforming(_, _) => TransformerVanished(cfg, site, w, w', a, c);
  }

  /** Every step of the deployment is a legal step of the protocol, or changes nothing the protocol sees. */
  lemma StepMatched(cfg: Config, site: P.Site, w: World, step: Step, a: P.World)
    requires Sim(cfg, w, a) && Legal(cfg, site, w, step)
    ensures Matched(cfg, site, w, step, a)
  {
    hide Sim, Matched, Legal;
    match step
    case Join(_) => JoinMatched(cfg, site, w, step, a);
    case Vanish(_) => VanishMatched(cfg, site, w, step, a);
    case Create(_, _) => CreateMatched(cfg, site, w, step, a);
    case Submit(_, _, _) => SubmitMatched(cfg, site, w, step, a);
    case Reserve(_, _) => ReserveMatched(cfg, site, w, step, a);
    case Archive(_, _) => ArchiveMatched(cfg, site, w, step, a);
    case PublishPointer(_, _) => PublishMatched(cfg, site, w, step, a);
    case Transform(_, _) => TransformMatched(cfg, site, w, step, a);
    case Settle(_, _) => SettleMatched(cfg, site, w, step, a);
  }

  // Whole runs.

  ghost predicate LegalRun(cfg: Config, site: P.Site, w: World, steps: seq<Step>)
    decreases |steps|
  {
    steps != [] ==> Legal(cfg, site, w, steps[0]) && LegalRun(cfg, site, Next(cfg, site, w, steps[0]), steps[1..])
  }

  ghost function Run(cfg: Config, site: P.Site, w: World, steps: seq<Step>): World
    requires LegalRun(cfg, site, w, steps)
    decreases |steps|
  {
    if steps == [] then w else Run(cfg, site, Next(cfg, site, w, steps[0]), steps[1..])
  }

  /** The run of the protocol that a run of the deployment is. */
  ghost function ShadowRun(cfg: Config, site: P.Site, w: World, steps: seq<Step>): seq<P.Step>
    requires LegalRun(cfg, site, w, steps)
    decreases |steps|
  {
    if steps == [] then [] else
    (match Shadow(cfg, site, w, steps[0]) case Some(s) => [s] case None => [])
    + ShadowRun(cfg, site, Next(cfg, site, w, steps[0]), steps[1..])
  }

  /** The deployment refines the protocol: over every run the two stay in step. */
  lemma {:induction false} RunRefines(cfg: Config, site: P.Site, w: World, a: P.World, steps: seq<Step>)
    requires Sim(cfg, w, a) && LegalRun(cfg, site, w, steps)
    ensures P.LegalRun(site, cfg.maxRetries, a, ShadowRun(cfg, site, w, steps))
    ensures Sim(cfg, Run(cfg, site, w, steps), P.Run(site, cfg.maxRetries, a, ShadowRun(cfg, site, w, steps)))
    decreases |steps|
  {
    hide Sim, Legal, Next, Shadow, P.Legal, P.Next;
    if steps != [] {
      StepMatched(cfg, site, w, steps[0], a);
      var w', rest := Next(cfg, site, w, steps[0]), steps[1..];
      match Shadow(cfg, site, w, steps[0])
      case None =>
        RunRefines(cfg, site, w', a, rest);
        assert [] + ShadowRun(cfg, site, w', rest) == ShadowRun(cfg, site, w', rest);
      case Some(s) =>
        RunRefines(cfg, site, w', P.Next(site, cfg.maxRetries, a, s), rest);
        assert ([s] + ShadowRun(cfg, site, w', rest))[1..] == ShadowRun(cfg, site, w', rest);
    }
  }

  /** The protocol state after a run of the deployment from nothing. */
  ghost function Abstract(cfg: Config, site: P.Site, steps: seq<Step>): (a: P.World)
    requires LegalRun(cfg, site, Empty, steps)
    ensures P.Inv(a) && Sim(cfg, Run(cfg, site, Empty, steps), a)
  {
    assert R.Inv(R.Empty) && P.Inv(P.Empty) && Sim(cfg, Empty, P.Empty);
    RunRefines(cfg, site, Empty, P.Empty, steps);
    P.RunKeepsInv(site, cfg.maxRetries, P.Empty, ShadowRun(cfg, site, Empty, steps));
    P.Run(site, cfg.maxRetries, P.Empty, ShadowRun(cfg, site, Empty, steps))
  }

  lemma StoredPayload(cfg: Config, a: P.World, m: Q.Message)
    requires P.Inv(a) && Carries(cfg, a, m) && m.queue == cfg.resultsQueue
    ensures m.payload.PointerPayload? && m.payload.pointer.key in a.store
  {
    assert P.ResultOk(a, m.id);
  }

  /** Every entry of a results list, and every pointer being handled, names a payload that is stored. */
  lemma PointersHavePayloads(cfg: Config, site: P.Site, steps: seq<Step>)
    requires LegalRun(cfg, site, Empty, steps)
    ensures var w := Run(cfg, site, Empty, steps);
      && (forall key, raw :: raw in Q.Entries(w.redis.lists, key) && raw.message.queue == cfg.resultsQueue ==>
          raw.message.payload.PointerPayload? && raw.message.payload.pointer.key in w.store)
      && (forall c, now :: !Legal(cfg, site, w, Transform(c, P.PayloadMissing(now))))
  {
    hide Run, LegalRun, R.Inv, P.Inv, PlacesOk, Carries, R.Legal, Command;
    var w, a := Run(cfg, site, Empty, steps), Abstract(cfg, site, steps);
    forall key, raw | raw in Q.Entries(w.redis.lists, key) && raw.message.queue == cfg.resultsQueue
      ensures raw.message.payload.PointerPayload? && raw.message.payload.pointer.key in w.store
    {
      StoredPayload(cfg, a, raw.message);
    }
    forall c, now | c in w.workers && w.workers[c].Transforming?
      ensures !Legal(cfg, site, w, Transform(c, P.PayloadMissing(now)))
    {
      Client(cfg, w, a, c);
      StoredPayload(cfg, a, w.workers[c].message);
    }
  }

  lemma FinishedIsOver(a: P.World, id: string)
    requires P.Inv(a) && id in a.results && a.results[id].phase.Finished?
    ensures var p := a.results[id].pointer;
      && p.jobId in a.jobs && !P.Open(a.jobs[p.jobId])
      && (a.jobs[p.jobId].status == P.Done ==> UrlId(p.url) in a.articles)
  {
    assert P.ResultOk(a, id) && P.JobOk(a, a.results[id].pointer.jobId);
  }

  /** A handler that has returned has closed its job. */
  lemma ReturnedIsOver(cfg: Config, w: World, a: P.World, c: nat)
    requires Sim(cfg, w, a) && P.Inv(a) && c in w.workers && w.workers[c].Transforming? && w.workers[c].result.Finished?
    ensures var payload := w.workers[c].message.payload;
      && payload.PointerPayload?
      && var p := payload.pointer;
         && p.jobId in a.jobs && !P.Open(a.jobs[p.jobId])
         && (a.jobs[p.jobId].status == P.Done ==> UrlId(p.url) in a.articles)
  {
    hide EntriesOk, PlacesOk, WorkersOk, R.Inv, P.Inv;
    Client(cfg, w, a, c);
    FinishedIsOver(a, w.workers[c].message.id);
  }

  /**
   When a client acknowledges a pointer, its job is over, with its row if it is done; and however the
   deployment goes on, the job never changes again and the row stays.
   */
  lemma AcknowledgedForGood(cfg: Config, site: P.Site, steps: seq<Step>, c: nat, more: seq<Step>)
    requires LegalRun(cfg, site, Empty, steps)
    requires var w := Run(cfg, site, Empty, steps);
      Legal(cfg, site, w, Settle(c, None)) && w.workers[c].Transforming? && LegalRun(cfg, site, w, more)
    ensures var w := Run(cfg, site, Empty, steps);
      var later := Run(cfg, site, w, more);
      var payload := w.workers[c].message.payload;
      && payload.PointerPayload?
      && var p := payload.pointer;
         && p.jobId in w.jobs && (w.jobs[p.jobId].status == P.Done || w.jobs[p.jobId].status == P.Failed)
         && p.jobId in later.jobs && later.jobs[p.jobId] == w.jobs[p.jobId]
         && (w.jobs[p.jobId].status == P.Done ==> UrlId(p.url) in w.articles && UrlId(p.url) in later.articles)
  {
    hide Run, LegalRun, ShadowRun, P.Run, P.LegalRun, R.Inv, P.Inv, PlacesOk, EntriesOk, WorkersOk, R.Legal, Command;
    var w, a := Run(cfg, site, Empty, steps), Abstract(cfg, site, steps);
    RunRefines(cfg, site, w, a, more);
    ReturnedIsOver(cfg, w, a, c);
    var p, shadows := w.workers[c].message.payload.pointer, ShadowRun(cfg, site, w, more);
    P.OverForGood(site, cfg.maxRetries, a, shadows, p.jobId);
    if a.jobs[p.jobId].status == P.Done {
      P.RowsStay(site, cfg.maxRetries, a, shadows, UrlId(p.url));
    }
  }

  // Where payloads and rows come from.

  /** The results that a run archives. */
  ghost function Archived(cfg: Config, site: P.Site, w: World, steps: seq<Step>): set<V.Archival>
    requires LegalRun(cfg, site, w, steps)
    decreases |steps|
  {
    if steps == [] then {} else
    (match steps[0]
     case Archive(c, page) =>
       var payload := w.workers[c].message.payload;
       {V.Archival(payload.jobId, payload.url, payload.bucket, page)}
     case _ => {})
    + Archived(cfg, site, Next(cfg, site, w, steps[0]), steps[1..])
  }

  /** What a step archives is what its shadow does. */
  lemma StepArchives(cfg: Config, site: P.Site, w: World, step: Step, a: P.World)
    requires Sim(cfg, w, a) && Legal(cfg, site, w, step)
    ensures var payload := if step.Archive? then w.workers[step.client].message.payload else OtherPayload("");
      (match Shadow(cfg, site, w, step) case Some(s) => V.StepPast(a, s).archived case None => {})
      == (if step.Archive? then {V.Archival(payload.jobId, payload.url, payload.bucket, step.page)} else {})
  {
    hide R.Inv, EntriesOk, PlacesOk, R.Legal, R.Next;
    if step.Archive? {
      Client(cfg, w, a, step.client);
    }
  }

  lemma {:induction false} ArchivedMatches(cfg: Config, site: P.Site, w: World, a: P.World, steps: seq<Step>)
    requires Sim(cfg, w, a) && LegalRun(cfg, site, w, steps)
    ensures P.LegalRun(site, cfg.maxRetries, a, ShadowRun(cfg, site, w, steps))
    ensures V.PastOf(site, cfg.maxRetries, a, ShadowRun(cfg, site, w, steps)).archived == Archived(cfg, site, w, steps)
    decreases |steps|
  {
    hide Sim, Legal, Next, Shadow, P.Legal, P.Next, V.StepPast;
    RunRefines(cfg, site, w, a, steps);
    if steps != [] {
      StepMatched(cfg, site, w, steps[0], a);
      StepArchives(cfg, site, w, steps[0], a);
      var w', rest := Next(cfg, site, w, steps[0]), steps[1..];
      match Shadow(cfg, site, w, steps[0])
      case None =>
        ArchivedMatches(cfg, site, w', a, rest);
        assert [] + ShadowRun(cfg, site, w', rest) == ShadowRun(cfg, site, w', rest);
      case Some(s) =>
        ArchivedMatches(cfg, site, w', P.Next(site, cfg.maxRetries, a, s), rest);
        assert ([s] + ShadowRun(cfg, site, w', rest))[1..] == ShadowRun(cfg, site, w', rest);
    }
  }

  lemma Traced(cfg: Config, site: P.Site, steps: seq<Step>) returns (past: V.Past)
    requires LegalRun(cfg, site, Empty, steps)
    ensures past.archived == Archived(cfg, site, Empty, steps)
    ensures V.Origins(site, past, Abstract(cfg, site, steps))
  {
    assert R.Inv(R.Empty) && P.Inv(P.Empty) && Sim(cfg, Empty, P.Empty);
    hide Sim, P.Inv, V.Origins;
    RunRefines(cfg, site, Empty, P.Empty, steps);
    ArchivedMatches(cfg, site, Empty, P.Empty, steps);
    V.FromNothing(site, cfg.maxRetries, ShadowRun(cfg, site, Empty, steps));
    past := V.PastOf(site, cfg.maxRetries, P.Empty, ShadowRun(cfg, site, Empty, steps));
  }

  /** An entry of some list of the results queue carries this pointer. */
  ghost predicate Queued(cfg: Config, w: World, p: Pointer) {
    exists key, raw :: raw in Q.Entries(w.redis.lists, key) && Carried(cfg, raw.message, p)
  }

  predicate Carried(cfg: Config, m: Q.Message, p: Pointer) {
    m.queue == cfg.resultsQueue && m.payload == PointerPayload(p)
  }

  lemma QueuedKnown(cfg: Config, w: World, a: P.World, p: Pointer)
    requires Sim(cfg, w, a) && Queued(cfg, w, p)
    ensures exists id :: id in a.results && a.results[id].pointer == p
  {
    var key, raw :| raw in Q.Entries(w.redis.lists, key) && Carried(cfg, raw.message, p);
    assert Carries(cfg, a, raw.message);
  }

  /** In every reachable deployment, queued pointers with equal keys have equal URLs and buckets. */
  lemma QueuedKeysTellUrls(cfg: Config, site: P.Site, steps: seq<Step>, p: Pointer, q: Pointer)
    requires LegalRun(cfg, site, Empty, steps)
    requires Queued(cfg, Run(cfg, site, Empty, steps), p) && Queued(cfg, Run(cfg, site, Empty, steps), q)
    ensures p.key == q.key <==> p.url == q.url && p.bucket == q.bucket
  {
    hide Run, LegalRun, Sim, Queued, P.Inv;
    var past := Traced(cfg, site, steps);
    var a := Abstract(cfg, site, steps);
    QueuedKnown(cfg, Run(cfg, site, Empty, steps), a, p);
    QueuedKnown(cfg, Run(cfg, site, Empty, steps), a, q);
    assert V.PointerOk(past, p) && V.PointerOk(past, q);
  }

  /**
   In every reachable deployment, what a queued pointer names is the page, or the failed attempt, of a
   scrape of the pointer's own URL.
   */
  lemma QueuedPayloads(cfg: Config, site: P.Site, steps: seq<Step>, p: Pointer)
    requires LegalRun(cfg, site, Empty, steps) && Queued(cfg, Run(cfg, site, Empty, steps), p)
    ensures var w, archived := Run(cfg, site, Empty, steps), Archived(cfg, site, Empty, steps);
      && (exists x :: x in archived && V.PointsTo(p, x))
      && p.key in w.store
      && (exists x :: x in archived && x.url == p.url && V.PageOf(w.store[p.key], p.url, x.result))
  {
    hide Run, LegalRun, Archived, Queued;
    var past := Traced(cfg, site, steps);
    var w, a := Run(cfg, site, Empty, steps), Abstract(cfg, site, steps);
    QueuedKnown(cfg, w, a, p);
    hide R.Inv, EntriesOk, PlacesOk, WorkersOk;
    var id :| id in a.results && a.results[id].pointer == p;
    assert P.ResultOk(a, id) && V.PointerOk(past, p);
    hide P.Inv;
    assert V.PayloadOk(past, p.key, a.store[p.key]);
  }

  /** In every reachable deployment, every row was extracted from a valid page scraped from its own URL. */
  lemma RowsFromTheirPages(cfg: Config, site: P.Site, steps: seq<Step>, id: Digest)
    requires LegalRun(cfg, site, Empty, steps) && id in Run(cfg, site, Empty, steps).articles
    ensures var row := Run(cfg, site, Empty, steps).articles[id];
      && id == Sha256(row.url)
      && exists x, raw ::
        && x in Archived(cfg, site, Empty, steps) && x.url == row.url
        && V.PageOf(raw, row.url, x.result) && site.valid(row.url, raw) && row.content == site.extract(row.url, raw)
  {
    hide Run, LegalRun, Archived, P.Inv;
    var past := Traced(cfg, site, steps);
    var a := Abstract(cfg, site, steps);
    hide R.Inv, EntriesOk, PlacesOk, WorkersOk;
    V.RowTraced(site, past, id, a.articles[id]);
  }

  // What can always happen.

  /** Jobs can be created, clients can come and go, and a client at rest can submit, or reserve from either queue. */
  lemma CanStart(cfg: Config, site: P.Site, w: World, a: P.World, c: nat)
    requires Sim(cfg, w, a) && c in w.workers
    ensures Legal(cfg, site, w, Vanish(c))
    ensures forall d :: d !in w.workers ==> Legal(cfg, site, w, Join(d))
    ensures forall j, s :: j !in w.jobs ==> Legal(cfg, site, w, Create(j, s))
    ensures w.workers[c].Idle? ==>
      && Legal(cfg, site, w, Reserve(c, cfg.jobQueue)) && Legal(cfg, site, w, Reserve(c, cfg.resultsQueue))
      && forall j, id :: j in w.submitting && id !in w.redis.home ==> Legal(cfg, site, w, Submit(c, j, id))
  {
    hide R.Inv, EntriesOk, PlacesOk;
    Client(cfg, w, a, c);
  }

  /** A client at work holds its message, so it may settle it: as a failure until its handler is done, as a success then. */
  lemma CanSettle(cfg: Config, site: P.Site, w: World, a: P.World, c: nat, error: string)
    requires Sim(cfg, w, a) && c in w.workers && !w.workers[c].Idle?
    ensures Legal(cfg, site, w, Settle(c, if MayEnd(w.workers[c], None) then None else Some(error)))
  {
    hide R.Inv, EntriesOk, PlacesOk, WorkersOk;
    Client(cfg, w, a, c);
  }

  ghost predicate Holding(w: World, c: nat) {
    && c in w.workers && !w.workers[c].Idle? && c in w.redis.clients
    && var m := w.workers[c].message; m.id in w.redis.clients[c].held && w.redis.clients[c].held[m.id] == m
  }

  lemma RunOfOne(cfg: Config, site: P.Site, w: World, step: Step)
    requires Legal(cfg, site, w, step)
    ensures LegalRun(cfg, site, w, [step]) && Run(cfg, site, w, [step]) == Next(cfg, site, w, step)
  {
    hide Legal, Next;
    assert |[step][1..]| == 0;
  }

  lemma RunFrom(cfg: Config, site: P.Site, w: World, step: Step, rest: seq<Step>)
    requires Legal(cfg, site, w, step) && LegalRun(cfg, site, Next(cfg, site, w, step), rest)
    ensures LegalRun(cfg, site, w, [step] + rest)
    ensures Run(cfg, site, w, [step] + rest) == Run(cfg, site, Next(cfg, site, w, step), rest)
  {
    hide Legal, Next;
    assert ([step] + rest)[1..] == rest;
  }

  /** A taken job can be scraped, its pointer published, and its message acknowledged. */
  lemma JobCanComplete(cfg: Config, site: P.Site, w: World, c: nat, page: ScrapeResult, id: string)
    requires Holding(w, c) && w.workers[c].Scraping? && w.workers[c].job.JobReserved?
    requires w.workers[c].message.payload.JobPayload? && id !in w.redis.home && id != w.workers[c].message.id
    ensures LegalRun(cfg, site, w, [Archive(c, page)] + ([PublishPointer(c, id)] + [Settle(c, None)]))
  {
    var archived := Next(cfg, site, w, Archive(c, page));
    assert Legal(cfg, site, archived, PublishPointer(c, id));
    var published := Next(cfg, site, archived, PublishPointer(c, id));
    assert Holding(published, c);
    RunOfOne(cfg, site, published, Settle(c, None));
    RunFrom(cfg, site, archived, PublishPointer(c, id), [Settle(c, None)]);
    RunFrom(cfg, site, w, Archive(c, page), [PublishPointer(c, id)] + [Settle(c, None)]);
  }

  function HandlerSteps(c: nat, acts: seq<P.TransformStep>): seq<Step> {
    if acts == [] then [Settle(c, None)] else [Transform(c, acts[0])] + HandlerSteps(c, acts[1..])
  }

  /** After the last effect of its handler a message can be acknowledged. */
  lemma FinishedSettles(cfg: Config, site: P.Site, w: World, c: nat)
    requires Holding(w, c) && w.workers[c].Transforming? && w.workers[c].result.Finished?
    ensures LegalRun(cfg, site, w, HandlerSteps(c, []))
  {
    RunOfOne(cfg, site, w, Settle(c, None));
  }

  /** A row that has been written can be followed by the end of the job. */
  lemma WrittenCompletes(cfg: Config, site: P.Site, w: World, c: nat, now: int)
    requires Holding(w, c) && w.workers[c].Transforming? && w.workers[c].result.RowWritten?
    requires w.workers[c].message.payload.PointerPayload? && w.workers[c].message.payload.pointer.jobId in w.jobs
    ensures LegalRun(cfg, site, w, HandlerSteps(c, [P.MarkDone(now)]))
  {
    var step := Transform(c, P.MarkDone(now));
    FinishedSettles(cfg, site, Next(cfg, site, w, step), c);
    assert |[P.MarkDone(now)][1..]| == 0;
    RunFrom(cfg, site, w, step, HandlerSteps(c, []));
  }

  /** A job that has been started can be closed, whatever its pointer and payload are. */
  lemma StartedCompletes(cfg: Config, site: P.Site, w: World, c: nat, at: W.Times)
    requires Holding(w, c) && w.workers[c].Transforming? && w.workers[c].result.MarkedRunning?
    requires w.workers[c].message.payload.PointerPayload? && w.workers[c].message.payload.pointer.jobId in w.jobs
    ensures LegalRun(cfg, site, w, HandlerSteps(c, W.HandlerActs(site, w.store, w.workers[c].message.payload.pointer, at)[1..]))
  {
    var p := w.workers[c].message.payload.pointer;
    var rest := W.HandlerActs(site, w.store, p, at)[1..];
    var step := Transform(c, rest[0]);
    var next := Next(cfg, site, w, step);
    if W.Verdict(site, w.store, p) == None {
      assert rest[1..] == [P.MarkDone(at.closed)];
      WrittenCompletes(cfg, site, next, c, at.closed);
    } else {
      assert rest[1..] == [];
      FinishedSettles(cfg, site, next, c);
    }
    RunFrom(cfg, site, w, step, HandlerSteps(c, rest[1..]));
  }

  /** A taken pointer can be handled to the end and acknowledged, in every reachable deployment. */
  lemma PointerCanComplete(cfg: Config, site: P.Site, w: World, a: P.World, c: nat, at: W.Times)
    requires Sim(cfg, w, a) && P.Inv(a) && c in w.workers && w.workers[c].Transforming? && w.workers[c].result.Reserved?
    ensures w.workers[c].message.payload.PointerPayload?
    ensures LegalRun(cfg, site, w, HandlerSteps(c, W.HandlerActs(site, w.store, w.workers[c].message.payload.pointer, at)))
  {
    hide R.Inv, EntriesOk, PlacesOk, WorkersOk;
    Client(cfg, w, a, c);
    assert P.ResultOk(a, w.workers[c].message.id);
    hide P.Inv;
    var acts := W.HandlerActs(site, w.store, w.workers[c].message.payload.pointer, at);
    var step := Transform(c, acts[0]);
    StartedCompletes(cfg, site, Next(cfg, site, w, step), c, at);
    RunFrom(cfg, site, w, step, HandlerSteps(c, acts[1..]));
  }
}
