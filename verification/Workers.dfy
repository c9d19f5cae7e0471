/**
 The workers' handlers as code over a store, a queue and a database.  Each performs exactly the effects
 of a run of the protocol, in its order, so that stopping it anywhere leaves a prefix of that run.
 */
module Workers {
  import opened Collections
  import opened Models
  import opened Messages
  import opened Pipeline
  import MessageQueue
  import QueueBackends
  import V = Provenance

  // What the steps of the protocol do to the outside world.

  datatype Effect =
    | PutObject(key: ObjectKey, data: Raw)
    | PublishMessage(queue: string, id: string, payload: Payload)
    | SetJob(jobId: string, job: Job)
    | UpsertRow(rowId: Digest, row: Row)

  function StepEffects(site: Site, resultsQueue: string, w: World, step: Step): seq<Effect>
    requires Legal(site, w, step)
  {
    match step
    case Scraper(msg, act) => ScraperEffects(resultsQueue, w.jobQueue[msg], act)
    case Transform(msg, act) => ActEffects(site, w.store, w.results[msg].pointer, Database(w.jobs, w.articles), act)
    case _ => []
  }

  function ScraperEffects(resultsQueue: string, m: JobMessage, act: ScraperStep): seq<Effect> {
    match act
    case Archive(result) => [PutObject(PointerFor(m.jobId, m.url, m.bucket, result).key, RawPayload(result, m.url))]
    case PublishPointer(out) =>
      if m.phase.Archived? then [PublishMessage(resultsQueue, out, PointerPayload(m.phase.pointer))] else []
    case _ => []
  }

  datatype Database = Database(jobs: map<string, Job>, articles: map<Digest, Row>)

  function Acted(site: Site, store: map<ObjectKey, Raw>, p: Pointer, db: Database, act: TransformStep): Database {
    Database(JobsAfter(db.jobs, p, act), ArticlesAfter(site, store, db.articles, p, act))
  }

  /** A transform step writes the row it changes, or the job it changes. */
  function ActEffects(site: Site, store: map<ObjectKey, Raw>, p: Pointer, db: Database, act: TransformStep): seq<Effect> {
    var after := Acted(site, store, p, db, act);
    match act
    case WriteRow(_) =>
      if UrlId(p.url) in after.articles then [UpsertRow(UrlId(p.url), after.articles[UrlId(p.url)])] else []
    case MarkRunning(_) => JobEffects(after, p.jobId)
    case RejectStatus(_) => JobEffects(after, p.jobId)
    case PayloadMissing(_) => JobEffects(after, p.jobId)
    case RejectPage(_) => JobEffects(after, p.jobId)
    case MarkDone(_) => JobEffects(after, p.jobId)
    case _ => []
  }

  function JobEffects(after: Database, jobId: string): seq<Effect> {
    if jobId in after.jobs then [SetJob(jobId, after.jobs[jobId])] else []
  }

  /** The effects of a run, in order. */
  function RunEffects(site: Site, maxRetries: int, resultsQueue: string, w: World, steps: seq<Step>): seq<Effect>
    requires LegalRun(site, maxRetries, w, steps)
    decreases |steps|
  {
    if steps == [] then [] else
    StepEffects(site, resultsQueue, w, steps[0])
    + RunEffects(site, maxRetries, resultsQueue, Next(site, maxRetries, w, steps[0]), steps[1..])
  }

  /** A first step and the rest of a run. */
  lemma RunFirst(site: Site, maxRetries: int, resultsQueue: string, w: World, first: Step, rest: seq<Step>)
    requires Legal(site, w, first) && LegalRun(site, maxRetries, Next(site, maxRetries, w, first), rest)
    ensures LegalRun(site, maxRetries, w, [first] + rest)
    ensures Run(site, maxRetries, w, [first] + rest) == Run(site, maxRetries, Next(site, maxRetries, w, first), rest)
    ensures RunEffects(site, maxRetries, resultsQueue, w, [first] + rest)
      == StepEffects(site, resultsQueue, w, first)
       + RunEffects(site, maxRetries, resultsQueue, Next(site, maxRetries, w, first), rest)
  {
    hide Legal, Next, StepEffects;
    assert ([first] + rest)[1..] == rest;
  }

  /** A run and another one from where it ends. */
  lemma {:induction false} RunThen(site: Site, maxRetries: int, w: World, first: seq<Step>, rest: seq<Step>)
    requires LegalRun(site, maxRetries, w, first)
    requires LegalRun(site, maxRetries, Run(site, maxRetries, w, first), rest)
    ensures LegalRun(site, maxRetries, w, first + rest)
    ensures Run(site, maxRetries, w, first + rest) == Run(site, maxRetries, Run(site, maxRetries, w, first), rest)
    decreases |first|
  {
    hide Legal, Next;
    if first == [] {
      assert first + rest == rest;
    } else {
      assert (first + rest)[1..] == first[1..] + rest;
      RunThen(site, maxRetries, Next(site, maxRetries, w, first[0]), first[1..], rest);
    }
  }

  lemma RunSnoc(site: Site, maxRetries: int, w: World, steps: seq<Step>, last: Step)
    requires LegalRun(site, maxRetries, w, steps) && Legal(site, Run(site, maxRetries, w, steps), last)
    ensures LegalRun(site, maxRetries, w, steps + [last])
    ensures Run(site, maxRetries, w, steps + [last]) == Next(site, maxRetries, Run(site, maxRetries, w, steps), last)
  {
    hide Legal, Next, StepEffects;
    RunFirst(site, maxRetries, "", Run(site, maxRetries, w, steps), last, []);
    assert [last] + [] == [last];
    RunThen(site, maxRetries, w, steps, [last]);
  }

  // The scrape handler.

  class InMemoryObjectStore {
    var objects: map<ObjectKey, Raw>

    constructor ()
      ensures objects == map[]
    {
      objects := map[];
    }

    method Put(key: ObjectKey, data: Raw)
      modifies this
      ensures objects == old(objects)[key := data]
    {
      objects := objects[key := data];
    }

    /** The stored payload, or nothing where the store raises `ObjectNotFound`. */
    method Get(key: ObjectKey) returns (data: Option<Raw>)
      ensures data == if key in objects then Some(objects[key]) else None
    {
      return if key in objects then Some(objects[key]) else None;
    }
  }

  /** The object store and the queue, with the history of what was done to them. */
  class Plane {
    const store: InMemoryObjectStore
    const queue: QueueBackends.InMemoryMessageQueue
    ghost var effects: seq<Effect>

    constructor (store: InMemoryObjectStore, queue: QueueBackends.InMemoryMessageQueue)
      ensures this.store == store && this.queue == queue && effects == []
    {
      this.store, this.queue := store, queue;
      effects := [];
    }

    method Put(key: ObjectKey, data: Raw)
      modifies this, store
      ensures store.objects == old(store.objects)[key := data]
      ensures effects == old(effects) + [PutObject(key, data)]
    {
      store.Put(key, data);
      effects := effects + [PutObject(key, data)];
    }

    method Publish(name: string, payload: Payload, uuid: string)
      requires queue.Valid()
      modifies this, queue
      ensures queue.Valid()
      ensures queue.State() == MessageQueue.MemoryStep(old(queue.State()), MessageQueue.Publish(name, uuid, payload)).0
      ensures effects == old(effects) + [PublishMessage(name, uuid, payload)]
    {
      var _ := queue.Publish(name, payload, uuid);
      effects := effects + [PublishMessage(name, uuid, payload)];
    }
  }

  /** A scraper worker that has taken message `msg`, the only one of its world. */
  function ScraperWorld(msg: string, m: JobMessage, store: map<ObjectKey, Raw>): World {
    Empty.(jobQueue := map[msg := m], store := store)
  }

  function ScrapeSteps(msg: string, result: ScrapeResult, out: string): seq<Step> {
    [Scraper(msg, Archive(result)), Scraper(msg, PublishPointer(out))]
  }

  /** What an undisturbed scrape handler leaves: the payload, and the pointer that names it. */
  lemma ScrapeIsARun(site: Site, maxRetries: int, resultsQueue: string, w: World, msg: string, result: ScrapeResult, out: string)
    requires msg in w.jobQueue && w.jobQueue[msg].phase.JobReserved? && out !in w.results
    ensures LegalRun(site, maxRetries, w, ScrapeSteps(msg, result, out))
    ensures var m := w.jobQueue[msg];
      var p, raw := PointerFor(m.jobId, m.url, m.bucket, result), RawPayload(result, m.url);
      var end := Run(site, maxRetries, w, ScrapeSteps(msg, result, out));
      && p.jobId == m.jobId && p.url == m.url && p.status == result.status
      && p.key.urlId == Sha256(m.url) && p.key.bucket == p.bucket && V.BucketOf(p.bucket, m.bucket, result)
      && V.PageOf(raw, m.url, result)
      && end.store == w.store[p.key := raw] && end.results == w.results[out := ResultMessage(p, Waiting(0))]
      && RunEffects(site, maxRetries, resultsQueue, w, ScrapeSteps(msg, result, out))
         == [PutObject(p.key, raw), PublishMessage(resultsQueue, out, PointerPayload(p))]
  {
    var archive, publish := Scraper(msg, Archive(result)), Scraper(msg, PublishPointer(out));
    var mid := Next(site, maxRetries, w, archive);
    RunFirst(site, maxRetries, resultsQueue, mid, publish, []);
    RunFirst(site, maxRetries, resultsQueue, w, archive, [publish]);
    assert [publish] + [] == [publish] && [archive] + [publish] == ScrapeSteps(msg, result, out);
  }

  /**
   Handle the scrape job delivered as message `msg`: archive the payload, then publish its pointer, whose
   message gets the id `uuid`.  The effects are those of the protocol's two steps, in that order; the
   pointer names the URL's own payload.
   */
  method HandleScrapeJob(msg: string, jobId: string, url: string, hint: Option<string>, result: ScrapeResult, plane: Plane,
                         resultsQueue: string, uuid: string, ghost site: Site)
    returns (pointer: Pointer)
    requires plane.queue.Valid()
    modifies plane, plane.store, plane.queue
    ensures pointer.jobId == jobId && pointer.url == url && pointer.status == result.status
    ensures pointer.key.urlId == Sha256(url) && pointer.key.bucket == pointer.bucket && V.BucketOf(pointer.bucket, hint, result)
    ensures pointer.key in plane.store.objects && V.PageOf(plane.store.objects[pointer.key], url, result)
    ensures plane.store.objects == old(plane.store.objects)[pointer.key := plane.store.objects[pointer.key]]
    ensures plane.queue.Valid()
    ensures plane.queue.State()
      == MessageQueue.MemoryStep(old(plane.queue.State()),
                                 MessageQueue.Publish(resultsQueue, uuid, PointerPayload(pointer))).0
    ensures var w := ScraperWorld(msg, JobMessage(jobId, url, hint, JobReserved(1)), old(plane.store.objects));
      var steps := ScrapeSteps(msg, result, uuid);
      && LegalRun(site, 0, w, steps)
      && plane.effects == old(plane.effects) + RunEffects(site, 0, resultsQueue, w, steps)
      && var end := Run(site, 0, w, steps);
         end.store == plane.store.objects && end.results == map[uuid := ResultMessage(pointer, Waiting(0))]
  {
    ghost var w := ScraperWorld(msg, JobMessage(jobId, url, hint, JobReserved(1)), plane.store.objects);
    ScrapeIsARun(site, 0, resultsQueue, w, msg, result, uuid);
    hide Run, LegalRun, RunEffects, V.PageOf, V.BucketOf;
    var raw: Raw;
    if result.article.Some? && result.article.value.rawHtml.Some? && result.article.value.rawHtml.value != "" {
      raw := Html(result.article.value.rawHtml.value);
    } else {
      raw := Attempt(result.status, result.error, url);
    }
    var bucket := "public";
    if hint.Some? && hint.value != "" {
      bucket := hint.value;
    } else if result.article.Some? && GetOr(result.article.value.metadata, "bucket", "") != "" {
      bucket := result.article.value.metadata["bucket"];
    }
    var key := RawObjectKey(bucket, UrlId(url));
    plane.Put(key, raw);
    pointer := Pointer(jobId, key, url, bucket, result.status);
    plane.Publish(resultsQueue, PointerPayload(pointer), uuid);
  }

  // The transform handler.

  /** Why a pointer is turned down, if it is. */
  function Verdict(site: Site, store: map<ObjectKey, Raw>, p: Pointer): Option<string> {
    if p.status != Success then Some(StatusError(p.status))
    else if p.key !in store then Some("raw payload missing")
    else if !site.valid(p.url, store[p.key]) then Some("soft block or challenge page detected")
    else None
  }

  /** The clock readings of one delivery: job started, row written, job closed. */
  datatype Times = Times(started: int, written: int, closed: int)

  function Rejection(store: map<ObjectKey, Raw>, p: Pointer, now: int): TransformStep {
    if p.status != Success then RejectStatus(now) else if p.key !in store then PayloadMissing(now) else RejectPage(now)
  }

  /** What one undisturbed delivery of a pointer does. */
  function HandlerActs(site: Site, store: map<ObjectKey, Raw>, p: Pointer, at: Times): (acts: seq<TransformStep>)
    ensures |acts| >= 2
  {
    if Verdict(site, store, p).Some? then [MarkRunning(at.started), Rejection(store, p, at.closed)]
    else [MarkRunning(at.started), WriteRow(at.written), MarkDone(at.closed)]
  }

  function Steps(msg: string, acts: seq<TransformStep>): seq<Step> {
    seq(|acts|, i requires 0 <= i < |acts| => Transform(msg, acts[i]))
  }

  function HandlerSteps(site: Site, w: World, msg: string, at: Times): seq<Step>
    requires msg in w.results
  {
    Steps(msg, HandlerActs(site, w.store, w.results[msg].pointer, at))
  }

  function Closed(job: Job, verdict: Option<string>, at: Times): Job {
    match verdict
    case Some(error) => FailedJob(StartedJob(job, at.started), error, at.closed)
    case None => DoneJob(StartedJob(job, at.started), at.closed)
  }

  /** What a delivery is for: the job closed by the verdict, and the row stored exactly when there is none. */
  function Delivered(site: Site, store: map<ObjectKey, Raw>, p: Pointer, db: Database, at: Times): Database
    requires p.jobId in db.jobs
  {
    var verdict := Verdict(site, store, p);
    Database(db.jobs[p.jobId := Closed(db.jobs[p.jobId], verdict, at)],
             if verdict == None && p.key in store
             then db.articles[UrlId(p.url) := Row(p.url, p.bucket, p.key, site.extract(p.url, store[p.key]), at.written)]
             else db.articles)
  }

  /** What that means, case by case. */
  lemma DeliveredMeaning(site: Site, store: map<ObjectKey, Raw>, p: Pointer, db: Database, at: Times)
    requires p.jobId in db.jobs
    ensures var after := Delivered(site, store, p, db, at);
      var accepted := p.status == Success && p.key in store && site.valid(p.url, store[p.key]);
      && p.jobId in after.jobs && after.jobs == db.jobs[p.jobId := after.jobs[p.jobId]]
      && var job := after.jobs[p.jobId];
      && job.startedAt == Some(at.started) && job.finishedAt == Some(at.closed)
      && (if accepted then
           && job.status == Done && job.resultCount == 1 && job.error == db.jobs[p.jobId].error
           && after.articles
              == db.articles[Sha256(p.url) := Row(p.url, p.bucket, p.key, site.extract(p.url, store[p.key]), at.written)]
         else
           && job.status == Failed && job.resultCount == 0 && after.articles == db.articles
           && job.error.Some?
           && if p.status == Success && p.key !in store then job.error.value == "raw payload missing"
              else V.ErrorOf(p.status, job.error.value))
  {
  }

  function Handled(site: Site, w: World, msg: string, at: Times): World
    requires msg in w.results && w.results[msg].pointer.jobId in w.jobs
  {
    var p := w.results[msg].pointer;
    var db := Delivered(site, w.store, p, Database(w.jobs, w.articles), at);
    w.(jobs := db.jobs, articles := db.articles, results := w.results[msg := ResultMessage(p, Finished)])
  }

  // A delivery may be cut short after some of its effects.

  function Apply(site: Site, store: map<ObjectKey, Raw>, p: Pointer, db: Database, acts: seq<TransformStep>): Database
    decreases |acts|
  {
    if acts == [] then db else Acted(site, store, p, Apply(site, store, p, db, acts[..|acts| - 1]), acts[|acts| - 1])
  }

  function ApplyEffects(site: Site, store: map<ObjectKey, Raw>, p: Pointer, db: Database, acts: seq<TransformStep>): seq<Effect>
    decreases |acts|
  {
    if acts == [] then [] else
    ActEffects(site, store, p, db, acts[0]) + ApplyEffects(site, store, p, Acted(site, store, p, db, acts[0]), acts[1..])
  }

  /** One delivery: how many of its effects take place, and when. */
  datatype Delivery = Delivery(reach: nat, at: Times)

  function Reached(site: Site, store: map<ObjectKey, Raw>, p: Pointer, d: Delivery): seq<TransformStep> {
    Collections.Take(HandlerActs(site, store, p, d.at), d.reach)
  }

  function DeliverAll(site: Site, store: map<ObjectKey, Raw>, p: Pointer, db: Database, ds: seq<Delivery>): Database
    decreases |ds|
  {
    if ds == [] then db else DeliverAll(site, store, p, Apply(site, store, p, db, Reached(site, store, p, ds[0])), ds[1..])
  }

  lemma LastUpdateWins<K, V>(m: map<K, V>, k: K, a: V, b: V)
    ensures m[k := a][k := b] == m[k := b]
  {
  }

  lemma ApplySnoc(site: Site, store: map<ObjectKey, Raw>, p: Pointer, db: Database, acts: seq<TransformStep>, act: TransformStep)
    ensures Apply(site, store, p, db, acts + [act]) == Acted(site, store, p, Apply(site, store, p, db, acts), act)
  {
    hide Acted;
    assert (acts + [act])[..|acts|] == acts;
  }

  /** A complete delivery does what it is for. */
  lemma CompleteDelivery(site: Site, store: map<ObjectKey, Raw>, p: Pointer, db: Database, at: Times)
    requires p.jobId in db.jobs
    ensures Apply(site, store, p, db, HandlerActs(site, store, p, at)) == Delivered(site, store, p, db, at)
  {
    var acts := HandlerActs(site, store, p, at);
    var started := StartedJob(db.jobs[p.jobId], at.started);
    LastUpdateWins(db.jobs, p.jobId, started, Closed(db.jobs[p.jobId], Verdict(site, store, p), at));
    ApplySnoc(site, store, p, db, [], acts[0]);
    ApplySnoc(site, store, p, db, [acts[0]], acts[1]);
    assert [] + [acts[0]] == [acts[0]] && [acts[0]] + [acts[1]] == [acts[0], acts[1]];
    if Verdict(site, store, p) == None {
      ApplySnoc(site, store, p, db, [acts[0], acts[1]], acts[2]);
      assert [acts[0], acts[1]] + [acts[2]] == acts;
    } else {
      assert [acts[0], acts[1]] == acts;
    }
  }

  /** `act` is part of some delivery of `p`. */
  ghost predicate Fits(site: Site, store: map<ObjectKey, Raw>, p: Pointer, act: TransformStep) {
    exists at :: act in HandlerActs(site, store, p, at)
  }

  /** A later complete delivery makes up for any one effect of an earlier delivery. */
  lemma ActOverwritten(site: Site, store: map<ObjectKey, Raw>, p: Pointer, db: Database, act: TransformStep, at: Times)
    requires p.jobId in db.jobs && Fits(site, store, p, act)
    ensures p.jobId in Acted(site, store, p, db, act).jobs
    ensures Delivered(site, store, p, Acted(site, store, p, db, act), at) == Delivered(site, store, p, db, at)
  {
    var after, verdict := Acted(site, store, p, db, act), Verdict(site, store, p);
    assert Closed(after.jobs[p.jobId], verdict, at) == Closed(db.jobs[p.jobId], verdict, at);
    LastUpdateWins(db.jobs, p.jobId, after.jobs[p.jobId], Closed(db.jobs[p.jobId], verdict, at));
  }

  lemma {:induction false} ActsOverwritten(site: Site, store: map<ObjectKey, Raw>, p: Pointer, db: Database,
                                           acts: seq<TransformStep>, at: Times)
    requires p.jobId in db.jobs && forall act :: act in acts ==> Fits(site, store, p, act)
    ensures p.jobId in Apply(site, store, p, db, acts).jobs
    ensures Delivered(site, store, p, Apply(site, store, p, db, acts), at) == Delivered(site, store, p, db, at)
  {
    hide Delivered, Acted, Fits;
    if acts != [] {
      var n := |acts| - 1;
      assert acts[n] in acts;
      ActsOverwritten(site, store, p, db, acts[..n], at);
      ActOverwritten(site, store, p, Apply(site, store, p, db, acts[..n]), acts[n], at);
    }
  }

  lemma OneDeliveryDoesNotMatter(site: Site, store: map<ObjectKey, Raw>, p: Pointer, db: Database, d: Delivery, at: Times)
    requires p.jobId in db.jobs
    ensures var after := Apply(site, store, p, db, Reached(site, store, p, d));
      p.jobId in after.jobs && Delivered(site, store, p, after, at) == Delivered(site, store, p, db, at)
  {
    hide Delivered, Acted, Apply;
    var acts := Reached(site, store, p, d);
    forall act | act in acts ensures Fits(site, store, p, act) {
      assert act in HandlerActs(site, store, p, d.at);
    }
    ActsOverwritten(site, store, p, db, acts, at);
  }

  /**
   At-least-once is enough: however many deliveries of a pointer came before, complete or cut short
   anywhere, a complete one leaves jobs and rows as it would have left them alone.
   */
  lemma {:induction false} EarlierDeliveriesDoNotMatter(site: Site, store: map<ObjectKey, Raw>, p: Pointer, db: Database,
                                                        ds: seq<Delivery>, at: Times)
    requires p.jobId in db.jobs
    ensures p.jobId in DeliverAll(site, store, p, db, ds).jobs
    ensures Delivered(site, store, p, DeliverAll(site, store, p, db, ds), at) == Delivered(site, store, p, db, at)
    decreases |ds|
  {
    hide Delivered, Acted, Apply;
    if ds != [] {
      OneDeliveryDoesNotMatter(site, store, p, db, ds[0], at);
      EarlierDeliveriesDoNotMatter(site, store, p, Apply(site, store, p, db, Reached(site, store, p, ds[0])), ds[1..], at);
    }
  }

  /** Delivering again changes the times of the job and the row, and nothing else. */
  lemma RedeliveryChangesOnlyTimes(site: Site, store: map<ObjectKey, Raw>, p: Pointer, db: Database, first: Times, again: Times)
    requires p.jobId in db.jobs
    ensures var once := Delivered(site, store, p, db, first);
      var twice := Delivered(site, store, p, once, again);
      var job, id := once.jobs[p.jobId], UrlId(p.url);
      && twice.jobs
         == once.jobs[p.jobId := job.(startedAt := Some(again.started), finishedAt := Some(again.closed))]
      && if Verdict(site, store, p) == None && p.key in store
         then id in once.articles
           && twice.articles == once.articles[id := once.articles[id].(fetchedAt := again.written)]
         else twice.articles == once.articles
  {
  }

  // Deliveries as runs of the protocol.

  /** How far a delivery is after `n` of its effects. */
  function PhaseAt(tries: nat, n: nat, total: nat): ResultPhase {
    if n == 0 then Reserved(tries) else if n >= total then Finished else if n == 1 then MarkedRunning(tries) else RowWritten(tries)
  }

  /** `w` after the first `n` effects of delivering message `msg`. */
  function Midway(site: Site, w: World, msg: string, at: Times, n: nat): World
    requires msg in w.results && w.results[msg].phase.Reserved?
    requires n <= |HandlerActs(site, w.store, w.results[msg].pointer, at)|
  {
    var m := w.results[msg];
    var acts := HandlerActs(site, w.store, m.pointer, at);
    var db := Apply(site, w.store, m.pointer, Database(w.jobs, w.articles), acts[..n]);
    w.(jobs := db.jobs, articles := db.articles,
       results := w.results[msg := ResultMessage(m.pointer, PhaseAt(m.phase.tries, n, |acts|))])
  }

  lemma MidwayStep(site: Site, maxRetries: int, w: World, msg: string, at: Times, n: nat)
    requires msg in w.results && w.results[msg].phase.Reserved? && w.results[msg].pointer.jobId in w.jobs
    requires n < |HandlerActs(site, w.store, w.results[msg].pointer, at)|
    ensures var act := HandlerActs(site, w.store, w.results[msg].pointer, at)[n];
      var mid := Midway(site, w, msg, at, n);
      Legal(site, mid, Transform(msg, act)) && Next(site, maxRetries, mid, Transform(msg, act)) == Midway(site, w, msg, at, n + 1)
  {
    var m := w.results[msg];
    var p, tries := m.pointer, m.phase.tries;
    var acts := HandlerActs(site, w.store, p, at);
    var db := Database(w.jobs, w.articles);
    forall act | act in acts ensures Fits(site, w.store, p, act) {
    }
    ActsOverwritten(site, w.store, p, db, acts[..n], at);
    assert acts[..n + 1] == acts[..n] + [acts[n]];
    ApplySnoc(site, w.store, p, db, acts[..n], acts[n]);
    LastUpdateWins(w.results, msg, ResultMessage(p, PhaseAt(tries, n, |acts|)), ResultMessage(p, PhaseAt(tries, n + 1, |acts|)));
    hide Apply, Delivered;
  }

  /** The first `n` effects of a delivery are a legal run. */
  lemma {:induction false} PartialRun(site: Site, maxRetries: int, w: World, msg: string, at: Times, n: nat)
    requires msg in w.results && w.results[msg].phase.Reserved? && w.results[msg].pointer.jobId in w.jobs
    requires n <= |HandlerActs(site, w.store, w.results[msg].pointer, at)|
    ensures var steps := Steps(msg, HandlerActs(site, w.store, w.results[msg].pointer, at)[..n]);
      LegalRun(site, maxRetries, w, steps) && Run(site, maxRetries, w, steps) == Midway(site, w, msg, at, n)
  {
    var acts := HandlerActs(site, w.store, w.results[msg].pointer, at);
    if n == 0 {
      assert w.results[msg := w.results[msg]] == w.results;
    } else {
      PartialRun(site, maxRetries, w, msg, at, n - 1);
      MidwayStep(site, maxRetries, w, msg, at, n - 1);
      hide Legal, Next, Midway, HandlerActs;
      RunSnoc(site, maxRetries, w, Steps(msg, acts[..n - 1]), Transform(msg, acts[n - 1]));
      assert Steps(msg, acts[..n - 1]) + [Transform(msg, acts[n - 1])] == Steps(msg, acts[..n]);
    }
  }

  /** An undisturbed delivery, from any state of the protocol, is a legal run that ends as `Handled` says. */
  lemma HandlerIsARun(site: Site, maxRetries: int, w: World, msg: string, at: Times)
    requires msg in w.results && w.results[msg].phase.Reserved? && w.results[msg].pointer.jobId in w.jobs
    ensures LegalRun(site, maxRetries, w, HandlerSteps(site, w, msg, at))
    ensures Run(site, maxRetries, w, HandlerSteps(site, w, msg, at)) == Handled(site, w, msg, at)
  {
    var p := w.results[msg].pointer;
    var acts := HandlerActs(site, w.store, p, at);
    PartialRun(site, maxRetries, w, msg, at, |acts|);
    CompleteDelivery(site, w.store, p, Database(w.jobs, w.articles), at);
    assert acts[..|acts|] == acts;
  }

  /** Deliveries that raise after some of their effects, each followed by the next, then a complete one. */
  function RetriedSteps(site: Site, store: map<ObjectKey, Raw>, p: Pointer, msg: string, ds: seq<Delivery>, at: Times): seq<Step>
    decreases |ds|
  {
    if ds == [] then Steps(msg, HandlerActs(site, store, p, at)) else
    Steps(msg, Reached(site, store, p, ds[0])) + [Transform(msg, RaiseResult), Transform(msg, TakeResult)]
    + RetriedSteps(site, store, p, msg, ds[1..], at)
  }

  ghost predicate CutShort(site: Site, store: map<ObjectKey, Raw>, p: Pointer, d: Delivery) {
    d.reach < |HandlerActs(site, store, p, d.at)|
  }

  /** `w` after a delivery that was cut short, once the message has been taken again. */
  function TakenAgain(site: Site, w: World, msg: string, d: Delivery): World
    requires msg in w.results && w.results[msg].phase.Reserved?
  {
    var m := w.results[msg];
    var db := Apply(site, w.store, m.pointer, Database(w.jobs, w.articles), Reached(site, w.store, m.pointer, d));
    w.(jobs := db.jobs, articles := db.articles,
       results := w.results[msg := ResultMessage(m.pointer, Reserved(m.phase.tries + 1))])
  }

  /** A delivery that raises with retries left goes back to the queue, and is delivered again. */
  lemma RaiseAndTake(site: Site, maxRetries: int, w: World, msg: string, tries: nat)
    requires msg in w.results && tries <= maxRetries
    requires var phase := w.results[msg].phase;
      phase == Reserved(tries) || phase == MarkedRunning(tries) || phase == RowWritten(tries)
    ensures var steps := [Transform(msg, RaiseResult), Transform(msg, TakeResult)];
      && LegalRun(site, maxRetries, w, steps)
      && Run(site, maxRetries, w, steps)
         == w.(results := w.results[msg := w.results[msg].(phase := Reserved(tries + 1))])
  {
    var raise, take := Transform(msg, RaiseResult), Transform(msg, TakeResult);
    var waiting := Next(site, maxRetries, w, raise);
    LastUpdateWins(w.results, msg, waiting.results[msg], w.results[msg].(phase := Reserved(tries + 1)));
    assert Run(site, maxRetries, w, []) == w;
    RunSnoc(site, maxRetries, w, [], raise);
    RunSnoc(site, maxRetries, w, [raise], take);
    assert [] + [raise] == [raise] && [raise] + [take] == [raise, take];
  }

  lemma CutShortRun(site: Site, maxRetries: int, w: World, msg: string, d: Delivery)
    requires msg in w.results && w.results[msg].phase.Reserved? && w.results[msg].pointer.jobId in w.jobs
    requires CutShort(site, w.store, w.results[msg].pointer, d) && w.results[msg].phase.tries <= maxRetries
    ensures var steps := Steps(msg, Reached(site, w.store, w.results[msg].pointer, d))
                         + [Transform(msg, RaiseResult), Transform(msg, TakeResult)];
      LegalRun(site, maxRetries, w, steps) && Run(site, maxRetries, w, steps) == TakenAgain(site, w, msg, d)
  {
    hide Legal, Next, Run, LegalRun, HandlerActs, Apply;
    var m := w.results[msg];
    var mid := Midway(site, w, msg, d.at, d.reach);
    PartialRun(site, maxRetries, w, msg, d.at, d.reach);
    RaiseAndTake(site, maxRetries, mid, msg, m.phase.tries);
    LastUpdateWins(w.results, msg, mid.results[msg], ResultMessage(m.pointer, Reserved(m.phase.tries + 1)));
    RunThen(site, maxRetries, w, Steps(msg, Reached(site, w.store, m.pointer, d)),
            [Transform(msg, RaiseResult), Transform(msg, TakeResult)]);
  }

  /**
   Retrying is invisible: a message whose deliveries raise any number of times, anywhere, as long as
   retries are left, and then completes, leaves exactly the state that one undisturbed delivery leaves.
   */
  lemma {:induction false} RetriesAreInvisible(site: Site, maxRetries: int, w: World, msg: string, ds: seq<Delivery>, at: Times)
    requires msg in w.results && w.results[msg].phase.Reserved? && w.results[msg].pointer.jobId in w.jobs
    requires forall d :: d in ds ==> CutShort(site, w.store, w.results[msg].pointer, d)
    requires w.results[msg].phase.tries + |ds| <= maxRetries + 1
    ensures var steps := RetriedSteps(site, w.store, w.results[msg].pointer, msg, ds, at);
      LegalRun(site, maxRetries, w, steps) && Run(site, maxRetries, w, steps) == Handled(site, w, msg, at)
    decreases |ds|
  {
    var m := w.results[msg];
    var p := m.pointer;
    hide Legal, Next, Run, LegalRun, HandlerActs, Apply, Delivered, Reached, Steps, CutShort;
    if ds == [] {
      HandlerIsARun(site, maxRetries, w, msg, at);
    } else {
      assert ds[0] in ds;
      CutShortRun(site, maxRetries, w, msg, ds[0]);
      var again := TakenAgain(site, w, msg, ds[0]);
      OneDeliveryDoesNotMatter(site, w.store, p, Database(w.jobs, w.articles), ds[0], at);
      RetriesAreInvisible(site, maxRetries, again, msg, ds[1..], at);
      LastUpdateWins(w.results, msg, again.results[msg], ResultMessage(p, Finished));
      RunThen(site, maxRetries, w, Steps(msg, Reached(site, w.store, p, ds[0])) + [Transform(msg, RaiseResult), Transform(msg, TakeResult)],
              RetriedSteps(site, w.store, p, msg, ds[1..], at));
    }
  }

  /** The effects of transform steps depend on nothing but the store, the pointer and the database. */
  lemma {:induction false} EffectsOfActs(site: Site, maxRetries: int, resultsQueue: string, w: World, msg: string,
                                         acts: seq<TransformStep>)
    requires msg in w.results && LegalRun(site, maxRetries, w, Steps(msg, acts))
    ensures RunEffects(site, maxRetries, resultsQueue, w, Steps(msg, acts))
      == ApplyEffects(site, w.store, w.results[msg].pointer, Database(w.jobs, w.articles), acts)
    decreases |acts|
  {
    if acts != [] {
      assert Steps(msg, acts)[1..] == Steps(msg, acts[1..]);
      hide ResultPhaseAfter, JobsAfter, ArticlesAfter;
      EffectsOfActs(site, maxRetries, resultsQueue, Next(site, maxRetries, w, Transform(msg, acts[0])), msg, acts[1..]);
    }
  }

  /** The effects of an undisturbed delivery: the job started, the row if the verdict lets it pass, the job closed. */
  function DeliveryEffects(site: Site, store: map<ObjectKey, Raw>, p: Pointer, db: Database, at: Times): seq<Effect>
    requires p.jobId in db.jobs
  {
    var after := Delivered(site, store, p, db, at);
    var job, id := db.jobs[p.jobId], UrlId(p.url);
    [SetJob(p.jobId, StartedJob(job, at.started))]
    + (if Verdict(site, store, p) == None && id in after.articles then [UpsertRow(id, after.articles[id])] else [])
    + [SetJob(p.jobId, after.jobs[p.jobId])]
  }

  lemma EffectsFirst(site: Site, store: map<ObjectKey, Raw>, p: Pointer, db: Database, first: TransformStep, rest: seq<TransformStep>)
    ensures ApplyEffects(site, store, p, db, [first] + rest)
      == ActEffects(site, store, p, db, first) + ApplyEffects(site, store, p, Acted(site, store, p, db, first), rest)
  {
    hide ActEffects, Acted;
    assert ([first] + rest)[1..] == rest;
  }

  lemma CompleteEffects(site: Site, store: map<ObjectKey, Raw>, p: Pointer, db: Database, at: Times)
    requires p.jobId in db.jobs
    ensures ApplyEffects(site, store, p, db, HandlerActs(site, store, p, at)) == DeliveryEffects(site, store, p, db, at)
  {
    var acts := HandlerActs(site, store, p, at);
    var first := Acted(site, store, p, db, acts[0]);
    var second := Acted(site, store, p, first, acts[1]);
    if Verdict(site, store, p) == None {
      assert [acts[0]] + ([acts[1]] + ([acts[2]] + [])) == acts;
      EffectsFirst(site, store, p, second, acts[2], []);
      EffectsFirst(site, store, p, first, acts[1], [acts[2]] + []);
      EffectsFirst(site, store, p, db, acts[0], [acts[1]] + ([acts[2]] + []));
    } else {
      assert [acts[0]] + ([acts[1]] + []) == acts;
      EffectsFirst(site, store, p, first, acts[1], []);
      EffectsFirst(site, store, p, db, acts[0], [acts[1]] + []);
    }
    hide ApplyEffects;
  }

  /** The effects of the code are those of the protocol's run. */
  lemma HandlerEffects(site: Site, maxRetries: int, resultsQueue: string, w: World, msg: string, at: Times)
    requires msg in w.results && w.results[msg].phase.Reserved? && w.results[msg].pointer.jobId in w.jobs
    ensures LegalRun(site, maxRetries, w, HandlerSteps(site, w, msg, at))
    ensures RunEffects(site, maxRetries, resultsQueue, w, HandlerSteps(site, w, msg, at))
      == DeliveryEffects(site, w.store, w.results[msg].pointer, Database(w.jobs, w.articles), at)
  {
    var p := w.results[msg].pointer;
    HandlerIsARun(site, maxRetries, w, msg, at);
    EffectsOfActs(site, maxRetries, resultsQueue, w, msg, HandlerActs(site, w.store, p, at));
    CompleteEffects(site, w.store, p, Database(w.jobs, w.articles), at);
  }

  /** The serving database, with the history of its updates. */
  class ServingDatabase {
    var jobs: map<string, Job>
    var articles: map<Digest, Row>
    ghost var effects: seq<Effect>

    ghost function State(): Database
      reads this
    {
      Database(jobs, articles)
    }

    /** `update_job_status`; false where it raises because the job does not exist. */
    method UpdateJobStatus(jobId: string, status: JobStatus, resultCount: Option<nat>, error: Option<string>,
                           started: bool, finished: bool, now: int)
      returns (found: bool)
      modifies this`jobs, this`effects
      ensures found <==> jobId in old(jobs)
      ensures if found then
          var job := Updated(old(jobs)[jobId], status, resultCount, error, started, finished, now);
          jobs == old(jobs)[jobId := job] && effects == old(effects) + [SetJob(jobId, job)]
        else jobs == old(jobs) && effects == old(effects)
    {
      if jobId !in jobs {
        return false;
      }
      var job := jobs[jobId].(status := status);
      if started {
        job := job.(startedAt := Some(now));
      }
      if finished {
        job := job.(finishedAt := Some(now));
      }
      if resultCount.Some? {
        job := job.(resultCount := resultCount.value);
      }
      if error.Some? {
        job := job.(error := error);
      }
      jobs := jobs[jobId := job];
      effects := effects + [SetJob(jobId, job)];
      return true;
    }

    /** The UPSERT of the article sink. */
    method Upsert(row: Row)
      modifies this`articles, this`effects
      ensures articles == old(articles)[UrlId(row.url) := row]
      ensures effects == old(effects) + [UpsertRow(UrlId(row.url), row)]
    {
      articles := articles[UrlId(row.url) := row];
      effects := effects + [UpsertRow(UrlId(row.url), row)];
    }

    /**
     Handle a pointer; false where the handler raises because its job does not exist.  `HandlerIsARun` and
     `HandlerEffects` show that this is the protocol's run, effect by effect.
     */
    method HandleResultPointer(p: Pointer, store: InMemoryObjectStore, site: Site, at: Times) returns (ok: bool)
      modifies this
      ensures ok <==> p.jobId in old(jobs)
      ensures !ok ==> State() == old(State()) && effects == old(effects)
      ensures ok ==> State() == Delivered(site, store.objects, p, old(State()), at)
      ensures ok ==> effects == old(effects) + DeliveryEffects(site, store.objects, p, old(State()), at)
    {
      var known := UpdateJobStatus(p.jobId, Running, None, None, true, false, at.started);
      if !known {
        return false;
      }
      if p.status != Success {
        var _ := UpdateJobStatus(p.jobId, Failed, Some(0), Some(StatusError(p.status)), false, true, at.closed);
        return true;
      }
      var raw := store.Get(p.key);
      if raw == None {
        var _ := UpdateJobStatus(p.jobId, Failed, Some(0), Some("raw payload missing"), false, true, at.closed);
        return true;
      }
      if !site.valid(p.url, raw.value) {
        var _ := UpdateJobStatus(p.jobId, Failed, Some(0), Some("soft block or challenge page detected"), false, true,
                                 at.closed);
        return true;
      }
      Upsert(Row(p.url, p.bucket, p.key, site.extract(p.url, raw.value), at.written));
      var _ := UpdateJobStatus(p.jobId, Done, Some(1), None, false, true, at.closed);
      return true;
    }
  }
}
