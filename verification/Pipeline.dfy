/**
 The two-stage ingestion protocol: submitters create jobs, scraper workers archive payloads and
 publish pointers, transform workers turn pointers into article rows and own the job's status.

 Any number of workers take any waiting message in any order, every handler may raise between its
 awaited effects, and every worker may vanish; a message of a vanished worker is never redelivered.
 */
module Pipeline {
  import opened Collections
  import opened Models
  import opened Messages
  import MessageQueue

  // Jobs.

  datatype JobStatus = Queued | Running | Done | Failed

  datatype Job = Job(status: JobStatus, startedAt: Option<int>, finishedAt: Option<int>, resultCount: nat,
                     error: Option<string>)

  const NewJob := Job(Queued, None, None, 0, None)

  /** `update_job_status` at time `now`: absent arguments keep the stored value. */
  function Updated(job: Job, status: JobStatus, resultCount: Option<nat>, error: Option<string>,
                   started: bool, finished: bool, now: int): Job
  {
    Job(status, if started then Some(now) else job.startedAt, if finished then Some(now) else job.finishedAt,
        if resultCount.Some? then resultCount.value else job.resultCount,
        if error.Some? then error else job.error)
  }

  function StartedJob(job: Job, now: int): Job {
    Updated(job, Running, None, None, true, false, now)
  }

  function FailedJob(job: Job, error: string, now: int): Job {
    Updated(job, Failed, Some(0), Some(error), false, true, now)
  }

  function DoneJob(job: Job, now: int): Job {
    Updated(job, Done, Some(1), None, false, true, now)
  }

  // Payloads and rows.

  /** The bytes archived for an attempt: the page, or a record of why there is none. */
  datatype Raw = Html(text: string) | Attempt(status: Status, error: Option<string>, url: string)

  /** An article row; `content` stands for the extracted fields. */
  datatype Row = Row(url: string, bucket: string, rawKey: ObjectKey, content: string, fetchedAt: int)

  /** What the HTML validator and extractor do with a payload of a URL. */
  datatype Site = Site(valid: (string, Raw) -> bool, extract: (string, Raw) -> string)

  function RawPayload(result: ScrapeResult, url: string): Raw {
    if result.article.Some? && result.article.value.rawHtml.Some? && result.article.value.rawHtml.value != ""
    then Html(result.article.value.rawHtml.value)
    else Attempt(result.status, result.error, url)
  }

  /** Job hint, then article metadata, then "public"; empty strings do not count. */
  function Bucket(hint: Option<string>, result: ScrapeResult): string {
    if hint.Some? && hint.value != "" then hint.value
    else if result.article.Some? && GetOr(result.article.value.metadata, "bucket", "") != ""
    then result.article.value.metadata["bucket"]
    else "public"
  }

  function PointerFor(jobId: string, url: string, hint: Option<string>, result: ScrapeResult): Pointer {
    var bucket := Bucket(hint, result);
    Pointer(jobId, RawObjectKey(bucket, UrlId(url)), url, bucket, result.status)
  }

  // Messages, by the id the queue gave them.  `tries` counts deliveries, including the current one.

  datatype JobPhase =
    | JobWaiting(tries: nat)
    | JobReserved(tries: nat)
    | Archived(tries: nat, pointer: Pointer)
    | PointerPublished
    | JobSettled
    | JobLost

  datatype JobMessage = JobMessage(jobId: string, url: string, bucket: Option<string>, phase: JobPhase)

  datatype ResultPhase =
    | Waiting(tries: nat)
    | Reserved(tries: nat)
    | MarkedRunning(tries: nat)
    | RowWritten(tries: nat)
    | Finished
    | Acked
    | Dead
    | Lost

  datatype ResultMessage = ResultMessage(pointer: Pointer, phase: ResultPhase)

  /** History: who may still act on a job. */
  datatype Owner = Submitter | JobOwner(msg: string) | ResultOwner(msg: string)

  datatype Submission = Submission(url: string, bucket: Option<string>)

  datatype World = World(
    jobs: map<string, Job>,
    submitting: map<string, Submission>,
    jobQueue: map<string, JobMessage>,
    results: map<string, ResultMessage>,
    store: map<ObjectKey, Raw>,
    articles: map<Digest, Row>,
    owner: map<string, Owner>)

  const Empty := World(map[], map[], map[], map[], map[], map[], map[])

  /** What the scraper worker holding a JOB message does next. */
  datatype ScraperStep =
    | Take
    | Archive(result: ScrapeResult)
    | PublishPointer(out: string)
    | Ack
    | Raise
    | Vanish

  /** What the transform worker holding a RESULTS message does next. */
  datatype TransformStep =
    | TakeResult
    | MarkRunning(now: int)
    | RejectStatus(now: int)
    | PayloadMissing(now: int)
    | RejectPage(now: int)
    | WriteRow(now: int)
    | MarkDone(now: int)
    | AckResult
    | RaiseResult
    | VanishResult

  datatype Step =
    | Create(jobId: string, submission: Submission)
    | PublishJob(jobId: string, msg: string)
    | Scraper(msg: string, act: ScraperStep)
    | Transform(msg: string, action: TransformStep)

  predicate ScraperEnabled(taken: set<string>, m: JobMessage, act: ScraperStep) {
    match act
    case Take => m.phase.JobWaiting?
    case Archive(_) => m.phase.JobReserved?
    case PublishPointer(out) => m.phase.Archived? && out !in taken
    case Ack => m.phase.PointerPublished?
    case Raise => m.phase.JobReserved? || m.phase.Archived?
    case Vanish => m.phase.JobReserved? || m.phase.Archived? || m.phase.PointerPublished?
  }

  predicate TransformEnabled(site: Site, jobs: map<string, Job>, store: map<ObjectKey, Raw>, m: ResultMessage,
                             act: TransformStep)
  {
    var p := m.pointer;
    match act
    case TakeResult => m.phase.Waiting?
    case MarkRunning(_) => m.phase.Reserved? && p.jobId in jobs
    case RejectStatus(_) => m.phase.MarkedRunning? && p.status != Success && p.jobId in jobs
    case PayloadMissing(_) => m.phase.MarkedRunning? && p.status == Success && p.key !in store && p.jobId in jobs
    case RejectPage(_) =>
      && m.phase.MarkedRunning? && p.status == Success && p.key in store && p.jobId in jobs
      && !site.valid(p.url, store[p.key])
    case WriteRow(_) =>
      m.phase.MarkedRunning? && p.status == Success && p.key in store && site.valid(p.url, store[p.key])
    case MarkDone(_) => m.phase.RowWritten? && p.jobId in jobs
    case AckResult => m.phase.Finished?
    case RaiseResult => m.phase.Reserved? || m.phase.MarkedRunning? || m.phase.RowWritten?
    case VanishResult => m.phase.Reserved? || m.phase.MarkedRunning? || m.phase.RowWritten? || m.phase.Finished?
  }

  predicate Legal(site: Site, w: World, step: Step) {
    match step
    case Create(j, _) => j !in w.jobs
    case PublishJob(j, msg) => j in w.submitting && msg !in w.jobQueue
    case Scraper(msg, act) => msg in w.jobQueue && ScraperEnabled(w.results.Keys, w.jobQueue[msg], act)
    case Transform(msg, act) => msg in w.results && TransformEnabled(site, w.jobs, w.store, w.results[msg], act)
  }

  // What one step does to each part of the world.

  function StoreAfter(store: map<ObjectKey, Raw>, m: JobMessage, act: ScraperStep): map<ObjectKey, Raw> {
    match act
    case Archive(result) => store[PointerFor(m.jobId, m.url, m.bucket, result).key := RawPayload(result, m.url)]
    case _ => store
  }

  function JobPhaseAfter(m: JobMessage, act: ScraperStep, maxRetries: int): JobPhase
    requires ScraperEnabled({}, m, act)
  {
    match act
    case Take => JobReserved(m.phase.tries + 1)
    case Archive(result) => Archived(m.phase.tries, PointerFor(m.jobId, m.url, m.bucket, result))
    case PublishPointer(_) => PointerPublished
    case Ack => JobSettled
    case Raise => if MessageQueue.Exhausted(m.phase.tries, maxRetries) then JobSettled else JobWaiting(m.phase.tries)
    case Vanish => JobLost
  }

  function ScraperNext(w: World, msg: string, act: ScraperStep, maxRetries: int): World
    requires msg in w.jobQueue && ScraperEnabled(w.results.Keys, w.jobQueue[msg], act)
  {
    var m := w.jobQueue[msg];
    var next := w.(store := StoreAfter(w.store, m, act),
                   jobQueue := w.jobQueue[msg := m.(phase := JobPhaseAfter(m, act, maxRetries))]);
    match act
    case PublishPointer(out) =>
      next.(results := w.results[out := ResultMessage(m.phase.pointer, Waiting(0))],
            owner := w.owner[m.jobId := ResultOwner(out)])
    case _ => next
  }

  function JobsAfter(jobs: map<string, Job>, p: Pointer, act: TransformStep): map<string, Job> {
    if p.jobId !in jobs then jobs else
    var job := jobs[p.jobId];
    match act
    case MarkRunning(now) => jobs[p.jobId := StartedJob(job, now)]
    case RejectStatus(now) => jobs[p.jobId := FailedJob(job, StatusError(p.status), now)]
    case PayloadMissing(now) => jobs[p.jobId := FailedJob(job, "raw payload missing", now)]
    case RejectPage(now) => jobs[p.jobId := FailedJob(job, "soft block or challenge page detected", now)]
    case MarkDone(now) => jobs[p.jobId := DoneJob(job, now)]
    case _ => jobs
  }

  function ArticlesAfter(site: Site, store: map<ObjectKey, Raw>, articles: map<Digest, Row>, p: Pointer,
                         act: TransformStep): map<Digest, Row>
  {
    if act.WriteRow? && p.key in store
    then articles[UrlId(p.url) := Row(p.url, p.bucket, p.key, site.extract(p.url, store[p.key]), act.now)]
    else articles
  }

  function ResultPhaseAfter(phase: ResultPhase, act: TransformStep, maxRetries: int): ResultPhase
    requires phase.Waiting? || phase.Reserved? || phase.MarkedRunning? || phase.RowWritten? || phase.Finished?
    requires phase.Finished? ==> act.AckResult? || act.VanishResult?
  {
    match act
    case TakeResult => Reserved(phase.tries + 1)
    case MarkRunning(_) => MarkedRunning(phase.tries)
    case WriteRow(_) => RowWritten(phase.tries)
    case AckResult => Acked
    case RaiseResult => if MessageQueue.Exhausted(phase.tries, maxRetries) then Dead else Waiting(phase.tries)
    case VanishResult => Lost
    case _ => Finished
  }

  function TransformNext(site: Site, w: World, msg: string, act: TransformStep, maxRetries: int): World
    requires msg in w.results && TransformEnabled(site, w.jobs, w.store, w.results[msg], act)
  {
    var m := w.results[msg];
    w.(jobs := JobsAfter(w.jobs, m.pointer, act),
       articles := ArticlesAfter(site, w.store, w.articles, m.pointer, act),
       results := w.results[msg := m.(phase := ResultPhaseAfter(m.phase, act, maxRetries))])
  }

  function StatusError(status: Status): string {
    var name := match status
      case Success => "success"
      case Challenge => "challenge"
      case RateLimited => "rate_limited"
      case Error => "error"
      case ProxyFailed => "proxy_failed";
    "scraper returned status '" + name + "'"
  }

  function Next(site: Site, maxRetries: int, w: World, step: Step): World
    requires Legal(site, w, step)
  {
    match step
    case Create(j, submission) =>
      w.(jobs := w.jobs[j := NewJob], submitting := w.submitting[j := submission], owner := w.owner[j := Submitter])
    case PublishJob(j, msg) =>
      var s := w.submitting[j];
      w.(submitting := w.submitting - {j},
         jobQueue := w.jobQueue[msg := JobMessage(j, s.url, s.bucket, JobWaiting(0))],
         owner := w.owner[j := JobOwner(msg)])
    case Scraper(msg, act) => ScraperNext(w, msg, act, maxRetries)
    case Transform(msg, act) => TransformNext(site, w, msg, act, maxRetries)
  }

  // What every step keeps.

  predicate Open(job: Job) {
    job.status == Queued || job.status == Running
  }

  ghost predicate Owns(w: World, j: string, owner: Owner) {
    j in w.jobs && j in w.owner && w.owner[j] == owner
  }

  ghost predicate SubmitterOk(w: World, j: string) {
    Owns(w, j, Submitter) && w.jobs[j] == NewJob
  }

  ghost predicate JobMessageOk(w: World, msg: string)
    requires msg in w.jobQueue
  {
    var m := w.jobQueue[msg];
    && (m.phase.JobWaiting? || m.phase.JobReserved? || m.phase.Archived? ==>
        Owns(w, m.jobId, JobOwner(msg)) && w.jobs[m.jobId] == NewJob)
    && (m.phase.Archived? ==> m.phase.pointer.jobId == m.jobId && m.phase.pointer.key in w.store)
  }

  /** A pointer names a stored payload, its job is its own, and the job's status fits its progress. */
  ghost predicate ResultOk(w: World, msg: string)
    requires msg in w.results
  {
    var m := w.results[msg];
    var p := m.pointer;
    && Owns(w, p.jobId, ResultOwner(msg))
    && p.key in w.store
    && match m.phase
       case Waiting(_) => Open(w.jobs[p.jobId])
       case Reserved(_) => Open(w.jobs[p.jobId])
       case MarkedRunning(_) => w.jobs[p.jobId].status == Running
       case RowWritten(_) => w.jobs[p.jobId].status == Running && p.status == Success && UrlId(p.url) in w.articles
       case Finished => !Open(w.jobs[p.jobId])
       case Acked => !Open(w.jobs[p.jobId])
       case Dead => Open(w.jobs[p.jobId])
       case Lost => true
  }

  /** The stored fields of a job agree with its status. */
  predicate Shaped(job: Job) {
    match job.status
    case Queued => job == NewJob
    case Running => job.startedAt.Some? && job == Job(Running, job.startedAt, None, 0, None)
    case Done => job.startedAt.Some? && job.finishedAt.Some? && job == Job(Done, job.startedAt, job.finishedAt, 1, None)
    case Failed => job.startedAt.Some? && job.finishedAt.Some? && job.resultCount == 0 && job.error.Some?
  }

  /** A job that is over was finished by its own result message; a done job has its row. */
  ghost predicate JobOk(w: World, j: string)
    requires j in w.jobs
  {
    Shaped(w.jobs[j]) && JobOver(w, j)
  }

  ghost predicate JobOver(w: World, j: string)
    requires j in w.jobs
  {
    !Open(w.jobs[j]) ==>
      && j in w.owner && w.owner[j].ResultOwner? && w.owner[j].msg in w.results
      && var m := w.results[w.owner[j].msg];
         && m.pointer.jobId == j && (m.phase.Finished? || m.phase.Acked? || m.phase.Lost?)
         && (w.jobs[j].status == Done ==> m.pointer.status == Success && UrlId(m.pointer.url) in w.articles)
  }

  ghost predicate Inv(w: World) {
    && (forall j :: j in w.submitting ==> SubmitterOk(w, j))
    && (forall msg :: msg in w.jobQueue ==> JobMessageOk(w, msg))
    && (forall msg :: msg in w.results ==> ResultOk(w, msg))
    && (forall j :: j in w.jobs ==> JobOk(w, j))
    && (forall id :: id in w.articles ==> UrlId(w.articles[id].url) == id)
  }

  lemma SubmitterKeeps(site: Site, maxRetries: int, w: World, step: Step)
    requires Inv(w) && Legal(site, w, step) && (step.Create? || step.PublishJob?)
    ensures Inv(Next(site, maxRetries, w, step))
  {
    var w' := Next(site, maxRetries, w, step);
    assert step.PublishJob? ==> SubmitterOk(w, step.jobId);
    forall j | j in w'.submitting ensures SubmitterOk(w', j) {
      assert j in w.submitting ==> SubmitterOk(w, j);
    }
    forall msg | msg in w'.jobQueue ensures JobMessageOk(w', msg) {
      assert msg in w.jobQueue ==> JobMessageOk(w, msg);
    }
    forall msg | msg in w'.results ensures ResultOk(w', msg) {
      assert ResultOk(w, msg);
    }
    forall j | j in w'.jobs ensures JobOk(w', j) {
      assert j in w.jobs ==> JobOk(w, j);
    }
  }

  lemma ScraperKeepsMessages(w: World, msg: string, act: ScraperStep, maxRetries: int)
    requires Inv(w) && msg in w.jobQueue && ScraperEnabled(w.results.Keys, w.jobQueue[msg], act)
    ensures var w' := ScraperNext(w, msg, act, maxRetries); forall m :: m in w'.jobQueue ==> JobMessageOk(w', m)
  {
    var w' := ScraperNext(w, msg, act, maxRetries);
    assert JobMessageOk(w, msg);
    forall m | m in w'.jobQueue ensures JobMessageOk(w', m) {
      assert JobMessageOk(w, m);
    }
  }

  lemma ScraperKeeps(w: World, msg: string, act: ScraperStep, maxRetries: int)
    requires Inv(w) && msg in w.jobQueue && ScraperEnabled(w.results.Keys, w.jobQueue[msg], act)
    ensures Inv(ScraperNext(w, msg, act, maxRetries))
  {
    var w' := ScraperNext(w, msg, act, maxRetries);
    assert JobMessageOk(w, msg);
    ScraperKeepsMessages(w, msg, act, maxRetries);
    forall j | j in w'.submitting ensures SubmitterOk(w', j) {
      assert SubmitterOk(w, j);
    }
    forall m | m in w'.results ensures ResultOk(w', m) {
      assert m in w.results ==> ResultOk(w, m);
    }
    forall j | j in w'.jobs ensures JobOk(w', j) {
      assert JobOk(w, j);
    }
  }

  /** A transform step touches its own message and its own job, and removes no row. */
  ghost predicate OwnOnly(w: World, w': World, msg: string)
    requires msg in w.results
  {
    && msg in w'.results && w'.results[msg].pointer == w.results[msg].pointer
    && (forall m :: m in w'.results <==> m in w.results)
    && (forall m :: m in w.results && m != msg ==> w'.results[m] == w.results[m])
    && (forall j :: j in w'.jobs <==> j in w.jobs)
    && (forall j :: j in w.jobs && j != w.results[msg].pointer.jobId ==> w'.jobs[j] == w.jobs[j])
    && w'.submitting == w.submitting && w'.jobQueue == w.jobQueue
    && w'.store == w.store && w'.owner == w.owner
    && (forall id :: id in w.articles ==> id in w'.articles)
  }

  lemma OthersKept(w: World, w': World, msg: string)
    requires Inv(w) && msg in w.results && OwnOnly(w, w', msg)
    ensures forall j :: j in w'.submitting ==> SubmitterOk(w', j)
    ensures forall m :: m in w'.jobQueue ==> JobMessageOk(w', m)
    ensures forall m :: m in w'.results && m != msg ==> ResultOk(w', m)
    ensures forall j :: j in w'.jobs && j != w.results[msg].pointer.jobId ==> JobOk(w', j)
  {
    assert ResultOk(w, msg);
    forall j | j in w'.submitting ensures SubmitterOk(w', j) {
      assert SubmitterOk(w, j);
    }
    forall m | m in w'.jobQueue ensures JobMessageOk(w', m) {
      assert JobMessageOk(w, m);
    }
    forall m | m in w'.results && m != msg ensures ResultOk(w', m) {
      assert ResultOk(w, m);
    }
    forall j | j in w'.jobs && j != w.results[msg].pointer.jobId ensures JobOk(w', j) {
      assert JobOk(w, j);
    }
  }

  lemma TransformFrame(site: Site, w: World, msg: string, act: TransformStep, maxRetries: int)
    requires msg in w.results && TransformEnabled(site, w.jobs, w.store, w.results[msg], act)
    ensures OwnOnly(w, TransformNext(site, w, msg, act, maxRetries), msg)
  {
    hide ResultPhaseAfter;
  }

  lemma TransformOwn(site: Site, w: World, msg: string, act: TransformStep, maxRetries: int)
    requires msg in w.results && ResultOk(w, msg) && TransformEnabled(site, w.jobs, w.store, w.results[msg], act)
    requires JobOk(w, w.results[msg].pointer.jobId)
    ensures var w' := TransformNext(site, w, msg, act, maxRetries);
      w.results[msg].pointer.jobId in w'.jobs && msg in w'.results
      && ResultOk(w', msg) && JobOk(w', w.results[msg].pointer.jobId)
  {
  }

  lemma TransformKeeps(site: Site, w: World, msg: string, act: TransformStep, maxRetries: int)
    requires Inv(w) && msg in w.results && TransformEnabled(site, w.jobs, w.store, w.results[msg], act)
    ensures Inv(TransformNext(site, w, msg, act, maxRetries))
  {
    var w' := TransformNext(site, w, msg, act, maxRetries);
    assert ResultOk(w, msg) && JobOk(w, w.results[msg].pointer.jobId);
    TransformOwn(site, w, msg, act, maxRetries);
    TransformFrame(site, w, msg, act, maxRetries);
    OthersKept(w, w', msg);
    assert forall id :: id in w'.articles ==> UrlId(w'.articles[id].url) == id;
  }

  /** Every step of every submitter and worker keeps the invariant. */
  lemma StepKeepsInv(site: Site, maxRetries: int, w: World, step: Step)
    requires Inv(w) && Legal(site, w, step)
    ensures Inv(Next(site, maxRetries, w, step))
  {
    match step
    case Create(_, _) => SubmitterKeeps(site, maxRetries, w, step);
    case PublishJob(_, _) => SubmitterKeeps(site, maxRetries, w, step);
    case Scraper(msg, act) => ScraperKeeps(w, msg, act, maxRetries);
    case Transform(msg, act) => TransformKeeps(site, w, msg, act, maxRetries);
  }

  // Whole runs.

  predicate LegalRun(site: Site, maxRetries: int, w: World, steps: seq<Step>)
    decreases |steps|
  {
    steps != [] ==> Legal(site, w, steps[0]) && LegalRun(site, maxRetries, Next(site, maxRetries, w, steps[0]), steps[1..])
  }

  function Run(site: Site, maxRetries: int, w: World, steps: seq<Step>): World
    requires LegalRun(site, maxRetries, w, steps)
    decreases |steps|
  {
    if steps == [] then w else Run(site, maxRetries, Next(site, maxRetries, w, steps[0]), steps[1..])
  }

  lemma {:induction false} RunKeepsInv(site: Site, maxRetries: int, w: World, steps: seq<Step>)
    requires Inv(w) && LegalRun(site, maxRetries, w, steps)
    ensures Inv(Run(site, maxRetries, w, steps))
    decreases |steps|
  {
    if steps != [] {
      StepKeepsInv(site, maxRetries, w, steps[0]);
      RunKeepsInv(site, maxRetries, Next(site, maxRetries, w, steps[0]), steps[1..]);
    }
  }

  /** Every pointer ever published names a stored payload: the "payload missing" branch is never taken. */
  lemma PayloadNeverMissing(site: Site, maxRetries: int, steps: seq<Step>, msg: string)
    requires LegalRun(site, maxRetries, Empty, steps) && msg in Run(site, maxRetries, Empty, steps).results
    ensures var w := Run(site, maxRetries, Empty, steps);
      && w.results[msg].pointer.key in w.store
      && forall now :: !Legal(site, w, Transform(msg, PayloadMissing(now)))
  {
    RunKeepsInv(site, maxRetries, Empty, steps);
    assert ResultOk(Run(site, maxRetries, Empty, steps), msg);
  }

  predicate SameJob(w: World, m: string, n: string)
    requires m in w.results && n in w.results
  {
    w.results[m].pointer.jobId == w.results[n].pointer.jobId
  }

  /** At most one article row per URL, and at most one pointer per job. */
  lemma OneRowPerUrlOnePointerPerJob(site: Site, maxRetries: int, steps: seq<Step>)
    requires LegalRun(site, maxRetries, Empty, steps)
    ensures var w := Run(site, maxRetries, Empty, steps);
      && (forall a, b :: a in w.articles && b in w.articles && w.articles[a].url == w.articles[b].url ==> a == b)
      && (forall m, n :: m in w.results && n in w.results && SameJob(w, m, n) ==> m == n)
  {
    RunKeepsInv(site, maxRetries, Empty, steps);
    var w := Run(site, maxRetries, Empty, steps);
    forall m, n | m in w.results && n in w.results && SameJob(w, m, n) ensures m == n {
      assert ResultOk(w, m) && ResultOk(w, n);
    }
  }

  /** An acknowledged RESULTS message leaves its job done or failed, and a done job has its row. */
  lemma AckedMeansOver(site: Site, maxRetries: int, steps: seq<Step>, msg: string)
    requires LegalRun(site, maxRetries, Empty, steps) && msg in Run(site, maxRetries, Empty, steps).results
    requires Run(site, maxRetries, Empty, steps).results[msg].phase.Acked?
    ensures var w := Run(site, maxRetries, Empty, steps);
      var p := w.results[msg].pointer;
      && p.jobId in w.jobs
      && (w.jobs[p.jobId].status == Failed || w.jobs[p.jobId].status == Done) && Shaped(w.jobs[p.jobId])
      && (w.jobs[p.jobId].status == Done ==> UrlId(p.url) in w.articles && w.articles[UrlId(p.url)].url == p.url)
  {
    RunKeepsInv(site, maxRetries, Empty, steps);
    var w := Run(site, maxRetries, Empty, steps);
    assert ResultOk(w, msg);
    assert JobOk(w, w.results[msg].pointer.jobId);
  }

  lemma OverStaysInTransform(site: Site, maxRetries: int, w: World, msg: string, act: TransformStep, j: string)
    requires msg in w.results && ResultOk(w, msg) && TransformEnabled(site, w.jobs, w.store, w.results[msg], act)
    requires j in w.jobs && JobOver(w, j) && !Open(w.jobs[j])
    ensures var w' := TransformNext(site, w, msg, act, maxRetries); j in w'.jobs && w'.jobs[j] == w.jobs[j]
  {
  }

  lemma OverStays(site: Site, maxRetries: int, w: World, step: Step, j: string)
    requires Inv(w) && Legal(site, w, step) && j in w.jobs && !Open(w.jobs[j])
    ensures var w' := Next(site, maxRetries, w, step); j in w'.jobs && w'.jobs[j] == w.jobs[j]
  {
    if step.Transform? {
      assert JobOk(w, j) && ResultOk(w, step.msg);
      OverStaysInTransform(site, maxRetries, w, step.msg, step.action, j);
    } else if step.Scraper? {
      assert ScraperNext(w, step.msg, step.act, maxRetries).jobs == w.jobs;
    }
  }

  /** A job that is done or failed never changes again, whatever happens next. */
  lemma {:induction false} OverForGood(site: Site, maxRetries: int, w: World, steps: seq<Step>, j: string)
    requires Inv(w) && LegalRun(site, maxRetries, w, steps) && j in w.jobs && !Open(w.jobs[j])
    ensures j in Run(site, maxRetries, w, steps).jobs && Run(site, maxRetries, w, steps).jobs[j] == w.jobs[j]
    decreases |steps|
  {
    if steps != [] {
      StepKeepsInv(site, maxRetries, w, steps[0]);
      OverStays(site, maxRetries, w, steps[0], j);
      OverForGood(site, maxRetries, Next(site, maxRetries, w, steps[0]), steps[1..], j);
    }
  }

  /** A row, once written, stays: it is only ever overwritten. */
  lemma {:induction false} RowsStay(site: Site, maxRetries: int, w: World, steps: seq<Step>, id: Digest)
    requires LegalRun(site, maxRetries, w, steps) && id in w.articles
    ensures id in Run(site, maxRetries, w, steps).articles
    decreases |steps|
  {
    if steps != [] {
      RowsStay(site, maxRetries, Next(site, maxRetries, w, steps[0]), steps[1..], id);
    }
  }
}
