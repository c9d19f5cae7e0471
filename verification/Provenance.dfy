/**
 Where the protocol's payloads, pointers, rows and error texts come from: each is traced back to the
 submission and the scrape it stems from, over every run.
 */
module Provenance {
  import opened Collections
  import opened Models
  import opened Messages
  import opened Pipeline

  /** The result of scraping a job, as it was archived. */
  datatype Archival = Archival(jobId: string, url: string, hint: Option<string>, result: ScrapeResult)

  /** What happened in a run: the jobs created, and the results archived. */
  datatype Past = Past(created: set<(string, Submission)>, archived: set<Archival>)

  function Joined(a: Past, b: Past): Past {
    Past(a.created + b.created, a.archived + b.archived)
  }

  function StepPast(w: World, step: Step): Past {
    match step
    case Create(j, s) => Past({(j, s)}, {})
    case Scraper(msg, Archive(result)) =>
      if msg in w.jobQueue
      then Past({}, {Archival(w.jobQueue[msg].jobId, w.jobQueue[msg].url, w.jobQueue[msg].bucket, result)})
      else Past({}, {})
    case _ => Past({}, {})
  }

  ghost function PastOf(site: Site, maxRetries: int, w: World, steps: seq<Step>): Past
    requires LegalRun(site, maxRetries, w, steps)
    decreases |steps|
  {
    if steps == [] then Past({}, {}) else
    Joined(StepPast(w, steps[0]), PastOf(site, maxRetries, Next(site, maxRetries, w, steps[0]), steps[1..]))
  }

  /** `raw` is the page of this result, or the record of an attempt at `url` that gave none. */
  predicate PageOf(raw: Raw, url: string, result: ScrapeResult) {
    var html := if result.article.Some? then result.article.value.rawHtml else None;
    match raw
    case Html(text) => html == Some(text) && text != ""
    case Attempt(status, error, u) =>
      status == result.status && error == result.error && u == url && (html == None || html == Some(""))
  }

  /** The bucket is the hint, else the one in the article's metadata, else "public". */
  predicate BucketOf(bucket: string, hint: Option<string>, result: ScrapeResult) {
    if hint.Some? && hint.value != "" then bucket == hint.value
    else if result.article.Some? && "bucket" in result.article.value.metadata && result.article.value.metadata["bucket"] != ""
    then bucket == result.article.value.metadata["bucket"]
    else bucket == "public"
  }

  /** The key names the URL and the bucket, and neither more nor less. */
  predicate KeyOf(key: ObjectKey, url: string, bucket: string) {
    key.urlId == Sha256(url) && key.bucket == bucket && bucket != ""
  }

  ghost predicate PayloadOk(past: Past, key: ObjectKey, raw: Raw) {
    exists x :: x in past.archived && key.urlId == Sha256(x.url) && PageOf(raw, x.url, x.result)
  }

  predicate PointsTo(p: Pointer, x: Archival) {
    x.jobId == p.jobId && x.url == p.url && x.result.status == p.status && BucketOf(p.bucket, x.hint, x.result)
  }

  ghost predicate PointerOk(past: Past, p: Pointer) {
    KeyOf(p.key, p.url, p.bucket) && exists x :: x in past.archived && PointsTo(p, x)
  }

  ghost predicate CreatedAs(past: Past, j: string, url: string, hint: Option<string>) {
    (j, Submission(url, hint)) in past.created
  }

  /** The row was extracted from a valid page that was archived for its own URL. */
  ghost predicate RowOk(site: Site, past: Past, id: Digest, row: Row) {
    && id == Sha256(row.url) && KeyOf(row.rawKey, row.url, row.bucket)
    && exists raw :: PageExtracted(site, past, row, raw)
  }

  ghost predicate PageExtracted(site: Site, past: Past, row: Row, raw: Raw) {
    && PayloadOk(past, row.rawKey, raw) && site.valid(row.url, raw) && row.content == site.extract(row.url, raw)
  }

  /** Why a job failed, as its pointer's status says. */
  predicate ErrorOf(status: Status, error: string) {
    match status
    case Success => error == "soft block or challenge page detected"
    case Challenge => error == "scraper returned status 'challenge'"
    case RateLimited => error == "scraper returned status 'rate_limited'"
    case Error => error == "scraper returned status 'error'"
    case ProxyFailed => error == "scraper returned status 'proxy_failed'"
  }

  ghost predicate FailureOk(w: World, j: string)
    requires j in w.jobs
  {
    w.jobs[j].status == Failed ==>
      exists msg :: msg in w.results && w.results[msg].pointer.jobId == j && w.jobs[j].error.Some?
        && ErrorOf(w.results[msg].pointer.status, w.jobs[j].error.value)
  }

  ghost predicate Origins(site: Site, past: Past, w: World) {
    && (forall j :: j in w.submitting ==> CreatedAs(past, j, w.submitting[j].url, w.submitting[j].bucket))
    && (forall msg :: msg in w.jobQueue ==> CreatedAs(past, w.jobQueue[msg].jobId, w.jobQueue[msg].url, w.jobQueue[msg].bucket))
    && (forall x :: x in past.archived ==> CreatedAs(past, x.jobId, x.url, x.hint))
    && (forall key :: key in w.store ==> PayloadOk(past, key, w.store[key]))
    && (forall msg :: msg in w.jobQueue && w.jobQueue[msg].phase.Archived? ==> PointerOk(past, w.jobQueue[msg].phase.pointer))
    && (forall msg :: msg in w.results ==> PointerOk(past, w.results[msg].pointer))
    && (forall id :: id in w.articles ==> RowOk(site, past, id, w.articles[id]))
    && (forall j :: j in w.jobs ==> FailureOk(w, j))
  }

  ghost predicate Extends(past: Past, later: Past) {
    past.created <= later.created && past.archived <= later.archived
  }

  lemma StillOk(site: Site, past: Past, later: Past)
    requires Extends(past, later)
    ensures forall key, raw :: PayloadOk(past, key, raw) ==> PayloadOk(later, key, raw)
    ensures forall p :: PointerOk(past, p) ==> PointerOk(later, p)
    ensures forall id, row :: RowOk(site, past, id, row) ==> RowOk(site, later, id, row)
  {
    forall id, row | RowOk(site, past, id, row) ensures RowOk(site, later, id, row) {
      var raw :| PageExtracted(site, past, row, raw);
      assert PageExtracted(site, later, row, raw);
    }
  }

  /** Archiving a result. */
  lemma ArchivedOk(past: Past, m: JobMessage, result: ScrapeResult)
    requires Archival(m.jobId, m.url, m.bucket, result) in past.archived
    ensures var p := PointerFor(m.jobId, m.url, m.bucket, result);
      PointerOk(past, p) && PayloadOk(past, p.key, RawPayload(result, m.url))
  {
    var x := Archival(m.jobId, m.url, m.bucket, result);
    var p := PointerFor(m.jobId, m.url, m.bucket, result);
    assert PointsTo(p, x);
    assert PageOf(RawPayload(result, m.url), x.url, x.result);
  }

  /** A job that did not change failed for the same reason. */
  lemma FailureKept(w: World, w': World, j: string)
    requires j in w.jobs && j in w'.jobs && w'.jobs[j] == w.jobs[j] && FailureOk(w, j)
    requires forall msg :: msg in w.results ==> msg in w'.results && w'.results[msg].pointer == w.results[msg].pointer
    ensures FailureOk(w', j)
  {
    if w.jobs[j].status == Failed {
      var msg :| msg in w.results && w.results[msg].pointer.jobId == j && w.jobs[j].error.Some?
        && ErrorOf(w.results[msg].pointer.status, w.jobs[j].error.value);
      assert msg in w'.results;
    }
  }

  lemma ScraperOrigins(site: Site, past: Past, w: World, msg: string, act: ScraperStep, maxRetries: int)
    requires Origins(site, past, w) && msg in w.jobQueue && ScraperEnabled(w.results.Keys, w.jobQueue[msg], act)
    ensures Origins(site, Joined(past, StepPast(w, Scraper(msg, act))), ScraperNext(w, msg, act, maxRetries))
  {
    hide PayloadOk, PointerOk, RowOk, FailureOk;
    var w' := ScraperNext(w, msg, act, maxRetries);
    var later := Joined(past, StepPast(w, Scraper(msg, act)));
    StillOk(site, past, later);
    if act.Archive? {
      ArchivedOk(later, w.jobQueue[msg], act.result);
    }
    forall j | j in w'.jobs ensures FailureOk(w', j) {
      FailureKept(w, w', j);
    }
  }

  /** The failure that a rejection writes is the one its pointer's status calls for. */
  lemma RejectedFor(w: World, w': World, msg: string, act: TransformStep)
    requires msg in w.results && w'.results.Keys == w.results.Keys && w'.results[msg].pointer == w.results[msg].pointer
    requires var p := w.results[msg].pointer;
      && p.jobId in w.jobs && w'.jobs == JobsAfter(w.jobs, p, act)
      && (act.RejectStatus? ==> p.status != Success) && (act.RejectPage? ==> p.status == Success)
      && (act.RejectStatus? || act.RejectPage? || act.MarkRunning? || act.MarkDone?)
    ensures FailureOk(w', w.results[msg].pointer.jobId)
  {
    var p := w.results[msg].pointer;
    if act.RejectStatus? || act.RejectPage? {
      assert w'.jobs[p.jobId].error.Some? && ErrorOf(p.status, w'.jobs[p.jobId].error.value);
      assert msg in w'.results;
    }
  }

  lemma TransformFailures(site: Site, w: World, msg: string, act: TransformStep, maxRetries: int, j: string)
    requires Inv(w) && msg in w.results && TransformEnabled(site, w.jobs, w.store, w.results[msg], act)
    requires j in w.jobs && FailureOk(w, j)
    ensures var w' := TransformNext(site, w, msg, act, maxRetries); j in w'.jobs && FailureOk(w', j)
  {
    hide FailureOk, ResultPhaseAfter;
    var w' := TransformNext(site, w, msg, act, maxRetries);
    assert ResultOk(w, msg);
    if j == w.results[msg].pointer.jobId && w'.jobs[j] != w.jobs[j] {
      RejectedFor(w, w', msg, act);
    } else {
      FailureKept(w, w', j);
    }
  }

  /** A row that is written comes from the payload its pointer names. */
  lemma WrittenOk(site: Site, past: Past, p: Pointer, raw: Raw, id: Digest, row: Row)
    requires PointerOk(past, p) && PayloadOk(past, p.key, raw) && site.valid(p.url, raw)
    requires id == UrlId(p.url) && row.url == p.url && row.bucket == p.bucket && row.rawKey == p.key
    requires row.content == site.extract(p.url, raw)
    ensures RowOk(site, past, id, row)
  {
    assert PageExtracted(site, past, row, raw);
  }

  lemma SameJobs(jobs: map<string, Job>, p: Pointer, act: TransformStep)
    ensures JobsAfter(jobs, p, act).Keys == jobs.Keys
  {
  }

  lemma TransformOrigins(site: Site, past: Past, w: World, msg: string, act: TransformStep, maxRetries: int)
    requires Inv(w) && Origins(site, past, w)
    requires msg in w.results && TransformEnabled(site, w.jobs, w.store, w.results[msg], act)
    ensures Origins(site, past, TransformNext(site, w, msg, act, maxRetries))
  {
    hide Inv, PayloadOk, PointerOk, RowOk, FailureOk, ResultPhaseAfter, JobsAfter;
    var w', p := TransformNext(site, w, msg, act, maxRetries), w.results[msg].pointer;
    SameJobs(w.jobs, p, act);
    if act.WriteRow? {
      WrittenOk(site, past, p, w.store[p.key], UrlId(p.url), w'.articles[UrlId(p.url)]);
    }
    forall j | j in w'.jobs ensures FailureOk(w', j) {
      TransformFailures(site, w, msg, act, maxRetries, j);
    }
  }

  lemma SubmitterOrigins(site: Site, past: Past, w: World, step: Step, maxRetries: int)
    requires Origins(site, past, w) && Legal(site, w, step) && (step.Create? || step.PublishJob?)
    ensures Origins(site, Joined(past, StepPast(w, step)), Next(site, maxRetries, w, step))
  {
    hide PayloadOk, PointerOk, RowOk, FailureOk;
    var w' := Next(site, maxRetries, w, step);
    StillOk(site, past, Joined(past, StepPast(w, step)));
    forall j | j in w'.jobs ensures FailureOk(w', j) {
      if j in w.jobs {
        FailureKept(w, w', j);
      } else {
        NewNotFailed(w', j);
      }
    }
  }

  lemma NewNotFailed(w: World, j: string)
    requires j in w.jobs && w.jobs[j] == NewJob
    ensures FailureOk(w, j)
  {
  }

  lemma StepOrigins(site: Site, past: Past, maxRetries: int, w: World, step: Step)
    requires Inv(w) && Origins(site, past, w) && Legal(site, w, step)
    ensures Origins(site, Joined(past, StepPast(w, step)), Next(site, maxRetries, w, step))
  {
    hide Inv, Origins, TransformEnabled, ScraperEnabled, ScraperNext, TransformNext;
    match step
    case Create(_, _) => SubmitterOrigins(site, past, w, step, maxRetries);
    case PublishJob(_, _) => SubmitterOrigins(site, past, w, step, maxRetries);
    case Scraper(msg, act) => ScraperOrigins(site, past, w, msg, act, maxRetries);
    case Transform(msg, act) =>
      TransformOrigins(site, past, w, msg, act, maxRetries);
      assert Joined(past, StepPast(w, step)) == past;
  }

  lemma {:induction false} RunOrigins(site: Site, past: Past, maxRetries: int, w: World, steps: seq<Step>)
    requires Inv(w) && Origins(site, past, w) && LegalRun(site, maxRetries, w, steps)
    ensures Origins(site, Joined(past, PastOf(site, maxRetries, w, steps)), Run(site, maxRetries, w, steps))
    decreases |steps|
  {
    hide Inv, Origins, Legal, Next, StepPast;
    if steps == [] {
      assert Joined(past, Past({}, {})) == past;
    } else {
      var w' := Next(site, maxRetries, w, steps[0]);
      StepKeepsInv(site, maxRetries, w, steps[0]);
      StepOrigins(site, past, maxRetries, w, steps[0]);
      RunOrigins(site, Joined(past, StepPast(w, steps[0])), maxRetries, w', steps[1..]);
      var rest := PastOf(site, maxRetries, w', steps[1..]);
      assert Joined(Joined(past, StepPast(w, steps[0])), rest) == Joined(past, Joined(StepPast(w, steps[0]), rest));
    }
  }

  /** What every run from nothing leaves behind. */
  lemma FromNothing(site: Site, maxRetries: int, steps: seq<Step>)
    requires LegalRun(site, maxRetries, Empty, steps)
    ensures Inv(Run(site, maxRetries, Empty, steps))
    ensures Origins(site, PastOf(site, maxRetries, Empty, steps), Run(site, maxRetries, Empty, steps))
  {
    RunKeepsInv(site, maxRetries, Empty, steps);
    RunOrigins(site, Past({}, {}), maxRetries, Empty, steps);
    var past := PastOf(site, maxRetries, Empty, steps);
    assert Joined(Past({}, {}), past) == past;
  }

  /** Pointers with equal keys have equal URLs and buckets: no payload is overwritten by another URL's. */
  lemma KeysTellUrls(site: Site, maxRetries: int, steps: seq<Step>, m: string, n: string)
    requires LegalRun(site, maxRetries, Empty, steps)
    requires m in Run(site, maxRetries, Empty, steps).results && n in Run(site, maxRetries, Empty, steps).results
    ensures var w := Run(site, maxRetries, Empty, steps);
      var p, q := w.results[m].pointer, w.results[n].pointer;
      p.key == q.key <==> p.url == q.url && p.bucket == q.bucket
  {
    hide Run, LegalRun, PastOf;
    FromNothing(site, maxRetries, steps);
    var w, past := Run(site, maxRetries, Empty, steps), PastOf(site, maxRetries, Empty, steps);
    assert PointerOk(past, w.results[m].pointer) && PointerOk(past, w.results[n].pointer);
  }

  /**
   A published pointer tells how its job, created for that URL, was scraped; and the payload at its key
   is that of a scrape of the same URL.
   */
  lemma PointersTellTheirScrape(site: Site, maxRetries: int, steps: seq<Step>, msg: string)
    requires LegalRun(site, maxRetries, Empty, steps) && msg in Run(site, maxRetries, Empty, steps).results
    ensures var w, past := Run(site, maxRetries, Empty, steps), PastOf(site, maxRetries, Empty, steps);
      var p := w.results[msg].pointer;
      && (exists x :: x in past.archived && PointsTo(p, x) && (x.jobId, Submission(x.url, x.hint)) in past.created)
      && p.key in w.store
      && (exists x :: x in past.archived && x.url == p.url && PageOf(w.store[p.key], p.url, x.result))
      && (w.store[p.key].Attempt? ==> w.store[p.key].url == p.url)
  {
    hide Run, LegalRun, PastOf;
    FromNothing(site, maxRetries, steps);
    var w, past := Run(site, maxRetries, Empty, steps), PastOf(site, maxRetries, Empty, steps);
    var p := w.results[msg].pointer;
    assert ResultOk(w, msg) && PointerOk(past, p) && PayloadOk(past, p.key, w.store[p.key]);
    var x :| x in past.archived && PointsTo(p, x);
    assert CreatedAs(past, x.jobId, x.url, x.hint);
  }

  lemma RowTraced(site: Site, past: Past, id: Digest, row: Row)
    requires RowOk(site, past, id, row)
    ensures id == Sha256(row.url)
    ensures exists x, raw ::
      && x in past.archived && x.url == row.url
      && PageOf(raw, row.url, x.result) && site.valid(row.url, raw) && row.content == site.extract(row.url, raw)
  {
    var raw :| PageExtracted(site, past, row, raw);
    var x :| x in past.archived && row.rawKey.urlId == Sha256(x.url) && PageOf(raw, x.url, x.result);
    assert x.url == row.url;
  }

  /** Every article row was extracted from a valid page that was scraped from its own URL. */
  lemma RowsComeFromTheirPages(site: Site, maxRetries: int, steps: seq<Step>, id: Digest)
    requires LegalRun(site, maxRetries, Empty, steps) && id in Run(site, maxRetries, Empty, steps).articles
    ensures var row := Run(site, maxRetries, Empty, steps).articles[id];
      && id == Sha256(row.url) && row.rawKey.urlId == Sha256(row.url) && row.rawKey.bucket == row.bucket
      && exists x, raw ::
        && x in PastOf(site, maxRetries, Empty, steps).archived && x.url == row.url
        && PageOf(raw, row.url, x.result) && site.valid(row.url, raw) && row.content == site.extract(row.url, raw)
  {
    FromNothing(site, maxRetries, steps);
    RowTraced(site, PastOf(site, maxRetries, Empty, steps), id, Run(site, maxRetries, Empty, steps).articles[id]);
  }

  /** A failed job says why: its pointer's status, or a page that is no article. */
  lemma FailuresSayWhy(site: Site, maxRetries: int, steps: seq<Step>, j: string)
    requires LegalRun(site, maxRetries, Empty, steps) && j in Run(site, maxRetries, Empty, steps).jobs
    requires Run(site, maxRetries, Empty, steps).jobs[j].status == Failed
    ensures var w := Run(site, maxRetries, Empty, steps);
      && w.jobs[j].error.Some?
      && exists msg ::
        && msg in w.results && w.results[msg].pointer.jobId == j
        && ErrorOf(w.results[msg].pointer.status, w.jobs[j].error.value)
  {
    FromNothing(site, maxRetries, steps);
    assert FailureOk(Run(site, maxRetries, Empty, steps), j);
  }
}
