# ScrapeForge ingestion plane: a verified model

This Dafny project models the ingestion plane of ScrapeForge, a web-scraping pipeline: the message
queue and its two backends, the resilience gates in front of a scraper, the two-stage worker
protocol, the caches and loops of the daily pipeline, and the storage sinks. Run
`dafny verify dfyconfig.toml` here to check every proof.

## How it is organised

| file | what it models |
|---|---|
| `Collections.dfy`, `Models.dfy`, `Messages.dfy` | shared vocabulary: optional values, lists, articles, results, digests, message payloads |
| `MessageQueue.dfy` | one operation of the queue port on each backend, as a function on values; the retry decision |
| `QueueRefinement.dfy` | the Redis backend with one client refines the in-memory backend |
| `RedisWorld.dfy`, `QueueOrder.dfy` | any number of Redis clients on one server, vanishing at will: conservation, delivery counts, order |
| `Drain.dfy` | the retry driver and the drain loop over arbitrary handler outcomes |
| `QueueBackends.dfy` | both backends as classes updated in place, proved against those functions |
| `CircuitBreakers.dfy` | the breaker with its pruned window and lazily cleared pause, against its full history |
| `RateLimiters.dfy` | per-domain first-in-first-out locks and slots under every interleaving |
| `GatedRuns.dfy`, `Engine.dfy` | sequential runs of breaker, limiter, scraper and report; the engine that performs them |
| `Pipeline.dfy`, `Provenance.dfy` | submitters, scraper workers, object store, transform workers and job lifecycle; where payloads and rows come from |
| `Workers.dfy` | the workers' handlers as code, effect by effect |
| `Deployment.dfy` | workers as Redis clients running `consume_once`, refining the protocol |
| `ProfileCache.dfy` | hash-gated re-embedding of user profiles, and when the gate is right |
| `EmbedBatches.dfy`, `Vectors.dfy` | the batched embedding drain; L2 normalisation over the reals |
| `Pagination.dfy`, `Substack.dfy`, `Reddit.dfy` | offset and cursor pagination against one filter over the listing |
| `Registry.dfy` | domain routing by longest suffix at a label boundary |
| `Jsonl.dfy` | the append-only sink and its resume manifest under crashes |
| `Ingest.dfy`, `Retention.dfy` | the UPSERT sink and ingest fold; pruning of the article table |

Code that updates state in place is a class whose methods are proved equal to a step function on
values (or, for loops, to a specification of the result); the properties are then proved of those
functions, over whole runs. Pure code is functions and lemmas. What such a function computes is also
stated in terms of its inputs alone, in the lemmas named after its meaning.

## Main results

* **Queue.** Over every interleaving of every client, each published message is acknowledged and
  nowhere, or in exactly one list exactly once; settling removes exactly the right entry; the n-th
  delivery reports `attempts == n`; messages come out in the order they went in. Both backends give the same replies on every operation sequence.
  Draining fresh messages delivers each until its first success or `max_retries + 1` times, and
  dead-letters exactly the always-failing ones in publish order.
* **Gates.** The breaker's answer is a function of the full history, whatever was pruned or lazily
  cleared. Grants of a domain are spaced and ordered under every interleaving. In sequential runs
  nothing is dispatched during a pause, and the stored failures are bounded by the threshold exactly
  when the pause covers the window (or the window is empty).
* **Protocol.** Stopping a handler anywhere leaves a prefix of a run of the protocol, and retries are
  invisible once a delivery completes. A published pointer always has its payload; an acknowledged one
  leaves its job done or failed, done with its row; a job that is over never changes. Every row was
  extracted from a page scraped from its own URL.
* **Deployment.** The protocol is refined by what runs: clients of one Redis server driven by
  `consume_once`. Whatever interleaving of reserving, handling, settling and vanishing takes place, it
  is a legal run of the protocol, so its guarantees hold of the queues' actual contents; and a worker
  can always finish what it has taken.
* **Profile gate.** The gate is *not* sound for arbitrary entries: an entry containing `|` collides
  with its two halves, and empty entries collide across lists. Over all runs from an empty table, it is
  sound exactly when equal keys mean equal text; for what the onboarding sync produces, exactly when
  onboarding text has no `|`.

## Where the code and its documentation differ

* `JsonlSink.write` is documented as idempotent per URL through its interface
  (`scrapeforge/core/storage/base.py:35-36`); it only deduplicates content within a run.
  `Jsonl.WriteOfSeenUrl` states exactly when a further write appends, and
  `Jsonl.TwoVersionsTwoRecords` shows a URL with two records.
* `embed_profiles` promises to embed a profile whose content hash changed; the hash misses some changes
  of content, see `ProfileCache.BarCollides` and `ProfileCache.SyncedUpToDateIffNoBar`.
* The transform stage is documented as idempotent; a second delivery still rewrites times, see
  `Workers.RedeliveryChangesOnlyTimes`.
* `requeue` and `dead_letter` issue two Redis commands; `RedisWorld.NowhereBetweenCommands` shows
  that a message is in no list between them, so they are modelled as one step.

## Model

| member | source | states |
|---|---|---|
| RedisWorld.StepKeepsInv | scrapeforge/core/queue/redis_queue.py:150-277 | every step of any client (publish, reserve, settle what it holds, join, vanish) keeps: each list holds only messages at home there, once; nothing at home is missing; every remembered entry is in that queue's processing list and no other client remembers it |
| RedisWorld.Conservation | scrapeforge/core/queue/redis_queue.py:7-17 | after any interleaving, every published id is acknowledged and in no list, or in exactly one list at exactly one position; lists hold nothing else |
| RedisWorld.LRemRemovesTheRightEntry | scrapeforge/core/queue/redis_queue.py:211-228 | settling a held message removes exactly one entry, that message's own, from its queue's processing list, though the settled message's attempts differ from the stored bytes |
| RedisWorld.NthDeliveryReportsN | scrapeforge/core/queue/redis_queue.py:19-26 | the n-th time a message is handed out over a run, to whichever client, it reports attempts n |
| RedisWorld.NowhereBetweenCommands | scrapeforge/core/queue/redis_queue.py:244-247 | between the removal and the push of a requeue or dead-letter the message is in no list |
| QueueOrder.FirstInFirstOut | scrapeforge/core/queue/redis_queue.py:7-17 | over any run of any clients, what was published or requeued on a queue is handed out in exactly that order, with its id and payload and one delivery more; the rest still waits |
| QueueOrder.DeadLettersKeepErrors | scrapeforge/core/queue/redis_queue.py:251-277 | the dead letters of a queue are exactly the messages buried on it, in order, each with its own error, for good |
| QueueRefinement.StepRefines | scrapeforge/core/queue/memory.py:42-78 | one operation, whatever message it settles, keeps the two backends in matching states with the same reply |
| QueueRefinement.RunRefines | scrapeforge/core/queue/redis_queue.py:150-293 | over every operation sequence both backends give the same replies and agree on waiting messages, dead letters and messages in flight |
| Drain.ConsumeEffect | scrapeforge/core/queue/base.py:80-120 | one delivery takes the first message off its queue with attempts one higher, requeues it behind the rest, dead-letters it or drops it, leaves all other queues alone, and lowers the termination measure |
| Drain.DrainEffect | scrapeforge/worker/scraper_worker.py:143-152 | a drain ends with its queue empty, its dead letters extended by what the list specification buries, and everything else untouched |
| Drain.EachOnItsOwn | scrapeforge/core/queue/base.py:96-104 | in a drain of messages with distinct ids each gets exactly the deliveries it would get alone |
| Drain.Rounds | scrapeforge/core/queue/base.py:106-118 | in the middle of any retry round the dead letters still come out in publish order |
| Drain.FreshDrain | scrapeforge/core/queue/base.py:96-104 | each fresh message is delivered with attempts 1, 2, 3, ... until its first success or max_retries + 1 deliveries; exactly the always-failing ones are dead-lettered, in publish order |
| Drain.RedisDrainAgrees | scrapeforge/core/queue/base.py:30-36 | draining through Redis makes the same deliveries and ends in a matching state |
| QueueBackends.InMemoryMessageQueue.Publish | scrapeforge/core/queue/memory.py:42-50 | the new state is the publish step of the old one; messages stay on the queue they name |
| QueueBackends.InMemoryMessageQueue.Reserve | scrapeforge/core/queue/memory.py:52-60 | state and returned message are those of the reserve step |
| QueueBackends.InMemoryMessageQueue.Ack | scrapeforge/core/queue/memory.py:62-64 | the new state is the acknowledge step of the old one |
| QueueBackends.InMemoryMessageQueue.Requeue | scrapeforge/core/queue/memory.py:66-69 | the new state is the requeue step of the old one |
| QueueBackends.InMemoryMessageQueue.DeadLetter | scrapeforge/core/queue/memory.py:71-74 | the new state is the dead-letter step of the old one |
| QueueBackends.InMemoryMessageQueue.ConsumeOnce | scrapeforge/core/queue/base.py:80-120 | the new state is one delivery of the old one; the result says whether there was a message |
| QueueBackends.InMemoryMessageQueue.RunWorker | scrapeforge/worker/transform_worker.py:311-316 | the loop terminates with the queue empty, in the state a complete drain leads to |
| QueueBackends.RedisQueue.Publish | scrapeforge/core/queue/redis_queue.py:150-168 | server and client state are those of the publish step |
| QueueBackends.RedisQueue.Reserve | scrapeforge/core/queue/redis_queue.py:191-209 | the oldest entry moves unchanged to the processing list, is remembered, and is returned with attempts one higher |
| QueueBackends.RedisQueue.Ack | scrapeforge/core/queue/redis_queue.py:223-228 | server and client state are those of the acknowledge step |
| QueueBackends.RedisQueue.Requeue | scrapeforge/core/queue/redis_queue.py:243-249 | server and client state are those of the requeue step |
| QueueBackends.RedisQueue.DeadLetter | scrapeforge/core/queue/redis_queue.py:264-277 | server and client state are those of the dead-letter step |
| QueueBackends.RedisQueue.ConsumeOnce | scrapeforge/core/queue/base.py:80-120 | server and client state are those of one delivery |
| QueueBackends.RedisQueue.RunWorker | scrapeforge/worker/scraper_worker.py:147-152 | the drain loop on Redis terminates with the queue empty, in the state that the in-memory drain matches |
| CircuitBreakers.PruningIsIncremental | scrapeforge/core/circuit_breaker.py:117-119 | pruning the already pruned list equals pruning the whole history |
| CircuitBreakers.FailureMatches | scrapeforge/core/circuit_breaker.py:114-122 | after a failure the stored list and pause still stand for all failures since the last success |
| CircuitBreakers.AnswersFollowHistory | scrapeforge/core/circuit_breaker.py:33-41 | after any run with a clock that never runs backwards, a domain is refused exactly when a failure since its last success had at least threshold failures in its window and its pause is still running |
| CircuitBreakers.OthersNeverMatter | scrapeforge/core/circuit_breaker.py:74-94 | questions, and outcomes of other domains, never change an answer |
| CircuitBreakers.CircuitBreaker.Allow | scrapeforge/core/circuit_breaker.py:74-94 | the answer is the full-history one; an expired pause is cleared without changing any later answer |
| CircuitBreakers.CircuitBreaker.Record | scrapeforge/core/circuit_breaker.py:96-122 | the outcome joins the history and the stored state still stands for it, for every domain |
| RateLimiters.LaneKeepsInv | scrapeforge/core/rate_limiter.py:64-78 | arriving, entering the lock and waking keep order, spacing, and the next slot one interval after the last grant |
| RateLimiters.FirstInFirstOut | scrapeforge/core/rate_limiter.py:25-27 | grants of a domain follow arrival order; none is lost or repeated |
| RateLimiters.GrantsAreSpaced | scrapeforge/core/rate_limiter.py:72-86 | the j-th grant is at least (j - i) times the domain's override, or the default without one, after the i-th, under every interleaving |
| RateLimiters.SpanHoldsFew | scrapeforge/core/rate_limiter.py:23-29 | any span holds at most floor(span / interval) + 1 grants of a domain, the interval being its override, or the default without one |
| RateLimiters.DomainsAreIndependent | scrapeforge/core/rate_limiter.py:88-92 | deleting every step of other domains leaves a legal run with the same grants |
| RateLimiters.NoneStuck | scrapeforge/core/rate_limiter.py:70-78 | anyone may arrive, the next in line may take a free lock at any time, and a sleeper may wake when its time has come |
| RateLimiters.RateLimiter.Acquire | scrapeforge/core/rate_limiter.py:70-86 | under the lock of any lane, however many tasks wait, the grant comes after the sleep that was asked for, the next slot is the override or the default later, and the grant is the one the interleaved model makes |
| GatedRuns.StepKeepsInv | scrapeforge/core/engine.py:119-126 | one gated scrape keeps every attempt and every report out of the pauses that began before it |
| GatedRuns.NextMeaning | scrapeforge/core/engine.py:119-182 | a refused call leaves no trace; every other is recorded as an attempt, and its outcome, if any, in the history |
| GatedRuns.NoDispatchDuringPause | scrapeforge/core/engine.py:119-129 | in a sequential run no attempt starts within the pause of a tripping failure reported before it |
| GatedRuns.TripsNeedFreshFailures | scrapeforge/core/circuit_breaker.py:37-38 | with pause at least window, the stored list never exceeds the threshold and consecutive trips are threshold fresh failures apart |
| GatedRuns.BoundedIffPauseCoversWindow | scrapeforge/core/circuit_breaker.py:117-122 | that bound holds over all runs exactly when the pause covers the window or the window is empty |
| Engine.ScrapeEngine.Scrape | scrapeforge/core/engine.py:101-185 | refused calls touch nothing and return the open-breaker error; others take the limiter's slot and dispatch the class of the longest registered suffix (else the public one); result, report and sink are as in `Attempt`; the call is one step of a gated run |
| Engine.ScrapeEngine.Attempt | scrapeforge/core/engine.py:132-185 | a returned result is answered as it is, and handed to the sink exactly when it is a success; each exception is answered with its own status, its text and the class's driver; an unmapped one escapes and is not reported |
| Pipeline.StepKeepsInv | scrapeforge/worker/transform_worker.py:102-263 | every step of submitters and workers, with exceptions, retries and vanishing workers, keeps the protocol invariant |
| Pipeline.PayloadNeverMissing | scrapeforge/worker/scraper_worker.py:93-110 | every pointer ever published names a stored payload, so the "payload missing" branch is never taken |
| Pipeline.OneRowPerUrlOnePointerPerJob | scrapeforge/worker/transform_worker.py:12-13 | at most one article row per URL and one pointer per job |
| Pipeline.AckedMeansOver | scrapeforge/worker/transform_worker.py:110-122 | an acknowledged pointer leaves its job failed or done with matching fields, and done implies its row was written |
| Pipeline.OverForGood | scrapeforge/core/db/repositories.py:155-197 | a done or failed job never changes again, whatever happens next |
| Provenance.KeysTellUrls | scrapeforge/worker/messages.py:62-68 | over every run, two published pointers have equal keys exactly when they have equal URL and bucket, so no payload is overwritten by that of another URL |
| Provenance.PointersTellTheirScrape | scrapeforge/worker/scraper_worker.py:66-110 | over every run, a published pointer tells how its own job, created for that URL, was scraped; the payload at its key is the page or attempt of a scrape of that URL |
| Provenance.RowsComeFromTheirPages | scrapeforge/worker/transform_worker.py:174-250 | over every run, every article row was extracted from a valid page scraped from the row's own URL, and names that page's key |
| Provenance.FailuresSayWhy | scrapeforge/worker/transform_worker.py:152-218 | over every run, a failed job carries the error its pointer's status calls for |
| Deployment.StepMatched | scrapeforge/core/queue/base.py:96-118 | every step of the deployment (Redis clients, `consume_once`, handlers, vanishing workers) is a legal step of the protocol on the same message, or changes nothing the protocol sees; the retry decision is the queue port's |
| Deployment.RunRefines | scrapeforge/core/queue/redis_queue.py:150-277 | over every run, the deployment stays in step with a legal run of the protocol: same jobs, rows and payloads, and every message's place in Redis matches its phase |
| Deployment.PointersHavePayloads | scrapeforge/worker/scraper_worker.py:93-110 | in every reachable deployment each entry of a results list, and each pointer being handled, names a stored payload; the "payload missing" branch is never taken |
| Deployment.QueuedKeysTellUrls | scrapeforge/worker/messages.py:62-68 | in every reachable deployment, queued pointers have equal keys exactly when they have equal URL and bucket |
| Deployment.QueuedPayloads | scrapeforge/worker/scraper_worker.py:88-110 | in every reachable deployment, what a queued pointer names is the page or attempt of a scrape of its own URL |
| Deployment.RowsFromTheirPages | scrapeforge/worker/transform_worker.py:174-250 | in every reachable deployment, every row was extracted from a valid page scraped from its own URL |
| Deployment.AcknowledgedForGood | scrapeforge/worker/transform_worker.py:110-122 | when a client acknowledges a pointer its job is done or failed, done with its row, and no continuation of the deployment changes the job or removes the row |
| Deployment.CanSettle | scrapeforge/core/queue/base.py:106-118 | a client at work may always settle its message, as a failure until its handler is done and as a success then |
| Deployment.PointerCanComplete | scrapeforge/worker/transform_worker.py:143-263 | in every reachable deployment, a taken pointer can be handled to the end and acknowledged |
| Deployment.JobCanComplete | scrapeforge/worker/scraper_worker.py:66-112 | a taken job can be scraped, its pointer published and its message acknowledged |
| Workers.HandleScrapeJob | scrapeforge/worker/scraper_worker.py:66-112 | the effects on store and queue are those of the protocol's archive and publish steps, in that order; the key is that of the job's own URL and bucket, holds this scrape's page or attempt, and no other key changes |
| Workers.ScrapeIsARun | scrapeforge/worker/scraper_worker.py:66-110 | in any state of the protocol, archive then publish is a legal run: first the page or attempt is put under the URL's id, then the pointer naming it is published |
| Workers.HandlerIsARun | scrapeforge/worker/transform_worker.py:143-263 | an undisturbed delivery is a legal run of the protocol, from any state, ending with the job closed by the verdict and the row stored exactly when there is none |
| Workers.HandlerEffects | scrapeforge/worker/transform_worker.py:146-261 | the effects of that run, in order: job started, row written unless turned down, job closed |
| Workers.DeliveredMeaning | scrapeforge/worker/transform_worker.py:143-263 | case by case: status, count, times and error text of the job, and the row with the extract, bucket and key of its pointer exactly when the page is accepted |
| Workers.RetriesAreInvisible | scrapeforge/worker/transform_worker.py:102-263 | a message whose deliveries raise any number of times, after any of their effects, while retries are left, and then completes, is a legal run ending exactly as one undisturbed delivery |
| Workers.EarlierDeliveriesDoNotMatter | scrapeforge/worker/transform_worker.py:12-13 | however many deliveries came before, complete or cut short anywhere, a complete one leaves jobs and rows as it alone would |
| Workers.RedeliveryChangesOnlyTimes | scrapeforge/core/storage/postgres.py:51-54 | delivering again changes the job's started and finished times and the row's fetch time, and nothing else |
| Workers.ServingDatabase.UpdateJobStatus | scrapeforge/core/db/repositories.py:155-197 | sets the status, and the times, count and error exactly when they are given; changes nothing for a missing job |
| Workers.ServingDatabase.HandleResultPointer | scrapeforge/worker/transform_worker.py:102-263 | database and effects are those of one delivery, effect by effect, and untouched when the job is unknown |
| ProfileCache.KeyDecodes | scrapeforge/pipeline/embeddings_jobs.py:109-111 | equal joined keys of profiles with non-empty, bar-free entries mean equal profiles and equal text |
| ProfileCache.TextTells | scrapeforge/pipeline/embeddings_jobs.py:100-106 | the text of every profile has its holdings in order between "Portfolio holdings: " and ". Sectors of interest: ", its sectors in order up to ". Focus: ", and its focus last, with "(none)" and "general investing" for what is missing |
| ProfileCache.OnlyTextTells | scrapeforge/pipeline/embeddings_jobs.py:100-106 | no other text does |
| ProfileCache.VectorTable.Refresh | scrapeforge/pipeline/embeddings_jobs.py:114-170 | the table is the specified one, changed profiles get the vectors of texts that tell them, others keep their rows, and the count is the number of changed profiles |
| ProfileCache.RunEffect | scrapeforge/pipeline/embeddings_jobs.py:139-166 | changed profiles get a row computed from a text that tells their current holdings, sectors and focus; every other row is untouched |
| ProfileCache.SecondRunDoesNothing | scrapeforge/pipeline/embeddings_jobs.py:119-145 | an immediate second run embeds nothing and changes nothing |
| ProfileCache.RunsLeaveCurrent | scrapeforge/pipeline/embeddings_jobs.py:114-170 | where equal keys mean equal text, every run in any sequence of runs from an empty table leaves every row equal to one computed from scratch |
| ProfileCache.UpToDateIffKeyTellsText | scrapeforge/pipeline/embeddings_jobs.py:109-143 | for every vocabulary: all runs always leave all vectors current exactly when profiles with equal keys have equal text |
| ProfileCache.BarCollides | scrapeforge/pipeline/embeddings_jobs.py:100-111 | an entry with a bar and its two halves have the same key and different text |
| ProfileCache.UpToDateIffClean | scrapeforge/pipeline/embeddings_jobs.py:109-143 | for every vocabulary whose unclean entries, if any, include an empty one or a bar-joined pair together with its halves: all runs always leave all vectors current exactly when entries are non-empty and bar-free |
| ProfileCache.SyncedEntriesClean | scrapeforge/pipeline/user_sync.py:58-61 | synced entries are never empty, and clean exactly when no onboarding value has a bar |
| ProfileCache.VocabularyMeaning | scrapeforge/pipeline/user_sync.py:58-61 | the vocabulary of synced profiles is exactly what lists synced from onboarding values consist of |
| ProfileCache.SyncedUpToDateIffNoBar | scrapeforge/pipeline/user_sync.py:58-68 | with onboarding text over any set of characters, all runs always leave the vectors of synced profiles current if and only if the bar is not one of the characters |
| ProfileCache.StripMeaning | scrapeforge/pipeline/user_sync.py:58-61 | stripping removes all white space at both ends and nothing else |
| ProfileCache.StrListMeaning | scrapeforge/pipeline/user_sync.py:58-61 | lists are stripped value by value, in order, and blank values are dropped |
| ProfileCache.MappedEntries | scrapeforge/pipeline/user_sync.py:64-69 | holdings are exactly the watched tickers, sectors exactly the sectors and asset classes |
| ProfileCache.MappedFocus | scrapeforge/pipeline/user_sync.py:70-77 | the focus has the answers given, in order and separated by semicolons, and is absent exactly when there are none |
| ProfileCache.SyncedUsersCurrent | scrapeforge/pipeline/embeddings_jobs.py:114-170 | as long as no form value has a bar, every run in any sequence of runs leaves every synced user with the vector of a text that tells the current profile |
| EmbedBatches.BacklogMeaning | scrapeforge/pipeline/embeddings_jobs.py:36-43 | the backlog is the one listing of rows without a vector, newest first |
| EmbedBatches.NewestFirst | scrapeforge/pipeline/embeddings_jobs.py:36-43 | it holds exactly the rows without a vector, newest first, larger ids first among equals |
| EmbedBatches.TextMeaning | scrapeforge/pipeline/embeddings_jobs.py:47 | the text is the title, a blank line and the first 2000 characters of the content |
| EmbedBatches.ArticleTable.EmbedArticles | scrapeforge/pipeline/embeddings_jobs.py:28-59 | a batch embeds exactly the first rows of the backlog with the vectors of their own texts; a rate-limited one writes nothing |
| EmbedBatches.BatchMeaning | scrapeforge/pipeline/embeddings_jobs.py:45-59 | exactly the first rows of the backlog gain the vectors of their own texts; no other row and no other column changes |
| EmbedBatches.ArticleTable.EmbedArticlesBatched | scrapeforge/pipeline/embeddings_jobs.py:62-97 | the total is min(backlog, completed batches times batch size), and exactly that many rows from the front of the backlog are embedded |
| EmbedBatches.BatchedEqualsOneShot | scrapeforge/pipeline/embeddings_jobs.py:70-77 | many small batches leave the table as one batch of their joint size would |
| Vectors.FinalizedIsUnit | scrapeforge/core/embeddings/_vectors.py:15-27 | the wrong dimension is refused, length is kept, a zero vector is unchanged, any other becomes a unit vector |
| Vectors.FinalizedKeepsDirection | scrapeforge/core/embeddings/_vectors.py:24-27 | a finalized non-zero vector is the given one divided by a positive norm, component by component |
| Vectors.CosineIsInnerProduct | scrapeforge/core/embeddings/_vectors.py:3-5 | the cosine of two non-zero vectors is the inner product of their finalized forms and lies in [-1, 1] |
| Vectors.RankingsAgree | scrapeforge/pipeline/embeddings_jobs.py:215-232 | ranking by cosine and by inner product of stored vectors is the same |
| Pagination.FoundNext | scrapeforge/scrapers/community/substack.py:279-314 | one more item adds its result exactly when it has one and the limit is not reached |
| Pagination.CollectMeaning | scrapeforge/scrapers/community/substack.py:279-314 | the results are those of exactly the items that yield one, in order, none twice |
| Substack.ScrapePublication | scrapeforge/scrapers/community/substack.py:249-324 | returns the first limit results of what the archive serves, and makes exactly the requests it has to: number k exactly when results are missing after k full pages; at most floor(length / page size) + 1 |
| Substack.ParseMeaning | scrapeforge/scrapers/community/substack.py:140-216 | an item yields a result exactly when it is public as asked, readable, not paid, and has at least 500 characters; field by field what the article holds |
| Substack.CompleteMeaning | scrapeforge/scrapers/community/substack.py:226-232 | in one line: take(limit, collect(archive up to the first non-list answer)) |
| Reddit.ScrapeSubreddit | scrapeforge/scrapers/community/reddit.py:162-210 | returns take(limit, posts of the listing); request k carries as `count` the total number of children on the pages before it and gets exactly the next min(100, missing) children; requests stop exactly when nothing is missing or the listing is consumed, with one empty page only when the listing is empty or ends in a cursor |
| Reddit.ParseMeaning | scrapeforge/scrapers/community/reddit.py:78-128 | a child yields a result exactly when it is a post; field by field what the article holds |
| Reddit.NextRequest | scrapeforge/scrapers/community/reddit.py:165-206 | one more request, carrying the running total, keeps every request's count equal to the children consumed before it |
| Registry.JoinSplit | scrapeforge/core/registry.py:74-76 | joining the labels of a domain gives the domain back |
| Registry.TailsAreSuffixes | scrapeforge/core/registry.py:62-66 | the joined label tails of a domain are exactly its suffixes at label boundaries |
| Registry.ScraperRegistry.Lookup | scrapeforge/core/registry.py:59-80 | finds the class of the longest registered suffix, and nothing exactly when no suffix is registered |
| Registry.ScraperRegistry.Register | scrapeforge/core/registry.py:45-54 | binds the domains in order up to the first one bound to another class |
| Registry.BindKeeps | scrapeforge/core/registry.py:38-42 | existing bindings stay, new ones are to this class, and it succeeds exactly when no domain is bound to another class |
| Registry.BindingsAreForever | scrapeforge/core/registry.py:38-40 | no run of registrations changes an existing binding |
| Jsonl.SeenIsOnDisk | scrapeforge/core/storage/jsonl.py:12-23 | after any runs and crashes, a URL that the manifest or a sink calls seen has a line on disk that describes, field by field, an article of that URL the run was told to write |
| Jsonl.WriteMeaning | scrapeforge/core/storage/jsonl.py:83-108 | a write that appends adds one line that describes the article field by field, after unchanged earlier lines, and its id to the manifest unless it dies between; any other write leaves the files alone |
| Jsonl.NothingInvented | scrapeforge/core/storage/jsonl.py:90-104 | over every run, every line describes an article of some write of the run |
| Jsonl.NoRepeatedContent | scrapeforge/core/storage/jsonl.py:25-28 | within one run no two records share content |
| Jsonl.RecordsPerUrl | scrapeforge/core/storage/jsonl.py:18-23 | with gated writes a URL has one record per crash between its two appends, plus one once it is in the manifest |
| Jsonl.WriteOfSeenUrl | scrapeforge/core/storage/jsonl.py:77-83 | at every reachable sink, an ungated write of a seen URL leaves the files alone exactly when a record of this run has its content; otherwise it appends one more record of the URL |
| Jsonl.TwoVersionsTwoRecords | scrapeforge/core/storage/base.py:35-36 | two versions of one page in a fresh run leave two records of its URL |
| Jsonl.JsonlSink.Store | scrapeforge/core/storage/jsonl.py:69-112 | files and memory are those of a completed write step: one more line that describes the article, or nothing |
| Jsonl.JsonlSink.constructor | scrapeforge/core/storage/jsonl.py:55-59 | the sink starts as opening the files leaves it |
| Ingest.PostgresSink.Store | scrapeforge/core/storage/postgres.py:74-133 | column by column: a success with an article is inserted under its URL's id, or on conflict overwrites the scraped columns and keeps URL, embedding, relevance and summary; any other result changes nothing |
| Ingest.PostgresSink.IngestAll | scrapeforge/pipeline/jobs.py:44-72 | table, cache and count are those of folding the wanted results of the non-failing sources |
| Ingest.CountsDistinctArticles | scrapeforge/pipeline/jobs.py:59-65 | the number returned is the number of distinct article ids wanted |
| Ingest.WantedIds | scrapeforge/pipeline/jobs.py:48-61 | an article is wanted exactly when a source that did not fail has it among its successes and it passes the filter |
| Ingest.FirstIsEarliest | scrapeforge/pipeline/jobs.py:59-65 | the first occurrence of an article is the earliest in source order |
| Ingest.StoresFirstOccurrences | scrapeforge/pipeline/jobs.py:62-65 | each wanted article is stored as its first occurrence and no other row changes |
| Ingest.FailuresAreIsolated | scrapeforge/pipeline/jobs.py:48-58 | a run equals the run with its failing sources deleted |
| Ingest.LaterColumnsUntouched | scrapeforge/core/storage/postgres.py:32-45 | no run touches the URL, embedding, relevance or summary of an existing row |
| Ingest.RerunAddsNothing | scrapeforge/core/storage/postgres.py:51-54 | a re-run adds no row and reports the same number |
| Retention.ArticleTable.SelectOldest | scrapeforge/pipeline/retention.py:74-82 | selects the asked number of rows such that no other row is older |
| Retention.ArticleTable.Prune | scrapeforge/pipeline/retention.py:53-94 | leaves exactly the surviving rows cut to the cap; deleted plus kept is what there was |
| Retention.PrunedMeaning | scrapeforge/pipeline/retention.py:45-86 | at most max_articles rows remain, unchanged, none older than retention_days days and none scored below the floor and older than half of that (at least a day); rows deleted for neither reason are no newer than kept ones, and only down to the cap |
| Retention.PruneAgain | scrapeforge/pipeline/retention.py:45-52 | pruning again at the same time deletes nothing |

## Left out

- I/O and libraries: drivers, proxies, HTTP, MinIO, SQLAlchemy sessions, parsers, CLIs and settings; their answers are parameters of the model.
- Encodings: JSON text is represented by the value it encodes, SHA-256 by a free constructor, UUIDs by fresh ids that the caller supplies, object keys by their bucket and URL id (an id has no slash), floats by reals and `math.sqrt` by an exact root.
- Clocks: readings are parameters that never run backwards; the breaker's clock is non-negative.
- Redis key collisions: a queue named like another queue's processing or dead-letter list is not modelled; the three lists of a queue are distinct keys.
- Redis errors: an operation either happens or does not; a crash between the two commands of one operation is shown to lose the message and excluded.
- Settling foreign messages across clients: the many-client model lets a client settle only what it holds; the two-backend refinement has no such restriction.
- Queue order in the protocol: workers may take any waiting message, a superset of the first-in-first-out runs that `Deployment` refines it with; messages of vanished workers are never redelivered, as in the code, which has no reaper.
- Retention inside the protocol: rows deleted by pruning are a separate job and not interleaved with the protocol.
- Cancelled lock waiters: a task that queues for a domain's lock stays in line.
- Concurrent `batch_scrape`: the pause property is for sequential runs; concurrent calls may be in flight when a trip happens.
- Scheduler loop: enqueueing sources appears as the protocol's create-then-publish steps; its loop would only add an easy member.
- Community ingest worker: it repeats the ingest fold and the job updates, and its jobs may go from failed back to running on retry.
- The `score_users` job: only the agreement of its ranking with the inner product is stated; its per-user delete and insert are not modelled.
- Provider failures other than rate limiting: an embedding call that raises writes nothing and is not modelled further.
- Unchanging job columns: the source, parameters and creation time of a job are not modelled.
- Other traffic in the deployment: other queues on the same server, and clients that run several handlers at once, are not modelled there (`RedisWorld` has both).
- RateLimiters.RateLimiter.Acquire: models what one task does under the lock; contention for the lock is in the interleaved lanes, because a method runs one task.
- Engine.ScrapeEngine.Scrape: does not model how the proxy rotator picks a proxy, because that is a health check over the network.
- Substack.ScrapePublication: the cleaning of HTML and the parsed publication date are parameters, because they are library calls.
- Reddit.ScrapeSubreddit: metadata other than domain, bucket and score is omitted, because it is copied through; the same holds for Substack metadata other than bucket and audience.
