/** One URL through the resilience pipeline: breaker, limiter, scraper, record, sink. */
module Engine {
  import opened Collections
  import opened Models
  import CircuitBreakers
  import RateLimiters
  import GatedRuns
  import Registry

  /** Exceptions a scraper raises; `Unmapped` is any that is not a ScrapeForge error. */
  datatype Raised = ChallengeError | RateLimitError | ProxyError | DriverError | ScrapeForgeError | Unmapped

  datatype Dispatch = Returns(result: ScrapeResult) | Raises(error: Raised, text: string)

  /** The result status a raised exception is mapped to, if it is mapped. */
  function Mapped(error: Raised): Option<Status> {
    match error
    case ChallengeError => Some(Challenge)
    case RateLimitError => Some(RateLimited)
    case ProxyError => Some(ProxyFailed)
    case DriverError => Some(Error)
    case ScrapeForgeError => Some(Error)
    case Unmapped => None
  }

  /** Whether an attempt is reported as a success, as a failure, or not at all. */
  function Outcome(d: Dispatch): Option<bool> {
    match d
    case Returns(result) => Some(result.status == Success)
    case Raises(error, _) => if Mapped(error).Some? then Some(false) else None
  }

  /** The result handed to the caller; absent when the scraper's exception escapes. */
  function Resolved(d: Dispatch, driver: string): (r: Option<ScrapeResult>)
    ensures Outcome(d) == if r.Some? then Some(r.value.status == Success) else None
  {
    match d
    case Returns(result) => Some(result)
    case Raises(error, text) =>
      match Mapped(error)
      case Some(status) => Some(ScrapeResult(status, driver, None, Some(text)))
      case None => None
  }

  /** A scraper class; `driver` is its default driver. */
  datatype ScraperClass = ScraperClass(name: string, driver: string)

  const PUBLIC_SCRAPER := ScraperClass("PublicScraper", "curl_cffi")

  /** The class that scrapes `domain`: that of the longest registered suffix, else the catch-all. */
  ghost predicate Routes(registry: map<string, ScraperClass>, domain: string, cls: ScraperClass) {
    if exists k :: k in registry && Registry.SuffixAt(domain, k)
    then exists key :: Registry.Longest(registry, domain, key) && cls == registry[key]
    else cls == ScraperClass("PublicScraper", "curl_cffi")
  }

  // What a call must do with what its scraper did, case by case.

  /** What the caller gets. */
  ghost predicate Answered(d: Dispatch, driver: string, result: Option<ScrapeResult>) {
    match d
    case Returns(r) => result == Some(r)
    case Raises(ChallengeError, text) => result == Some(ScrapeResult(Challenge, driver, None, Some(text)))
    case Raises(RateLimitError, text) => result == Some(ScrapeResult(RateLimited, driver, None, Some(text)))
    case Raises(ProxyError, text) => result == Some(ScrapeResult(ProxyFailed, driver, None, Some(text)))
    case Raises(DriverError, text) => result == Some(ScrapeResult(Error, driver, None, Some(text)))
    case Raises(ScrapeForgeError, text) => result == Some(ScrapeResult(Error, driver, None, Some(text)))
    case Raises(Unmapped, _) => result == None
  }

  /** What the breaker is told: a success, a failure, or nothing when the exception escapes. */
  ghost predicate Reported(d: Dispatch, domain: string, at: real, before: seq<CircuitBreakers.Event>, after: seq<CircuitBreakers.Event>) {
    match d
    case Returns(r) => after == before + [CircuitBreakers.Event(domain, r.status == Success, at)]
    case Raises(Unmapped, _) => after == before
    case Raises(_, _) => after == before + [CircuitBreakers.Event(domain, false, at)]
  }

  /** What the sink is handed: a returned success, and nothing else. */
  ghost predicate Handed(d: Dispatch, hasSink: bool, before: seq<ScrapeResult>, after: seq<ScrapeResult>) {
    match d
    case Returns(r) => after == if hasSink && r.status == Success then before + [r] else before
    case Raises(_, _) => after == before
  }

  /** How much later than asked the limiter's sleep ends, how long the proxy takes, and how long the scraper. */
  datatype Delays = Delays(late: RateLimiters.Duration, setup: RateLimiters.Duration, took: RateLimiters.Duration)

  class ScrapeEngine {
    const registry: Registry.ScraperRegistry<ScraperClass>
    const breaker: CircuitBreakers.CircuitBreaker
    const limiter: RateLimiters.RateLimiter
    const hasSink: bool
    /** What was handed to the sink. */
    var written: seq<ScrapeResult>
    ghost var gate: GatedRuns.Gate

    ghost predicate Valid()
      reads this, breaker, limiter
    {
      && breaker.Valid() && breaker.history == gate.history && breaker.time <= gate.now
      && GatedRuns.Inv(breaker.cfg, gate)
    }

    constructor (registry: Registry.ScraperRegistry<ScraperClass>, breaker: CircuitBreakers.CircuitBreaker,
                 limiter: RateLimiters.RateLimiter, hasSink: bool)
      requires breaker.Valid() && breaker.history == [] && breaker.time == 0.0
      ensures Valid() && this.registry == registry && this.breaker == breaker && this.limiter == limiter
      ensures this.hasSink == hasSink
      ensures written == [] && gate == GatedRuns.Start
    {
      this.registry, this.breaker, this.limiter, this.hasSink := registry, breaker, limiter, hasSink;
      written := [];
      gate := GatedRuns.Start;
    }

    method Route(domain: string) returns (cls: ScraperClass)
      ensures Routes(registry.entries, domain, cls)
    {
      var found := registry.Lookup(domain);
      return if found.Some? then found.value else PUBLIC_SCRAPER;
    }

    /** The clock when the limiter lets a call that asks at `asked` go. */
    function GrantedAt(domain: string, asked: real, delays: Delays): real
      reads limiter
    {
      var next := GetOr(limiter.nextAllowed, domain, 0.0);
      (if next > asked then next else asked) + delays.late
    }

    /** The call as a step of a gated run. */
    ghost function Call(domain: string, asked: real, delays: Delays, outcome: Option<bool>): GatedRuns.Scrape
      reads limiter
    {
      var at := GrantedAt(domain, asked, delays) + delays.setup;
      GatedRuns.Scrape(domain, asked, at, at + delays.took, outcome)
    }

    /** Dispatch the class for `domain`, report the outcome to the breaker, and hand a success to the sink. */
    method Attempt(domain: string, finished: real, proxy: Option<string>, dispatch: (ScraperClass, Option<string>) -> Dispatch)
      returns (result: Option<ScrapeResult>, ghost cls: ScraperClass)
      requires breaker.Valid() && breaker.time <= finished
      modifies this`written, breaker
      ensures breaker.Valid() && breaker.time <= finished
      ensures Routes(registry.entries, domain, cls) && Answered(dispatch(cls, proxy), cls.driver, result)
      ensures Reported(dispatch(cls, proxy), domain, finished, old(breaker.history), breaker.history)
      ensures Handed(dispatch(cls, proxy), hasSink, old(written), written)
    {
      hide Routes, CircuitBreakers.AllMatch, CircuitBreakers.AfterCall;
      var scraper := Route(domain);
      cls := scraper;
      result := Resolved(dispatch(scraper, proxy), scraper.driver);
      if result == None {
        return;
      }
      breaker.Record(domain, result.value.status == Success, finished);
      if result.value.status == Success && hasSink {
        written := written + [result.value];
      }
    }

    /**
     Scrape a URL of `domain` at time `asked`.  `proxy` is the healthy proxy at hand, if any, and
     `dispatch` what a class does with the URL through a proxy; the result is absent when its exception
     escapes.  `cls` is the class that was dispatched, if the breaker allowed it.
     */
    method Scrape(domain: string, asked: real, delays: Delays, proxy: Option<string>,
                  dispatch: (ScraperClass, Option<string>) -> Dispatch)
      returns (result: Option<ScrapeResult>, ghost cls: ScraperClass)
      requires Valid() && gate.now <= asked
      modifies this, breaker, limiter
      ensures Valid()
      ensures var call := old(Call(domain, asked, delays, Outcome(dispatch(cls, proxy))));
        GatedRuns.InTime(old(gate), call) && gate == GatedRuns.Next(breaker.cfg, old(gate), call)
      ensures var refused := CircuitBreakers.Blocked(breaker.cfg, CircuitBreakers.Since(old(breaker.history), domain), asked);
        if refused then
          && result == Some(ScrapeResult(Error, "none", None, Some("circuit breaker open for " + domain)))
          && limiter.nextAllowed == old(limiter.nextAllowed) && written == old(written)
          && breaker.history == old(breaker.history)
        else
          var granted := old(GrantedAt(domain, asked, delays));
          var every := if domain in limiter.cfg.overrides then limiter.cfg.overrides[domain] else limiter.cfg.default;
          && Routes(registry.entries, domain, cls) && Answered(dispatch(cls, proxy), cls.driver, result)
          && limiter.nextAllowed == old(limiter.nextAllowed)[domain := granted + every]
          && Reported(dispatch(cls, proxy), domain, granted + delays.setup + delays.took, old(breaker.history), breaker.history)
          && Handed(dispatch(cls, proxy), hasSink, old(written), written)
    {
      hide Routes, Answered, Handed, GatedRuns.Inv, CircuitBreakers.Blocked, CircuitBreakers.Since, CircuitBreakers.InOrder,
        CircuitBreakers.AllMatch, CircuitBreakers.AfterCall;
      cls := PUBLIC_SCRAPER;
      ghost var start := GrantedAt(domain, asked, delays);
      var allowed := breaker.Allow(domain, asked);
      if !allowed {
        result := Some(ScrapeResult(Error, "none", None, Some("circuit breaker open for " + domain)));
      } else {
        var granted := limiter.Acquire(domain, asked, delays.late, Waiting(GetOr(limiter.nextAllowed, domain, 0.0)));
        result, cls := Attempt(domain, granted + delays.setup + delays.took, proxy, dispatch);
      }
      ghost var call := GatedRuns.Scrape(domain, asked, start + delays.setup, start + delays.setup + delays.took,
                                         Outcome(dispatch(cls, proxy)));
      GatedRuns.StepKeepsInv(breaker.cfg, gate, call);
      gate := GatedRuns.Next(breaker.cfg, gate, call);
    }
  }

  /** A lane on which only this call waits. */
  function Waiting(next: real): RateLimiters.Lane {
    RateLimiters.Idle.(next := next, waiting := [0])
  }
}
