/**
 Sequential runs of the engine's gate: ask the breaker, wait for the limiter, dispatch, and report
 the outcome.
 */
module GatedRuns {
  import opened Collections
  import opened CircuitBreakers

  /**
   One `scrape` call.  `asked`, `dispatched` and `finished` are the clock when the breaker is asked,
   when the scraper starts, and when the outcome is reported; `outcome` is absent when an exception
   the engine does not map leaves the call before anything is reported.
   */
  datatype Scrape = Scrape(domain: string, asked: real, dispatched: real, finished: real, outcome: Option<bool>)

  /** A dispatched attempt; `known` is how many outcomes had been reported by then. */
  datatype Attempt = Attempt(domain: string, at: real, known: nat)

  datatype Gate = Gate(history: seq<Event>, attempts: seq<Attempt>, now: real)

  const Start := Gate([], [], 0.0)

  predicate InTime(g: Gate, s: Scrape) {
    g.now <= s.asked <= s.dispatched <= s.finished
  }

  ghost function Next(cfg: Config, g: Gate, s: Scrape): Gate {
    if Blocked(cfg, Since(g.history, s.domain), s.asked) then g.(now := s.asked) else
    Gate(g.history + if s.outcome.Some? then [Event(s.domain, s.outcome.value, s.finished)] else [],
         g.attempts + [Attempt(s.domain, s.dispatched, |g.history|)],
         s.finished)
  }

  /** A refused call leaves no trace; any other is recorded as an attempt, and its outcome in the history if it has one. */
  lemma NextMeaning(cfg: Config, g: Gate, s: Scrape)
    ensures var g' := Next(cfg, g, s);
      if Blocked(cfg, Since(g.history, s.domain), s.asked) then g'.attempts == g.attempts && g'.history == g.history
      else
        && g'.attempts == g.attempts + [Attempt(s.domain, s.dispatched, |g.history|)]
        && (s.outcome == None ==> g'.history == g.history)
        && (s.outcome.Some? ==> g'.history == g.history + [Event(s.domain, s.outcome.value, s.finished)])
  {
  }

  ghost predicate Legal(cfg: Config, g: Gate, run: seq<Scrape>)
    decreases |run|
  {
    run != [] ==> InTime(g, run[0]) && Legal(cfg, Next(cfg, g, run[0]), run[1..])
  }

  ghost function Run(cfg: Config, g: Gate, run: seq<Scrape>): Gate
    decreases |run|
  {
    if run == [] then g else Run(cfg, Next(cfg, g, run[0]), run[1..])
  }

  /** The i-th reported outcome is a failure that tripped the breaker of its domain. */
  ghost predicate TrippedAt(cfg: Config, history: seq<Event>, i: nat)
    requires i < |history|
  {
    var failures := Since(history[..i + 1], history[i].domain);
    !history[i].success && failures != [] && Trips(cfg, failures, |failures| - 1)
  }

  /** A run of failures that the gate let through: none falls in the pause of an earlier trip. */
  ghost predicate Gated(cfg: Config, failures: seq<real>) {
    forall j :: 0 < j < |failures| && Trips(cfg, failures, j - 1) ==> failures[j] >= failures[j - 1] + cfg.pause
  }

  ghost predicate HistoryRespects(cfg: Config, history: seq<Event>) {
    forall i, k :: 0 <= i < k < |history| && history[k].domain == history[i].domain && TrippedAt(cfg, history, i)
      ==> history[k].at >= history[i].at + cfg.pause
  }

  /** The attempt `x` is not inside the pause that the i-th outcome began, if it began one. */
  ghost predicate Respects(cfg: Config, history: seq<Event>, x: Attempt, i: nat)
    requires i < |history|
  {
    x.domain == history[i].domain && TrippedAt(cfg, history, i) ==> x.at >= history[i].at + cfg.pause
  }

  ghost predicate AttemptsRespect(cfg: Config, g: Gate) {
    forall x, i :: x in g.attempts && 0 <= i < x.known && i < |g.history| ==> Respects(cfg, g.history, x, i)
  }

  ghost predicate Inv(cfg: Config, g: Gate) {
    && HistoryRespects(cfg, g.history)
    && AttemptsRespect(cfg, g)
    && (forall x :: x in g.attempts ==> x.known <= |g.history|)
    && (forall i :: 0 <= i < |g.history| ==> 0.0 <= g.history[i].at <= g.now)
    && (forall d :: Gated(cfg, Since(g.history, d)) && Chronological(Since(g.history, d), g.now))
    && 0.0 <= g.now
  }

  /** Unless a success intervenes, later failures only extend the list an earlier one belongs to. */
  lemma {:induction false} SinceExtends(history: seq<Event>, i: nat)
    requires i < |history| && !history[i].success
    requires forall k :: i < k < |history| && history[k].domain == history[i].domain ==> !history[k].success
    ensures Since(history[..i + 1], history[i].domain) <= Since(history, history[i].domain)
    decreases |history|
  {
    var n := |history| - 1;
    if i < n {
      SinceExtends(history[..n], i);
      assert history[..n][..i + 1] == history[..i + 1];
    } else {
      assert history[..i + 1] == history;
    }
  }

  /** What the gate lets through after a trip starts no earlier than the end of its pause. */
  lemma LetThrough(cfg: Config, g: Gate, domain: string, asked: real, i: nat)
    requires Inv(cfg, g) && g.now <= asked && i < |g.history|
    requires g.history[i].domain == domain && TrippedAt(cfg, g.history, i)
    requires !Blocked(cfg, Since(g.history, domain), asked)
    ensures asked >= g.history[i].at + cfg.pause
  {
    var h := g.history;
    if k :| i < k < |h| && h[k].domain == domain && h[k].success {
      assert h[k].at >= h[i].at + cfg.pause;
    } else {
      SinceExtends(h, i);
      var failures := Since(h[..i + 1], domain);
      var all := Since(h, domain);
      var j := |failures| - 1;
      assert h[..i + 1][..i] == h[..i];
      assert failures[j] == h[i].at;
      assert all[j] == failures[j] && all[..j + 1] == failures[..j + 1];
      assert Trips(cfg, all, j);
    }
  }

  lemma TripsAreStable(cfg: Config, history: seq<Event>, last: Event, i: nat)
    requires i < |history|
    ensures TrippedAt(cfg, history + [last], i) <==> TrippedAt(cfg, history, i)
  {
    assert (history + [last])[..i + 1] == history[..i + 1];
  }

  lemma GatedAppend(cfg: Config, failures: seq<real>, asked: real, finished: real)
    requires Gated(cfg, failures) && asked <= finished
    requires !Blocked(cfg, failures, asked)
    ensures Gated(cfg, failures + [finished])
  {
    forall j | 0 < j < |failures| + 1 && Trips(cfg, failures + [finished], j - 1)
      ensures (failures + [finished])[j] >= (failures + [finished])[j - 1] + cfg.pause
    {
      EarlierTripsStay(cfg, failures, finished, j - 1);
    }
  }

  lemma HistoryStep(cfg: Config, g: Gate, last: Event, asked: real)
    requires Inv(cfg, g) && g.now <= asked <= last.at && !Blocked(cfg, Since(g.history, last.domain), asked)
    ensures HistoryRespects(cfg, g.history + [last])
  {
    var h, h' := g.history, g.history + [last];
    forall i, k | 0 <= i < k < |h'| && h'[k].domain == h'[i].domain && TrippedAt(cfg, h', i)
      ensures h'[k].at >= h'[i].at + cfg.pause
    {
      TripsAreStable(cfg, h, last, i);
      if k == |h| {
        LetThrough(cfg, g, last.domain, asked, i);
      }
    }
  }

  lemma AttemptsStep(cfg: Config, g: Gate, s: Scrape)
    requires Inv(cfg, g) && InTime(g, s) && !Blocked(cfg, Since(g.history, s.domain), s.asked)
    ensures AttemptsRespect(cfg, Next(cfg, g, s))
  {
    var g' := Next(cfg, g, s);
    forall x, i | x in g'.attempts && 0 <= i < x.known && i < |g'.history| ensures Respects(cfg, g'.history, x, i) {
      assert x.known <= |g.history|;
      if s.outcome.Some? {
        TripsAreStable(cfg, g.history, Event(s.domain, s.outcome.value, s.finished), i);
      } else {
        assert g'.history == g.history;
      }
      if x in g.attempts {
        assert Respects(cfg, g.history, x, i);
      } else if s.domain == g.history[i].domain && TrippedAt(cfg, g.history, i) {
        LetThrough(cfg, g, s.domain, s.asked, i);
      }
    }
  }

  lemma ListsStep(cfg: Config, g: Gate, s: Scrape, d: string)
    requires Inv(cfg, g) && InTime(g, s) && !Blocked(cfg, Since(g.history, s.domain), s.asked)
    ensures var g' := Next(cfg, g, s);
      Gated(cfg, Since(g'.history, d)) && Chronological(Since(g'.history, d), g'.now)
  {
    assert Gated(cfg, Since(g.history, d)) && Chronological(Since(g.history, d), g.now);
    if s.outcome.Some? {
      SinceRecorded(g.history, Event(s.domain, s.outcome.value, s.finished), d);
      if d == s.domain && !s.outcome.value {
        GatedAppend(cfg, Since(g.history, d), s.asked, s.finished);
      }
    } else {
      assert Next(cfg, g, s).history == g.history;
    }
  }

  lemma StepKeepsInv(cfg: Config, g: Gate, s: Scrape)
    requires Inv(cfg, g) && InTime(g, s)
    ensures Inv(cfg, Next(cfg, g, s))
  {
    var g' := Next(cfg, g, s);
    if !Blocked(cfg, Since(g.history, s.domain), s.asked) {
      AttemptsStep(cfg, g, s);
      forall d ensures Gated(cfg, Since(g'.history, d)) && Chronological(Since(g'.history, d), g'.now) {
        ListsStep(cfg, g, s, d);
      }
      if s.outcome.Some? {
        HistoryStep(cfg, g, Event(s.domain, s.outcome.value, s.finished), s.asked);
      } else {
        assert g'.history == g.history;
      }
    }
  }

  lemma {:induction false} RunKeepsInv(cfg: Config, g: Gate, run: seq<Scrape>)
    requires Inv(cfg, g) && Legal(cfg, g, run)
    ensures Inv(cfg, Run(cfg, g, run))
    decreases |run|
  {
    if run != [] {
      StepKeepsInv(cfg, g, run[0]);
      RunKeepsInv(cfg, Next(cfg, g, run[0]), run[1..]);
    }
  }

  /**
   In a sequential run no attempt on a domain starts within `pause` of a failure, reported before it,
   that tripped the breaker; not even after a success in between.
   */
  lemma NoDispatchDuringPause(cfg: Config, run: seq<Scrape>, x: Attempt, i: nat)
    requires Legal(cfg, Start, run)
    requires var g := Run(cfg, Start, run);
      x in g.attempts && i < x.known && i < |g.history| && g.history[i].domain == x.domain && TrippedAt(cfg, g.history, i)
    ensures var f := Run(cfg, Start, run).history[i].at; !(f <= x.at < f + cfg.pause)
    ensures x.at >= Run(cfg, Start, run).history[i].at + cfg.pause
  {
    ReachedAttempts(cfg, run);
    assert Respects(cfg, Run(cfg, Start, run).history, x, i);
  }

  lemma ReachedAttempts(cfg: Config, run: seq<Scrape>)
    requires Legal(cfg, Start, run)
    ensures AttemptsRespect(cfg, Run(cfg, Start, run))
  {
    assert Inv(cfg, Start);
    RunKeepsInv(cfg, Start, run);
  }

  // How long the stored list of failures can get.

  lemma {:induction false} AfterLength(failures: seq<real>, cutoff: real)
    ensures |After(failures, cutoff)| <= |failures|
    ensures (forall i :: 0 <= i < |failures| ==> failures[i] <= cutoff) ==> After(failures, cutoff) == []
  {
    if failures != [] {
      AfterLength(failures[1..], cutoff);
    }
  }

  lemma {:induction false} LowerCutoffKeepsMore(failures: seq<real>, low: real, high: real)
    requires low <= high
    ensures |After(failures, high)| <= |After(failures, low)|
  {
    if failures != [] {
      LowerCutoffKeepsMore(failures[1..], low, high);
    }
  }

  /** Once a trip's pause outlasts the window, later failures no longer see the tripping one. */
  lemma OnlyFreshOnes(cfg: Config, failures: seq<real>, now: real, i: nat, j: nat)
    requires Gated(cfg, failures) && Chronological(failures, now) && cfg.pause >= cfg.window
    requires i < j < |failures| && Trips(cfg, failures, i)
    ensures |InWindow(cfg, failures, j)| <= j - i
  {
    var cutoff := failures[j] - cfg.window;
    assert failures[i + 1] >= failures[i + 1 - 1] + cfg.pause;
    assert failures[..j + 1] == failures[..i + 1] + failures[i + 1..j + 1];
    AfterAppend(failures[..i + 1], failures[i + 1..j + 1], cutoff);
    AfterLength(failures[..i + 1], cutoff);
    AfterLength(failures[i + 1..j + 1], cutoff);
  }

  /** The failures stored when the j-th one is recorded. */
  lemma AtMostThreshold(cfg: Config, failures: seq<real>, now: real, j: nat)
    requires Gated(cfg, failures) && Chronological(failures, now) && cfg.pause >= cfg.window && cfg.threshold >= 1
    requires j < |failures|
    ensures |InWindow(cfg, failures, j)| <= cfg.threshold
  {
    if j == 0 {
      AfterLength(failures[..1], failures[0] - cfg.window);
    } else if Trips(cfg, failures, j - 1) {
      OnlyFreshOnes(cfg, failures, now, j - 1, j);
    } else {
      var cutoff := failures[j] - cfg.window;
      assert failures[..j + 1] == failures[..j] + [failures[j]];
      AfterAppend(failures[..j], [failures[j]], cutoff);
      AfterLength([failures[j]], cutoff);
      LowerCutoffKeepsMore(failures[..j], failures[j - 1] - cfg.window, cutoff);
    }
  }

  lemma ReachedList(cfg: Config, run: seq<Scrape>, domain: string)
    requires Legal(cfg, Start, run)
    ensures var g := Run(cfg, Start, run);
      Gated(cfg, Since(g.history, domain)) && Chronological(Since(g.history, domain), g.now)
  {
    assert Inv(cfg, Start);
    RunKeepsInv(cfg, Start, run);
  }

  ghost predicate TripsApart(cfg: Config, failures: seq<real>) {
    forall i, j :: 0 <= i < j < |failures| && Trips(cfg, failures, i) && Trips(cfg, failures, j) ==> j - i >= cfg.threshold
  }

  /**
   Whenever the pause is at least the window: over any sequential run, the stored list never exceeds
   the threshold, and two trips without a success between them are `threshold` fresh failures apart.
   */
  lemma TripsNeedFreshFailures(cfg: Config, run: seq<Scrape>, domain: string)
    requires Legal(cfg, Start, run) && cfg.pause >= cfg.window && cfg.threshold >= 1
    ensures var failures := Since(Run(cfg, Start, run).history, domain);
      && (forall j :: 0 <= j < |failures| ==> |InWindow(cfg, failures, j)| <= cfg.threshold)
      && TripsApart(cfg, failures)
  {
    var g := Run(cfg, Start, run);
    var failures := Since(g.history, domain);
    ReachedList(cfg, run, domain);
    forall j | 0 <= j < |failures| ensures |InWindow(cfg, failures, j)| <= cfg.threshold {
      AtMostThreshold(cfg, failures, g.now, j);
    }
    forall i, j | 0 <= i < j < |failures| && Trips(cfg, failures, i) && Trips(cfg, failures, j)
      ensures j - i >= cfg.threshold
    {
      OnlyFreshOnes(cfg, failures, g.now, i, j);
    }
  }

  // The bound is exact.

  lemma {:induction false} AfterKeepsAll(failures: seq<real>, cutoff: real)
    requires forall i :: 0 <= i < |failures| ==> failures[i] > cutoff
    ensures After(failures, cutoff) == failures
  {
    if failures != [] {
      AfterKeepsAll(failures[1..], cutoff);
    }
  }

  function Zeros(n: nat): seq<real> {
    seq(n, _ => 0.0)
  }

  /** `n` failures at time zero, then one at `last`. */
  function Burst(n: nat, last: real): seq<Scrape> {
    seq(n, _ => Scrape("d", 0.0, 0.0, 0.0, Some(false))) + [Scrape("d", last, last, last, Some(false))]
  }

  lemma BelowThreshold(cfg: Config, n: nat, t: real)
    requires cfg.window > 0.0 && n < cfg.threshold
    ensures !Blocked(cfg, Zeros(n), t)
  {
    forall j | 0 <= j < n ensures !Trips(cfg, Zeros(n), j) {
      AfterLength(Zeros(n)[..j + 1], Zeros(n)[j] - cfg.window);
    }
  }

  lemma {:induction false} BurstPasses(cfg: Config, g: Gate, n: nat, last: real)
    requires 0.0 < cfg.window && g.now == 0.0 && last == (if cfg.pause > 0.0 then cfg.pause else 0.0)
    requires n <= cfg.threshold && Since(g.history, "d") == Zeros(cfg.threshold - n)
    ensures Legal(cfg, g, Burst(n, last))
    ensures Since(Run(cfg, g, Burst(n, last)).history, "d") == Zeros(cfg.threshold) + [last]
    decreases n
  {
    var run := Burst(n, last);
    var done := Since(g.history, "d");
    SinceRecorded(g.history, Event("d", false, run[0].finished), "d");
    if n == 0 {
      assert !Blocked(cfg, done, last);
    } else {
      BelowThreshold(cfg, cfg.threshold - n, 0.0);
      assert done + [0.0] == Zeros(cfg.threshold - (n - 1));
      assert run[1..] == Burst(n - 1, last);
      BurstPasses(cfg, Next(cfg, g, run[0]), n - 1, last);
    }
  }

  ghost predicate AlwaysBounded(cfg: Config) {
    forall run, domain, j :: Legal(cfg, Start, run) && 0 <= j < |Since(Run(cfg, Start, run).history, domain)|
      ==> |InWindow(cfg, Since(Run(cfg, Start, run).history, domain), j)| <= cfg.threshold
  }

  /**
   With a shorter pause a domain that fails once more after its pause is tripped again by that single
   failure: the stored list is bounded by the threshold exactly when the pause covers the window.
   */
  lemma BoundedIffPauseCoversWindow(cfg: Config)
    requires cfg.threshold >= 1
    ensures AlwaysBounded(cfg) <==> cfg.pause >= cfg.window || cfg.window <= 0.0
  {
    if cfg.pause >= cfg.window || cfg.window <= 0.0 {
      forall run, domain, j | Legal(cfg, Start, run) && 0 <= j < |Since(Run(cfg, Start, run).history, domain)|
        ensures |InWindow(cfg, Since(Run(cfg, Start, run).history, domain), j)| <= cfg.threshold
      {
        if cfg.pause >= cfg.window {
          TripsNeedFreshFailures(cfg, run, domain);
        } else {
          EmptyWindow(cfg, run, domain, j);
        }
      }
    } else {
      OneTooMany(cfg);
    }
  }

  lemma EmptyWindow(cfg: Config, run: seq<Scrape>, domain: string, j: nat)
    requires Legal(cfg, Start, run) && cfg.window <= 0.0 && j < |Since(Run(cfg, Start, run).history, domain)|
    ensures InWindow(cfg, Since(Run(cfg, Start, run).history, domain), j) == []
  {
    ReachedList(cfg, run, domain);
    var failures := Since(Run(cfg, Start, run).history, domain);
    AfterLength(failures[..j + 1], failures[j] - cfg.window);
  }

  lemma OneTooMany(cfg: Config)
    requires cfg.threshold >= 1 && cfg.pause < cfg.window && 0.0 < cfg.window
    ensures !AlwaysBounded(cfg)
  {
    var last := if cfg.pause > 0.0 then cfg.pause else 0.0;
    var run := Burst(cfg.threshold, last);
    BurstPasses(cfg, Start, cfg.threshold, last);
    var failures := Since(Run(cfg, Start, run).history, "d");
    assert failures[..cfg.threshold + 1] == failures;
    AfterKeepsAll(failures, last - cfg.window);
    assert |InWindow(cfg, failures, cfg.threshold)| == cfg.threshold + 1;
  }
}
