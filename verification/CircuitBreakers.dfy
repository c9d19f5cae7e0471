/** The reactive gate: pause a domain after repeated failures, against its full-history meaning. */
module CircuitBreakers {
  import opened Collections

  /** `pause` and `window` are in seconds. */
  datatype Config = Config(threshold: int, pause: real, window: real)

  datatype DomainState = DomainState(failures: seq<real>, pausedUntil: real)

  const Fresh := DomainState([], 0.0)

  /** One outcome reported by the engine. */
  datatype Event = Event(domain: string, success: bool, at: real)

  /** The timestamps of `failures` after `cutoff`. */
  function After(failures: seq<real>, cutoff: real): seq<real> {
    if failures == [] then [] else
    (if failures[0] > cutoff then [failures[0]] else []) + After(failures[1..], cutoff)
  }

  // What the breaker is for, in terms of everything that ever happened.

  /** The failures of `domain` since its last success, oldest first. */
  function Since(history: seq<Event>, domain: string): seq<real> {
    if history == [] then [] else
    var last := history[|history| - 1];
    var before := Since(history[..|history| - 1], domain);
    if last.domain != domain then before else if last.success then [] else before + [last.at]
  }

  /** The failures that the j-th failure finds in its window, itself included. */
  function InWindow(cfg: Config, failures: seq<real>, j: nat): seq<real>
    requires j < |failures|
  {
    After(failures[..j + 1], failures[j] - cfg.window)
  }

  predicate Trips(cfg: Config, failures: seq<real>, j: nat)
    requires j < |failures|
  {
    |InWindow(cfg, failures, j)| >= cfg.threshold
  }

  /** Some failure since the last success tripped the breaker, and its pause is still running at `t`. */
  ghost predicate Blocked(cfg: Config, failures: seq<real>, t: real) {
    exists j :: 0 <= j < |failures| && Trips(cfg, failures, j) && t < failures[j] + cfg.pause
  }

  ghost predicate Chronological(times: seq<real>, now: real) {
    && (forall i, j :: 0 <= i < j < |times| ==> times[i] <= times[j])
    && (forall i :: 0 <= i < |times| ==> 0.0 <= times[i] <= now)
  }

  // The stored state stands for the history.

  ghost predicate Paused(s: DomainState, t: real) {
    s.pausedUntil != 0.0 && t < s.pausedUntil
  }

  ghost predicate Matches(cfg: Config, s: DomainState, failures: seq<real>, now: real) {
    && Chronological(failures, now)
    && s.failures == (if failures == [] then [] else InWindow(cfg, failures, |failures| - 1))
    && (forall t :: t >= now ==> (Paused(s, t) <==> Blocked(cfg, failures, t)))
  }

  lemma {:induction false} AfterAppend(a: seq<real>, b: seq<real>, cutoff: real)
    ensures After(a + b, cutoff) == After(a, cutoff) + After(b, cutoff)
  {
    if a == [] {
      assert a + b == b;
    } else {
      assert (a + b)[1..] == a[1..] + b;
      AfterAppend(a[1..], b, cutoff);
    }
  }

  lemma {:induction false} AfterTwice(failures: seq<real>, early: real, late: real)
    requires early <= late
    ensures After(After(failures, early), late) == After(failures, late)
  {
    if failures != [] {
      AfterTwice(failures[1..], early, late);
      var first := if failures[0] > early then [failures[0]] else [];
      AfterAppend(first, After(failures[1..], early), late);
    }
  }

  /** What is dropped now would be dropped later: pruning step by step equals pruning the whole history. */
  lemma PruningIsIncremental(cfg: Config, failures: seq<real>, now: real)
    requires failures != [] && failures[|failures| - 1] <= now
    ensures After(InWindow(cfg, failures, |failures| - 1) + [now], now - cfg.window)
         == InWindow(cfg, failures + [now], |failures|)
  {
    var n := |failures|;
    assert failures[..n - 1 + 1] == failures && (failures + [now])[..n + 1] == failures + [now];
    AfterAppend(InWindow(cfg, failures, n - 1), [now], now - cfg.window);
    AfterTwice(failures, failures[n - 1] - cfg.window, now - cfg.window);
    AfterAppend(failures, [now], now - cfg.window);
  }

  lemma EarlierTripsStay(cfg: Config, failures: seq<real>, now: real, j: nat)
    requires j < |failures|
    ensures Trips(cfg, failures + [now], j) == Trips(cfg, failures, j)
  {
    assert (failures + [now])[..j + 1] == failures[..j + 1];
  }

  function Failed(cfg: Config, s: DomainState, now: real): DomainState {
    var failures := After(s.failures + [now], now - cfg.window);
    DomainState(failures, if |failures| >= cfg.threshold then now + cfg.pause else s.pausedUntil)
  }

  lemma FailureMatches(cfg: Config, s: DomainState, failures: seq<real>, before: real, now: real)
    requires Matches(cfg, s, failures, before) && 0.0 <= before <= now
    ensures Matches(cfg, Failed(cfg, s, now), failures + [now], now)
  {
    var all, n := failures + [now], |failures|;
    var s' := Failed(cfg, s, now);
    if n == 0 {
      assert all[..1] == [now] && s.failures + [now] == [now];
    } else {
      PruningIsIncremental(cfg, failures, now);
    }
    assert s'.failures == InWindow(cfg, all, n);
    forall t | t >= now ensures Paused(s', t) <==> Blocked(cfg, all, t) {
      assert Paused(s, t) <==> Blocked(cfg, failures, t);
      forall j | 0 <= j < n ensures Trips(cfg, all, j) == Trips(cfg, failures, j) && all[j] <= now {
        EarlierTripsStay(cfg, failures, now, j);
      }
      if Trips(cfg, all, n) {
        assert Blocked(cfg, all, t) <==> t < now + cfg.pause;
      } else {
        assert Blocked(cfg, all, t) <==> Blocked(cfg, failures, t);
      }
    }
  }

  /** Time passing, and clearing an expired pause, change no later answer. */
  lemma LaterMatches(cfg: Config, s: DomainState, failures: seq<real>, before: real, now: real)
    requires Matches(cfg, s, failures, before) && before <= now
    ensures Matches(cfg, s, failures, now)
    ensures now >= s.pausedUntil ==> Matches(cfg, s.(pausedUntil := 0.0), failures, now)
  {
    forall t | t >= now
      ensures (Paused(s, t) <==> Blocked(cfg, failures, t))
      ensures now >= s.pausedUntil ==> (Paused(s.(pausedUntil := 0.0), t) <==> Blocked(cfg, failures, t))
    {
    }
  }

  lemma SinceRecorded(history: seq<Event>, last: Event, domain: string)
    ensures Since(history + [last], domain) ==
      if last.domain != domain then Since(history, domain)
      else if last.success then [] else Since(history, domain) + [last.at]
  {
    assert (history + [last])[..|history|] == history;
  }

  // Whole runs of the two operations.

  datatype Call = Ask(domain: string, at: real) | Report(domain: string, success: bool, at: real)

  /** What `allow` answers, reading the stored pause only. */
  predicate Answer(state: map<string, DomainState>, domain: string, now: real) {
    var until := GetOr(state, domain, Fresh).pausedUntil;
    until == 0.0 || now >= until
  }

  function AfterCall(cfg: Config, state: map<string, DomainState>, call: Call): map<string, DomainState> {
    match call
    case Ask(d, now) =>
      if d in state && now >= state[d].pausedUntil then state[d := state[d].(pausedUntil := 0.0)] else state
    case Report(d, success, now) =>
      state[d := if success then Fresh else Failed(cfg, GetOr(state, d, Fresh), now)]
  }

  function Run(cfg: Config, calls: seq<Call>): map<string, DomainState> {
    if calls == [] then map[] else AfterCall(cfg, Run(cfg, calls[..|calls| - 1]), calls[|calls| - 1])
  }

  /** The outcomes reported by a run. */
  function Reports(calls: seq<Call>): seq<Event> {
    if calls == [] then [] else
    var last := calls[|calls| - 1];
    Reports(calls[..|calls| - 1]) + if last.Report? then [Event(last.domain, last.success, last.at)] else []
  }

  ghost predicate ClockOk(calls: seq<Call>) {
    && (forall i :: 0 <= i < |calls| ==> 0.0 <= calls[i].at)
    && (forall i, j :: 0 <= i < j < |calls| ==> calls[i].at <= calls[j].at)
  }

  function LastReading(calls: seq<Call>): real {
    if calls == [] then 0.0 else calls[|calls| - 1].at
  }

  ghost predicate AllMatch(cfg: Config, state: map<string, DomainState>, history: seq<Event>, now: real) {
    forall d :: Matches(cfg, GetOr(state, d, Fresh), Since(history, d), now)
  }

  /** Recording an outcome of one domain leaves every domain's state standing for its history. */
  lemma RecordMatches(cfg: Config, state: map<string, DomainState>, history: seq<Event>, before: real, last: Event)
    requires AllMatch(cfg, state, history, before) && 0.0 <= before <= last.at
    ensures AllMatch(cfg, AfterCall(cfg, state, Report(last.domain, last.success, last.at)), history + [last], last.at)
  {
    var s := if last.success then Fresh else Failed(cfg, GetOr(state, last.domain, Fresh), last.at);
    forall d ensures Matches(cfg, GetOr(state[last.domain := s], d, Fresh), Since(history + [last], d), last.at) {
      SinceRecorded(history, last, d);
      if d != last.domain {
        LaterMatches(cfg, GetOr(state, d, Fresh), Since(history, d), before, last.at);
      } else if !last.success {
        FailureMatches(cfg, GetOr(state, d, Fresh), Since(history, d), before, last.at);
      }
    }
  }

  lemma InOrderAppend(history: seq<Event>, time: real, last: Event)
    requires InOrder(history, time) && 0.0 <= time <= last.at
    ensures InOrder(history + [last], last.at)
  {
  }

  lemma AskMatches(cfg: Config, state: map<string, DomainState>, history: seq<Event>, before: real, domain: string, now: real)
    requires AllMatch(cfg, state, history, before) && before <= now
    ensures AllMatch(cfg, AfterCall(cfg, state, Ask(domain, now)), history, now)
    ensures Answer(state, domain, now) <==> !Blocked(cfg, Since(history, domain), now)
  {
    forall d ensures Matches(cfg, GetOr(AfterCall(cfg, state, Ask(domain, now)), d, Fresh), Since(history, d), now) {
      LaterMatches(cfg, GetOr(state, d, Fresh), Since(history, d), before, now);
    }
    assert Matches(cfg, GetOr(state, domain, Fresh), Since(history, domain), before);
  }

  lemma {:induction false} RunMatches(cfg: Config, calls: seq<Call>)
    requires ClockOk(calls)
    ensures AllMatch(cfg, Run(cfg, calls), Reports(calls), LastReading(calls))
  {
    if calls != [] {
      var init, last := calls[..|calls| - 1], calls[|calls| - 1];
      RunMatches(cfg, init);
      match last
      case Ask(d, now) =>
        AskMatches(cfg, Run(cfg, init), Reports(init), LastReading(init), d, now);
        assert Reports(calls) == Reports(init);
      case Report(d, success, now) =>
        RecordMatches(cfg, Run(cfg, init), Reports(init), LastReading(init), Event(d, success, now));
    }
  }

  /**
   After any run with a clock that never runs backwards, a domain is refused exactly when a failure
   since its last success tripped the breaker and that failure's pause is still running.
   */
  lemma AnswersFollowHistory(cfg: Config, calls: seq<Call>, domain: string, now: real)
    requires ClockOk(calls) && LastReading(calls) <= now
    ensures Answer(Run(cfg, calls), domain, now) <==> !Blocked(cfg, Since(Reports(calls), domain), now)
  {
    RunMatches(cfg, calls);
    AskMatches(cfg, Run(cfg, calls), Reports(calls), LastReading(calls), domain, now);
  }

  /** The run without the asks and without the other domains. */
  function Only(calls: seq<Call>, domain: string): seq<Call> {
    if calls == [] then [] else
    var last := calls[|calls| - 1];
    Only(calls[..|calls| - 1], domain) + if last.Report? && last.domain == domain then [last] else []
  }

  lemma {:induction false} OnlySince(calls: seq<Call>, domain: string)
    ensures Since(Reports(Only(calls, domain)), domain) == Since(Reports(calls), domain)
  {
    if calls != [] {
      var init, last := calls[..|calls| - 1], calls[|calls| - 1];
      OnlySince(init, domain);
      assert !(last.Report? && last.domain == domain) ==> Only(calls, domain) == Only(init, domain);
      assert !last.Report? ==> Reports(calls) == Reports(init);
      if last.Report? {
        var e := Event(last.domain, last.success, last.at);
        SinceRecorded(Reports(init), e, domain);
        if last.domain == domain {
          var only := Only(init, domain);
          assert (only + [last])[..|only|] == only;
          assert Reports(only + [last]) == Reports(only) + [e];
          SinceRecorded(Reports(only), e, domain);
        }
      }
    }
  }

  lemma {:induction false} OnlyClock(calls: seq<Call>, domain: string)
    requires ClockOk(calls)
    ensures ClockOk(Only(calls, domain)) && NotAfter(Only(calls, domain), LastReading(calls))
  {
    if calls != [] {
      var init, last := calls[..|calls| - 1], calls[|calls| - 1];
      OnlyClock(init, domain);
      var only := Only(init, domain);
      assert LastReading(init) <= last.at;
      assert NotAfter(only, last.at);
      ClockAppend(only, last);
    }
  }

  ghost predicate NotAfter(calls: seq<Call>, t: real) {
    forall i :: 0 <= i < |calls| ==> calls[i].at <= t
  }

  lemma ClockAppend(calls: seq<Call>, last: Call)
    requires ClockOk(calls) && NotAfter(calls, last.at) && 0.0 <= last.at
    ensures ClockOk(calls + [last]) && NotAfter(calls + [last], last.at)
  {
  }

  /** Questions, and the outcomes of other domains, never change an answer. */
  lemma OthersNeverMatter(cfg: Config, calls: seq<Call>, domain: string, now: real)
    requires ClockOk(calls) && LastReading(calls) <= now
    ensures Answer(Run(cfg, calls), domain, now) == Answer(Run(cfg, Only(calls, domain)), domain, now)
  {
    OnlySince(calls, domain);
    OnlyClock(calls, domain);
    assert LastReading(Only(calls, domain)) <= now;
    AnswersFollowHistory(cfg, calls, domain, now);
    AnswersFollowHistory(cfg, Only(calls, domain), domain, now);
  }

  ghost predicate InOrder(history: seq<Event>, now: real) {
    && (forall i, j :: 0 <= i < j < |history| ==> history[i].at <= history[j].at)
    && (forall i :: 0 <= i < |history| ==> 0.0 <= history[i].at <= now)
  }

  class CircuitBreaker {
    const cfg: Config
    var state: map<string, DomainState>
    /** Everything recorded so far, and the last clock reading. */
    ghost var history: seq<Event>
    ghost var time: real

    ghost predicate Valid()
      reads this
    {
      && InOrder(history, time) && 0.0 <= time
      && AllMatch(cfg, state, history, time)
    }

    constructor (threshold: int, pauseMinutes: int, windowMinutes: int)
      ensures Valid() && history == [] && time == 0.0 && state == map[]
      ensures cfg == Config(threshold, pauseMinutes as real * 60.0, windowMinutes as real * 60.0)
    {
      cfg := Config(threshold, pauseMinutes as real * 60.0, windowMinutes as real * 60.0);
      state := map[];
      history, time := [], 0.0;
    }

    /** `now` is the clock, which never runs backwards. */
    method Allow(domain: string, now: real) returns (allowed: bool)
      requires Valid() && now >= time
      modifies this
      ensures Valid() && history == old(history) && time == now
      ensures state == AfterCall(cfg, old(state), Ask(domain, now))
      ensures allowed == !Blocked(cfg, Since(history, domain), now)
    {
      AskMatches(cfg, state, history, time, domain, now);
      time := now;
      if domain !in state {
        return true;
      }
      var pausedUntil := state[domain].pausedUntil;
      if pausedUntil == 0.0 {
        return true;
      }
      if now >= pausedUntil {
        state := state[domain := state[domain].(pausedUntil := 0.0)];
        return true;
      }
      return false;
    }

    method Record(domain: string, success: bool, now: real)
      requires Valid() && now >= time
      modifies this
      ensures Valid() && history == old(history) + [Event(domain, success, now)] && time == now
      ensures state == AfterCall(cfg, old(state), Report(domain, success, now))
    {
      RecordMatches(cfg, state, history, time, Event(domain, success, now));
      InOrderAppend(history, time, Event(domain, success, now));
      UpdateState(domain, success, now);
      history, time := history + [Event(domain, success, now)], now;
    }

    /** The stored state after an outcome. */
    method UpdateState(domain: string, success: bool, now: real)
      modifies this`state
      ensures state == AfterCall(cfg, old(state), Report(domain, success, now))
    {
      var s := if domain in state then state[domain] else Fresh;
      if success {
        s := DomainState([], 0.0);
      } else {
        s := s.(failures := After(s.failures + [now], now - cfg.window));
        if |s.failures| >= cfg.threshold {
          s := s.(pausedUntil := now + cfg.pause);
        }
      }
      state := state[domain := s];
    }
  }
}
