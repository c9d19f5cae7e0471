/**
 The proactive gate: acquires of any number of tasks over any domains, each domain behind its own
 first-in-first-out lock, under every interleaving.
 */
module RateLimiters {
  import opened Collections

  datatype Config = Config(default: real, overrides: map<string, real>)

  function Interval(cfg: Config, domain: string): real {
    GetOr(cfg.overrides, domain, cfg.default)
  }

  /** A task holding the lock of its domain sleeps until `until`, when it still has to wait. */
  datatype Holder = Free | Sleeping(task: nat, until: real)

  datatype Grant = Grant(task: nat, at: real)

  /** One domain: its entry of `_next_allowed`, its lock, and the arrivals and grants so far. */
  datatype Lane = Lane(next: real, holder: Holder, waiting: seq<nat>, arrivals: seq<nat>, grants: seq<Grant>)

  const Idle := Lane(0.0, Free, [], [], [])

  datatype World = World(clock: real, lanes: map<string, Lane>)

  function LaneOf(w: World, domain: string): Lane {
    GetOr(w.lanes, domain, Idle)
  }

  /**
   The atomic stretches of `acquire`: queueing for the lock; taking the free lock, reading the clock
   (`read`) and, when no wait is needed, the clock again (`done`); and waking up after the sleep.
   */
  datatype Step =
    | Arrive(domain: string, task: nat, at: real)
    | Enter(domain: string, read: real, done: real)
    | Wake(domain: string, done: real)

  function Moment(step: Step): real {
    match step
    case Arrive(_, _, at) => at
    case Enter(_, read, _) => read
    case Wake(_, done) => done
  }

  /** Whether `step` can happen in its lane; a sleep of `w` seconds ends no earlier than `w` seconds later. */
  predicate Enabled(lane: Lane, step: Step) {
    match step
    case Arrive(_, _, _) => true
    case Enter(_, read, done) => lane.holder.Free? && lane.waiting != [] && done >= read
    case Wake(_, done) => lane.holder.Sleeping? && done >= lane.holder.until
  }

  function Granted(lane: Lane, task: nat, at: real, interval: real): Lane {
    lane.(next := at + interval, holder := Free, grants := lane.grants + [Grant(task, at)])
  }

  function LaneStep(lane: Lane, step: Step, interval: real): Lane
    requires Enabled(lane, step)
  {
    match step
    case Arrive(_, task, _) =>
      lane.(waiting := lane.waiting + [task], arrivals := lane.arrivals + [task])
    case Enter(_, read, done) =>
      var inside := lane.(waiting := lane.waiting[1..]);
      var wait := lane.next - read;
      if wait > 0.0 then inside.(holder := Sleeping(lane.waiting[0], read + wait))
      else Granted(inside, lane.waiting[0], done, interval)
    case Wake(_, done) =>
      Granted(lane, lane.holder.task, done, interval)
  }

  /** The clock once `step` is over: it never runs backwards. */
  function ClockAfter(w: World, step: Step): real {
    if step.Enter? && LaneOf(w, step.domain).next - step.read <= 0.0 then step.done else Moment(step)
  }

  predicate Legal(w: World, step: Step) {
    Moment(step) >= w.clock && Enabled(LaneOf(w, step.domain), step)
  }

  function Next(cfg: Config, w: World, step: Step): World
    requires Legal(w, step)
  {
    World(ClockAfter(w, step),
          w.lanes[step.domain := LaneStep(LaneOf(w, step.domain), step, Interval(cfg, step.domain))])
  }

  predicate LegalRun(cfg: Config, w: World, steps: seq<Step>)
    decreases |steps|
  {
    steps != [] ==> Legal(w, steps[0]) && LegalRun(cfg, Next(cfg, w, steps[0]), steps[1..])
  }

  function Run(cfg: Config, w: World, steps: seq<Step>): World
    requires LegalRun(cfg, w, steps)
    decreases |steps|
  {
    if steps == [] then w else Run(cfg, Next(cfg, w, steps[0]), steps[1..])
  }

  /** No one is stuck: anyone may arrive, the next in line may take a free lock, and a sleeper wakes when it is time. */
  lemma NoneStuck(w: World, domain: string, task: nat, at: real)
    requires at >= w.clock
    ensures Legal(w, Arrive(domain, task, at))
    ensures LaneOf(w, domain).holder.Free? && LaneOf(w, domain).waiting != [] ==> Legal(w, Enter(domain, at, at))
    ensures LaneOf(w, domain).holder.Sleeping? && at >= LaneOf(w, domain).holder.until ==> Legal(w, Wake(domain, at))
  {
  }

  // What every step keeps.

  function Tasks(grants: seq<Grant>): seq<nat> {
    seq(|grants|, i requires 0 <= i < |grants| => grants[i].task)
  }

  function Held(holder: Holder): seq<nat> {
    if holder.Sleeping? then [holder.task] else []
  }

  ghost predicate Spaced(grants: seq<Grant>, interval: real) {
    forall i :: 0 < i < |grants| ==> grants[i].at >= grants[i - 1].at + interval
  }

  ghost predicate LaneInv(lane: Lane, interval: real) {
    && Tasks(lane.grants) + Held(lane.holder) + lane.waiting == lane.arrivals
    && Spaced(lane.grants, interval)
    && (lane.grants != [] ==> lane.next == lane.grants[|lane.grants| - 1].at + interval)
    && (lane.holder.Sleeping? ==> lane.holder.until >= lane.next)
  }

  ghost predicate Inv(cfg: Config, w: World) {
    forall d :: LaneInv(LaneOf(w, d), Interval(cfg, d))
  }

  lemma LaneKeepsInv(lane: Lane, step: Step, interval: real)
    requires LaneInv(lane, interval) && Enabled(lane, step)
    ensures LaneInv(LaneStep(lane, step, interval), interval)
  {
    match step
    case Arrive(_, task, _) =>
    case Enter(_, read, done) =>
      var inside := lane.(waiting := lane.waiting[1..]);
      assert lane.waiting == [lane.waiting[0]] + lane.waiting[1..];
      if lane.next - read <= 0.0 {
        GrantKeepsInv(inside, lane.waiting[0], done, interval);
      }
    case Wake(_, done) =>
      GrantKeepsInv(lane.(holder := Free), lane.holder.task, done, interval);
  }

  /** `lane` is about to grant `task`, which is next in line and off the lock. */
  lemma GrantKeepsInv(lane: Lane, task: nat, at: real, interval: real)
    requires lane.holder == Free && Tasks(lane.grants) + [task] + lane.waiting == lane.arrivals
    requires Spaced(lane.grants, interval) && at >= lane.next
    requires lane.grants != [] ==> lane.next == lane.grants[|lane.grants| - 1].at + interval
    ensures LaneInv(Granted(lane, task, at, interval), interval)
  {
    assert Tasks(lane.grants + [Grant(task, at)]) == Tasks(lane.grants) + [task];
  }

  lemma {:induction false} RunKeepsInv(cfg: Config, w: World, steps: seq<Step>)
    requires Inv(cfg, w) && LegalRun(cfg, w, steps)
    ensures Inv(cfg, Run(cfg, w, steps))
    decreases |steps|
  {
    if steps != [] {
      var step := steps[0];
      assert LaneInv(LaneOf(w, step.domain), Interval(cfg, step.domain));
      LaneKeepsInv(LaneOf(w, step.domain), step, Interval(cfg, step.domain));
      forall d ensures LaneInv(LaneOf(Next(cfg, w, step), d), Interval(cfg, d)) {
        assert LaneInv(LaneOf(w, d), Interval(cfg, d));
      }
      RunKeepsInv(cfg, Next(cfg, w, step), steps[1..]);
    }
  }

  const Start := World(0.0, map[])

  lemma ReachedLane(cfg: Config, steps: seq<Step>, domain: string)
    requires LegalRun(cfg, Start, steps)
    ensures LaneInv(LaneOf(Run(cfg, Start, steps), domain), Interval(cfg, domain))
  {
    RunKeepsInv(cfg, Start, steps);
  }

  function Grants(cfg: Config, steps: seq<Step>, domain: string): seq<Grant>
    requires LegalRun(cfg, Start, steps)
  {
    LaneOf(Run(cfg, Start, steps), domain).grants
  }

  /** Grants of a domain follow the order in which its tasks arrived, and none is lost or repeated. */
  lemma FirstInFirstOut(cfg: Config, steps: seq<Step>, domain: string)
    requires LegalRun(cfg, Start, steps)
    ensures var lane := LaneOf(Run(cfg, Start, steps), domain);
      Tasks(lane.grants) + Held(lane.holder) + lane.waiting == lane.arrivals
  {
    ReachedLane(cfg, steps, domain);
  }

  /**
   Two grants of a domain are as many intervals apart as there are grants between them; the interval is
   the domain's override, or the default when it has none.
   */
  lemma GrantsAreSpaced(cfg: Config, steps: seq<Step>, domain: string, i: nat, j: nat)
    requires LegalRun(cfg, Start, steps)
    requires i <= j < |Grants(cfg, steps, domain)|
    ensures var grants := Grants(cfg, steps, domain);
      && (domain !in cfg.overrides ==> grants[j].at >= grants[i].at + (j - i) as real * cfg.default)
      && (domain in cfg.overrides ==> grants[j].at >= grants[i].at + (j - i) as real * cfg.overrides[domain])
  {
    ReachedLane(cfg, steps, domain);
    SpacedApart(Grants(cfg, steps, domain), Interval(cfg, domain), i, j);
  }

  function Times(n: int, interval: real): real {
    n as real * interval
  }

  lemma {:induction false} SpacedApart(grants: seq<Grant>, interval: real, i: nat, j: nat)
    requires Spaced(grants, interval) && i <= j < |grants|
    ensures grants[j].at >= grants[i].at + Times(j - i, interval)
    decreases j - i
  {
    if i < j {
      SpacedApart(grants, interval, i, j - 1);
      assert Times(j - i, interval) == Times(j - 1 - i, interval) + interval;
    }
  }

  /** The grants with a time between `from` and `to`, both included. */
  function Within(grants: seq<Grant>, from: real, to: real): seq<Grant> {
    if grants == [] then [] else
    (if from <= grants[0].at <= to then [grants[0]] else []) + Within(grants[1..], from, to)
  }

  ghost predicate PairSpaced(grants: seq<Grant>, interval: real) {
    forall i, j :: 0 <= i < j < |grants| ==> grants[j].at >= grants[i].at + interval
  }

  lemma {:induction false} WithinSpaced(grants: seq<Grant>, from: real, to: real, interval: real)
    requires PairSpaced(grants, interval)
    ensures PairSpaced(Within(grants, from, to), interval)
    ensures forall g :: g in Within(grants, from, to) ==> g in grants && from <= g.at <= to
  {
    if grants != [] {
      var rest := grants[1..];
      assert forall i :: 0 <= i < |rest| ==> rest[i] == grants[i + 1];
      WithinSpaced(rest, from, to, interval);
      var later := Within(rest, from, to);
      forall i | 0 <= i < |later| ensures later[i].at >= grants[0].at + interval {
        assert later[i] in rest;
      }
    }
  }

  /**
   Any span of `span` seconds holds at most floor(span / every) + 1 grants of a domain, where `every` is the
   domain's override, or the default when it has none.
   */
  lemma SpanHoldsFew(cfg: Config, steps: seq<Step>, domain: string, from: real, span: real, every: real)
    requires LegalRun(cfg, Start, steps) && every > 0.0 && span >= 0.0
    requires if domain in cfg.overrides then every == cfg.overrides[domain] else every == cfg.default
    ensures |Within(Grants(cfg, steps, domain), from, from + span)| <= (span / every).Floor + 1
  {
    ReachedLane(cfg, steps, domain);
    FewSpaced(Grants(cfg, steps, domain), from, span, Interval(cfg, domain));
  }

  lemma FewSpaced(grants: seq<Grant>, from: real, span: real, interval: real)
    requires Spaced(grants, interval) && interval > 0.0 && span >= 0.0
    ensures |Within(grants, from, from + span)| <= (span / interval).Floor + 1
  {
    SpacedPairs(grants, interval);
    WithinSpaced(grants, from, from + span, interval);
    var within := Within(grants, from, from + span);
    var n := |within| - 1;
    if n >= 0 {
      SpacedApart(within, interval, 0, n);
      assert within[0] in within && within[n] in within;
      FloorBound(n, interval, span);
    } else {
      FloorBound(0, interval, span);
    }
  }

  lemma {:induction false} SpacedPairs(grants: seq<Grant>, interval: real)
    requires Spaced(grants, interval) && interval > 0.0
    ensures PairSpaced(grants, interval)
  {
    if grants != [] {
      var n := |grants| - 1;
      SpacedPairs(grants[..n], interval);
      forall i | 0 <= i < n ensures grants[n].at >= grants[i].at + interval {
        assert grants[n].at >= grants[n - 1].at + interval;
        assert i < n - 1 ==> grants[..n][n - 1].at >= grants[..n][i].at + interval;
      }
    }
  }

  lemma FloorBound(n: nat, interval: real, span: real)
    requires interval > 0.0 && Times(n, interval) <= span
    ensures n <= (span / interval).Floor
  {
    DivideBound(n as real, interval, span);
  }

  lemma DivideBound(n: real, interval: real, span: real)
    requires interval > 0.0 && n * interval <= span
    ensures n <= span / interval
  {
    assert span / interval * interval == span;
  }

  // Domains do not affect each other.

  function Only(steps: seq<Step>, domain: string): seq<Step> {
    if steps == [] then [] else
    (if steps[0].domain == domain then [steps[0]] else []) + Only(steps[1..], domain)
  }

  /** Deleting every step of the other domains leaves a legal run with the same lane. */
  lemma DomainsAreIndependent(cfg: Config, steps: seq<Step>, domain: string)
    requires LegalRun(cfg, Start, steps)
    ensures LegalRun(cfg, Start, Only(steps, domain))
    ensures LaneOf(Run(cfg, Start, Only(steps, domain)), domain) == LaneOf(Run(cfg, Start, steps), domain)
  {
    SameLane(cfg, Start, Start, steps, domain);
  }

  lemma {:induction false} SameLane(cfg: Config, w: World, alone: World, steps: seq<Step>, domain: string)
    requires LegalRun(cfg, w, steps)
    requires alone.clock <= w.clock && LaneOf(alone, domain) == LaneOf(w, domain)
    ensures LegalRun(cfg, alone, Only(steps, domain))
    ensures LaneOf(Run(cfg, alone, Only(steps, domain)), domain) == LaneOf(Run(cfg, w, steps), domain)
    decreases |steps|
  {
    if steps != [] {
      var step, rest := steps[0], steps[1..];
      var w' := Next(cfg, w, step);
      if step.domain == domain {
        var only := Only(steps, domain);
        assert only == [step] + Only(rest, domain) && only[1..] == Only(rest, domain);
        SameLane(cfg, w', Next(cfg, alone, step), rest, domain);
      } else {
        assert Only(steps, domain) == Only(rest, domain);
        SameLane(cfg, w', alone, rest, domain);
      }
    }
  }

  /** What the task at the head of the line does once it has the lock: enter and, when it has to wait, wake. */
  function Critical(lane: Lane, domain: string, read: real, done: real, interval: real): Lane
    requires lane.holder.Free? && lane.waiting != [] && done >= read && done >= lane.next
  {
    var entered := LaneStep(lane, Enter(domain, read, done), interval);
    if entered.holder.Sleeping? then LaneStep(entered, Wake(domain, done), interval) else entered
  }

  type Duration = x: real | x >= 0.0

  /** The limiter itself. */
  class RateLimiter {
    const cfg: Config
    var nextAllowed: map<string, real>

    constructor (default: real, overrides: map<string, real>)
      ensures cfg == Config(default, overrides) && nextAllowed == map[]
    {
      cfg := Config(default, overrides);
      nextAllowed := map[];
    }

    /**
     What the task at the head of `lane` does under the lock.  `read` is the clock when it has the lock; by
     the second reading `late` more has passed than the sleep that was asked for, if one was.
     */
    method Acquire(domain: string, read: real, late: Duration, ghost lane: Lane) returns (granted: real)
      requires lane.holder.Free? && lane.waiting != [] && lane.next == GetOr(nextAllowed, domain, 0.0)
      modifies this
      ensures granted >= read && granted >= GetOr(old(nextAllowed), domain, 0.0)
      ensures granted == (if GetOr(old(nextAllowed), domain, 0.0) > read then GetOr(old(nextAllowed), domain, 0.0) else read) + late
      ensures domain !in cfg.overrides ==> nextAllowed == old(nextAllowed)[domain := granted + cfg.default]
      ensures domain in cfg.overrides ==> nextAllowed == old(nextAllowed)[domain := granted + cfg.overrides[domain]]
      ensures Critical(lane, domain, read, granted, Interval(cfg, domain))
        == lane.(next := GetOr(nextAllowed, domain, 0.0), waiting := lane.waiting[1..],
                 grants := lane.grants + [Grant(lane.waiting[0], granted)])
    {
      var now := read;
      var wait := GetOr(nextAllowed, domain, 0.0) - now;
      if wait > 0.0 {
        now := now + wait;
      }
      granted := now + late;
      nextAllowed := nextAllowed[domain := granted + Interval(cfg, domain)];
    }
  }
}
