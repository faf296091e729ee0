/**
 The Redis hold accelerator: its circuit breaker and its counters. Every lock-protected
 breaker call is one event; runs are event sequences in lock order.
 */
module Holds {
  import opened Common

  // ---- The breaker, event by event ----

  /** `threshold` and `cooldown` are positive: the options ignore other values. */
  datatype Config = Config(threshold: nat, cooldown: nat) {
    predicate Valid() {
      threshold > 0 && cooldown > 0
    }
  }

  datatype State = State(failures: nat, openedAt: Time)

  /** Calls in the order they take the lock. `Allow` reads the clock twice if it lets a probe through. */
  datatype Event = Allow(since: Time, now: Time) | Success | Failure(now: Time)

  predicate Open(c: Config, s: State) {
    s.failures >= c.threshold
  }

  predicate Admits(c: Config, s: State, since: Time) {
    !Open(c, s) || since - s.openedAt >= c.cooldown
  }

  function Next(c: Config, s: State, e: Event): State {
    match e
    case Allow(since, now) => if Open(c, s) && Admits(c, s, since) then s.(openedAt := now) else s
    case Success => s.(failures := 0)
    case Failure(now) =>
      if s.failures + 1 >= c.threshold then State(s.failures + 1, now) else State(s.failures + 1, s.openedAt)
  }

  /** What a call reports about the breaker: it opened, it recovered, or nothing. */
  function Reports(c: Config, s: State, e: Event): Option<bool> {
    match e
    case Allow(_, _) => None
    case Success => if Open(c, s) then Some(false) else None
    case Failure(_) => if s.failures + 1 == c.threshold then Some(true) else None
  }

  function Run(c: Config, s: State, events: seq<Event>): State {
    if events == [] then s else Next(c, Run(c, s, events[..|events| - 1]), events[|events| - 1])
  }

  /** All reports of a run, in lock order: true for opened, false for recovered. */
  function History(c: Config, s: State, events: seq<Event>): seq<bool> {
    if events == [] then [] else
      var front, last := events[..|events| - 1], events[|events| - 1];
      match Reports(c, Run(c, s, front), last)
      case None => History(c, s, front)
      case Some(b) => History(c, s, front) + [b]
  }

  /** Opened and recovered strictly alternate on every run, and the last one tells the state. */
  lemma {:induction false} ReportsAlternate(c: Config, s: State, events: seq<Event>)
    requires c.Valid()
    ensures var h := History(c, s, events);
            && (forall i :: 0 <= i < |h| - 1 ==> h[i + 1] == !h[i])
            && (h != [] ==> h[0] == !Open(c, s) && h[|h| - 1] == Open(c, Run(c, s, events)))
            && (h == [] ==> Open(c, Run(c, s, events)) == Open(c, s))
  {
    if events != [] {
      ReportsAlternate(c, s, events[..|events| - 1]);
    }
  }

  function First(e: Event, otherwise: Time): Time {
    match e
    case Allow(since, _) => since
    case Failure(now) => now
    case Success => otherwise
  }

  function Last(e: Event, otherwise: Time): Time {
    match e
    case Allow(_, now) => now
    case Failure(now) => now
    case Success => otherwise
  }

  /** The monotonic clock, read under the lock, never runs backwards along a run. */
  predicate Clocked(events: seq<Event>, start: Time)
    decreases |events|
  {
    events == [] ||
    (start <= First(events[0], start) <= Last(events[0], start) && Clocked(events[1..], Last(events[0], start)))
  }

  /** From an open breaker whose window started no earlier than `t`, nothing is admitted before t + cooldown. */
  lemma {:induction false} OpenWindowHolds(c: Config, s: State, events: seq<Event>, start: Time, t: Time)
    requires c.Valid() && Open(c, s) && s.openedAt >= t && start >= t && Clocked(events, start)
    requires events != [] && events[|events| - 1].Allow? && forall i :: 0 <= i < |events| ==> events[i] != Success
    requires Admits(c, Run(c, s, events[..|events| - 1]), events[|events| - 1].since)
    ensures events[|events| - 1].since >= t + c.cooldown
    decreases |events|
  {
    if |events| > 1 {
      var s1 := Next(c, s, events[0]);
      RunFrom(c, s, events[..|events| - 1]);
      assert events[1..][..|events| - 2] == events[..|events| - 1][1..];
      OpenWindowHolds(c, s1, events[1..], Last(events[0], start), t);
    }
  }

  lemma {:induction false} RunFrom(c: Config, s: State, events: seq<Event>)
    requires events != []
    ensures Run(c, s, events) == Run(c, Next(c, s, events[0]), events[1..])
  {
    var front := events[..|events| - 1];
    if front == [] {
      assert events[1..] == [];
      assert Run(c, s, front) == s;
    } else {
      RunFrom(c, s, front);
      assert events[1..][..|events| - 2] == front[1..];
      assert events[1..] != [] && events[1..][|events[1..]| - 1] == events[|events| - 1];
    }
  }

  /**
   Within one open spell, any two admitted operations are at least a cooldown apart,
   however many callers race for the lock.
   */
  lemma ProbesAreSpaced(c: Config, s: State, events: seq<Event>, start: Time)
    requires c.Valid() && Clocked(events, start) && |events| >= 2
    requires events[0].Allow? && events[|events| - 1].Allow? && forall i :: 0 <= i < |events| ==> events[i] != Success
    requires Open(c, s) && Admits(c, s, events[0].since)
    requires Admits(c, Run(c, s, events[..|events| - 1]), events[|events| - 1].since)
    ensures events[|events| - 1].since >= events[0].now + c.cooldown
  {
    var s1 := Next(c, s, events[0]);
    RunFrom(c, s, events[..|events| - 1]);
    assert events[1..][..|events| - 2] == events[..|events| - 1][1..];
    OpenWindowHolds(c, s1, events[1..], events[0].now, events[0].now);
  }

  // ---- Probes come due ----

  /** `e` starts the cooldown anew: a failure at or past the threshold, or an admission to an open breaker. */
  predicate Rearms(c: Config, s: State, e: Event) {
    match e
    case Allow(since, now) => s.failures >= c.threshold && since >= s.openedAt + c.cooldown
    case Success => false
    case Failure(now) => s.failures + 1 >= c.threshold
  }

  /** No event of the run re-arms after `t`. */
  ghost predicate RearmedBy(c: Config, s: State, events: seq<Event>, t: Time) {
    forall i :: 0 <= i < |events| ==> RearmsBy(c, Run(c, s, events[..i]), events[i], t)
  }

  predicate RearmsBy(c: Config, s: State, e: Event, t: Time) {
    Rearms(c, s, e) ==> Last(e, t) <= t
  }

  lemma NextWindow(c: Config, s: State, e: Event, t: Time)
    requires s.openedAt <= t && RearmsBy(c, s, e, t)
    ensures Next(c, s, e).openedAt <= t
  {
  }

  lemma FrontRearmedBy(c: Config, s: State, events: seq<Event>, t: Time, n: nat)
    requires n <= |events| && RearmedBy(c, s, events, t)
    ensures RearmedBy(c, s, events[..n], t)
  {
    forall i | 0 <= i < n ensures RearmsBy(c, Run(c, s, events[..n][..i]), events[..n][i], t) {
      assert events[..n][..i] == events[..i];
    }
  }

  lemma {:induction false} WindowStart(c: Config, s: State, events: seq<Event>, t: Time)
    requires s.openedAt <= t && RearmedBy(c, s, events, t)
    ensures Run(c, s, events).openedAt <= t
  {
    if events != [] {
      var last := |events| - 1;
      FrontRearmedBy(c, s, events, t, last);
      WindowStart(c, s, events[..last], t);
      NextWindow(c, Run(c, s, events[..last]), events[last], t);
    }
  }

  /**
   A probe is never refused for longer than a cooldown: whatever the callers did, an operation that
   asks a cooldown after the last re-arm is admitted; its success closes the breaker, and then
   every operation is admitted until the threshold of failures is reached again.
   */
  lemma ProbeComesDue(c: Config, s: State, events: seq<Event>, t: Time, since: Time, now: Time, later: Time)
    requires c.Valid() && s.openedAt <= t && RearmedBy(c, s, events, t) && since >= t + c.cooldown
    ensures Admits(c, Run(c, s, events), since)
    ensures var closed := Run(c, s, events + [Allow(since, now), Success]);
            closed.failures == 0 && Admits(c, closed, later)
  {
    WindowStart(c, s, events, t);
    var more := events + [Allow(since, now), Success];
    assert more[..|more| - 1] == events + [Allow(since, now)];
  }

  /** A closed breaker admits everything, and opens only at the threshold of failures in a row. */
  lemma {:induction false} ClosedAdmits(c: Config, s: State, failedAt: seq<Time>, since: Time)
    requires s.failures == 0 && |failedAt| < c.threshold
    ensures var s' := Run(c, s, seq(|failedAt|, i requires 0 <= i < |failedAt| => Failure(failedAt[i])));
            s'.failures == |failedAt| && Admits(c, s', since)
  {
    var events := seq(|failedAt|, i requires 0 <= i < |failedAt| => Failure(failedAt[i]));
    if failedAt != [] {
      var last := |failedAt| - 1;
      ClosedAdmits(c, s, failedAt[..last], since);
      assert events[..last] == seq(last, i requires 0 <= i < last => Failure(failedAt[..last][i]));
    }
  }

  // ---- Rate bound in an outage ----

  /** One sequential operation: when it asks, when it may be let through, when its round trip fails. */
  datatype Op = Op(since: Time, now: Time, failedAt: Time)

  predicate InTurn(ops: seq<Op>, start: Time)
    decreases |ops|
  {
    ops == [] || (start <= ops[0].since <= ops[0].now <= ops[0].failedAt && InTurn(ops[1..], ops[0].failedAt))
  }

  /** Operations that reach Redis when all of them fail. */
  function Reached(c: Config, s: State, ops: seq<Op>): nat
    decreases |ops|
  {
    if ops == [] then 0
    else if Admits(c, s, ops[0].since) then
      1 + Reached(c, Next(c, Next(c, s, Allow(ops[0].since, ops[0].now)), Failure(ops[0].failedAt)), ops[1..])
    else Reached(c, s, ops[1..])
  }

  predicate Before(ops: seq<Op>, end: Time) {
    forall i :: 0 <= i < |ops| ==> ops[i].failedAt <= end
  }

  lemma {:induction false} OpenReaches(c: Config, s: State, ops: seq<Op>, start: Time, end: Time)
    requires c.Valid() && Open(c, s) && InTurn(ops, start) && Before(ops, end) && s.openedAt <= end
    ensures Reached(c, s, ops) * c.cooldown <= end - s.openedAt
    decreases |ops|
  {
    if ops != [] {
      assert forall i :: 0 <= i < |ops[1..]| ==> ops[1..][i] == ops[i + 1];
      var o := ops[0];
      if Admits(c, s, o.since) {
        var s' := Next(c, Next(c, s, Allow(o.since, o.now)), Failure(o.failedAt));
        OpenReaches(c, s', ops[1..], o.failedAt, end);
        assert Reached(c, s, ops) * c.cooldown == c.cooldown + Reached(c, s', ops[1..]) * c.cooldown;
      } else {
        OpenReaches(c, s, ops[1..], o.failedAt, end);
      }
    }
  }

  /** `n` operations are `free` ones plus one per cooldown. */
  predicate Within(c: Config, n: nat, free: int, span: int) {
    n <= free || (n - free) * c.cooldown <= span
  }

  lemma {:induction false} ClosedReaches(c: Config, s: State, ops: seq<Op>, start: Time, end: Time)
    requires c.Valid() && !Open(c, s) && InTurn(ops, start) && Before(ops, end) && start <= end
    ensures Within(c, Reached(c, s, ops), c.threshold - s.failures, end - start)
    decreases |ops|
  {
    if ops != [] {
      assert forall i :: 0 <= i < |ops[1..]| ==> ops[1..][i] == ops[i + 1];
      var o := ops[0];
      var s' := Next(c, s, Failure(o.failedAt));
      assert Reached(c, s, ops) == 1 + Reached(c, s', ops[1..]);
      if Open(c, s') {
        OpenReaches(c, s', ops[1..], o.failedAt, end);
      } else {
        ClosedReaches(c, s', ops[1..], o.failedAt, end);
      }
    }
  }

  lemma {:induction false} AnyReaches(c: Config, s: State, ops: seq<Op>, start: Time, end: Time)
    requires c.Valid() && InTurn(ops, start) && Before(ops, end) && start <= end
    ensures Within(c, Reached(c, s, ops), c.threshold, end - start)
    decreases |ops|
  {
    if !Open(c, s) {
      ClosedReaches(c, s, ops, start, end);
      MulMonotone(Reached(c, s, ops) - c.threshold, Reached(c, s, ops) - (c.threshold - s.failures), c.cooldown);
    } else if ops != [] {
      assert forall i :: 0 <= i < |ops[1..]| ==> ops[1..][i] == ops[i + 1];
      var o := ops[0];
      if Admits(c, s, o.since) {
        var s' := Next(c, Next(c, s, Allow(o.since, o.now)), Failure(o.failedAt));
        OpenReaches(c, s', ops[1..], o.failedAt, end);
        MulMonotone(Reached(c, s, ops) - c.threshold, Reached(c, s', ops[1..]), c.cooldown);
      } else {
        AnyReaches(c, s, ops[1..], o.failedAt, end);
      }
    }
  }

  /**
   In a continuous outage of length end - start, at most threshold + (end - start) / cooldown
   sequential operations pay a round trip, from any breaker state.
   */
  lemma OutageBound(c: Config, s: State, ops: seq<Op>, start: Time, end: Time)
    requires c.Valid() && InTurn(ops, start) && Before(ops, end) && start <= end
    ensures Reached(c, s, ops) <= c.threshold + (end - start) / c.cooldown
  {
    AnyReaches(c, s, ops, start, end);
    var k := Reached(c, s, ops) - c.threshold;
    if k > 0 {
      QuotientBound(k, c.cooldown, end - start);
    } else {
      QuotientBound(0, c.cooldown, end - start);
    }
  }

  // ---- The breaker as the code runs it ----

  class Breaker {
    const config: Config
    var failures: nat
    var openedAt: Time

    function Now(): State
      reads this
    {
      State(failures, openedAt)
    }

    constructor (config: Config)
      ensures this.config == config && failures == 0
    {
      this.config := config;
      failures, openedAt := 0, 0;
    }

    method Allow(since: Time, now: Time) returns (ok: bool)
      modifies this`openedAt
      ensures ok <==> old(failures) < config.threshold || since >= old(openedAt) + config.cooldown
      ensures failures == old(failures)
      ensures openedAt == if ok && old(failures) >= config.threshold then now else old(openedAt)
      ensures Now() == Next(config, old(Now()), Event.Allow(since, now))
    {
      if failures < config.threshold {
        return true;
      }
      if since - openedAt < config.cooldown {
        return false;
      }
      openedAt := now;
      return true;
    }

    method Success() returns (wasOpen: bool)
      modifies this`failures
      ensures wasOpen <==> Reports(config, old(Now()), Event.Success) == Some(false)
      ensures (wasOpen <==> old(failures) >= config.threshold) && failures == 0
      ensures Now() == Next(config, old(Now()), Event.Success)
    {
      wasOpen := failures >= config.threshold;
      failures := 0;
    }

    method Failure(now: Time) returns (nowOpen: bool)
      modifies this
      ensures nowOpen <==> Reports(config, old(Now()), Event.Failure(now)) == Some(true)
      ensures (nowOpen <==> failures == config.threshold) && failures == old(failures) + 1
      ensures openedAt == if failures >= config.threshold then now else old(openedAt)
      ensures Now() == Next(config, old(Now()), Event.Failure(now))
    {
      failures := failures + 1;
      if failures >= config.threshold {
        openedAt := now;
        return failures == config.threshold;
      }
      return false;
    }
  }

  // ---- Counters ----

  datatype OpOutcome = Succeeded | Degraded | ShortCircuited

  datatype OpCounters = OpCounters(attempts: nat, succeeded: nat, degraded: nat, shortCircuited: nat) {
    predicate Balanced() {
      attempts == succeeded + degraded + shortCircuited
    }
  }

  datatype Snapshot = Snapshot(
    ops: map<string, OpCounters>,
    latencyCount: nat, latencySum: nat, latencyMax: nat,
    breakerOpen: bool, openedCount: nat, recoveredCount: nat)

  const NO_COUNTERS := OpCounters(0, 0, 0, 0)

  function CountersFor(ops: map<string, OpCounters>, op: string): OpCounters {
    if op in ops then ops[op] else NO_COUNTERS
  }

  /** Attempts that paid a round trip, over all operation kinds. */
  ghost function RoundTrips(ops: map<string, OpCounters>): int
    decreases |ops|
  {
    if ops == map[] then 0 else
      var k :| k in ops;
      ops[k].succeeded + ops[k].degraded + RoundTrips(ops - {k})
  }

  lemma {:induction false} RoundTripsSplit(ops: map<string, OpCounters>, k: string)
    requires k in ops
    ensures RoundTrips(ops) == ops[k].succeeded + ops[k].degraded + RoundTrips(ops - {k})
    decreases |ops|
  {
    var j :| j in ops && RoundTrips(ops) == ops[j].succeeded + ops[j].degraded + RoundTrips(ops - {j});
    if j != k {
      RoundTripsSplit(ops - {j}, k);
      RoundTripsSplit(ops - {k}, j);
      assert ops - {j} - {k} == ops - {k} - {j};
    }
  }

  lemma RoundTripsPut(ops: map<string, OpCounters>, k: string, c: OpCounters)
    ensures var was := CountersFor(ops, k);
            RoundTrips(ops[k := c]) == RoundTrips(ops) - was.succeeded - was.degraded + c.succeeded + c.degraded
  {
    RoundTripsSplit(ops[k := c], k);
    assert ops[k := c] - {k} == ops - {k};
    if k in ops {
      RoundTripsSplit(ops, k);
    } else {
      assert ops - {k} == ops;
    }
  }

  /** Exactly one attempt of `op` was added, under its outcome. */
  ghost predicate Counted(ops: map<string, OpCounters>, ops': map<string, OpCounters>, op: string, outcome: OpOutcome) {
    var c, c' := CountersFor(ops, op), CountersFor(ops', op);
    && ops' == ops[op := c']
    && c'.attempts == c.attempts + 1
    && c'.succeeded == c.succeeded + (if outcome == Succeeded then 1 else 0)
    && c'.degraded == c.degraded + (if outcome == Degraded then 1 else 0)
    && c'.shortCircuited == c.shortCircuited + (if outcome == ShortCircuited then 1 else 0)
  }

  lemma CountedTrips(ops: map<string, OpCounters>, ops': map<string, OpCounters>, op: string, outcome: OpOutcome)
    requires Counted(ops, ops', op, outcome)
    ensures RoundTrips(ops') == RoundTrips(ops) + (if outcome == ShortCircuited then 0 else 1)
  {
    RoundTripsPut(ops, op, CountersFor(ops', op));
  }

  class SnapshotObserver {
    var snap: Snapshot

    /** Attempts add up per operation, and latency covers exactly the round trips. */
    ghost predicate Valid()
      reads this
    {
      && (forall op :: op in snap.ops ==> snap.ops[op].Balanced())
      && snap.latencyCount == RoundTrips(snap.ops)
      && snap.latencyMax <= snap.latencySum
      && snap.openedCount - snap.recoveredCount == (if snap.breakerOpen then 1 else 0)
    }

    constructor ()
      ensures Valid() && !snap.breakerOpen && snap.ops == map[]
    {
      snap := Snapshot(map[], 0, 0, 0, false, 0, 0);
    }

    method ObserveOp(op: string, latency: nat, outcome: OpOutcome)
      requires Valid()
      modifies this
      ensures Valid()
      ensures Counted(old(snap).ops, snap.ops, op, outcome)
      ensures snap.latencySum == old(snap).latencySum + (if outcome == ShortCircuited then 0 else latency)
      ensures snap.latencyMax == (if outcome == ShortCircuited || latency <= old(snap).latencyMax
                                  then old(snap).latencyMax else latency)
      ensures (snap.breakerOpen, snap.openedCount, snap.recoveredCount)
           == (old(snap).breakerOpen, old(snap).openedCount, old(snap).recoveredCount)
    {
      var c := CountersFor(snap.ops, op);
      c := c.(attempts := c.attempts + 1);
      match outcome {
        case Succeeded => c := c.(succeeded := c.succeeded + 1);
        case Degraded => c := c.(degraded := c.degraded + 1);
        case ShortCircuited => c := c.(shortCircuited := c.shortCircuited + 1);
      }
      RoundTripsPut(snap.ops, op, c);
      if outcome != ShortCircuited {
        snap := snap.(latencyCount := snap.latencyCount + 1, latencySum := snap.latencySum + latency);
        if latency > snap.latencyMax {
          snap := snap.(latencyMax := latency);
        }
      }
      snap := snap.(ops := snap.ops[op := c]);
    }

    /** Keeps the balance of openings and recoveries exactly when the breaker was closed. */
    method BreakerOpened()
      modifies this
      ensures snap == old(snap).(breakerOpen := true, openedCount := old(snap).openedCount + 1)
      ensures old(Valid()) ==> (Valid() <==> !old(snap).breakerOpen)
    {
      snap := snap.(breakerOpen := true, openedCount := snap.openedCount + 1);
    }

    method BreakerRecovered()
      modifies this
      ensures snap == old(snap).(breakerOpen := false, recoveredCount := old(snap).recoveredCount + 1)
      ensures old(Valid()) ==> (Valid() <==> old(snap).breakerOpen)
    {
      snap := snap.(breakerOpen := false, recoveredCount := snap.recoveredCount + 1);
    }

    /** A copy of the aggregated state, its map filled entry by entry. */
    method Stats() returns (out: Snapshot)
      ensures out == snap
    {
      var ops: map<string, OpCounters> := map[];
      var todo := snap.ops.Keys;
      while todo != {}
        invariant todo <= snap.ops.Keys
        invariant ops == map k | k in snap.ops && k !in todo :: snap.ops[k]
        decreases todo
      {
        var op :| op in todo;
        ops := ops[op := snap.ops[op]];
        todo := todo - {op};
      }
      assert ops == snap.ops;
      out := snap.(ops := ops);
    }
  }

  // ---- The store ----

  const OP_SET := "set"
  const OP_RELEASE := "release"
  const OP_EXISTS := "exists"

  /** What the clock and Redis say during one operation. */
  datatype Trip = Trip(since: Time, now: Time, endedAt: Time, redisOk: bool, latency: nat)

  lemma RunShort(c: Config, s: State, e: Event, f: Event)
    ensures Run(c, s, [e]) == Next(c, s, e)
    ensures Run(c, s, [e, f]) == Next(c, Next(c, s, e), f)
  {
    assert [e][..0] == [] && [e, f][..1] == [e];
    assert Run(c, s, []) == s;
  }

  class HoldStore {
    const enabled: bool
    const br: Breaker
    const obs: SnapshotObserver

    constructor (enabled: bool, br: Breaker, obs: SnapshotObserver)
      ensures this.enabled == enabled && this.br == br && this.obs == obs
    {
      this.enabled, this.br, this.obs := enabled, br, obs;
    }

    /** The observer follows the breaker across sequential operations. */
    ghost predicate Valid()
      reads this, br, obs
    {
      br.config.Valid() && obs.Valid() && (obs.snap.breakerOpen <==> Open(br.config, br.Now()))
    }

    /** Breaker events of one operation. */
    ghost function Events(s: State, t: Trip): seq<Event>
    {
      if !Admits(br.config, s, t.since) then [Allow(t.since, t.now)]
      else [Allow(t.since, t.now), if t.redisOk then Success else Failure(t.endedAt)]
    }

    /** The round trip failed; announces the opening once. */
    method Degraded(at: Time)
      requires br.config.Valid() && Valid()
      modifies br, obs
      ensures Valid() && br.Now() == Next(br.config, old(br.Now()), Failure(at))
      ensures obs.snap.ops == old(obs.snap).ops
    {
      var nowOpen := br.Failure(at);
      if nowOpen {
        obs.BreakerOpened();
      }
    }

    /** The round trip succeeded; announces the recovery once. */
    method Recovered()
      requires Valid()
      modifies br, obs
      ensures Valid() && br.Now() == Next(br.config, old(br.Now()), Success)
      ensures obs.snap.ops == old(obs.snap).ops
    {
      var wasOpen := br.Success();
      if wasOpen {
        obs.BreakerRecovered();
      }
    }

    /** How one operation is counted. */
    ghost function OutcomeOf(s: State, t: Trip): OpOutcome {
      if !Admits(br.config, s, t.since) then ShortCircuited
      else if t.redisOk then OpOutcome.Succeeded
      else OpOutcome.Degraded
    }

    /** The same in counts: refused, nothing changes; a good trip closes the breaker, a bad one adds a failure. */
    ghost predicate Trips(s: State, ops: map<string, OpCounters>, op: string, t: Trip, reached: bool)
      reads this, br, obs
    {
      if !reached then br.Now() == s && Counted(ops, obs.snap.ops, op, ShortCircuited)
      else if t.redisOk then br.failures == 0 && Counted(ops, obs.snap.ops, op, OpOutcome.Succeeded)
      else br.failures == s.failures + 1 && Counted(ops, obs.snap.ops, op, OpOutcome.Degraded)
    }

    /** From `s` and `ops`, one operation `op` took place: its breaker events, and one counted attempt. */
    ghost predicate Attempted(s: State, ops: map<string, OpCounters>, op: string, t: Trip)
      reads this, br, obs
    {
      && br.Now() == Run(br.config, s, Events(s, t))
      && Counted(ops, obs.snap.ops, op, OutcomeOf(s, t))
      && Trips(s, ops, op, t, s.failures < br.config.threshold || t.since >= s.openedAt + br.config.cooldown)
      && RoundTrips(obs.snap.ops) == RoundTrips(ops) + (if Admits(br.config, s, t.since) then 1 else 0)
    }

    /** Counts the attempt and keeps the breaker as it is. */
    method Observe(op: string, latency: nat, outcome: OpOutcome)
      requires Valid()
      modifies obs
      ensures Valid()
      ensures Counted(old(obs.snap).ops, obs.snap.ops, op, outcome)
    {
      obs.ObserveOp(op, latency, outcome);
    }

    /** The shape shared by Set, Release and Exists. */
    method Attempt(op: string, t: Trip) returns (reached: bool)
      requires Valid()
      modifies br, obs
      ensures Valid()
      ensures reached == Admits(br.config, old(br.Now()), t.since)
      ensures Attempted(old(br.Now()), old(obs.snap).ops, op, t)
    {
      RunShort(br.config, br.Now(), Allow(t.since, t.now), if t.redisOk then Success else Failure(t.endedAt));
      ghost var outcome := OutcomeOf(br.Now(), t);
      reached := br.Allow(t.since, t.now);
      if !reached {
        Observe(op, t.latency, ShortCircuited);
      } else if t.redisOk {
        Observe(op, t.latency, OpOutcome.Succeeded);
        Recovered();
      } else {
        Observe(op, t.latency, OpOutcome.Degraded);
        Degraded(t.endedAt);
      }
      CountedTrips(old(obs.snap).ops, obs.snap.ops, op, outcome);
    }

    /** Redis problems never surface: the caller learns nothing and loses nothing. */
    method Set(ttl: int, t: Trip)
      requires Valid()
      modifies br, obs
      ensures Valid()
      ensures !enabled || ttl <= 0 ==> br.Now() == old(br.Now()) && obs.snap == old(obs.snap)
      ensures enabled && ttl > 0 ==> Attempted(old(br.Now()), old(obs.snap).ops, "set", t)
    {
      if !enabled || ttl <= 0 {
        return;
      }
      var _ := Attempt(OP_SET, t);
    }

    method Release(t: Trip)
      requires Valid()
      modifies br, obs
      ensures Valid()
      ensures !enabled ==> br.Now() == old(br.Now()) && obs.snap == old(obs.snap)
      ensures enabled ==> Attempted(old(br.Now()), old(obs.snap).ops, "release", t)
    {
      if !enabled {
        return;
      }
      var _ := Attempt(OP_RELEASE, t);
    }

    /** A hint: true only when Redis was reached, answered, and knows the key. */
    method Exists(known: bool, t: Trip) returns (hint: bool)
      requires Valid()
      modifies br, obs
      ensures Valid()
      ensures hint <==>
                && enabled && t.redisOk && known
                && (old(br.failures) < br.config.threshold || t.since >= old(br.openedAt) + br.config.cooldown)
      ensures !enabled ==> br.Now() == old(br.Now()) && obs.snap == old(obs.snap)
      ensures enabled ==> Attempted(old(br.Now()), old(obs.snap).ops, "exists", t)
    {
      if !enabled {
        return false;
      }
      var reached := Attempt(OP_EXISTS, t);
      return reached && t.redisOk && known;
    }
  }
}
