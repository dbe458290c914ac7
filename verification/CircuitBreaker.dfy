/** router/circuit_breaker.py: the per-worker breaker, and the history predicate it implements. */
module CircuitBreakers {

  datatype Url = Url(text: string)

  datatype CircuitState = CLOSED | OPEN | HALF_OPEN

  /** What a breaker is told or asked, at the reading of the monotonic clock. */
  datatype Event = Success | Failure(at: real) | Query(at: real)

  datatype Settings = Settings(threshold: int, timeout: real)

  datatype BreakerState = BreakerState(state: CircuitState, failureCount: nat, lastFailureTime: real)

  const FRESH := BreakerState(CLOSED, 0, 0.0)

  // ---- The machine, one event at a time ----

  function AfterQuery(b: BreakerState, c: Settings, now: real): BreakerState {
    if b.state.OPEN? && now - b.lastFailureTime >= c.timeout then b.(state := HALF_OPEN) else b
  }

  predicate Refuses(b: BreakerState, c: Settings, now: real) {
    b.state.OPEN? && now - b.lastFailureTime < c.timeout
  }

  function AfterFailure(b: BreakerState, c: Settings, now: real): BreakerState {
    BreakerState(if b.failureCount + 1 >= c.threshold then OPEN else b.state, b.failureCount + 1, now)
  }

  function Step(b: BreakerState, c: Settings, e: Event): BreakerState {
    match e
    case Success => b.(state := CLOSED, failureCount := 0)
    case Failure(at) => AfterFailure(b, c, at)
    case Query(at) => AfterQuery(b, c, at)
  }

  function Run(h: seq<Event>, c: Settings): BreakerState {
    if h == [] then FRESH else Step(Run(h[..|h| - 1], c), c, h[|h| - 1])
  }

  // ---- The stateless predicate ----

  /** Failures after the last success. */
  function RecentFailures(h: seq<Event>): nat {
    if h == [] then 0
    else
      match h[|h| - 1]
      case Success => 0
      case Failure(_) => RecentFailures(h[..|h| - 1]) + 1
      case Query(_) => RecentFailures(h[..|h| - 1])
  }

  function LastFailure(h: seq<Event>): real {
    if h == [] then 0.0
    else if h[|h| - 1].Failure? then h[|h| - 1].at
    else LastFailure(h[..|h| - 1])
  }

  /** What a breaker has been told, as far as any later answer depends on it. */
  datatype Told = Told(failures: nat, last: real)

  function ToldBy(h: seq<Event>): Told {
    Told(RecentFailures(h), LastFailure(h))
  }

  function Tell(t: Told, e: Event): Told {
    match e
    case Success => t.(failures := 0)
    case Failure(at) => Told(t.failures + 1, at)
    case Query(_) => t
  }

  predicate Blocks(t: Told, c: Settings, now: real) {
    t.failures >= c.threshold && now < t.last + c.timeout
  }

  predicate ShouldBlock(h: seq<Event>, c: Settings, now: real) {
    Blocks(ToldBy(h), c, now)
  }

  /** The latest clock reading in the history. */
  function Clock(h: seq<Event>): real {
    if h == [] then 0.0
    else if h[|h| - 1].Success? then Clock(h[..|h| - 1])
    else h[|h| - 1].at
  }

  ghost predicate NonDecreasing(h: seq<Event>) {
    h == [] ||
    (NonDecreasing(h[..|h| - 1]) && (h[|h| - 1].Success? || Clock(h[..|h| - 1]) <= h[|h| - 1].at))
  }

  /** How the machine's state stands for what it was told, when the clock has shown `clock`. */
  ghost predicate Summarizes(b: BreakerState, t: Told, c: Settings, clock: real) {
    && b.failureCount == t.failures
    && b.lastFailureTime == t.last
    && (b.state.CLOSED? <==> t.failures < c.threshold)
    && (b.state.HALF_OPEN? ==> clock >= t.last + c.timeout)
  }

  lemma StepSummarizes(b: BreakerState, t: Told, c: Settings, clock: real, e: Event)
    requires c.threshold >= 1 && Summarizes(b, t, c, clock)
    requires !e.Success? ==> clock <= e.at
    ensures Summarizes(Step(b, c, e), Tell(t, e), c, if e.Success? then clock else e.at)
  {
  }

  /** The state is a summary of the history: the counter and time are exact, the breaker is closed
      just when the failures are below the threshold, and half-open only once the timeout is over. */
  lemma {:induction false} RunSummarizes(h: seq<Event>, c: Settings)
    requires c.threshold >= 1 && NonDecreasing(h)
    ensures Summarizes(Run(h, c), ToldBy(h), c, Clock(h))
  {
    if h != [] {
      RunSummarizes(h[..|h| - 1], c);
      assert ToldBy(h) == Tell(ToldBy(h[..|h| - 1]), h[|h| - 1]);
      StepSummarizes(Run(h[..|h| - 1], c), ToldBy(h[..|h| - 1]), c, Clock(h[..|h| - 1]), h[|h| - 1]);
    }
  }

  /** Over any run the breaker refuses a request exactly when the failures since the last success
      number at least the threshold and the timeout since the last failure is not over. */
  lemma BreakerRefinesHistory(h: seq<Event>, c: Settings, now: real)
    requires c.threshold >= 1 && NonDecreasing(h) && Clock(h) <= now
    ensures Refuses(Run(h, c), c, now) == ShouldBlock(h, c, now)
  {
    RunSummarizes(h, c);
  }

  /** The event at `i` is a failure that no success follows. */
  ghost predicate Standing(h: seq<Event>, i: nat) {
    i < |h| && h[i].Failure? && forall j :: i < j < |h| ==> !h[j].Success?
  }

  ghost function FailuresSinceSuccess(h: seq<Event>): set<nat> {
    set i: nat | i < |h| && Standing(h, i)
  }

  lemma StandingSnoc(h: seq<Event>, i: nat)
    requires h != []
    ensures var n := |h| - 1;
      Standing(h, i) <==> (i == n && h[n].Failure?) || (i < n && Standing(h[..n], i) && !h[n].Success?)
  {
    var n := |h| - 1;
    if i < n && Standing(h, i) {
      assert h[..n][i] == h[i] && !h[n].Success?;
    }
  }

  lemma {:induction false} RecentFailuresCount(h: seq<Event>)
    ensures RecentFailures(h) == |FailuresSinceSuccess(h)|
  {
    if h == [] {
      assert FailuresSinceSuccess(h) == {};
    } else {
      var n := |h| - 1;
      var before, since := FailuresSinceSuccess(h[..n]), FailuresSinceSuccess(h);
      RecentFailuresCount(h[..n]);
      forall i: nat
        ensures i in since <==> (i == n && h[n].Failure?) || (i in before && !h[n].Success?)
      {
        StandingSnoc(h, i);
      }
      match h[n]
      case Success => assert since == {};
      case Failure(_) => assert since == before + {n};
      case Query(_) => assert since == before;
    }
  }

  lemma {:induction false} LastFailureIs(h: seq<Event>, k: nat)
    requires k < |h| && h[k].Failure? && forall j :: k < j < |h| ==> !h[j].Failure?
    ensures LastFailure(h) == h[k].at
  {
    if k < |h| - 1 {
      LastFailureIs(h[..|h| - 1], k);
    }
  }

  lemma {:induction false} LastFailureExists(h: seq<Event>) returns (k: nat)
    requires RecentFailures(h) > 0
    ensures k < |h| && h[k].Failure? && forall j :: k < j < |h| ==> !h[j].Failure?
  {
    if h[|h| - 1].Failure? {
      k := |h| - 1;
    } else {
      k := LastFailureExists(h[..|h| - 1]);
    }
  }

  /** The same on the history alone: a request is refused if and only if the failures that no success
      follows number at least the threshold and less than the timeout has passed since the last failure. */
  lemma RefusesIff(h: seq<Event>, c: Settings, now: real)
    requires c.threshold >= 1 && NonDecreasing(h) && Clock(h) <= now
    ensures Refuses(Run(h, c), c, now) <==>
      && |FailuresSinceSuccess(h)| >= c.threshold
      && exists k :: 0 <= k < |h| && h[k].Failure? && (forall j :: k < j < |h| ==> !h[j].Failure?)
           && now - h[k].at < c.timeout
  {
    BreakerRefinesHistory(h, c, now);
    RecentFailuresCount(h);
    if RecentFailures(h) >= c.threshold {
      var k := LastFailureExists(h);
      LastFailureIs(h, k);
      forall i | 0 <= i < |h| && h[i].Failure? && (forall j :: i < j < |h| ==> !h[j].Failure?)
        ensures i == k
      {
      }
    }
  }

  function WithoutQueries(h: seq<Event>): seq<Event> {
    if h == [] then []
    else if h[|h| - 1].Query? then WithoutQueries(h[..|h| - 1])
    else WithoutQueries(h[..|h| - 1]) + [h[|h| - 1]]
  }

  lemma {:induction false} QueriesLeaveNoTrace(h: seq<Event>)
    requires NonDecreasing(h)
    ensures var q := WithoutQueries(h);
      && NonDecreasing(q) && Clock(q) <= Clock(h)
      && RecentFailures(q) == RecentFailures(h) && LastFailure(q) == LastFailure(h)
  {
    if h != [] {
      var front, last := h[..|h| - 1], h[|h| - 1];
      QueriesLeaveNoTrace(front);
      if !last.Query? {
        var q := WithoutQueries(front);
        assert (q + [last])[..|q|] == q;
      }
    }
  }

  /** Although a query can change the breaker's state, no set of queries changes a later answer. */
  lemma QueriesNeverMatter(h: seq<Event>, c: Settings, now: real)
    requires c.threshold >= 1 && NonDecreasing(h) && Clock(h) <= now
    ensures Refuses(Run(h, c), c, now) == Refuses(Run(WithoutQueries(h), c), c, now)
  {
    QueriesLeaveNoTrace(h);
    BreakerRefinesHistory(h, c, now);
    BreakerRefinesHistory(WithoutQueries(h), c, now);
  }

  /** HALF_OPEN admits every request, not a single trial: once one query is answered after the
      timeout, any number of further queries are let through until an outcome is recorded. */
  lemma {:induction false} HalfOpenAdmitsAll(h: seq<Event>, trials: seq<Event>, c: Settings, now: real)
    requires Run(h, c).state.HALF_OPEN? && forall e :: e in trials ==> e.Query?
    ensures !Refuses(Run(h + trials, c), c, now) && Run(h + trials, c).state.HALF_OPEN?
  {
    if trials == [] {
      assert h + trials == h;
    } else {
      var n := |trials| - 1;
      assert (h + trials)[..|h + trials| - 1] == h + trials[..n];
      assert (h + trials)[|h + trials| - 1] == trials[n] && trials[n] in trials;
      HalfOpenAdmitsAll(h, trials[..n], c, now);
    }
  }

  /** One failure with a threshold of 1, and a query after the timeout: the next `n` requests are all
      admitted. */
  lemma HalfOpenReached(n: nat, now: real)
    ensures var h, c := [Failure(0.0), Query(30.0)], Settings(1, 30.0);
      Run(h, c).state.HALF_OPEN? && !Refuses(Run(h + seq(n, i => Query(now)), c), c, now)
  {
    var h, c := [Failure(0.0), Query(30.0)], Settings(1, 30.0);
    assert h[..1] == [Failure(0.0)] && h[..1][..0] == [];
    assert Run(h[..1], c).state.OPEN?;
    HalfOpenAdmitsAll(h, seq(n, i => Query(now)), c, now);
  }

  /** The machine agrees with the predicate at every time of every run. */
  ghost predicate Agrees(c: Settings) {
    forall h, now {:trigger ShouldBlock(h, c, now)} :: NonDecreasing(h) && Clock(h) <= now ==>
      Refuses(Run(h, c), c, now) == ShouldBlock(h, c, now)
  }

  lemma {:induction false} LastFailurePassed(h: seq<Event>, c: Settings)
    requires NonDecreasing(h)
    ensures Run(h, c).lastFailureTime == ToldBy(h).last <= Clock(h)
  {
    if h != [] {
      LastFailurePassed(h[..|h| - 1], c);
    }
  }

  /** The threshold must be at least 1: with a lower one, a breaker that has seen no failure should block
      during its first timeout but does not, unless there is no timeout to speak of. */
  lemma AgreesIff(c: Settings)
    ensures Agrees(c) <==> c.threshold >= 1 || c.timeout <= 0.0
  {
    if c.threshold < 1 && c.timeout > 0.0 {
      assert ShouldBlock([], c, 0.0) && !Refuses(Run([], c), c, 0.0);
    } else {
      forall h, now | NonDecreasing(h) && Clock(h) <= now
        ensures Refuses(Run(h, c), c, now) == ShouldBlock(h, c, now)
      {
        LastFailurePassed(h, c);
        if c.threshold >= 1 {
          BreakerRefinesHistory(h, c, now);
        }
      }
    }
  }

  class CircuitBreaker {
    const workerUrl: Url
    const settings: Settings
    var state: CircuitState
    var failureCount: nat
    var lastFailureTime: real
    ghost var told: Told
    ghost var clock: real  // the latest clock reading it has seen

    function Machine(): BreakerState
      reads this
    {
      BreakerState(state, failureCount, lastFailureTime)
    }

    ghost predicate Valid()
      reads this
    {
      settings.threshold >= 1 ==> Summarizes(Machine(), told, settings, clock)
    }

    constructor (url: Url, settings: Settings)
      ensures Valid() && Machine() == FRESH && told == ToldBy([]) && clock == 0.0
      ensures this.workerUrl == url && this.settings == settings
    {
      workerUrl := url;
      this.settings := settings;
      state, failureCount, lastFailureTime := CLOSED, 0, 0.0;
      told, clock := Told(0, 0.0), 0.0;
    }

    method IsOpen(now: real) returns (open: bool)
      requires Valid() && clock <= now
      modifies this`state, this`clock
      ensures Valid() && clock == now
      ensures Machine() == Step(old(Machine()), settings, Query(now))
      ensures open == Refuses(old(Machine()), settings, now)
      ensures settings.threshold >= 1 ==> open == Blocks(told, settings, now)
    {
      clock := now;
      if state == OPEN {
        if now - lastFailureTime >= settings.timeout {
          state := HALF_OPEN;
          return false;
        }
        return true;
      }
      return false;
    }

    method RecordSuccess()
      requires Valid()
      modifies this`state, this`failureCount, this`told
      ensures Valid() && told == Tell(old(told), Success)
      ensures Machine() == Step(old(Machine()), settings, Success)
    {
      told := Tell(told, Success);
      state := CLOSED;
      failureCount := 0;
    }

    method RecordFailure(now: real)
      requires Valid() && clock <= now
      modifies this`state, this`failureCount, this`lastFailureTime, this`told, this`clock
      ensures Valid() && told == Tell(old(told), Failure(now)) && clock == now
      ensures Machine() == Step(old(Machine()), settings, Failure(now))
    {
      told, clock := Tell(told, Failure(now)), now;
      failureCount := failureCount + 1;
      lastFailureTime := now;
      if failureCount >= settings.threshold {
        state := OPEN;
      }
    }
  }
}
