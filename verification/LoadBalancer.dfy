/** router/load_balancer.py and the counters of workers/ollama_client.py. */
module LoadBalancing {
  import opened Seqs
  import opened CircuitBreakers

  /** `WorkerStats`; `isHealthy` is set by health checks, the rest by calls. */
  datatype WorkerStats = WorkerStats(
    activeRequests: nat, totalRequests: nat, totalLatency: real, failures: nat, isHealthy: bool)
  {
    /** The mean over the answered requests, 0 before the first. */
    function AvgLatency(): (mean: real)
      ensures mean * totalRequests as real == if totalRequests == 0 then 0.0 else totalLatency
      ensures totalRequests == 0 ==> mean == 0.0
    {
      if totalRequests == 0 then 0.0 else totalLatency / totalRequests as real
    }
  }

  const NEW_STATS := WorkerStats(0, 0, 0.0, 0, true)

  /** How a call ends: with an answer, with an exception before the answer is counted or after it, or
      cancelled. */
  datatype CallEnd = Answered(latency: real) | Failed | Malformed(latency: real) | Cancelled

  class OllamaClient {
    const url: Url
    const maxContextTokens: int
    var stats: WorkerStats
    ghost var inFlight: set<nat>  // the calls that have started and not finished

    /** The active count is exactly the number of calls in flight. */
    ghost predicate Valid()
      reads this
    {
      stats.activeRequests == |inFlight|
    }

    constructor (url: Url, maxContextTokens: int)
      ensures Valid() && this.url == url && this.maxContextTokens == maxContextTokens
      ensures stats == NEW_STATS && inFlight == {}
    {
      this.url, this.maxContextTokens, stats, inFlight := url, maxContextTokens, NEW_STATS, {};
    }

    /** `generate` or `chat` up to its await. */
    method BeginCall(ghost call: nat)
      requires Valid() && call !in inFlight
      modifies this
      ensures Valid() && inFlight == old(inFlight) + {call}
      ensures stats == old(stats).(activeRequests := old(stats).activeRequests + 1)
    {
      stats := stats.(activeRequests := stats.activeRequests + 1);
      inFlight := inFlight + {call};
    }

    /** The rest of the call. However it ends, it leaves the active count; an answer resets the failures
        and is counted with its latency, an exception is one more failure, and a cancellation is neither. */
    method EndCall(ghost call: nat, end: CallEnd)
      requires Valid() && call in inFlight
      modifies this
      ensures Valid() && inFlight == old(inFlight) - {call}
      ensures stats.isHealthy == old(stats).isHealthy
      ensures end.Answered? || end.Malformed? ==>
        && stats.totalRequests == old(stats).totalRequests + 1
        && stats.totalLatency == old(stats).totalLatency + end.latency
        && stats.failures == if end.Malformed? then 1 else 0
      ensures end.Failed? || end.Cancelled? ==>
        && stats.totalRequests == old(stats).totalRequests && stats.totalLatency == old(stats).totalLatency
        && stats.failures == old(stats).failures + if end.Failed? then 1 else 0
    {
      if end.Answered? || end.Malformed? {
        stats := stats.(totalRequests := stats.totalRequests + 1, totalLatency := stats.totalLatency + end.latency,
          failures := 0);
      }
      if end.Failed? || end.Malformed? {
        stats := stats.(failures := stats.failures + 1);
      }
      assert |inFlight| > 0;
      stats := stats.(activeRequests := stats.activeRequests - 1);
      inFlight := inFlight - {call};
    }
  }

  // ---- Choosing a worker ----

  /** A registered worker as a pick sees it. */
  datatype Worker = Worker(url: Url, maxContextTokens: int, stats: WorkerStats)

  datatype Strategy = RoundRobin | LeastLatency | QueueDepth | Default

  datatype PickError = NoCapacity(tokens: int) | NoWorkers

  /** Position of the first smallest key, as Python's `min` finds it. */
  function FirstMin(keys: seq<real>): (k: nat)
    requires keys != []
    ensures k < |keys|
    ensures forall j :: 0 <= j < |keys| ==> keys[k] <= keys[j]
    ensures forall j :: 0 <= j < k ==> keys[k] < keys[j]
  {
    if |keys| == 1 then 0
    else
      var m := FirstMin(keys[..|keys| - 1]);
      if keys[|keys| - 1] < keys[m] then |keys| - 1 else m
  }

  function LatencyOf(): Worker -> real { (w: Worker) => w.stats.AvgLatency() }

  function LoadOf(): Worker -> real { (w: Worker) => w.stats.activeRequests as real }

  /** The position among the available workers that a strategy takes. */
  function Choice(available: seq<Worker>, strategy: Strategy, rr: nat): (k: nat)
    requires available != []
    ensures k < |available|
  {
    match strategy
    case RoundRobin => rr % |available|
    case LeastLatency => FirstMin(Map(available, LatencyOf()))
    case QueueDepth => FirstMin(Map(available, LoadOf()))
    case Default => 0
  }

  /** Each breaker's state fits what it was told. */
  ghost predicate BreakersFit(breakers: map<Url, BreakerState>, told: map<Url, Told>, c: Settings, latest: real) {
    forall u :: u in breakers && u in told ==> Summarizes(breakers[u], told[u], c, latest)
  }

  /** The URLs whose breakers refuse at `now`. */
  function Refusing(breakers: map<Url, BreakerState>, c: Settings, now: real): set<Url> {
    set u | u in breakers && Refuses(breakers[u], c, now)
  }

  /** The URLs that should be refused at `now`, by what their breakers were told, not by what they were
      asked. */
  function BlockedBy(told: map<Url, Told>, c: Settings, now: real): set<Url> {
    set u | u in told && Blocks(told[u], c, now)
  }

  lemma RefusingIsBlocked(breakers: map<Url, BreakerState>, told: map<Url, Told>, c: Settings, latest: real, now: real)
    requires c.threshold >= 1 && breakers.Keys == told.Keys && BreakersFit(breakers, told, c, latest) && latest <= now
    ensures Refusing(breakers, c, now) == BlockedBy(told, c, now)
  {
  }

  /** From `now` on, both tables refuse the same URLs. */
  ghost predicate SameAnswers(a: map<Url, BreakerState>, b: map<Url, BreakerState>, c: Settings, now: real) {
    && a.Keys == b.Keys
    && forall t: real {:trigger Refusing(a, c, t)} :: t >= now ==> Refusing(a, c, t) == Refusing(b, c, t)
  }

  /** A question changes no later answer. */
  lemma AskedAnswersSame(a: map<Url, BreakerState>, c: Settings, url: Url, now: real)
    requires url in a
    ensures SameAnswers(a, a[url := AfterQuery(a[url], c, now)], c, now)
  {
  }

  predicate HasRoom(w: Worker, contextTokens: Option<int>) {
    contextTokens.None? || w.maxContextTokens >= contextTokens.value
  }

  /** Whether a request of this size may go to the worker. */
  function Eligible(blocked: set<Url>, contextTokens: Option<int>): Worker -> bool {
    (w: Worker) => w.stats.isHealthy && w.url !in blocked && HasRoom(w, contextTokens)
  }

  lemma EligibleOnes(ws: seq<Worker>, blocked: set<Url>, contextTokens: Option<int>)
    ensures forall w :: w in Filter(ws, Eligible(blocked, contextTokens)) <==>
      && w in ws && w.stats.isHealthy && w.url !in blocked
      && (contextTokens.Some? ==> contextTokens.value <= w.maxContextTokens)
  {
    FilterMembers(ws, Eligible(blocked, contextTokens));
  }

  function UrlOf(): Worker -> Url { (w: Worker) => w.url }

  function UrlIsNot(url: Url): Worker -> bool { (w: Worker) => w.url != url }

  function UrlsOf(ws: seq<Worker>): seq<Url> {
    Map(ws, UrlOf())
  }

  lemma {:induction false} UrlsAppend(a: seq<Worker>, b: seq<Worker>)
    ensures UrlsOf(a + b) == UrlsOf(a) + UrlsOf(b)
  {
    assert forall i :: 0 <= i < |a + b| ==> UrlsOf(a + b)[i] == (UrlsOf(a) + UrlsOf(b))[i];
  }

  lemma FilterSnoc(ws: seq<Worker>, i: nat, p: Worker -> bool)
    requires i < |ws|
    ensures Filter(ws[..i + 1], p) == Filter(ws[..i], p) + if p(ws[i]) then [ws[i]] else []
  {
    assert ws[..i + 1] == ws[..i] + [ws[i]];
    FilterAppend(ws[..i], [ws[i]], p);
  }

  /** Removing a URL takes out that URL and nothing else. */
  lemma {:induction false} RemovedUrls(ws: seq<Worker>, url: Url)
    ensures var kept := Filter(ws, UrlIsNot(url));
      && (forall u :: u in UrlsOf(kept) <==> u in UrlsOf(ws) && u != url)
      && |kept| <= |ws|
      && (|kept| < |ws| <==> url in UrlsOf(ws))
  {
    if ws != [] {
      RemovedUrls(ws[1..], url);
      var head, rest := ws[0], Filter(ws[1..], UrlIsNot(url));
      assert ws == [head] + ws[1..];
      UrlsAppend([head], ws[1..]);
      UrlsAppend([head], rest);
      assert UrlsOf([head]) == [head.url];
      assert UrlsOf(ws) == [head.url] + UrlsOf(ws[1..]);
      assert Filter(ws, UrlIsNot(url)) == if head.url != url then [head] + rest else rest;
    }
  }

  /** A pick's result: the chosen worker, or an error that blames capacity only when some worker is
      available to a request of no size. */
  function Pick(ws: seq<Worker>, blocked: set<Url>, contextTokens: Option<int>, strategy: Strategy, rr: nat)
    : Result<Worker, PickError>
  {
    var available := Filter(ws, Eligible(blocked, contextTokens));
    if available != [] then Ok(available[Choice(available, strategy, rr)])
    else if contextTokens.Some? && Filter(ws, Eligible(blocked, None)) != [] then
      Err(NoCapacity(contextTokens.value))
    else Err(NoWorkers)
  }

  /** A picked worker is registered, healthy, not blocked and large enough; a refusal means that no
      registered worker is all three, and blames the capacity if and only if one is healthy and not
      blocked. */
  ghost predicate RightAnswer(
    r: Result<Worker, PickError>, ws: seq<Worker>, blocked: set<Url>, contextTokens: Option<int>)
  {
    match r
    case Ok(w) =>
      && w in ws && w.stats.isHealthy && w.url !in blocked
      && (contextTokens.Some? ==> contextTokens.value <= w.maxContextTokens)
    case Err(NoCapacity(tokens)) =>
      && contextTokens == Some(tokens)
      && (exists w :: w in ws && w.stats.isHealthy && w.url !in blocked)
      && forall w :: w in ws && w.stats.isHealthy && w.url !in blocked ==> tokens > w.maxContextTokens
    case Err(NoWorkers) =>
      forall w :: w in ws && w.stats.isHealthy ==> w.url in blocked
  }

  lemma PickSound(ws: seq<Worker>, blocked: set<Url>, contextTokens: Option<int>, strategy: Strategy, rr: nat)
    ensures RightAnswer(Pick(ws, blocked, contextTokens, strategy, rr), ws, blocked, contextTokens)
  {
    var p, q := Eligible(blocked, contextTokens), Eligible(blocked, None);
    var available, anyone := Filter(ws, p), Filter(ws, q);
    FilterMembers(ws, p);
    FilterMembers(ws, q);
    if available != [] {
      assert available[Choice(available, strategy, rr)] in available;
    } else {
      assert anyone != [] ==> anyone[0] in anyone;
      assert forall w :: w in ws && w.stats.isHealthy && w.url !in blocked ==> w in anyone;
      assert forall w :: w in ws ==> w !in available;
    }
  }

  /** Which of the available workers a strategy prefers: each in turn, the first of those with the lowest
      mean latency, the first of those with the fewest active requests, or the first. */
  ghost predicate Preferred(available: seq<Worker>, strategy: Strategy, rr: nat, k: nat)
    requires k < |available|
  {
    var w := available[k].stats;
    match strategy
    case RoundRobin => k == rr % |available|
    case LeastLatency =>
      && (forall j :: 0 <= j < |available| ==> w.AvgLatency() <= available[j].stats.AvgLatency())
      && (forall j :: 0 <= j < k ==> w.AvgLatency() < available[j].stats.AvgLatency())
    case QueueDepth =>
      && (forall j :: 0 <= j < |available| ==> w.activeRequests <= available[j].stats.activeRequests)
      && (forall j :: 0 <= j < k ==> w.activeRequests < available[j].stats.activeRequests)
    case Default => k == 0
  }

  lemma ChoicePreferred(available: seq<Worker>, strategy: Strategy, rr: nat)
    requires available != []
    ensures Preferred(available, strategy, rr, Choice(available, strategy, rr))
  {
  }

  /** A pick takes the strategy's preference among the healthy, unblocked and large enough workers. */
  lemma PickByStrategy(ws: seq<Worker>, blocked: set<Url>, contextTokens: Option<int>, strategy: Strategy, rr: nat,
                       p: Worker -> bool)
    requires forall w :: w in ws ==> (p(w) <==>
      w.stats.isHealthy && w.url !in blocked && (contextTokens.Some? ==> contextTokens.value <= w.maxContextTokens))
    ensures var available := Filter(ws, p);
      available != [] ==> exists k {:trigger Preferred(available, strategy, rr, k)} ::
        && 0 <= k < |available| && Preferred(available, strategy, rr, k)
        && Pick(ws, blocked, contextTokens, strategy, rr) == Ok(available[k])
  {
    FilterAgree(ws, p, Eligible(blocked, contextTokens));
    var available := Filter(ws, p);
    if available != [] {
      ChoicePreferred(available, strategy, rr);
    }
  }

  /** Workers, breakers, strategy and index as a pick may find them. */
  datatype Fleet = Fleet(workers: seq<Worker>, blocked: set<Url>, strategy: Strategy, rr: nat)

  function Chosen(f: Fleet, contextTokens: Option<int>): Result<Worker, PickError> {
    Pick(f.workers, f.blocked, contextTokens, f.strategy, f.rr)
  }

  /** No worker of the fleet holds more than `capacity`. */
  ghost predicate HoldsAtMost(f: Fleet, capacity: int) {
    forall w :: w in f.workers ==> w.maxContextTokens <= capacity
  }

  /** The fleet of one healthy worker with the given room. */
  function Single(url: Url, room: int): Fleet {
    Fleet([Worker(url, room, NEW_STATS)], {}, Default, 0)
  }

  lemma SingleTakes(url: Url, room: int, contextTokens: Option<int>)
    ensures Chosen(Single(url, room), contextTokens).Ok? <==> contextTokens.None? || contextTokens.value <= room
  {
    var f := Single(url, room);
    PickSound(f.workers, f.blocked, contextTokens, f.strategy, f.rr);
    assert f.workers[0] in f.workers;
  }

  class LoadBalancer {
    var workers: seq<Worker>
    var breakers: map<Url, BreakerState>
    var rrIndex: nat
    const settings: Settings
    const capacity: int  // context tokens a newly registered worker accepts
    ghost var told: map<Url, Told>  // what each breaker has been told
    ghost var latest: real  // the latest clock reading any breaker has seen

    /** One breaker per registered URL and none besides, each in the state that what it was told
        calls for. */
    ghost predicate Valid()
      reads this
    {
      && latest >= 0.0
      && (forall u :: u in breakers <==> u in UrlsOf(workers))
      && breakers.Keys == told.Keys
      && (settings.threshold >= 1 ==> BreakersFit(breakers, told, settings, latest))
    }

    constructor (urls: seq<Url>, settings: Settings, capacity: int)
      ensures Valid() && UrlsOf(workers) == urls && rrIndex == 0 && latest == 0.0
      ensures forall w :: w in workers ==> w == Worker(w.url, capacity, NEW_STATS)
      ensures this.settings == settings && this.capacity == capacity
    {
      workers, breakers, rrIndex, told, latest := [], map[], 0, map[], 0.0;
      this.settings, this.capacity := settings, capacity;
      new;
      var i := 0;
      while i < |urls|
        invariant 0 <= i <= |urls|
        invariant Valid() && UrlsOf(workers) == urls[..i] && rrIndex == 0 && latest == 0.0
        invariant forall w :: w in workers ==> w == Worker(w.url, capacity, NEW_STATS)
      {
        Register(urls[i]);
        assert urls[..i + 1] == urls[..i] + [urls[i]];
        i := i + 1;
      }
      assert urls[..i] == urls;
    }

    /** A new client and a new breaker for `url`; an earlier breaker for the same URL is replaced. */
    method Register(url: Url)
      requires Valid()
      modifies this`workers, this`breakers, this`told
      ensures Valid() && UrlsOf(workers) == UrlsOf(old(workers)) + [url]
      ensures workers == old(workers) + [Worker(url, capacity, NEW_STATS)]
      ensures breakers == old(breakers)[url := FRESH] && told == old(told)[url := Told(0, 0.0)]
    {
      UrlsAppend(workers, [Worker(url, capacity, NEW_STATS)]);
      workers := workers + [Worker(url, capacity, NEW_STATS)];
      breakers := breakers[url := FRESH];
      told := told[url := Told(0, 0.0)];
    }

    /** `is_open` on one breaker of the table, which may move it to HALF_OPEN. */
    method AskBreaker(url: Url, now: real) returns (open: bool)
      requires Valid() && latest <= now && url in breakers
      modifies this`breakers, this`latest
      ensures Valid() && latest == now
      ensures breakers == old(breakers)[url := Step(old(breakers)[url], settings, Query(now))]
      ensures open == (url in Refusing(old(breakers), settings, now))
      ensures SameAnswers(old(breakers), breakers, settings, now)
    {
      AskedAnswersSame(breakers, settings, url, now);
      var b := breakers[url];
      open := Refuses(b, settings, now);
      breakers := breakers[url := AfterQuery(b, settings, now)];
      latest := now;
    }

    /** Asking changes breakers, but nothing that a later question depends on. */
    method AvailableWorkers(now: real, contextTokens: Option<int>) returns (available: seq<Worker>)
      requires Valid() && latest <= now
      modifies this`breakers, this`latest
      ensures Valid() && latest <= now
      ensures available == Filter(workers, Eligible(Refusing(old(breakers), settings, now), contextTokens))
      ensures forall w :: w in available <==>
        && w in workers && w.stats.isHealthy && w.url !in Refusing(old(breakers), settings, now)
        && (contextTokens.Some? ==> contextTokens.value <= w.maxContextTokens)
      ensures SameAnswers(old(breakers), breakers, settings, now)
    {
      ghost var refusing := Refusing(breakers, settings, now);
      available := [];
      var i := 0;
      while i < |workers|
        invariant 0 <= i <= |workers|
        invariant Valid() && latest <= now
        invariant SameAnswers(old(breakers), breakers, settings, now)
        invariant Refusing(breakers, settings, now) == refusing
        invariant available == Filter(workers[..i], Eligible(refusing, contextTokens))
      {
        var w := workers[i];
        FilterSnoc(workers, i, Eligible(refusing, contextTokens));
        if w.stats.isHealthy {
          assert UrlsOf(workers)[i] == w.url;
          var open := AskBreaker(w.url, now);
          if !open && HasRoom(w, contextTokens) {
            available := available + [w];
          }
        }
        i := i + 1;
      }
      assert workers[..i] == workers;
      EligibleOnes(workers, refusing, contextTokens);
    }

    method PickWorker(now: real, contextTokens: Option<int>, strategy: Strategy) returns (r: Result<Worker, PickError>)
      requires Valid() && latest <= now
      modifies this`breakers, this`rrIndex, this`latest
      ensures Valid() && latest <= now
      ensures r == Pick(workers, Refusing(old(breakers), settings, now), contextTokens, strategy, old(rrIndex))
      ensures RightAnswer(r, workers, Refusing(old(breakers), settings, now), contextTokens)
      ensures settings.threshold >= 1 ==> Refusing(old(breakers), settings, now) == BlockedBy(told, settings, now)
      ensures SameAnswers(old(breakers), breakers, settings, now)
      ensures rrIndex == if r.Ok? && strategy.RoundRobin? then old(rrIndex) + 1 else old(rrIndex)
    {
      PickSound(workers, Refusing(breakers, settings, now), contextTokens, strategy, rrIndex);
      if settings.threshold >= 1 {
        RefusingIsBlocked(breakers, told, settings, latest, now);
      }
      var available := AvailableWorkers(now, contextTokens);
      if available == [] {
        if contextTokens.Some? {
          var healthy := AvailableWorkers(now, None);
          if healthy != [] {
            return Err(NoCapacity(contextTokens.value));
          }
        }
        return Err(NoWorkers);
      }
      r := Ok(available[Choice(available, strategy, rrIndex)]);
      if strategy.RoundRobin? {
        rrIndex := rrIndex + 1;
      }
    }

    /** Register a worker unless its URL is registered already. */
    method AddWorker(url: Url) returns (added: bool)
      requires Valid()
      modifies this`workers, this`breakers, this`told
      ensures Valid() && added == (url !in UrlsOf(old(workers)))
      ensures !added ==> workers == old(workers) && breakers == old(breakers) && told == old(told)
      ensures added ==>
        && workers == old(workers) + [Worker(url, capacity, NEW_STATS)]
        && UrlsOf(workers) == UrlsOf(old(workers)) + [url]
        && workers[|workers| - 1].stats.isHealthy && workers[|workers| - 1].stats.activeRequests == 0
        && breakers == old(breakers)[url := FRESH] && told == old(told)[url := Told(0, 0.0)]
    {
      if url in UrlsOf(workers) {
        return false;
      }
      Register(url);
      return true;
    }

    /** The outcome of a health check of one worker. */
    method SetHealth(k: nat, healthy: bool)
      requires Valid() && k < |workers|
      modifies this`workers
      ensures Valid() && UrlsOf(workers) == UrlsOf(old(workers))
      ensures workers == old(workers)[k := old(workers)[k].(stats := old(workers)[k].stats.(isHealthy := healthy))]
    {
      var w := workers[k].(stats := workers[k].stats.(isHealthy := healthy));
      assert UrlsOf(workers[k := w]) == UrlsOf(workers);
      workers := workers[k := w];
    }

    method RemoveWorker(url: Url) returns (removed: bool)
      requires Valid()
      modifies this`workers, this`breakers, this`told
      ensures Valid() && removed == (url in UrlsOf(old(workers)))
      ensures workers == Filter(old(workers), UrlIsNot(url))
      ensures breakers == old(breakers) - {url} && told == old(told) - {url}
    {
      var before := |workers|;
      RemovedUrls(workers, url);
      workers := Filter(workers, UrlIsNot(url));
      breakers := breakers - {url};
      told := told - {url};
      removed := |workers| < before;
    }

    /** A worker deregistered while its call was in flight has no breaker left to tell. */
    method RecordSuccess(url: Url) returns (known: bool)
      requires Valid()
      modifies this`breakers, this`told
      ensures Valid() && known == (url in old(breakers))
      ensures known ==>
        && breakers == old(breakers)[url := Step(old(breakers)[url], settings, Success)]
        && told == old(told)[url := Tell(old(told)[url], Success)]
      ensures !known ==> breakers == old(breakers) && told == old(told)
    {
      if url !in breakers {
        return false;
      }
      breakers := breakers[url := Step(breakers[url], settings, Success)];
      told := told[url := Tell(told[url], Success)];
      return true;
    }

    method RecordFailure(url: Url, now: real) returns (known: bool)
      requires Valid() && latest <= now
      modifies this`breakers, this`told, this`latest
      ensures Valid() && known == (url in old(breakers)) && latest <= now
      ensures known ==>
        && breakers == old(breakers)[url := Step(old(breakers)[url], settings, Failure(now))]
        && told == old(told)[url := Tell(old(told)[url], Failure(now))]
      ensures !known ==> breakers == old(breakers) && told == old(told)
    {
      if url !in breakers {
        return false;
      }
      breakers := breakers[url := Step(breakers[url], settings, Failure(now))];
      told := told[url := Tell(told[url], Failure(now))];
      latest := now;
      return true;
    }
  }
}
