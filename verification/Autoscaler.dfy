/** router/autoscaler.py in static mode: standby URLs move into the balancer and back, so that the pool grows
    with the depth of the queue and shrinks again, no two changes closer than the cooldown. */
module Autoscaling {
  import opened Seqs
  import opened CircuitBreakers
  import opened LoadBalancing

  datatype Policy = Policy(
    minWorkers: int, maxWorkers: int, scaleUpThreshold: int, scaleDownThreshold: int, cooldown: real)

  ghost predicate DifferAt(urls: seq<Url>, i: int, j: int) {
    0 <= i < j < |urls| ==> urls[i] != urls[j]
  }

  ghost predicate Distinct(urls: seq<Url>) {
    forall i, j {:trigger DifferAt(urls, i, j)} :: DifferAt(urls, i, j)
  }

  ghost predicate SpacedAt(times: seq<real>, cooldown: real, i: int) {
    0 <= i < |times| - 1 ==> times[i] + cooldown <= times[i + 1]
  }

  /** Successive scalings are at least `cooldown` apart. */
  ghost predicate Spaced(times: seq<real>, cooldown: real) {
    forall i {:trigger SpacedAt(times, cooldown, i)} :: SpacedAt(times, cooldown, i)
  }

  /** Removing the last of `urls` from workers registered in this order takes out just that worker. */
  lemma RemoveLast(ws: seq<Worker>, front: seq<Url>, url: Url)
    requires UrlsOf(ws) == front + [url] && url !in front
    ensures UrlsOf(Filter(ws, UrlIsNot(url))) == front
  {
    var n := |ws| - 1;
    assert ws == ws[..n] + [ws[n]];
    assert UrlsOf(ws)[n] == url;
    forall w | w in ws[..n]
      ensures UrlIsNot(url)(w)
    {
      var i :| 0 <= i < n && ws[i] == w;
      assert UrlsOf(ws)[i] == front[i];
    }
    FilterAll(ws[..n], UrlIsNot(url));
    FilterAppend(ws[..n], [ws[n]], UrlIsNot(url));
    UrlsAppend(ws[..n], [ws[n]]);
    assert Filter(ws, UrlIsNot(url)) == ws[..n];
    assert UrlsOf(ws[..n]) == front;
  }

  ghost predicate NewAt(base: seq<Url>, urls: seq<Url>, i: int) {
    0 <= i < |urls| ==> urls[i] !in base
  }

  /** No URL is listed twice and none is a base worker. */
  ghost predicate Apart(base: seq<Url>, urls: seq<Url>) {
    Distinct(urls) && (forall i {:trigger NewAt(base, urls, i)} :: NewAt(base, urls, i))
  }

  ghost predicate AsOften(initial: seq<Url>, active: seq<Url>, standby: seq<Url>, skipped: seq<Url>, u: Url) {
    multiset(active)[u] + multiset(standby)[u] + multiset(skipped)[u] == multiset(initial)[u]
  }

  /** Every configured URL is in use, on standby or skipped, as often as it was configured. When they
      were all new to the balancer none is skipped, and the other two lists are the configured one,
      cut at one point. */
  ghost predicate Accounted(
    base: seq<Url>, initial: seq<Url>, active: seq<Url>, standby: seq<Url>, skipped: seq<Url>)
  {
    && (forall u {:trigger AsOften(initial, active, standby, skipped, u)} ::
          AsOften(initial, active, standby, skipped, u))
    && (Apart(base, initial) ==> skipped == [] && active + standby == initial)
  }

  ghost predicate Paced(scalings: seq<real>, last: real, cooldown: real) {
    Spaced(scalings, cooldown) && last == if scalings == [] then 0.0 else scalings[|scalings| - 1]
  }

  lemma PacedNext(scalings: seq<real>, last: real, cooldown: real, now: real)
    requires Paced(scalings, last, cooldown) && last + cooldown <= now
    ensures Paced(scalings + [now], now, cooldown)
  {
    forall i {:trigger SpacedAt(scalings + [now], cooldown, i)}
      ensures SpacedAt(scalings + [now], cooldown, i)
    {
      assert SpacedAt(scalings, cooldown, i);
    }
  }

  lemma UpdateLast<T>(s: seq<T>, x: T, y: T)
    ensures (s + [x])[|s| := y] == s + [y]
  {
  }

  lemma ApartSnoc(base: seq<Url>, urls: seq<Url>, url: Url)
    requires url !in base + urls
    ensures Apart(base, urls + [url]) <==> Apart(base, urls)
  {
    var longer := urls + [url];
    if Apart(base, urls) {
      forall i, j {:trigger DifferAt(longer, i, j)}
        ensures DifferAt(longer, i, j)
      {
        assert DifferAt(urls, i, j);
      }
      forall i {:trigger NewAt(base, longer, i)}
        ensures NewAt(base, longer, i)
      {
        assert NewAt(base, urls, i);
      }
    }
    if Apart(base, longer) {
      forall i, j {:trigger DifferAt(urls, i, j)}
        ensures DifferAt(urls, i, j)
      {
        assert DifferAt(longer, i, j);
      }
      forall i {:trigger NewAt(base, urls, i)}
        ensures NewAt(base, urls, i)
      {
        assert NewAt(base, longer, i);
      }
    }
  }

  /** Registering a new standby URL keeps the account. */
  lemma TakeOne(base: seq<Url>, initial: seq<Url>, active: seq<Url>, standby: seq<Url>, skipped: seq<Url>)
    requires Apart(base, active) && Accounted(base, initial, active, standby, skipped)
    requires standby != [] && standby[0] !in base + active
    ensures Apart(base, active + [standby[0]])
    ensures Accounted(base, initial, active + [standby[0]], standby[1..], skipped)
    ensures base + active + [standby[0]] == base + (active + [standby[0]])
  {
    var active', standby' := active + [standby[0]], standby[1..];
    ApartSnoc(base, active, standby[0]);
    assert standby == [standby[0]] + standby';
    forall u {:trigger AsOften(initial, active', standby', skipped, u)}
      ensures AsOften(initial, active', standby', skipped, u)
    {
      assert AsOften(initial, active, standby, skipped, u);
    }
    assert active' + standby' == active + standby;
  }

  /** Skipping a registered one does too, and shows that not all of them were new. */
  lemma SkipOne(base: seq<Url>, initial: seq<Url>, active: seq<Url>, standby: seq<Url>, skipped: seq<Url>)
    requires Accounted(base, initial, active, standby, skipped)
    requires standby != [] && standby[0] in base + active
    ensures Accounted(base, initial, active, standby[1..], skipped + [standby[0]]) && !Apart(base, initial)
  {
    var standby', skipped' := standby[1..], skipped + [standby[0]];
    assert standby == [standby[0]] + standby';
    forall u {:trigger AsOften(initial, active, standby', skipped', u)}
      ensures AsOften(initial, active, standby', skipped', u)
    {
      assert AsOften(initial, active, standby, skipped, u);
    }
    NotAllNew(base, active, standby);
  }

  lemma NotAllNew(base: seq<Url>, active: seq<Url>, standby: seq<Url>)
    requires standby != [] && standby[0] in base + active
    ensures !Apart(base, active + standby)
  {
    var all, n := active + standby, |active|;
    assert all[n] == standby[0];
    if standby[0] in base {
      assert !NewAt(base, all, n);
    } else {
      var i :| 0 <= i < n && active[i] == standby[0];
      assert !DifferAt(all, i, n);
    }
  }

  /** Giving back the last URL in use keeps the account. */
  lemma GiveBackOne(
    base: seq<Url>, initial: seq<Url>, front: seq<Url>, url: Url, standby: seq<Url>, skipped: seq<Url>)
    requires Apart(base, front + [url]) && Accounted(base, initial, front + [url], standby, skipped)
    ensures Apart(base, front) && url !in base + front
    ensures Accounted(base, initial, front, [url] + standby, skipped)
    ensures base + (front + [url]) == base + front + [url]
  {
    var n := |front|;
    assert NewAt(base, front + [url], n);
    assert forall i {:trigger front[i]} :: 0 <= i < n ==> DifferAt(front + [url], i, n);
    ApartSnoc(base, front, url);
    forall u {:trigger AsOften(initial, front, [url] + standby, skipped, u)}
      ensures AsOften(initial, front, [url] + standby, skipped, u)
    {
      assert AsOften(initial, front + [url], standby, skipped, u);
    }
    assert front + ([url] + standby) == front + [url] + standby;
  }

  class Autoscaler {
    const policy: Policy
    const balancer: LoadBalancer
    var standby: seq<Url>        // URLs available to register
    var activeDynamic: seq<Url>  // URLs registered at runtime
    var lastScaleTime: real
    ghost const base: seq<Url>     // the balancer's workers at the start
    ghost const initial: seq<Url>  // the configured standby URLs
    ghost var skipped: seq<Url>    // standby URLs found to be registered already
    ghost var scalings: seq<real>  // when each scaling took place

    /** The balancer serves the base workers followed by the standby URLs in use. */
    ghost predicate Valid()
      reads this, balancer
    {
      && balancer.Valid()
      && Apart(base, activeDynamic)
      && Accounted(base, initial, activeDynamic, standby, skipped)
      && UrlsOf(balancer.workers) == base + activeDynamic
      && (|activeDynamic| > 0 ==> |base| + |activeDynamic| <= policy.maxWorkers)
      && Paced(scalings, lastScaleTime, policy.cooldown)
    }

    /** What `Valid` means for the size and the breakers of the pool. */
    ghost predicate PoolBounded()
      reads this, balancer
    {
      && |base| <= |balancer.workers|
      && (|balancer.workers| <= |base| || |balancer.workers| <= policy.maxWorkers)
      && (forall u :: u in balancer.breakers <==> u in base + activeDynamic)
    }

    lemma ValidBounds()
      requires Valid()
      ensures PoolBounded()
    {
      assert |UrlsOf(balancer.workers)| == |balancer.workers|;
    }

    constructor (policy: Policy, balancer: LoadBalancer, standbyUrls: seq<Url>)
      requires balancer.Valid()
      ensures Valid() && activeDynamic == [] && standby == standbyUrls && skipped == [] && scalings == []
      ensures base == UrlsOf(balancer.workers) && initial == standbyUrls
      ensures this.policy == policy && this.balancer == balancer
    {
      this.policy, this.balancer := policy, balancer;
      standby, activeDynamic, lastScaleTime := standbyUrls, [], 0.0;
      base, initial, skipped, scalings := UrlsOf(balancer.workers), standbyUrls, [], [];
    }

    /** Register `url` with the health just checked, unless the balancer has it already. */
    method Register(url: Url, healthy: bool) returns (added: bool)
      requires balancer.Valid()
      modifies balancer`workers, balancer`breakers, balancer`told
      ensures balancer.Valid() && added == (url !in UrlsOf(old(balancer.workers)))
      ensures !added ==> balancer.workers == old(balancer.workers) && balancer.breakers == old(balancer.breakers)
      ensures added ==>
        && balancer.workers == old(balancer.workers) + [Started(url, healthy)]
        && UrlsOf(balancer.workers) == UrlsOf(old(balancer.workers)) + [url]
        && balancer.workers[|balancer.workers| - 1].stats.isHealthy == healthy
    {
      added := balancer.AddWorker(url);
      if added {
        UpdateLast(old(balancer.workers), Worker(url, balancer.capacity, NEW_STATS), Started(url, healthy));
        balancer.SetHealth(|balancer.workers| - 1, healthy);
      }
    }

    function Started(url: Url, healthy: bool): Worker {
      Worker(url, balancer.capacity, NEW_STATS.(isHealthy := healthy))
    }

    /** A standby URL that the balancer has already is taken off the list and nothing else happens. */
    method ScaleUpStatic(healthy: bool, now: real)
      requires Valid() && |balancer.workers| < policy.maxWorkers
      requires lastScaleTime + policy.cooldown <= now
      modifies this`standby, this`activeDynamic, this`lastScaleTime, this`skipped, this`scalings,
        balancer`workers, balancer`breakers, balancer`told
      ensures Valid()
      ensures standby == if old(standby) == [] then [] else old(standby)[1..]
      ensures if old(standby) != [] && old(standby)[0] !in UrlsOf(old(balancer.workers)) then
                && activeDynamic == old(activeDynamic) + [old(standby)[0]]
                && balancer.workers == old(balancer.workers) + [Started(old(standby)[0], healthy)]
                && balancer.workers[|balancer.workers| - 1].stats.isHealthy == healthy
                && skipped == old(skipped) && scalings == old(scalings) + [now]
              else
                && activeDynamic == old(activeDynamic) && balancer.workers == old(balancer.workers)
                && balancer.breakers == old(balancer.breakers)
                && skipped == (if old(standby) == [] then old(skipped) else old(skipped) + [old(standby)[0]])
                && scalings == old(scalings)
    {
      if standby == [] {
        return;
      }
      var url := standby[0];
      standby := standby[1..];
      var added := Register(url, healthy);
      if !added {
        SkipOne(base, initial, activeDynamic, old(standby), skipped);
        skipped := skipped + [url];
        return;
      }
      TakeOne(base, initial, activeDynamic, old(standby), skipped);
      PacedNext(scalings, lastScaleTime, policy.cooldown, now);
      assert |UrlsOf(balancer.workers)| == |balancer.workers|;
      activeDynamic := activeDynamic + [url];
      lastScaleTime := now;
      scalings := scalings + [now];
    }

    /** Deregister the worker that was registered last. */
    method Deregister(ghost front: seq<Url>, url: Url)
      requires balancer.Valid() && UrlsOf(balancer.workers) == front + [url] && url !in front
      modifies balancer`workers, balancer`breakers, balancer`told
      ensures balancer.Valid() && UrlsOf(balancer.workers) == front
      ensures balancer.workers == Filter(old(balancer.workers), UrlIsNot(url))
    {
      RemoveLast(balancer.workers, front, url);
      var _ := balancer.RemoveWorker(url);
    }

    method ScaleDownStatic(now: real)
      requires Valid()
      requires lastScaleTime + policy.cooldown <= now
      modifies this`standby, this`activeDynamic, this`lastScaleTime, this`scalings,
        balancer`workers, balancer`breakers, balancer`told
      ensures Valid()
      ensures var n := |old(activeDynamic)| - 1;
        if n < 0 then
          activeDynamic == [] && standby == old(standby) && scalings == old(scalings)
          && balancer.workers == old(balancer.workers)
        else
          && activeDynamic == old(activeDynamic)[..n] && standby == [old(activeDynamic)[n]] + old(standby)
          && balancer.workers == Filter(old(balancer.workers), UrlIsNot(old(activeDynamic)[n]))
          && scalings == old(scalings) + [now]
    {
      if activeDynamic == [] {
        return;
      }
      var n := |activeDynamic| - 1;
      var url := activeDynamic[n];
      var front := activeDynamic[..n];
      assert activeDynamic == front + [url];
      GiveBackOne(base, initial, front, url, standby, skipped);
      activeDynamic := front;
      Deregister(base + front, url);
      standby := [url] + standby;
      PacedNext(scalings, lastScaleTime, policy.cooldown, now);
      lastScaleTime := now;
      scalings := scalings + [now];
    }

    /** One pass of the monitoring loop. `depth` is the queue depth read from Redis, `checked` and
        `now` the clock before and after any health check. */
    method CheckOnce(depth: int, healthy: bool, checked: real, now: real)
      requires Valid() && checked <= now
      modifies this`standby, this`activeDynamic, this`lastScaleTime, this`skipped, this`scalings,
        balancer`workers, balancer`breakers, balancer`told
      ensures Valid() && PoolBounded()
      ensures var size := |old(balancer.workers)|;
        var rested := checked - old(lastScaleTime) >= policy.cooldown;
        var taken := rested && depth >= policy.scaleUpThreshold && size < policy.maxWorkers && old(standby) != [];
        var up := taken && old(standby)[0] !in UrlsOf(old(balancer.workers));
        var down := rested && depth < policy.scaleUpThreshold && depth <= policy.scaleDownThreshold
          && size > policy.minWorkers && old(activeDynamic) != [];
        && scalings == (if up || down then old(scalings) + [now] else old(scalings))
        && |activeDynamic| == |old(activeDynamic)| + (if up then 1 else if down then -1 else 0)
        && |standby| == |old(standby)| + if taken then -1 else if down then 1 else 0
    {
      ValidBounds();
      if checked - lastScaleTime < policy.cooldown {
        return;
      }
      var workers := |balancer.workers|;
      if depth >= policy.scaleUpThreshold {
        if workers < policy.maxWorkers {
          ScaleUpStatic(healthy, now);
        }
      } else if depth <= policy.scaleDownThreshold && workers > policy.minWorkers {
        ScaleDownStatic(now);
      }
      ValidBounds();
    }
  }

  // ---- The rate of scaling ----

  function CountWithin(times: seq<real>, from: real, to: real): nat {
    if times == [] then 0
    else CountWithin(times[..|times| - 1], from, to) + if from <= times[|times| - 1] <= to then 1 else 0
  }

  function Cooldowns(n: nat, cooldown: real): real {
    if n == 0 then 0.0 else Cooldowns(n - 1, cooldown) + cooldown
  }

  lemma {:induction false} CooldownsProduct(n: nat, cooldown: real)
    ensures Cooldowns(n, cooldown) == n as real * cooldown
  {
    if n > 0 {
      CooldownsProduct(n - 1, cooldown);
      OneMore((n - 1) as real, cooldown);
      assert n as real == (n - 1) as real + 1.0;
    }
  }

  lemma OneMore(m: real, c: real)
    ensures (m + 1.0) * c == m * c + c
  {
  }

  /** `n` scalings inside a window span n - 1 cooldowns of it. */
  lemma {:induction false} WindowSpan(times: seq<real>, from: real, to: real, cooldown: real) returns (last: nat)
    requires cooldown > 0.0 && Spaced(times, cooldown) && CountWithin(times, from, to) > 0
    ensures last < |times| && from <= times[last] <= to
    ensures from + Cooldowns(CountWithin(times, from, to) - 1, cooldown) <= times[last]
  {
    var k := |times| - 1;
    var before := CountWithin(times[..k], from, to);
    if before == 0 {
      last := k;
    } else {
      forall i {:trigger SpacedAt(times[..k], cooldown, i)}
        ensures SpacedAt(times[..k], cooldown, i)
      {
        assert SpacedAt(times, cooldown, i);
      }
      last := WindowSpan(times[..k], from, to, cooldown);
      if from <= times[k] <= to {
        SpacedApart(times, last, k, cooldown);
        last := k;
      }
    }
  }

  lemma {:induction false} SpacedApart(times: seq<real>, i: nat, j: nat, cooldown: real)
    requires cooldown > 0.0 && Spaced(times, cooldown) && i < j < |times|
    ensures times[i] + cooldown <= times[j]
    decreases j
  {
    if i + 1 < j {
      SpacedApart(times, i, j - 1, cooldown);
    }
    assert SpacedAt(times, cooldown, j - 1);
  }

  /** Any window of length `span` holds at most floor(span / cooldown) + 1 scalings. */
  lemma ScalingRate(times: seq<real>, from: real, span: real, cooldown: real)
    requires cooldown > 0.0 && span >= 0.0 && Spaced(times, cooldown)
    ensures CountWithin(times, from, from + span) <= (span / cooldown).Floor + 1
  {
    var n := CountWithin(times, from, from + span);
    if n > 0 {
      var last := WindowSpan(times, from, from + span, cooldown);
      CooldownsProduct(n - 1, cooldown);
      BelowFloor(n - 1, (n - 1) as real, cooldown, span);
    } else {
      BelowFloor(0, 0.0, cooldown, span);
    }
  }

  /** So it is for the scalings of an autoscaler. */
  lemma AutoscalerRate(a: Autoscaler, from: real, span: real)
    requires a.Valid() && a.policy.cooldown > 0.0 && span >= 0.0
    ensures CountWithin(a.scalings, from, from + span) <= (span / a.policy.cooldown).Floor + 1
  {
    ScalingRate(a.scalings, from, span, a.policy.cooldown);
  }

  lemma BelowFloor(m: nat, x: real, c: real, span: real)
    requires c > 0.0 && x == m as real && x * c <= span
    ensures m <= (span / c).Floor
  {
    var q := span / c;
    assert q * c == span;
    ScaleStrict(q, x, c);
  }

  lemma ScaleStrict(a: real, b: real, c: real)
    requires c > 0.0
    ensures a < b ==> a * c < b * c
  {
  }
}
