/** How evenly the strategies of router/load_balancer.py spread requests over a fixed set of available
    workers. */
module Fairness {
  import opened Seqs
  import opened LoadBalancing

  // ---- Round robin ----

  /** The positions that `k` consecutive round-robin picks take, starting at index `rr`. */
  function RoundRobinPicks(available: seq<Worker>, rr: nat, k: nat): (picks: seq<nat>)
    requires available != []
    ensures |picks| == k
  {
    if k == 0 then [] else RoundRobinPicks(available, rr, k - 1) + [Choice(available, RoundRobin, rr + k - 1)]
  }

  function Count(picks: seq<nat>, i: nat): nat {
    if picks == [] then 0
    else Count(picks[..|picks| - 1], i) + if picks[|picks| - 1] == i then 1 else 0
  }

  /** How many of the numbers below `x` leave remainder `i`. */
  function Hits(x: nat, n: nat, i: nat): nat
    requires i < n
  {
    x / n + if x % n > i then 1 else 0
  }

  lemma HitsStep(x: nat, n: nat, i: nat)
    requires i < n
    ensures Hits(x + 1, n, i) == Hits(x, n, i) + if x % n == i then 1 else 0
  {
    var q, r := x / n, x % n;
    if r + 1 < n {
      DivModUnique(x + 1, n, q, r + 1);
    } else {
      assert x + 1 == (q + 1) * n;
      DivModUnique(x + 1, n, q + 1, 0);
    }
  }

  lemma DivModUnique(x: nat, n: nat, q: nat, r: nat)
    requires 0 < n && r < n && x == q * n + r
    ensures x / n == q && x % n == r
  {
    MulBounds(x / n - q, n);
    assert (x / n - q) * n == r - x % n;
  }

  lemma MulBounds(d: int, n: int)
    requires n >= 0
    ensures d >= 1 ==> d * n >= n
    ensures d <= -1 ==> d * n <= -n
  {
  }

  lemma {:induction false} CountIsHits(available: seq<Worker>, rr: nat, k: nat, i: nat)
    requires i < |available|
    ensures Count(RoundRobinPicks(available, rr, k), i)
         == Hits(rr + k, |available|, i) - Hits(rr, |available|, i)
  {
    if k > 0 {
      CountIsHits(available, rr, k - 1, i);
      HitsStep(rr + k - 1, |available|, i);
      var picks := RoundRobinPicks(available, rr, k);
      assert picks[..|picks| - 1] == RoundRobinPicks(available, rr, k - 1);
    }
  }

  /** From any index, `k` picks over `n` workers take each worker floor(k/n) or ceil(k/n) times; in
      particular any `n` in a row take each exactly once. */
  lemma RoundRobinFair(available: seq<Worker>, rr: nat, k: nat, i: nat)
    requires i < |available|
    ensures var n := |available|;
      var c := Count(RoundRobinPicks(available, rr, k), i);
      && k / n <= c <= (k + n - 1) / n
      && (k == n ==> c == 1)
  {
    var n := |available|;
    CountIsHits(available, rr, k, i);
    HitsInWindow(rr, k, n, i);
    Ceiling(k, n);
    if k == n {
      DivModUnique(n, n, 1, 0);
    }
  }

  lemma HitsInWindow(rr: nat, k: nat, n: nat, i: nat)
    requires i < n
    ensures k / n <= Hits(rr + k, n, i) - Hits(rr, n, i) <= k / n + if k % n == 0 then 0 else 1
  {
    var q, r, p, m := rr / n, rr % n, k / n, k % n;
    Distribute(q, p, n);
    if r + m < n {
      DivModUnique(rr + k, n, q + p, r + m);
    } else {
      DivModUnique(rr + k, n, q + p + 1, r + m - n);
    }
  }

  lemma Distribute(q: nat, p: nat, n: nat)
    ensures (q + p) * n == q * n + p * n
    ensures (q + p + 1) * n == q * n + p * n + n
  {
  }

  lemma Ceiling(k: nat, n: nat)
    requires n > 0
    ensures (k + n - 1) / n == k / n + if k % n == 0 then 0 else 1
  {
    var p, m := k / n, k % n;
    Distribute(p, 0, n);
    if m == 0 {
      DivModUnique(k + n - 1, n, p, n - 1);
    } else {
      DivModUnique(k + n - 1, n, p + 1, m - 1);
    }
  }

  // ---- Least active ----

  function Load(w: Worker): nat { w.stats.activeRequests }

  function Started(w: Worker): Worker {
    w.(stats := w.stats.(activeRequests := w.stats.activeRequests + 1))
  }

  /** Pick by queue depth and start the call on the picked worker, in one step. */
  function PickAndStart(ws: seq<Worker>): (r: seq<Worker>)
    requires ws != []
    ensures |r| == |ws|
  {
    var k := Choice(ws, QueueDepth, 0);
    ws[k := Started(ws[k])]
  }

  ghost predicate Spread(ws: seq<Worker>, d: int) {
    forall i, j :: 0 <= i < |ws| && 0 <= j < |ws| ==> Load(ws[i]) - Load(ws[j]) <= d
  }

  lemma LeastLoaded(ws: seq<Worker>)
    requires ws != []
    ensures var k := Choice(ws, QueueDepth, 0);
      forall j :: 0 <= j < |ws| ==> Load(ws[k]) <= Load(ws[j])
  {
    var keys := Map(ws, LoadOf());
    var k := FirstMin(keys);
    forall j | 0 <= j < |ws|
      ensures Load(ws[k]) <= Load(ws[j])
    {
      assert keys[k] <= keys[j];
      assert keys[k] == Load(ws[k]) as real && keys[j] == Load(ws[j]) as real;
    }
  }

  /** A pick never widens the spread of active counts, beyond the 1 that any start may cause. */
  lemma PickKeepsSpread(ws: seq<Worker>, d: int)
    requires ws != [] && Spread(ws, d)
    ensures Spread(PickAndStart(ws), if d > 1 then d else 1)
  {
    LeastLoaded(ws);
  }

  function Deficit(ws: seq<Worker>, top: nat): int {
    if ws == [] then 0 else top - Load(ws[0]) + Deficit(ws[1..], top)
  }

  function AfterStarts(ws: seq<Worker>, n: nat): (r: seq<Worker>)
    requires ws != []
    ensures |r| == |ws|
    decreases n
  {
    if n == 0 then ws else AfterStarts(PickAndStart(ws), n - 1)
  }

  ghost predicate AtMost(ws: seq<Worker>, top: nat) {
    forall i :: 0 <= i < |ws| ==> Load(ws[i]) <= top
  }

  lemma {:induction false} DeficitZero(ws: seq<Worker>, top: nat)
    requires AtMost(ws, top)
    ensures Deficit(ws, top) >= 0
    ensures Deficit(ws, top) == 0 <==> forall i :: 0 <= i < |ws| ==> Load(ws[i]) == top
  {
    if ws != [] {
      DeficitZero(ws[1..], top);
      assert forall i :: 0 < i < |ws| ==> ws[i] == ws[1..][i - 1];
    }
  }

  lemma {:induction false} StartLowersDeficit(ws: seq<Worker>, k: nat, top: nat)
    requires k < |ws|
    ensures Deficit(ws[k := Started(ws[k])], top) == Deficit(ws, top) - 1
  {
    var after := ws[k := Started(ws[k])];
    if k == 0 {
      assert after[1..] == ws[1..];
    } else {
      StartLowersDeficit(ws[1..], k - 1, top);
      assert after[1..] == ws[1..][k - 1 := Started(ws[1..][k - 1])];
    }
  }

  /** Starts alone level the workers: once as many calls have started as the counts fell short of the
      largest, every worker has that many. */
  lemma {:induction false} StartsLevel(ws: seq<Worker>, top: nat)
    requires ws != [] && AtMost(ws, top)
    ensures Deficit(ws, top) >= 0
    ensures forall i :: 0 <= i < |ws| ==> Load(AfterStarts(ws, Deficit(ws, top))[i]) == top
    decreases Deficit(ws, top)
  {
    DeficitZero(ws, top);
    if Deficit(ws, top) > 0 {
      var k := Choice(ws, QueueDepth, 0);
      LeastLoaded(ws);
      StartLowersDeficit(ws, k, top);
      assert Load(ws[k]) < top;
      StartsLevel(PickAndStart(ws), top);
    }
  }
}
