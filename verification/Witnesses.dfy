/** Runs of the queue that break what a reader might expect of it: an entry processed beyond its budget, both
    answered and buried, or buried twice. Each is built command by command. */
module Witnesses {
  import opened Seqs
  import opened Streams
  import opened QueueProtocol
  import opened Handouts
  import opened LeaseSafety
  import opened Records
  import RetryPolicies

  // ---- Runs with their states ----

  datatype Trace = Trace(actions: seq<Action>, states: seq<State>)
  {
    function Last(): State {
      if states == [] then START else states[|states| - 1]
    }
  }

  ghost predicate StepAt(c: Settings, tr: Trace, i: int) {
    0 <= i < |tr.actions| < |tr.states| ==> tr.states[i + 1] == Step(tr.states[i], c, tr.actions[i])
  }

  ghost predicate Lawful(c: Settings, tr: Trace) {
    && |tr.states| == |tr.actions| + 1 && tr.states[0] == START
    && forall i {:trigger StepAt(c, tr, i)} :: StepAt(c, tr, i)
  }

  ghost predicate TimelyAt(c: Settings, tr: Trace, i: int) {
    0 <= i < |tr.states| ==> Timely(tr.states[i], c, 1)
  }

  /** Entry 1 is held in time throughout. */
  ghost predicate InTime(c: Settings, tr: Trace) {
    forall i {:trigger TimelyAt(c, tr, i)} :: TimelyAt(c, tr, i)
  }

  lemma More(c: Settings, tr: Trace, a: Action) returns (more: Trace)
    requires Lawful(c, tr)
    ensures Lawful(c, more) && more.Last() == Step(tr.Last(), c, a)
    ensures InTime(c, tr) && Timely(more.Last(), c, 1) ==> InTime(c, more)
  {
    more := Trace(tr.actions + [a], tr.states + [Step(tr.Last(), c, a)]);
    forall i {:trigger StepAt(c, more, i)}
      ensures StepAt(c, more, i)
    {
      assert StepAt(c, tr, i);
    }
    if InTime(c, tr) && Timely(more.Last(), c, 1) {
      forall i {:trigger TimelyAt(c, more, i)}
        ensures TimelyAt(c, more, i)
      {
        assert TimelyAt(c, tr, i);
      }
    }
  }

  lemma {:induction false} TraceIsRun(c: Settings, tr: Trace)
    requires Lawful(c, tr)
    ensures Run(c, tr.actions) == tr.Last()
    ensures InTime(c, tr) ==> TimelyRun(c, tr.actions, 1)
    decreases |tr.actions|
  {
    var n := |tr.actions|;
    assert InTime(c, tr) ==> TimelyAt(c, tr, n);
    if n > 0 {
      var front := Trace(tr.actions[..n - 1], tr.states[..n]);
      forall i {:trigger StepAt(c, front, i)}
        ensures StepAt(c, front, i)
      {
        assert StepAt(c, tr, i);
      }
      if InTime(c, tr) {
        forall i {:trigger TimelyAt(c, front, i)}
          ensures TimelyAt(c, front, i)
        {
          assert TimelyAt(c, tr, i);
        }
      }
      TraceIsRun(c, front);
      assert StepAt(c, tr, n - 1);
    }
  }

  /** A claim of the one pending entry. */
  lemma ClaimOnly(s: Stream, now: int, minIdle: int)
    requires s.delivered == 1 && s.pending.Keys == {1} && now - s.pending[1].since >= minIdle
    ensures PageFrom(s, 0, now, minIdle) == Page([1], 0)
  {
    assert PendingFrom(s.pending, 2, 1) == [];
    assert PendingFrom(s.pending, 1, 1) == [1];
    assert PendingFrom(s.pending, 0, 1) == [1];
    assert Scanned([1][1..], ATTEMPTS - 1, COUNT - 1, Stale(s.pending, now, minIdle)) == 0;
    assert Scanned([1], ATTEMPTS, COUNT, Stale(s.pending, now, minIdle)) == 1;
    assert [1][..1] == [1];
    var one: nat := 1;
    FilterOne(one, Stale(s.pending, now, minIdle));
  }

  /** Task `t` has just claimed the one entry, its `n`th hand-out. */
  ghost predicate HandedOver(s: State, s': State, t: nat, p: Payload, b: Consumer, n: nat) {
    && s'.tasks == s.tasks[t := Task(Recoverer, b, Triaging, [Lease(1, p, s.now, n)], [])]
    && s'.stream == Stream([p], 1, map[1 := Pending(b, s.now, n)])
    && s'.now == s.now && SameRecords(s, s') && s'.processed == s.processed
  }

  /** What the claim by an idle recovery loop leads to. */
  lemma ClaimStep(s: State, c: Settings, t: nat, p: Payload, b: Consumer)
    requires t in s.tasks && s.tasks[t] == Task(Recoverer, b, Idle, [], [])
    requires s.stream.entries == [p] && s.stream.delivered == 1 && s.stream.pending.Keys == {1}
    requires s.now - s.stream.pending[1].since >= c.minIdle
    ensures HandedOver(s, Step(s, c, Advance(t, "")), t, p, b, s.stream.pending[1].deliveries + 1)
  {
    ClaimOnly(s.stream, s.now, c.minIdle);
    var claimed := s.stream.Claimed([1], b, s.now);
    assert claimed.pending == map[1 := Pending(b, s.now, s.stream.pending[1].deliveries + 1)];
    LeaseOf(claimed, s.now, 1);
    var one: nat := 1;
    RetryPolicies.MapCons(one, [], LeaseAt(claimed, s.now));
    assert [one] + [] == [one];
    assert [] + Map([one], LeaseAt(claimed, s.now)) == [LeaseAt(claimed, s.now)(1)];
  }

  /** What the rounds leave alone. */
  ghost predicate SameRecords(s: State, s': State) {
    && s'.written == s.written && s'.dead == s.dead
    && s'.trail.torn == s.trail.torn && s'.trail.stranded == s.trail.stranded
  }

  // ---- Rounds of a recovery loop ----

  /** One entry, handed out `n` times; an idle recovery loop beside the tasks of `rest`. */
  ghost predicate Round(s: State, p: Payload, rest: map<nat, Task>, b: Consumer, n: nat) {
    && s.stream.entries == [p] && s.stream.delivered == 1 && s.stream.pending.Keys == {1}
    && s.stream.pending[1].deliveries == n && s.stream.pending[1].since <= s.now
    && s.tasks == rest[1 := Task(Recoverer, b, Idle, [], [])]
  }

  /** The recovery loop holds the entry as its `n`th and latest hand-out, fresh. */
  ghost predicate Holding(s: State, p: Payload, rest: map<nat, Task>, b: Consumer, n: nat, stage: Stage) {
    && s.stream == Stream([p], 1, map[1 := Pending(b, s.now, n)])
    && s.tasks == rest[1 := Task(Recoverer, b, stage, [Lease(1, p, s.now, n)], [])]
  }

  /** It has just claimed the entry. */
  ghost predicate Claimed(s: State, p: Payload, rest: map<nat, Task>, b: Consumer, n: nat) {
    Holding(s, p, rest, b, n, Triaging)
  }

  function Idling(c: Settings): nat {
    if c.minIdle >= 0 then c.minIdle else 0
  }

  /** The state after the wait for the entry to become stale. */
  function Later(s: State, c: Settings): State {
    Step(s, c, Tick(Idling(c)))
  }

  lemma LaterIs(s: State, c: Settings)
    ensures Later(s, c) == s.(now := s.now + Idling(c))
  {
  }

  lemma RoundClaimed(s: State, s': State, now: int, p: Payload, rest: map<nat, Task>, b: Consumer, n: nat)
    requires Round(s, p, rest, b, n) && HandedOver(s.(now := now), s', 1, p, b, n + 1)
    ensures Claimed(s', p, rest, b, n + 1) && SameRecords(s, s') && s'.processed == s.processed
  {
  }

  lemma WaitAndClaim(s: State, c: Settings, p: Payload, rest: map<nat, Task>, b: Consumer, n: nat)
    requires Round(s, p, rest, b, n)
    ensures var s' := Step(Later(s, c), c, Advance(1, ""));
      Claimed(s', p, rest, b, n + 1) && SameRecords(s, s') && s'.processed == s.processed
  {
    LaterIs(s, c);
    var w := s.(now := s.now + Idling(c));
    ClaimStep(w, c, 1, p, b);
    RoundClaimed(s, Step(w, c, Advance(1, "")), w.now, p, rest, b, n);
  }

  /** No task of `rest` holds anything. */
  ghost predicate Free(rest: map<nat, Task>) {
    forall t {:trigger rest[t]} :: t in rest ==> Leases(rest[t]) == []
  }

  /** The only lease is new. */
  lemma OneNewLease(s: State, c: Settings, rest: map<nat, Task>, k: Task)
    requires c.minIdle >= 1 && Free(rest) && s.tasks == rest[1 := k] && forall l :: l in Leases(k) ==> l.at == s.now
    ensures Timely(s, c, 1)
  {
  }

  /** With the other tasks out of the way, the run goes on with every hand-out of the entry in time. */
  ghost predicate KeepsTime(c: Settings, tr: Trace, more: Trace, rest: map<nat, Task>) {
    InTime(c, tr) && c.minIdle >= 1 && Free(rest) ==> InTime(c, more)
  }

  /** And without touching the records. */
  ghost predicate GoesOn(c: Settings, tr: Trace, more: Trace, rest: map<nat, Task>) {
    Lawful(c, more) && SameRecords(tr.Last(), more.Last()) && KeepsTime(c, tr, more, rest)
  }

  /** A step after which the recovery loop holds at most a fresh lease. */
  lemma Go(c: Settings, tr: Trace, a: Action, rest: map<nat, Task>, k: Task) returns (more: Trace)
    requires Lawful(c, tr)
    requires var s' := Step(tr.Last(), c, a); s'.tasks == rest[1 := k] && forall l :: l in Leases(k) ==> l.at == s'.now
    ensures Lawful(c, more) && more.Last() == Step(tr.Last(), c, a) && KeepsTime(c, tr, more, rest)
  {
    more := More(c, tr, a);
    if c.minIdle >= 1 && Free(rest) {
      OneNewLease(more.Last(), c, rest, k);
    }
  }

  // ---- A retry that a fault ends ----

  lemma KeepOn(c: Settings, tr: Trace, p: Payload, rest: map<nat, Task>, b: Consumer, n: nat) returns (more: Trace)
    requires Lawful(c, tr) && Claimed(tr.Last(), p, rest, b, n) && n <= c.maxRetries
    ensures GoesOn(c, tr, more, rest) && Holding(more.Last(), p, rest, b, n, Processing)
    ensures more.Last().processed == tr.Last().processed
  {
    var l := Lease(1, p, tr.Last().now, n);
    assert Step(tr.Last(), c, Advance(1, "")).tasks[1] == Task(Recoverer, b, Processing, [l], []);
    more := Go(c, tr, Advance(1, ""), rest, Task(Recoverer, b, Processing, [l], []));
  }

  lemma EnterOn(c: Settings, tr: Trace, p: Payload, rest: map<nat, Task>, b: Consumer, n: nat) returns (more: Trace)
    requires Lawful(c, tr) && Holding(tr.Last(), p, rest, b, n, Processing)
    ensures GoesOn(c, tr, more, rest) && Holding(more.Last(), p, rest, b, n, Running)
    ensures more.Last().processed[1] == tr.Last().processed[1] + 1
  {
    var l := Lease(1, p, tr.Last().now, n);
    assert Step(tr.Last(), c, Advance(1, "")).tasks[1] == Task(Recoverer, b, Running, [l], []);
    more := Go(c, tr, Advance(1, ""), rest, Task(Recoverer, b, Running, [l], []));
  }

  lemma FaultOn(c: Settings, tr: Trace, p: Payload, rest: map<nat, Task>, b: Consumer, n: nat, stage: Stage)
      returns (more: Trace)
    requires Lawful(c, tr) && Holding(tr.Last(), p, rest, b, n, stage)
    ensures Lawful(c, more) && KeepsTime(c, tr, more, rest) && Round(more.Last(), p, rest, b, n)
    ensures more.Last().dead == tr.Last().dead && more.Last().processed == tr.Last().processed
    ensures stage.Running? ==> SameRecords(tr.Last(), more.Last())
  {
    assert Step(tr.Last(), c, Fault(1)).tasks[1] == Task(Recoverer, b, Idle, [], []);
    more := Go(c, tr, Fault(1), rest, Task(Recoverer, b, Idle, [], []));
  }

  /** From one hand-out to the claim after `n` of them. */
  lemma {:induction false} ClaimAfter(
      c: Settings, start: Trace, p: Payload, rest: map<nat, Task>, b: Consumer, n: nat)
      returns (tr: Trace)
    requires Lawful(c, start) && Round(start.Last(), p, rest, b, 1) && 1 <= n <= Budget(c)
    ensures GoesOn(c, start, tr, rest) && Claimed(tr.Last(), p, rest, b, n + 1)
    ensures tr.Last().processed[1] + 1 == start.Last().processed[1] + n
  {
    if n == 1 {
      tr := ClaimAgain(c, start, p, rest, b, 1);
    } else {
      tr := ClaimAfter(c, start, p, rest, b, n - 1);
      tr := FailedRetry(c, tr, p, rest, b, n);
      tr := ClaimAgain(c, tr, p, rest, b, n);
    }
  }

  lemma FailedRetry(c: Settings, claimed: Trace, p: Payload, rest: map<nat, Task>, b: Consumer, n: nat)
      returns (tr: Trace)
    requires Lawful(c, claimed) && Claimed(claimed.Last(), p, rest, b, n) && n <= c.maxRetries
    ensures GoesOn(c, claimed, tr, rest) && Round(tr.Last(), p, rest, b, n)
    ensures tr.Last().processed[1] == claimed.Last().processed[1] + 1
  {
    tr := KeepOn(c, claimed, p, rest, b, n);
    tr := EnterOn(c, tr, p, rest, b, n);
    tr := FaultOn(c, tr, p, rest, b, n, Running);
  }

  lemma ClaimAgain(c: Settings, before: Trace, p: Payload, rest: map<nat, Task>, b: Consumer, n: nat)
      returns (tr: Trace)
    requires Lawful(c, before) && Round(before.Last(), p, rest, b, n)
    ensures GoesOn(c, before, tr, rest) && Claimed(tr.Last(), p, rest, b, n + 1)
    ensures tr.Last().processed == before.Last().processed
  {
    var s := before.Last();
    LaterIs(s, c);
    WaitAndClaim(s, c, p, rest, b, n);
    var waited := Go(c, before, Tick(Idling(c)), rest, Task(Recoverer, b, Idle, [], []));
    var l := Lease(1, p, Later(s, c).now, n + 1);
    tr := Go(c, waited, Advance(1, ""), rest, Task(Recoverer, b, Triaging, [l], []));
  }

  // ---- The start: a processor reads the entry and calls the worker ----

  function Working(p: Payload, a: Consumer): Task {
    Task(Processor, a, Running, [Lease(1, p, 0, 1)], [])
  }

  ghost predicate Ready(s: State, p: Payload, a: Consumer, b: Consumer) {
    && s.stream == Stream([p], 0, map[]) && s.now == 0 && s.processed == multiset{} && SameRecords(START, s)
    && s.tasks == map[0 := Task(Processor, a, Idle, [], []), 1 := Task(Recoverer, b, Idle, [], [])]
  }

  lemma GetReady(c: Settings, p: Payload, a: Consumer, b: Consumer) returns (tr: Trace)
    ensures Lawful(c, tr) && Ready(tr.Last(), p, a, b) && InTime(c, tr)
  {
    tr := Trace([], [START]);
    tr := More(c, tr, Enqueue(p));
    tr := More(c, tr, Spawn(0, Processor, a));
    tr := More(c, tr, Spawn(1, Recoverer, b));
  }

  lemma ReadAndEnter(s: State, c: Settings, p: Payload, a: Consumer, b: Consumer)
    requires Ready(s, p, a, b)
    ensures var s1 := Step(s, c, Advance(0, ""));
      var s2 := Step(s1, c, Advance(0, ""));
      && s1.now == 0 && s1.tasks == s.tasks[0 := Task(Processor, a, Processing, [Lease(1, p, 0, 1)], [])]
      && s2.now == 0 && Round(s2, p, map[0 := Working(p, a)], b, 1) && SameRecords(s, s2)
      && s2.processed[1] == 1
  {
    var s1 := Step(s, c, Advance(0, ""));
    assert s1.tasks[0] == Task(Processor, a, Processing, [Lease(1, p, 0, 1)], []);
    assert s1.stream.pending == map[1 := Pending(a, 0, 1)];
    var s2 := Step(s1, c, Advance(0, ""));
    assert s2.tasks[0] == Working(p, a);
  }

  lemma StartWork(c: Settings, p: Payload, a: Consumer, b: Consumer) returns (tr: Trace)
    ensures Lawful(c, tr) && Round(tr.Last(), p, map[0 := Working(p, a)], b, 1) && SameRecords(START, tr.Last())
    ensures tr.Last().now == 0 && tr.Last().processed[1] == 1
    ensures c.minIdle >= 1 ==> InTime(c, tr)
  {
    tr := GetReady(c, p, a, b);
    ReadAndEnter(tr.Last(), c, p, a, b);
    tr := More(c, tr, Advance(0, ""));
    tr := More(c, tr, Advance(0, ""));
  }

  /** The processor works on while the entry is claimed beyond its budget. */
  lemma Overlap(c: Settings, p: Payload, a: Consumer, b: Consumer) returns (tr: Trace)
    ensures Lawful(c, tr) && Claimed(tr.Last(), p, map[0 := Working(p, a)], b, Budget(c) + 1)
    ensures SameRecords(START, tr.Last()) && tr.Last().processed[1] == Budget(c)
  {
    tr := StartWork(c, p, a, b);
    tr := ClaimAfter(c, tr, p, map[0 := Working(p, a)], b, Budget(c));
  }

  // ---- A late acknowledgement ----

  /** The processor answers at last. */
  lemma AnswerLate(s: State, c: Settings, p: Payload, a: Consumer)
    requires 0 in s.tasks && s.tasks[0] == Working(p, a) && s.stream.entries == [p]
    ensures var s2 := Step(Step(s, c, Advance(0, "done")), c, Advance(0, ""));
      && HasResult(s2, 1) && Written(1, p.request, "done") in s2.written
      && s2.stream == s.stream && s2.now == s.now && s2.processed == s.processed
      && s2.dead == s.dead && s2.trail == s.trail
      && s2.tasks == s.tasks[0 := Task(Processor, a, Acking, [Lease(1, p, 0, 1)], [])]
  {
    var s1 := Step(s, c, Advance(0, "done"));
    assert s1.tasks[0] == Task(Processor, a, Storing("done"), [Lease(1, p, 0, 1)], []);
    var s2 := Step(s1, c, Advance(0, ""));
    assert Written(1, p.request, "done") in s2.written;
  }

  lemma BlindRetry(s: State, c: Settings, b: Consumer, l: Lease)
    requires c.maxRetries >= 0 && s.stream.pending == map[] && l.id == 1
    requires 1 in s.tasks && s.tasks[1] == Task(Recoverer, b, Triaging, [l], [])
    ensures Step(Step(s, c, Advance(1, "")), c, Advance(1, "")).processed[1] == s.processed[1] + 1
  {
    var s1 := Step(s, c, Advance(1, ""));
    assert s1.tasks[1] == Task(Recoverer, b, Processing, [l], []);
  }

  lemma AnswerAndAcknowledge(s: State, c: Settings, p: Payload, a: Consumer, b: Consumer, n: nat)
    requires Claimed(s, p, map[0 := Working(p, a)], b, n)
    ensures var s3 := Step(Step(Step(s, c, Advance(0, "done")), c, Advance(0, "")), c, Advance(0, ""));
      && s3.stream.pending == map[] && s3.processed == s.processed
      && 1 in s3.tasks && s3.tasks[1] == s.tasks[1]
  {
    AnswerLate(s, c, p, a);
    var s2 := Step(Step(s, c, Advance(0, "done")), c, Advance(0, ""));
    var s3 := Step(s2, c, Advance(0, ""));
    assert s3.stream.pending == map[];
  }

  /** Whatever the budget and the idle time: the processor acknowledges the entry between the recovery
      loop's last claim and its question for the delivery count, which is then 0, and the entry is
      processed once more than the budget allows. */
  lemma LateAcknowledgement(c: Settings, p: Payload, a: Consumer, b: Consumer) returns (actions: seq<Action>)
    requires c.maxRetries >= 0
    ensures Run(c, actions).processed[1] == Budget(c) + 1
  {
    var tr := Overlap(c, p, a, b);
    var claimed := tr.Last();
    AnswerAndAcknowledge(claimed, c, p, a, b, Budget(c) + 1);
    tr := More(c, tr, Advance(0, "done"));
    tr := More(c, tr, Advance(0, ""));
    tr := More(c, tr, Advance(0, ""));
    BlindRetry(tr.Last(), c, b, Lease(1, p, claimed.now, Budget(c) + 1));
    tr := More(c, tr, Advance(1, ""));
    tr := More(c, tr, Advance(1, ""));
    TraceIsRun(c, tr);
    actions := tr.actions;
  }

  /** So the budget holds in every run if and only if it is negative, when nothing is retried at all. */
  lemma BudgetHoldsIff(c: Settings)
    ensures (forall actions, id {:trigger Run(c, actions).processed[id]} :: Run(c, actions).processed[id] <= Budget(c))
      <==> c.maxRetries < 0
  {
    if c.maxRetries < 0 {
      forall actions, id
        ensures Run(c, actions).processed[id] <= Budget(c)
      {
        NegativeBudgetHolds(c, actions, id);
      }
    } else {
      var actions := LateAcknowledgement(c, Payload(RequestId(""), ""), Consumer("a"), Consumer("b"));
      assert Run(c, actions).processed[1] > Budget(c);
    }
  }

  // ---- Both records ----

  function LetterFor(p: Payload): RetryPolicies.DeadLetter {
    RetryPolicies.DeadLetter(1, p, RetryPolicies.EXHAUSTED)
  }

  /** A recovery loop buries what is beyond the budget. */
  lemma BurySteps(s: State, c: Settings, t: nat, p: Payload, b: Consumer, l: Lease)
    requires t in s.tasks && s.tasks[t] == Task(Recoverer, b, Triaging, [l], []) && l.id == 1 && l.payload == p
    requires s.stream.Deliveries(1) > c.maxRetries
    ensures var s1 := Step(s, c, Advance(t, ""));
      var s2 := Step(s1, c, Advance(t, ""));
      && s2.dead == s.dead + [LetterFor(p)] && s2.written == s.written && s2.trail == s.trail && s2.stream == s.stream
      && s1.now == s.now && s1.tasks == s.tasks[t := Task(Recoverer, b, Burying, [l], [])]
      && s2.now == s.now && s2.tasks == s.tasks[t := Task(Recoverer, b, Buried, [l], [])]
  {
    var s1 := Step(s, c, Advance(t, ""));
    assert s1.tasks[t] == Task(Recoverer, b, Burying, [l], []) && s1.trail == s.trail;
    var s2 := Step(s1, c, Advance(t, ""));
    assert s2.tasks[t] == Task(Recoverer, b, Buried, [l], []);
  }

  lemma LetterOf(s: State, p: Payload)
    requires s.stream.entries == [p] && LetterFor(p) in s.dead
    ensures HasLetter(s, 1)
  {
  }

  /** Both records by overlap, without any fault between SETEX and XACK: the entry is buried while the
      processor works on it. For every budget and idle time. */
  lemma OverlapAnsweredAndBuried(c: Settings, p: Payload, a: Consumer, b: Consumer) returns (actions: seq<Action>)
    ensures var s := Run(c, actions); HasResult(s, 1) && HasLetter(s, 1) && s.trail.torn == {}
  {
    var tr := Overlap(c, p, a, b);
    var claimed := tr.Last();
    BurySteps(claimed, c, 1, p, b, Lease(1, p, claimed.now, Budget(c) + 1));
    tr := More(c, tr, Advance(1, ""));
    tr := More(c, tr, Advance(1, ""));
    AnswerLate(tr.Last(), c, p, a);
    tr := More(c, tr, Advance(0, "done"));
    tr := More(c, tr, Advance(0, ""));
    LetterOf(tr.Last(), p);
    TraceIsRun(c, tr);
    actions := tr.actions;
  }

  lemma TearSteps(s: State, c: Settings, p: Payload, a: Consumer, b: Consumer)
    requires Round(s, p, map[0 := Working(p, a)], b, 1) && s.now == 0
    ensures var s1 := Step(s, c, Advance(0, "done"));
      var s2 := Step(s1, c, Advance(0, ""));
      var s3 := Step(s2, c, Fault(0));
      && Round(s3, p, map[0 := Task(Processor, a, Idle, [], [])], b, 1) && Written(1, p.request, "done") in s3.written
      && s1.now == 0 && s1.tasks == s.tasks[0 := Task(Processor, a, Storing("done"), [Lease(1, p, 0, 1)], [])]
      && s2.now == 0 && s2.tasks == s.tasks[0 := Task(Processor, a, Acking, [Lease(1, p, 0, 1)], [])]
  {
    AnswerLate(s, c, p, a);
    var s1 := Step(s, c, Advance(0, "done"));
    var s2 := Step(s1, c, Advance(0, ""));
    var s3 := Step(s2, c, Fault(0));
    assert s3.tasks[0] == Task(Processor, a, Idle, [], []);
    assert s3.written == s2.written;
  }

  lemma AllNew(s: State, c: Settings)
    requires c.minIdle >= 1 && forall t, l {:trigger Holds(s, t, l)} :: Holds(s, t, l) ==> l.at == s.now
    ensures Timely(s, c, 1)
  {
  }

  lemma Tear(c: Settings, p: Payload, a: Consumer, b: Consumer) returns (tr: Trace)
    requires c.minIdle >= 1
    ensures Lawful(c, tr) && Round(tr.Last(), p, map[0 := Task(Processor, a, Idle, [], [])], b, 1) && InTime(c, tr)
    ensures Written(1, p.request, "done") in tr.Last().written
  {
    tr := StartWork(c, p, a, b);
    TearSteps(tr.Last(), c, p, a, b);
    tr := More(c, tr, Advance(0, "done"));
    AllNew(tr.Last(), c);
    tr := More(c, tr, Advance(0, ""));
    AllNew(tr.Last(), c);
    tr := More(c, tr, Fault(0));
    AllNew(tr.Last(), c);
  }

  lemma GiveUpOn(c: Settings, tr: Trace, p: Payload, rest: map<nat, Task>, b: Consumer, n: nat) returns (more: Trace)
    requires Lawful(c, tr) && Claimed(tr.Last(), p, rest, b, n) && n > c.maxRetries
    ensures GoesOn(c, tr, more, rest) && Holding(more.Last(), p, rest, b, n, Burying)
  {
    var l := Lease(1, p, tr.Last().now, n);
    assert Step(tr.Last(), c, Advance(1, "")).tasks[1] == Task(Recoverer, b, Burying, [l], []);
    more := Go(c, tr, Advance(1, ""), rest, Task(Recoverer, b, Burying, [l], []));
  }

  lemma LetterOn(c: Settings, tr: Trace, p: Payload, rest: map<nat, Task>, b: Consumer, n: nat) returns (more: Trace)
    requires Lawful(c, tr) && Holding(tr.Last(), p, rest, b, n, Burying)
    ensures Lawful(c, more) && KeepsTime(c, tr, more, rest) && Holding(more.Last(), p, rest, b, n, Buried)
    ensures more.Last().dead == tr.Last().dead + [LetterFor(p)] && more.Last().written == tr.Last().written
  {
    var l := Lease(1, p, tr.Last().now, n);
    assert Step(tr.Last(), c, Advance(1, "")).tasks[1] == Task(Recoverer, b, Buried, [l], []);
    more := Go(c, tr, Advance(1, ""), rest, Task(Recoverer, b, Buried, [l], []));
  }

  lemma BuryOn(c: Settings, claimed: Trace, p: Payload, rest: map<nat, Task>, b: Consumer, n: nat)
      returns (tr: Trace)
    requires Lawful(c, claimed) && Claimed(claimed.Last(), p, rest, b, n) && n > c.maxRetries
    ensures Lawful(c, tr) && KeepsTime(c, claimed, tr, rest) && Holding(tr.Last(), p, rest, b, n, Buried)
    ensures tr.Last().dead == claimed.Last().dead + [LetterFor(p)] && tr.Last().written == claimed.Last().written
  {
    tr := GiveUpOn(c, claimed, p, rest, b, n);
    tr := LetterOn(c, tr, p, rest, b, n);
  }

  /** Both records in a run in which every hand-out ends in time: a fault hits the processor between SETEX
      and XACK, and the entry then runs out of budget. For every budget and every positive idle time. */
  lemma TornAnsweredAndBuried(c: Settings, p: Payload, a: Consumer, b: Consumer) returns (actions: seq<Action>)
    requires c.minIdle >= 1
    ensures var s := Run(c, actions); HasResult(s, 1) && HasLetter(s, 1)
    ensures TimelyRun(c, actions, 1)
  {
    var rest := map[0 := Task(Processor, a, Idle, [], [])];
    var tr := Tear(c, p, a, b);
    tr := ClaimAfter(c, tr, p, rest, b, Budget(c));
    tr := BuryOn(c, tr, p, rest, b, Budget(c) + 1);
    ResultOf(tr.Last(), p);
    LetterOf(tr.Last(), p);
    TraceIsRun(c, tr);
    actions := tr.actions;
  }

  lemma ResultOf(s: State, p: Payload)
    requires s.stream.entries == [p] && Written(1, p.request, "done") in s.written
    ensures HasResult(s, 1)
  {
  }

  // ---- Two letters ----

  /** The processor drops the entry in good time. */
  lemma FailFirst(c: Settings, p: Payload, a: Consumer, b: Consumer) returns (tr: Trace)
    ensures Lawful(c, tr) && Round(tr.Last(), p, map[0 := Task(Processor, a, Idle, [], [])], b, 1)
    ensures SameRecords(START, tr.Last())
    ensures c.minIdle >= 1 ==> InTime(c, tr)
  {
    tr := StartWork(c, p, a, b);
    FailStep(tr.Last(), c, p, a, b);
    tr := More(c, tr, Fault(0));
  }

  lemma FailStep(s: State, c: Settings, p: Payload, a: Consumer, b: Consumer)
    requires Round(s, p, map[0 := Working(p, a)], b, 1)
    ensures Round(Step(s, c, Fault(0)), p, map[0 := Task(Processor, a, Idle, [], [])], b, 1)
    ensures SameRecords(s, Step(s, c, Fault(0)))
  {
    var s' := Step(s, c, Fault(0));
    assert s'.tasks[0] == Task(Processor, a, Idle, [], []);
  }

  /** Two letters although every hand-out ends in time: a fault hits the recovery loop between the dead
      letter and its acknowledgement, and the next recovery buries the entry again. */
  lemma StrandedTwice(c: Settings, p: Payload, a: Consumer, b: Consumer) returns (actions: seq<Action>)
    requires c.minIdle >= 1
    ensures Letters(Run(c, actions).dead, 1) == 2 && TimelyRun(c, actions, 1)
  {
    var rest := map[0 := Task(Processor, a, Idle, [], [])];
    var n := Budget(c) + 1;
    var tr := FailFirst(c, p, a, b);
    tr := ClaimAfter(c, tr, p, rest, b, n - 1);
    tr := BuryOn(c, tr, p, rest, b, n);
    tr := FaultOn(c, tr, p, rest, b, n, Buried);
    tr := ClaimAgain(c, tr, p, rest, b, n);
    tr := BuryOn(c, tr, p, rest, b, n + 1);
    assert tr.Last().dead == [] + [LetterFor(p)] + [LetterFor(p)];
    TwoLetters(p);
    TraceIsRun(c, tr);
    actions := tr.actions;
  }

  lemma TwoLetters(p: Payload)
    ensures Letters([] + [LetterFor(p)] + [LetterFor(p)], 1) == 2
  {
    LettersSnoc([], LetterFor(p), 1);
    LettersSnoc([] + [LetterFor(p)], LetterFor(p), 1);
  }

  /** Two recovery loops hold the entry beyond its budget. */
  ghost predicate BothHold(s: State, p: Payload, b: Consumer, d: Consumer, l: Lease, m: Lease) {
    && 1 in s.tasks && s.tasks[1] == Task(Recoverer, b, Triaging, [l], []) && l.id == 1 && l.payload == p
    && 2 in s.tasks && s.tasks[2] == Task(Recoverer, d, Triaging, [m], []) && m.id == 1 && m.payload == p
    && s.stream.Deliveries(1) == m.number
  }

  lemma ClaimedTwice(
      s: State, s': State, now: int, p: Payload, rest: map<nat, Task>, b: Consumer, d: Consumer, n: nat)
    requires Claimed(s, p, rest, b, n) && HandedOver(s.(now := now), s', 2, p, d, n + 1)
    ensures BothHold(s', p, b, d, Lease(1, p, s.now, n), Lease(1, p, now, n + 1)) && SameRecords(s, s')
  {
  }

  lemma ClaimTwice(s: State, c: Settings, p: Payload, rest: map<nat, Task>, b: Consumer, d: Consumer, n: nat)
    requires Claimed(s, p, rest, b, n) && 2 in rest && rest[2] == Task(Recoverer, d, Idle, [], [])
    ensures var s' := Step(Later(s, c), c, Advance(2, ""));
      && BothHold(s', p, b, d, Lease(1, p, s.now, n), Lease(1, p, Later(s, c).now, n + 1)) && SameRecords(s, s')
  {
    LaterIs(s, c);
    var w := s.(now := s.now + Idling(c));
    ClaimStep(w, c, 2, p, d);
    ClaimedTwice(s, Step(w, c, Advance(2, "")), w.now, p, rest, b, d, n);
  }

  /** Both bury it. */
  lemma BuryTwice(s: State, c: Settings, p: Payload, b: Consumer, d: Consumer, l: Lease, m: Lease)
    requires BothHold(s, p, b, d, l, m) && m.number > c.maxRetries
    ensures var s2 := Step(Step(s, c, Advance(1, "")), c, Advance(1, ""));
      var s4 := Step(Step(s2, c, Advance(2, "")), c, Advance(2, ""));
      s4.dead == s.dead + [LetterFor(p)] + [LetterFor(p)] && s4.trail == s.trail
  {
    BurySteps(s, c, 1, p, b, l);
    BurySteps(Step(Step(s, c, Advance(1, "")), c, Advance(1, "")), c, 2, p, d, m);
  }

  lemma SecondLoop(c: Settings, start: Trace, p: Payload, k: Task, b: Consumer, d: Consumer)
      returns (tr: Trace)
    requires Lawful(c, start) && Round(start.Last(), p, map[0 := k], b, 1)
    ensures Lawful(c, tr) && Round(tr.Last(), p, map[0 := k, 2 := Task(Recoverer, d, Idle, [], [])], b, 1)
    ensures SameRecords(start.Last(), tr.Last())
  {
    tr := More(c, start, Spawn(2, Recoverer, d));
    var rest := map[0 := k, 2 := Task(Recoverer, d, Idle, [], [])];
    assert tr.Last().tasks == rest[1 := Task(Recoverer, b, Idle, [], [])];
  }

  /** Two letters although no fault hits a recovery loop: a second one claims the entry while the first
      holds it, and both bury it. For every budget and idle time. */
  lemma OverlapTwice(c: Settings, p: Payload, a: Consumer, b: Consumer, d: Consumer) returns (actions: seq<Action>)
    ensures Letters(Run(c, actions).dead, 1) == 2 && Run(c, actions).trail.stranded == multiset{}
  {
    var k := Task(Processor, a, Idle, [], []);
    var rest := map[0 := k, 2 := Task(Recoverer, d, Idle, [], [])];
    var tr := FailFirst(c, p, a, b);
    tr := SecondLoop(c, tr, p, k, b, d);
    tr := ClaimAfter(c, tr, p, rest, b, Budget(c));
    tr := BothBury(c, tr, p, rest, b, d, Budget(c) + 1);
    TwoLetters(p);
    TraceIsRun(c, tr);
    actions := tr.actions;
  }

  lemma BothBury(c: Settings, claimed: Trace, p: Payload, rest: map<nat, Task>, b: Consumer, d: Consumer, n: nat)
      returns (tr: Trace)
    requires Lawful(c, claimed) && Claimed(claimed.Last(), p, rest, b, n) && n > c.maxRetries
    requires 2 in rest && rest[2] == Task(Recoverer, d, Idle, [], [])
    ensures Lawful(c, tr) && tr.Last().dead == claimed.Last().dead + [LetterFor(p)] + [LetterFor(p)]
    ensures tr.Last().trail.stranded == claimed.Last().trail.stranded
  {
    var s := claimed.Last();
    ClaimTwice(s, c, p, rest, b, d, n);
    tr := More(c, claimed, Tick(Idling(c)));
    tr := More(c, tr, Advance(2, ""));
    BuryTwice(tr.Last(), c, p, b, d, Lease(1, p, s.now, n), Lease(1, p, Later(s, c).now, n + 1));
    tr := More(c, tr, Advance(1, ""));
    tr := More(c, tr, Advance(1, ""));
    tr := More(c, tr, Advance(2, ""));
    tr := More(c, tr, Advance(2, ""));
  }
}
