/** One entry at a time. */
module LeaseSafety {
  // As long as an entry is never claimed while a task still holds it, it is worked on by one task at a time
  // and processed no more often than the retry budget allows. Giving up each hand-out of the entry before
  // `min_idle_ms` has passed is enough for that, whatever becomes of other entries.

  import opened Streams
  import opened QueueProtocol
  import opened Handouts

  ghost predicate Holds(s: State, t: nat, l: Lease) {
    t in s.tasks && l in Leases(s.tasks[t])
  }

  /** A held lease is the entry's current hand-out. */
  ghost predicate Current(s: State, l: Lease) {
    l.id in s.stream.pending && s.stream.pending[l.id].since == l.at && s.stream.pending[l.id].deliveries == l.number
  }

  ghost predicate CurrentAt(s: State, t: nat, id: nat) {
    t in s.tasks ==> forall l :: l in Leases(s.tasks[t]) && l.id == id ==> Current(s, l)
  }

  ghost predicate AloneAt(s: State, t: nat, u: nat, id: nat) {
    t in s.tasks && u in s.tasks && t != u ==> !(HoldsEntry(s.tasks[t], id) && HoldsEntry(s.tasks[u], id))
  }

  ghost predicate AtMostOneHolder(s: State, id: nat) {
    forall t, u {:trigger AloneAt(s, t, u, id)} :: AloneAt(s, t, u, id)
  }

  ghost predicate NeverBlind(s: State, id: nat) {
    forall h :: h in s.trail.blind ==> h.entry != id
  }

  ghost predicate Sole(s: State, id: nat) {
    && (forall t {:trigger CurrentAt(s, t, id)} :: CurrentAt(s, t, id))
    && AtMostOneHolder(s, id)
    && NeverBlind(s, id)
  }

  /** The pending record of an entry is as it was. */
  ghost predicate SameRecord(s: State, s': State, id: nat) {
    id in s.stream.pending ==> id in s'.stream.pending && s'.stream.pending[id] == s.stream.pending[id]
  }

  // ---- Each command keeps it ----

  /** A task that goes on with some of its leases, the entry's record untouched. */
  lemma FewerSole(s: State, s': State, t: nat, k: Task, id: nat)
    requires Sole(s, id) && SameRecord(s, s', id) && NeverBlind(s', id)
    requires s'.tasks == s.tasks[t := k] && forall l :: l in Leases(k) ==> t in s.tasks && l in Leases(s.tasks[t])
    ensures Sole(s', id)
  {
    forall u
      ensures CurrentAt(s', u, id)
    {
      assert CurrentAt(s, u, id) && CurrentAt(s, t, id);
    }
    forall u, v
      ensures AloneAt(s', u, v, id)
    {
      assert AloneAt(s, u, v, id);
    }
  }

  /** An entry that only one task can hold, and that one as its current hand-out. */
  lemma OneHolderSole(s: State, s': State, t: nat, id: nat)
    requires NeverBlind(s', id) && t in s'.tasks && s'.tasks == s.tasks[t := s'.tasks[t]]
    requires forall u :: u in s.tasks && u != t ==> !HoldsEntry(s.tasks[u], id)
    requires forall l :: l in Leases(s'.tasks[t]) && l.id == id ==> Current(s', l)
    ensures Sole(s', id)
  {
    forall u
      ensures CurrentAt(s', u, id)
    {
      if u in s'.tasks && u != t {
        assert !HoldsEntry(s.tasks[u], id);
      }
    }
    forall u, v
      ensures AloneAt(s', u, v, id)
    {
    }
  }

  lemma ReadSole(s: State, c: Settings, t: nat, id: nat)
    requires Inv(s, c) && Sole(s, id) && t in s.tasks && s.stream.delivered < |s.stream.entries|
    requires s.tasks[t].stage.Idle?
    ensures Sole(ReadNext(s, t), id)
  {
    var s' := ReadNext(s, t);
    var next := s.stream.delivered + 1;
    assert Leases(s'.tasks[t]) == [Lease(next, s.stream.entries[next - 1], s.now, 1)];
    if id == next {
      forall u | u in s.tasks && u != t
        ensures !HoldsEntry(s.tasks[u], id)
      {
        assert OkAt(s, c, u);
      }
      OneHolderSole(s, s', t, id);
    } else {
      ReadOtherSole(s, s', t, id);
    }
  }

  lemma ReadOtherSole(s: State, s': State, t: nat, id: nat)
    requires Sole(s, id) && t in s'.tasks && s'.tasks == s.tasks[t := s'.tasks[t]]
    requires SameRecord(s, s', id) && NeverBlind(s', id)
    requires forall l :: l in Leases(s'.tasks[t]) ==> l.id != id
    ensures Sole(s', id)
  {
    forall u
      ensures CurrentAt(s', u, id)
    {
      assert CurrentAt(s, u, id);
    }
    forall u, v
      ensures AloneAt(s', u, v, id)
    {
      assert AloneAt(s, u, v, id);
    }
  }

  lemma ClaimedLease(s: State, s': State, c: Settings, t: nat, cursor: nat, l: Lease)
    requires Ledger(s) && Ledger(s') && t in s.tasks && s.tasks[t].kept == [] && s' == ClaimPage(s, c, t, cursor)
    requires l in Leases(s'.tasks[t])
    ensures var page := PageFrom(s.stream, cursor, s.now, c.minIdle).claimed;
      l in Leases(s.tasks[t]) || (l.id in page && Current(s', l))
  {
    var page := PageFrom(s.stream, cursor, s.now, c.minIdle).claimed;
    PageAdvances(s.stream, cursor, s.now, c.minIdle);
    LeasesAfterClaim(s, s', c, t, cursor);
    if l in s.tasks[t].held {
      assert l in Leases(s.tasks[t]);
    } else {
      AddedLease(s, s', page, s.tasks[t].owner, l);
    }
  }

  lemma ClaimSole(s: State, c: Settings, t: nat, cursor: nat, id: nat)
    requires t in s.tasks && s.tasks[t].kept == []
    requires Ledger(s) && Ledger(ClaimPage(s, c, t, cursor)) && Sole(s, id)
    requires id !in ClaimPage(s, c, t, cursor).trail.overlapped
    ensures Sole(ClaimPage(s, c, t, cursor), id)
  {
    var s' := ClaimPage(s, c, t, cursor);
    var page := PageFrom(s.stream, cursor, s.now, c.minIdle).claimed;
    forall l | l in Leases(s'.tasks[t]) && l.id == id
      ensures l in Leases(s.tasks[t]) || (id in page && Current(s', l))
    {
      ClaimedLease(s, s', c, t, cursor, l);
    }
    if id in page {
      assert id !in AlreadyHeld(s, page);
      forall u | u in s.tasks
        ensures !HoldsEntry(s.tasks[u], id)
      {
      }
      forall l | l in Leases(s'.tasks[t]) && l.id == id
        ensures Current(s', l)
      {
        assert !HoldsEntry(s.tasks[t], id);
      }
      OneHolderSole(s, s', t, id);
    } else {
      UnclaimedSole(s, s', t, id);
    }
  }

  lemma UnclaimedSole(s: State, s': State, t: nat, id: nat)
    requires Sole(s, id) && t in s.tasks && t in s'.tasks && s'.tasks == s.tasks[t := s'.tasks[t]]
    requires SameRecord(s, s', id) && NeverBlind(s', id)
    requires forall l :: l in Leases(s'.tasks[t]) && l.id == id ==> l in Leases(s.tasks[t])
    ensures Sole(s', id)
  {
    forall u
      ensures CurrentAt(s', u, id)
    {
      assert CurrentAt(s, u, id);
    }
    forall u, v
      ensures AloneAt(s', u, v, id)
    {
      assert AloneAt(s, u, v, id);
    }
  }

  lemma TriageSole(s: State, c: Settings, t: nat, id: nat)
    requires Sole(s, id) && t in s.tasks && s.tasks[t].held != [] && s.tasks[t].stage.Triaging?
    ensures Sole(Triage(s, c, t), id)
  {
    var k := s.tasks[t];
    assert CurrentAt(s, t, id) && k.held[0] in Leases(k);
    KeptParts(k);
    FewerSole(s, Triage(s, c, t), t, Triage(s, c, t).tasks[t], id);
  }

  lemma AcknowledgeSole(s: State, c: Settings, t: nat, id: nat)
    requires Inv(s, c) && Sole(s, id) && t in s.tasks && s.tasks[t].held != []
    requires s.tasks[t].stage.Buried? || s.tasks[t].stage.Acking?
    ensures Sole(Acknowledge(s, t), id)
  {
    var s', k := Acknowledge(s, t), s.tasks[t];
    assert OkAt(s, c, t);
    TailDistinct(s, c, k);
    assert forall l :: l in Leases(s'.tasks[t]) ==> l in k.kept + k.held[1..];
    if id == k.held[0].id {
      assert k.held[0] in Leases(k);
      forall u | u in s.tasks && u != t
        ensures !HoldsEntry(s.tasks[u], id)
      {
        assert AloneAt(s, t, u, id);
      }
      OneHolderSole(s, s', t, id);
    } else {
      FewerSole(s, s', t, s'.tasks[t], id);
    }
  }

  /** The same leases in another stage. */
  lemma SameLeasesSole(s: State, c: Settings, t: nat, result: string, id: nat)
    requires Sole(s, id) && t in s.tasks && s.tasks[t].held != []
    requires var stage := s.tasks[t].stage;
      stage.Burying? || stage.Processing? || stage.Running? || stage.Storing?
    ensures Sole(AdvanceHeld(s, c, t, result), id)
  {
    var s' := AdvanceHeld(s, c, t, result);
    assert Leases(s'.tasks[t]) == Leases(s.tasks[t]);
    FewerSole(s, s', t, s'.tasks[t], id);
  }

  lemma NextClaimSole(s: State, c: Settings, t: nat, cursor: nat, id: nat)
    requires Inv(s, c) && Sole(s, id) && t in s.tasks
    requires (s.tasks[t].stage.Idle? && cursor == 0) || s.tasks[t].stage == Reclaiming(cursor)
    requires id !in ClaimPage(s, c, t, cursor).trail.overlapped
    ensures Sole(ClaimPage(s, c, t, cursor), id)
  {
    assert OkAt(s, c, t);
    ClaimKeeps(s, c, t, cursor);
    ClaimSole(s, c, t, cursor, id);
  }

  lemma HeldSole(s: State, c: Settings, t: nat, result: string, id: nat)
    requires Inv(s, c) && Sole(s, id) && t in s.tasks && s.tasks[t].held != []
    requires !s.tasks[t].stage.Idle? && !s.tasks[t].stage.Reclaiming?
    ensures Sole(AdvanceHeld(s, c, t, result), id)
  {
    var stage := s.tasks[t].stage;
    if stage.Triaging? {
      TriageSole(s, c, t, id);
    } else if stage.Buried? || stage.Acking? {
      AcknowledgeSole(s, c, t, id);
    } else {
      SameLeasesSole(s, c, t, result, id);
    }
  }

  lemma AdvanceSole(s: State, c: Settings, t: nat, result: string, id: nat)
    requires Inv(s, c) && Sole(s, id) && t in s.tasks && id !in AdvanceTask(s, c, t, result).trail.overlapped
    ensures Sole(AdvanceTask(s, c, t, result), id)
  {
    match s.tasks[t].stage
    case Reclaiming(cursor) => NextClaimSole(s, c, t, cursor, id);
    case Idle =>
      if s.tasks[t].role.Recoverer? {
        NextClaimSole(s, c, t, 0, id);
      } else if s.stream.delivered < |s.stream.entries| {
        ReadSole(s, c, t, id);
      }
    case _ =>
      if s.tasks[t].held != [] {
        HeldSole(s, c, t, result, id);
      }
  }

  lemma StepSole(s: State, c: Settings, a: Action, id: nat)
    requires Inv(s, c) && Sole(s, id) && id !in Step(s, c, a).trail.overlapped
    ensures Sole(Step(s, c, a), id)
  {
    match a
    case Enqueue(p) => SameTasksSole(s, Step(s, c, a), id);
    case Tick(ms) => SameTasksSole(s, Step(s, c, a), id);
    case Spawn(t, role, owner) =>
      if t !in s.tasks {
        FewerSole(s, Step(s, c, a), t, Task(role, owner, Idle, [], []), id);
      }
    case Fault(t) =>
      if t in s.tasks {
        FewerSole(s, Step(s, c, a), t, Dropped(s.tasks[t]), id);
      }
    case Advance(t, result) =>
      if t in s.tasks {
        AdvanceSole(s, c, t, result, id);
      }
  }

  lemma SameTasksSole(s: State, s': State, id: nat)
    requires Sole(s, id) && s'.tasks == s.tasks && SameRecord(s, s', id) && s'.trail == s.trail
    ensures Sole(s', id)
  {
    forall u
      ensures CurrentAt(s', u, id)
    {
      assert CurrentAt(s, u, id);
    }
    forall u, v
      ensures AloneAt(s', u, v, id)
    {
      assert AloneAt(s, u, v, id);
    }
  }

  lemma OverlappedGrows(s: State, c: Settings, a: Action)
    ensures s.trail.overlapped <= Step(s, c, a).trail.overlapped
  {
  }

  lemma {:induction false} RunSole(c: Settings, actions: seq<Action>, id: nat)
    requires id !in Run(c, actions).trail.overlapped
    ensures Sole(Run(c, actions), id)
  {
    if actions != [] {
      var front, last := actions[..|actions| - 1], actions[|actions| - 1];
      OverlappedGrows(Run(c, front), c, last);
      RunSole(c, front, id);
      RunKeeps(c, front);
      StepSole(Run(c, front), c, last, id);
    }
  }

  // ---- Every run ----

  /** An entry that was never claimed while held is held by at most one task, once, as the hand-out that
      the pending list records. */
  lemma OneHolder(c: Settings, actions: seq<Action>, t: nat, l: Lease, u: nat, m: Lease)
    requires Holds(Run(c, actions), t, l) && Holds(Run(c, actions), u, m) && l.id == m.id
    requires l.id !in Run(c, actions).trail.overlapped
    ensures t == u && l == m && Current(Run(c, actions), l)
  {
    var s := Run(c, actions);
    RunSole(c, actions, l.id);
    RunKeeps(c, actions);
    assert CurrentAt(s, t, l.id) && AloneAt(s, t, u, l.id) && OkAt(s, c, t);
    SameId(Leases(s.tasks[t]), l, m);
  }

  lemma SameId(ls: seq<Lease>, l: Lease, m: Lease)
    requires AscendingLeases(ls) && l in ls && m in ls && l.id == m.id
    ensures l == m
  {
    var i :| 0 <= i < |ls| && ls[i] == l;
    var j :| 0 <= j < |ls| && ls[j] == m;
    assert i == j;
  }

  /** A page holds none of the entries that its task holds: they lie below the cursor. */
  lemma PageIsNew(s: State, c: Settings, t: nat, cursor: nat, id: nat)
    requires s.stream.Valid() && t in s.tasks && TaskOk(s, c, s.tasks[t])
    requires (s.tasks[t].stage.Idle? && cursor == 0) || s.tasks[t].stage == Reclaiming(cursor)
    requires id in PageFrom(s.stream, cursor, s.now, c.minIdle).claimed
    ensures !HoldsEntry(s.tasks[t], id)
  {
    PageAdvances(s.stream, cursor, s.now, c.minIdle);
    assert Leases(s.tasks[t]) == s.tasks[t].held;
  }

  lemma ClaimantHolds(s: State, s': State, c: Settings, t: nat, cursor: nat, id: nat)
    requires t in s.tasks && s.tasks[t].kept == [] && s' == ClaimPage(s, c, t, cursor)
    requires id in PageFrom(s.stream, cursor, s.now, c.minIdle).claimed
    ensures HoldsEntry(s'.tasks[t], id)
  {
    var page := PageFrom(s.stream, cursor, s.now, c.minIdle).claimed;
    LeasesAfterClaim(s, s', c, t, cursor);
    var added := Seqs.Map(page, LeaseAt(s'.stream, s.now));
    var i :| 0 <= i < |page| && page[i] == id;
    assert Leases(s'.tasks[t])[|s.tasks[t].held| + i] == added[i];
  }

  lemma ClaimHasTwoHolders(s: State, c: Settings, t: nat, cursor: nat, id: nat)
    requires s.stream.Valid() && t in s.tasks && TaskOk(s, c, s.tasks[t])
    requires (s.tasks[t].stage.Idle? && cursor == 0) || s.tasks[t].stage == Reclaiming(cursor)
    requires id in AlreadyHeld(s, PageFrom(s.stream, cursor, s.now, c.minIdle).claimed)
    ensures !AtMostOneHolder(ClaimPage(s, c, t, cursor), id)
  {
    var s' := ClaimPage(s, c, t, cursor);
    PageIsNew(s, c, t, cursor, id);
    ClaimantHolds(s, s', c, t, cursor, id);
    var u :| u in s.tasks && HoldsEntry(s.tasks[u], id);
    assert u != t && s'.tasks[u] == s.tasks[u];
    assert !AloneAt(s', t, u, id);
  }

  /** The cursor of a task's next call. */
  function CursorOf(k: Task): nat {
    if k.stage.Reclaiming? then k.stage.cursor else 0
  }

  /** Only a claim overlaps. */
  lemma OverlapIsClaim(s: State, c: Settings, a: Action, id: nat)
    requires id !in s.trail.overlapped && id in Step(s, c, a).trail.overlapped
    ensures a.Advance? && a.task in s.tasks
    ensures var k := s.tasks[a.task];
      && (k.stage.Idle? || k.stage.Reclaiming?)
      && Step(s, c, a) == ClaimPage(s, c, a.task, CursorOf(k))
      && id in AlreadyHeld(s, PageFrom(s.stream, CursorOf(k), s.now, c.minIdle).claimed)
  {
  }

  /** A claim of a held entry leaves it with two holders. */
  lemma OverlapHasTwoHolders(s: State, c: Settings, a: Action, id: nat)
    requires Inv(s, c) && id !in s.trail.overlapped && id in Step(s, c, a).trail.overlapped
    ensures !AtMostOneHolder(Step(s, c, a), id)
  {
    OverlapIsClaim(s, c, a, id);
    assert OkAt(s, c, a.task);
    ClaimHasTwoHolders(s, c, a.task, CursorOf(s.tasks[a.task]), id);
  }

  lemma {:induction false} FirstOverlap(c: Settings, actions: seq<Action>, id: nat) returns (n: nat)
    requires id in Run(c, actions).trail.overlapped
    ensures n <= |actions| && !AtMostOneHolder(Run(c, actions[..n]), id)
  {
    var front, last := actions[..|actions| - 1], actions[|actions| - 1];
    if id in Run(c, front).trail.overlapped {
      n := FirstOverlap(c, front, id);
      assert front[..n] == actions[..n];
    } else {
      n := |actions|;
      assert actions[..n] == actions;
      RunKeeps(c, front);
      OverlapHasTwoHolders(Run(c, front), c, last, id);
    }
  }

  lemma {:induction false} OverlappedRun(c: Settings, actions: seq<Action>, n: nat)
    requires n <= |actions|
    ensures Run(c, actions[..n]).trail.overlapped <= Run(c, actions).trail.overlapped
  {
    if n == |actions| {
      assert actions[..n] == actions;
    } else {
      var front := actions[..|actions| - 1];
      assert front[..n] == actions[..n];
      OverlappedRun(c, front, n);
      OverlappedGrows(Run(c, front), c, actions[|actions| - 1]);
    }
  }

  /** Throughout a run an entry has one holder at a time if and only if it is never claimed while a task
      holds it. */
  lemma OneHolderIff(c: Settings, actions: seq<Action>, id: nat)
    ensures id !in Run(c, actions).trail.overlapped <==>
      forall n: nat {:trigger actions[..n]} :: n <= |actions| ==> AtMostOneHolder(Run(c, actions[..n]), id)
  {
    if id in Run(c, actions).trail.overlapped {
      var n := FirstOverlap(c, actions, id);
      assert n <= |actions| && !AtMostOneHolder(Run(c, actions[..n]), id);
    } else {
      forall n: nat | n <= |actions|
        ensures AtMostOneHolder(Run(c, actions[..n]), id)
      {
        OverlappedRun(c, actions, n);
        RunSole(c, actions[..n], id);
      }
    }
  }

  /** Such an entry reaches `_process_job` at most max(1, max_retries) times. */
  lemma ProcessedWithinBudget(c: Settings, actions: seq<Action>, id: nat)
    requires id !in Run(c, actions).trail.overlapped
    ensures Run(c, actions).processed[id] <= Budget(c)
  {
    var s := Run(c, actions);
    RunSole(c, actions, id);
    ProcessedWithinDecisions(c, actions, id);
    assert Of(s.trail.blind, id) == {};
  }

  // ---- Time ----

  /** No task has held the entry for as long as `min_idle_ms`. */
  ghost predicate Timely(s: State, c: Settings, id: nat) {
    forall t, l {:trigger Holds(s, t, l)} :: Holds(s, t, l) && l.id == id ==> s.now - l.at < c.minIdle
  }

  ghost predicate TimelyRun(c: Settings, actions: seq<Action>, id: nat) {
    Timely(Run(c, actions), c, id) && (actions != [] ==> TimelyRun(c, actions[..|actions| - 1], id))
  }

  /** An entry that is held in time is not stale. */
  lemma HeldIsFresh(s: State, c: Settings, cursor: nat, id: nat)
    requires s.stream.Valid() && Sole(s, id) && Timely(s, c, id)
    ensures id !in AlreadyHeld(s, PageFrom(s.stream, cursor, s.now, c.minIdle).claimed)
  {
    var page := PageFrom(s.stream, cursor, s.now, c.minIdle).claimed;
    PageAdvances(s.stream, cursor, s.now, c.minIdle);
    forall u | u in s.tasks && HoldsEntry(s.tasks[u], id)
      ensures id !in page
    {
      var l :| l in Leases(s.tasks[u]) && l.id == id;
      assert CurrentAt(s, u, id) && Current(s, l) && Holds(s, u, l);
    }
  }

  lemma TimelyStep(s: State, c: Settings, a: Action, id: nat)
    requires s.stream.Valid() && Sole(s, id) && Timely(s, c, id) && id !in s.trail.overlapped
    ensures id !in Step(s, c, a).trail.overlapped
  {
    if id in Step(s, c, a).trail.overlapped {
      OverlapIsClaim(s, c, a, id);
      HeldIsFresh(s, c, CursorOf(s.tasks[a.task]), id);
    }
  }

  /** If every hand-out of an entry is acknowledged, dead-lettered or dropped before `min_idle_ms` has
      passed, the entry is never claimed while held. */
  lemma {:induction false} TimelyNeverOverlaps(c: Settings, actions: seq<Action>, id: nat)
    requires TimelyRun(c, actions, id)
    ensures id !in Run(c, actions).trail.overlapped
  {
    if actions != [] {
      var front := actions[..|actions| - 1];
      TimelyNeverOverlaps(c, front, id);
      RunSole(c, front, id);
      RunKeeps(c, front);
      TimelyStep(Run(c, front), c, actions[|actions| - 1], id);
    }
  }
}
