/** The protocol refines the methods. */
module Refinement {
  // QueueProtocol and the methods of RetryPolicy and WorkerPool describe the same loops: a loop that runs
  // alone, command by command, ends where a round of the method ends.

  import opened Seqs
  import opened Streams
  import R = RetryPolicies
  import W = WorkerPools
  import opened QueueProtocol

  function Iterate<T>(f: T -> T, x: T, n: nat): T {
    if n == 0 then x else f(Iterate(f, x, n - 1))
  }

  lemma {:induction false} IterateAdd<T>(f: T -> T, x: T, m: nat, n: nat)
    ensures Iterate(f, Iterate(f, x, m), n) == Iterate(f, x, m + n)
    decreases n
  {
    if n > 0 {
      IterateAdd(f, x, m, n - 1);
    }
  }

  function Command(c: Settings, t: nat): State -> State {
    (s: State) => Step(s, c, Advance(t, ""))
  }

  /** `n` commands of one task with nothing in between. */
  function Solo(s: State, c: Settings, t: nat, n: nat): State {
    Iterate(Command(c, t), s, n)
  }

  lemma SoloOne(s: State, c: Settings, t: nat)
    ensures Solo(s, c, t, 1) == Step(s, c, Advance(t, ""))
  {
    assert Iterate(Command(c, t), s, 0) == s;
  }

  lemma SoloAdd(s: State, c: Settings, t: nat, m: nat, n: nat)
    ensures Solo(Solo(s, c, t, m), c, t, n) == Solo(s, c, t, m + n)
  {
    IterateAdd(Command(c, t), s, m, n);
  }

  function EntryOf(): Lease -> Entry { (l: Lease) => Entry(l.id, l.payload) }

  function EntriesOf(ls: seq<Lease>): seq<Entry> {
    Map(ls, EntryOf())
  }

  function ContentsOf(s: State): R.Contents {
    R.Contents(s.stream, s.dead, map[])
  }

  lemma LeasesEntries(s: Stream, now: int, ids: seq<nat>)
    ensures EntriesOf(Map(ids, LeaseAt(s, now))) == R.EntriesAt(s.entries, ids)
  {
    forall k | 0 <= k < |ids|
      ensures EntryOf()(LeaseAt(s, now)(ids[k])) == R.EntryAt(s.entries)(ids[k])
    {
    }
  }

  // ---- Triage ----

  /** A recovery loop at its next decision, or past the last one. */
  ghost predicate AtTriage(s: State, t: nat, owner: Consumer, held: seq<Lease>, kept: seq<Lease>) {
    t in s.tasks && s.tasks[t] == NextTriage(Task(Recoverer, owner, Triaging, held, kept))
  }

  /** No time has passed and no result was written. */
  ghost predicate SameClock(s: State, s': State) {
    s'.now == s.now && s'.written == s.written
  }

  /** One decision with the commands that follow from it. */
  lemma DecideOne(s: State, c: Settings, t: nat, owner: Consumer, held: seq<Lease>, kept: seq<Lease>)
    requires AtTriage(s, t, owner, held, kept) && held != []
    ensures var e := EntryOf()(held[0]);
      if s.stream.Deliveries(e.id) > c.maxRetries then
        var s' := Solo(s, c, t, 3);
        AtTriage(s', t, owner, held[1..], kept) && ContentsOf(s') == R.AfterBurial(ContentsOf(s), e) && SameClock(s, s')
      else
        var s' := Solo(s, c, t, 1);
        AtTriage(s', t, owner, held[1..], kept + [held[0]]) && ContentsOf(s') == ContentsOf(s) && SameClock(s, s')
  {
    var s1 := Solo(s, c, t, 1);
    SoloOne(s, c, t);
    if s.stream.Deliveries(held[0].id) > c.maxRetries {
      assert s1.tasks[t] == Task(Recoverer, owner, Burying, held, kept);
      var s2 := Solo(s, c, t, 2);
      SoloOne(s1, c, t);
      SoloAdd(s, c, t, 1, 1);
      assert s2.tasks[t] == Task(Recoverer, owner, Buried, held, kept);
      SoloOne(s2, c, t);
      SoloAdd(s, c, t, 2, 1);
    }
  }

  ghost predicate Decided(s: State, s': State, c: Settings, t: nat, owner: Consumer, held: seq<Lease>, kept: seq<Lease>,
                          retry: seq<Lease>)
  {
    var r := R.TriageAll(ContentsOf(s), EntriesOf(held), c.maxRetries);
    AtTriage(s', t, owner, [], kept + retry) && EntriesOf(retry) == r.retryable && ContentsOf(s') == r.contents
    && SameClock(s, s')
  }

  lemma DecidedSpent(s: State, mid: State, s': State, c: Settings, t: nat, owner: Consumer, held: seq<Lease>,
                     kept: seq<Lease>, retry: seq<Lease>)
    requires held != [] && s.stream.Deliveries(held[0].id) > c.maxRetries
    requires ContentsOf(mid) == R.AfterBurial(ContentsOf(s), EntryOf()(held[0])) && SameClock(s, mid)
    requires Decided(mid, s', c, t, owner, held[1..], kept, retry)
    ensures Decided(s, s', c, t, owner, held, kept, retry)
  {
    EntriesTail(held);
  }

  lemma DecidedUnspent(s: State, mid: State, s': State, c: Settings, t: nat, owner: Consumer, held: seq<Lease>,
                       kept: seq<Lease>, rest: seq<Lease>)
    requires held != [] && s.stream.Deliveries(held[0].id) <= c.maxRetries && ContentsOf(mid) == ContentsOf(s)
    requires SameClock(s, mid)
    requires Decided(mid, s', c, t, owner, held[1..], kept + [held[0]], rest)
    ensures Decided(s, s', c, t, owner, held, kept, [held[0]] + rest)
  {
    EntriesTail(held);
    R.MapCons(held[0], rest, EntryOf());
    assert kept + [held[0]] + rest == kept + ([held[0]] + rest);
  }

  /** All of them. */
  lemma {:induction false} DecideAll(s: State, c: Settings, t: nat, owner: Consumer, held: seq<Lease>, kept: seq<Lease>)
      returns (n: nat, retry: seq<Lease>)
    requires AtTriage(s, t, owner, held, kept)
    ensures Decided(s, Solo(s, c, t, n), c, t, owner, held, kept, retry)
    decreases |held|
  {
    if held == [] {
      n, retry := 0, [];
      assert kept + [] == kept;
    } else {
      DecideOne(s, c, t, owner, held, kept);
      if s.stream.Deliveries(held[0].id) > c.maxRetries {
        var mid := Solo(s, c, t, 3);
        n, retry := DecideAll(mid, c, t, owner, held[1..], kept);
        SoloAdd(s, c, t, 3, n);
        DecidedSpent(s, mid, Solo(mid, c, t, n), c, t, owner, held, kept, retry);
        n := n + 3;
      } else {
        var mid := Solo(s, c, t, 1);
        n, retry := DecideAll(mid, c, t, owner, held[1..], kept + [held[0]]);
        SoloAdd(s, c, t, 1, n);
        DecidedUnspent(s, mid, Solo(mid, c, t, n), c, t, owner, held, kept, retry);
        n, retry := n + 1, [held[0]] + retry;
      }
    }
  }

  lemma EntriesTail(held: seq<Lease>)
    requires held != []
    ensures EntriesOf(held) == [EntryOf()(held[0])] + EntriesOf(held[1..])
    ensures EntriesOf(held)[1..] == EntriesOf(held[1..])
  {
    R.MapCons(held[0], held[1..], EntryOf());
    assert held == [held[0]] + held[1..];
  }

  // ---- Paging ----

  /** A recovery loop between two of its calls, with the entries of `ids` claimed. */
  ghost predicate AtPage(s0: State, s: State, c: Settings, t: nat, ids: seq<nat>, cursor: nat) {
    && t in s0.tasks && t in s.tasks
    && SameClock(s0, s) && s.dead == s0.dead
    && s.stream == s0.stream.Claimed(ids, s0.tasks[t].owner, s0.now)
    && s.tasks[t] == Task(Recoverer, s0.tasks[t].owner, if cursor == 0 then Idle else Reclaiming(cursor),
                          s.tasks[t].held, [])
    && EntriesOf(s.tasks[t].held) == R.EntriesAt(s0.stream.entries, ids)
    && R.Paging(s0.stream, ids, cursor, s0.tasks[t].owner, c.minIdle, s0.now)
  }

  /** A recovery loop past its last call, holding the given leases. */
  ghost predicate Paged(s0: State, s: State, c: Settings, t: nat, held: seq<Lease>) {
    var stale := R.StaleIds(s0.stream, c.minIdle, s0.now);
    && t in s0.tasks && SameClock(s0, s) && s.dead == s0.dead
    && s.stream == s0.stream.Claimed(stale, s0.tasks[t].owner, s0.now)
    && EntriesOf(held) == R.EntriesAt(s0.stream.entries, stale)
    && AtTriage(s, t, s0.tasks[t].owner, held, [])
  }

  function HeldAfterPage(s: State, c: Settings, t: nat, cursor: nat): seq<Lease>
    requires t in s.tasks
  {
    var page := PageFrom(s.stream, cursor, s.now, c.minIdle);
    s.tasks[t].held + Map(page.claimed, LeaseAt(s.stream.Claimed(page.claimed, s.tasks[t].owner, s.now), s.now))
  }

  /** One call of the loop, as a step of the protocol. */
  lemma CallOne(s: State, s': State, c: Settings, t: nat, owner: Consumer, cursor: nat)
    requires t in s.tasks && s' == Step(s, c, Advance(t, ""))
    requires s.tasks[t] == Task(Recoverer, owner, if cursor == 0 then Idle else Reclaiming(cursor), s.tasks[t].held, [])
    ensures var page := PageFrom(s.stream, cursor, s.now, c.minIdle);
      var held := HeldAfterPage(s, c, t, cursor);
      && t in s'.tasks && SameClock(s, s') && s'.dead == s.dead
      && s'.stream == s.stream.Claimed(page.claimed, owner, s.now)
      && (page.cursor == 0 || page.claimed == [] ==> AtTriage(s', t, owner, held, []))
      && (page.cursor != 0 && page.claimed != [] ==>
            s'.tasks[t] == Task(Recoverer, owner, Reclaiming(page.cursor), held, []))
  {
  }

  /** The page that the next call claims, and what the loop does then. */
  lemma PageOne(s0: State, s: State, s': State, c: Settings, t: nat, ids: seq<nat>, cursor: nat)
    requires s0.stream.Valid() && AtPage(s0, s, c, t, ids, cursor) && s' == Step(s, c, Advance(t, ""))
    ensures var page := PageFrom(s.stream, cursor, s.now, c.minIdle);
      && (page.cursor == 0 || page.claimed == [] ==> Paged(s0, s', c, t, HeldAfterPage(s, c, t, cursor)))
      && (page.cursor != 0 && page.claimed != [] ==>
            && AtPage(s0, s', c, t, ids + page.claimed, page.cursor)
            && |PendingFrom(s'.stream.pending, page.cursor, s0.stream.delivered)|
               < |PendingFrom(s.stream.pending, cursor, s0.stream.delivered)|)
  {
    var owner := s0.tasks[t].owner;
    var page := PageFrom(s.stream, cursor, s.now, c.minIdle);
    CallOne(s, s', c, t, owner, cursor);
    R.PageClaims(s0.stream, ids, cursor, owner, c.minIdle, s0.now);
    HeldEntries(s, c, t, cursor, ids, s0.stream.entries);
    if page.cursor == 0 || page.claimed == [] {
      R.PagingEnds(s0.stream, ids, cursor, owner, c.minIdle, s0.now);
    } else {
      R.PagingContinues(s0.stream, ids, cursor, owner, c.minIdle, s0.now);
    }
  }

  lemma HeldEntries(s: State, c: Settings, t: nat, cursor: nat, ids: seq<nat>, entries: seq<Payload>)
    requires t in s.tasks && s.stream.entries == entries && EntriesOf(s.tasks[t].held) == R.EntriesAt(entries, ids)
    ensures EntriesOf(HeldAfterPage(s, c, t, cursor))
         == R.EntriesAt(entries, ids + PageFrom(s.stream, cursor, s.now, c.minIdle).claimed)
  {
    var page := PageFrom(s.stream, cursor, s.now, c.minIdle).claimed;
    var claimed := s.stream.Claimed(page, s.tasks[t].owner, s.now);
    LeasesEntries(claimed, s.now, page);
    R.MapAppend(s.tasks[t].held, Map(page, LeaseAt(claimed, s.now)), EntryOf());
    R.MapAppend(ids, page, R.EntryAt(entries));
  }

  lemma {:induction false} PageAll(s0: State, s: State, c: Settings, t: nat, ids: seq<nat>, cursor: nat)
      returns (n: nat, held: seq<Lease>)
    requires s0.stream.Valid() && AtPage(s0, s, c, t, ids, cursor)
    ensures Paged(s0, Solo(s, c, t, n), c, t, held)
    decreases |PendingFrom(s.stream.pending, cursor, s0.stream.delivered)|
  {
    var page := PageFrom(s.stream, cursor, s.now, c.minIdle);
    SoloOne(s, c, t);
    PageOne(s0, s, Solo(s, c, t, 1), c, t, ids, cursor);
    if page.cursor == 0 || page.claimed == [] {
      n, held := 1, HeldAfterPage(s, c, t, cursor);
    } else {
      n, held := PageAll(s0, Solo(s, c, t, 1), c, t, ids + page.claimed, page.cursor);
      SoloAdd(s, c, t, 1, n);
      n := n + 1;
    }
  }

  // ---- The whole recovery ----

  /** A loop about to process the first of the given leases, or idle when there is none. */
  ghost predicate AtJobs(s: State, t: nat, role: Role, owner: Consumer, held: seq<Lease>) {
    t in s.tasks && s.tasks[t] == Task(role, owner, if held == [] then Idle else Processing, held, [])
  }

  /** What `recover` leaves in Redis, with the loop about to process what it returned as retryable. */
  ghost predicate RecoveredTo(s: State, s': State, c: Settings, t: nat) {
    t in s.tasks && t in s'.tasks &&
    var r := R.Recovered(s.stream, s.tasks[t].owner, c.maxRetries, c.minIdle, s.now);
    && s'.stream == r.stream && s'.dead == s.dead + R.Letters(s.stream.entries, r.buried)
    && SameClock(s, s') && AtJobs(s', t, Recoverer, s.tasks[t].owner, s'.tasks[t].held)
    && EntriesOf(s'.tasks[t].held) == R.EntriesAt(s.stream.entries, r.retryable)
  }

  lemma PagedThenDecided(s: State, mid: State, s': State, c: Settings, t: nat, held: seq<Lease>, retry: seq<Lease>)
    requires s.stream.Valid() && Paged(s, mid, c, t, held)
    requires Decided(mid, s', c, t, s.tasks[t].owner, held, [], retry)
    ensures RecoveredTo(s, s', c, t)
  {
    var ids := R.StaleIds(s.stream, c.minIdle, s.now);
    R.StaleIdsAreStale(s.stream, c.minIdle, s.now);
    R.TriageSplits(ContentsOf(mid), ids, c.maxRetries);
    assert [] + retry == retry;
  }

  lemma ReclaimAlone(s: State, c: Settings, t: nat) returns (n: nat, s': State, held: seq<Lease>)
    requires s.stream.Valid() && t in s.tasks && s.tasks[t] == Task(Recoverer, s.tasks[t].owner, Idle, [], [])
    ensures s' == Solo(s, c, t, n) && Paged(s, s', c, t, held)
  {
    R.PagingStarts(s.stream, s.tasks[t].owner, c.minIdle, s.now);
    n, held := PageAll(s, s, c, t, [], 0);
    s' := Solo(s, c, t, n);
  }

  lemma TriageAlone(s: State, mid: State, c: Settings, t: nat, held: seq<Lease>) returns (n: nat, s': State)
    requires s.stream.Valid() && Paged(s, mid, c, t, held)
    ensures s' == Solo(mid, c, t, n) && RecoveredTo(s, s', c, t)
  {
    var retry;
    n, retry := DecideAll(mid, c, t, s.tasks[t].owner, held, []);
    s' := Solo(mid, c, t, n);
    PagedThenDecided(s, mid, s', c, t, held, retry);
  }

  /** After finitely many commands of its own, `calls` to reclaim and `decisions` to triage, an idle
      recovery loop has left in Redis what `recover` leaves, and goes on to process exactly the entries
      that `recover` returns as retryable. */
  lemma RecoveryRefines(s: State, c: Settings, t: nat) returns (calls: nat, decisions: nat, mid: State, s': State)
    requires s.stream.Valid() && t in s.tasks && s.tasks[t] == Task(Recoverer, s.tasks[t].owner, Idle, [], [])
    ensures mid == Solo(s, c, t, calls) && s' == Solo(mid, c, t, decisions) && RecoveredTo(s, s', c, t)
  {
    var held;
    calls, mid, held := ReclaimAlone(s, c, t);
    decisions, s' := TriageAlone(s, mid, c, t, held);
  }

  // ---- Processing what was kept ----

  function After(s: State, c: Settings, actions: seq<Action>): State
    decreases |actions|
  {
    if actions == [] then s else After(Step(s, c, actions[0]), c, actions[1..])
  }

  lemma {:induction false} AfterAppend(s: State, c: Settings, a: seq<Action>, b: seq<Action>)
    ensures After(s, c, a + b) == After(After(s, c, a), c, b)
    decreases |a|
  {
    if a == [] {
      assert a + b == b;
    } else {
      assert (a + b)[0] == a[0] && (a + b)[1..] == a[1..] + b;
      AfterAppend(Step(s, c, a[0]), c, a[1..], b);
    }
  }

  lemma AfterCons(s: State, c: Settings, a: Action, rest: seq<Action>)
    ensures After(s, c, [a] + rest) == After(Step(s, c, a), c, rest)
  {
    assert ([a] + rest)[1..] == rest;
  }

  /** Commands of one task, and faults that hit it. */
  predicate OwnActions(actions: seq<Action>, t: nat) {
    forall a :: a in actions ==> a == Fault(t) || (a.Advance? && a.task == t)
  }

  lemma {:induction false} SoloActions(s: State, c: Settings, t: nat, n: nat) returns (actions: seq<Action>)
    ensures OwnActions(actions, t) && After(s, c, actions) == Solo(s, c, t, n)
  {
    if n == 0 {
      actions := [];
    } else {
      var front := SoloActions(s, c, t, n - 1);
      actions := front + [Advance(t, "")];
      AfterAppend(s, c, front, [Advance(t, "")]);
      var mid := Solo(s, c, t, n - 1);
      AfterCons(mid, c, Advance(t, ""), []);
    }
  }

  /** The commands of one job: into `_process_job`, out of it with the result, SETEX and XACK; or out of
      it by an exception. */
  function JobActions(t: nat, outcome: W.Outcome): seq<Action> {
    match outcome
    case Answered(result) => [Advance(t, ""), Advance(t, result), Advance(t, ""), Advance(t, "")]
    case Raised => [Advance(t, ""), Fault(t)]
  }

  function WrittenOf(outcomes: nat -> W.Outcome): Entry -> Written {
    (e: Entry) => Written(e.id, e.payload.request, if outcomes(e.id).Answered? then outcomes(e.id).result else "")
  }

  function WrittenFor(entries: seq<Entry>, outcomes: nat -> W.Outcome): set<Written> {
    set e | e in entries :: WrittenOf(outcomes)(e)
  }

  lemma FourSteps(s: State, c: Settings, a: Action, b: Action, d: Action, e: Action)
    ensures After(s, c, [a, b, d, e]) == Step(Step(Step(Step(s, c, a), c, b), c, d), c, e)
  {
    assert [a, b, d, e] == [a] + ([b] + ([d] + ([e] + [])));
    AfterCons(s, c, a, [b] + ([d] + ([e] + [])));
    AfterCons(Step(s, c, a), c, b, [d] + ([e] + []));
    AfterCons(Step(Step(s, c, a), c, b), c, d, [e] + []);
    AfterCons(Step(Step(Step(s, c, a), c, b), c, d), c, e, []);
  }

  lemma JobAnswered(s: State, c: Settings, t: nat, role: Role, owner: Consumer, held: seq<Lease>, result: string)
    requires AtJobs(s, t, role, owner, held) && held != []
    ensures var s' := After(s, c, JobActions(t, W.Answered(result)));
      && AtJobs(s', t, role, owner, held[1..])
      && s'.stream == s.stream.Acked(held[0].id) && s'.dead == s.dead && s'.now == s.now
      && s'.written == s.written + {Written(held[0].id, held[0].payload.request, result)}
  {
    FourSteps(s, c, Advance(t, ""), Advance(t, result), Advance(t, ""), Advance(t, ""));
    var s1 := Step(s, c, Advance(t, ""));
    assert s1.tasks[t] == Task(role, owner, Running, held, []);
    var s2 := Step(s1, c, Advance(t, result));
    assert s2.tasks[t] == Task(role, owner, Storing(result), held, []);
    var s3 := Step(s2, c, Advance(t, ""));
    assert s3.tasks[t] == Task(role, owner, Acking, held, []);
  }

  lemma JobRaised(s: State, c: Settings, t: nat, role: Role, owner: Consumer, held: seq<Lease>)
    requires AtJobs(s, t, role, owner, held) && held != []
    ensures var s' := After(s, c, JobActions(t, W.Raised));
      AtJobs(s', t, role, owner, []) && ContentsOf(s') == ContentsOf(s) && SameClock(s, s')
  {
    assert JobActions(t, W.Raised) == [Advance(t, "")] + ([Fault(t)] + []);
    AfterCons(s, c, Advance(t, ""), [Fault(t)] + []);
    var s1 := Step(s, c, Advance(t, ""));
    AfterCons(s1, c, Fault(t), []);
    assert s1.tasks[t] == Task(role, owner, Running, held, []);
  }

  /** The stream and the dead letters are what a settled list of entries leaves, and a result was written
      for each of them. */
  ghost predicate SettledTo(s: State, s': State, entries: seq<Entry>, outcomes: nat -> W.Outcome)
    requires forall k :: 0 <= k < |entries| ==> outcomes(entries[k].id).Answered?
  {
    && ContentsOf(s').(results := map[]) == W.SettledAll(ContentsOf(s), entries, outcomes).(results := map[])
    && s'.written == s.written + WrittenFor(entries, outcomes)
    && s'.now == s.now
  }

  /** Settling from the front is settling from the back. */
  lemma {:induction false} SettledCons(c: R.Contents, entries: seq<Entry>, outcomes: nat -> W.Outcome)
    requires entries != [] && forall k :: 0 <= k < |entries| ==> outcomes(entries[k].id).Answered?
    ensures W.SettledAll(c, entries, outcomes)
         == W.SettledAll(W.Settled(c, entries[0], outcomes(entries[0].id).result), entries[1..], outcomes)
    decreases |entries|
  {
    var n := |entries| - 1;
    if n == 0 {
      assert entries[..0] == [] && entries[1..] == [];
    } else {
      SettledCons(c, entries[..n], outcomes);
      assert entries[..n][1..] == entries[1..][..n - 1];
    }
  }

  /** Without the map of results, settling does not depend on it. */
  lemma {:induction false} SettledStreams(c: R.Contents, d: R.Contents, entries: seq<Entry>, outcomes: nat -> W.Outcome)
    requires c.stream == d.stream && c.dead == d.dead
    requires forall k :: 0 <= k < |entries| ==> outcomes(entries[k].id).Answered?
    ensures W.SettledAll(c, entries, outcomes).stream == W.SettledAll(d, entries, outcomes).stream
    ensures W.SettledAll(c, entries, outcomes).dead == W.SettledAll(d, entries, outcomes).dead
    decreases |entries|
  {
    if entries != [] {
      SettledStreams(c, d, entries[..|entries| - 1], outcomes);
    }
  }

  lemma SettledFirst(s: State, mid: State, s': State, entries: seq<Entry>, outcomes: nat -> W.Outcome)
    requires entries != [] && forall k :: 0 <= k < |entries| ==> outcomes(entries[k].id).Answered?
    requires mid.stream == s.stream.Acked(entries[0].id) && mid.dead == s.dead && mid.now == s.now
    requires mid.written == s.written + {WrittenOf(outcomes)(entries[0])}
    requires SettledTo(mid, s', entries[1..], outcomes)
    ensures SettledTo(s, s', entries, outcomes)
  {
    var first := W.Settled(ContentsOf(s), entries[0], outcomes(entries[0].id).result);
    SettledCons(ContentsOf(s), entries, outcomes);
    SettledStreams(first, ContentsOf(mid), entries[1..], outcomes);
    assert forall e :: e in entries <==> e == entries[0] || e in entries[1..];
  }

  /** The loop over the held entries, up to the first exception. */
  lemma {:induction false} JobsAlone(
      s: State, c: Settings, t: nat, role: Role, owner: Consumer, held: seq<Lease>, outcomes: nat -> W.Outcome)
      returns (actions: seq<Action>)
    requires AtJobs(s, t, role, owner, held)
    ensures OwnActions(actions, t) && AtJobs(After(s, c, actions), t, role, owner, [])
    ensures var entries := EntriesOf(held);
      SettledTo(s, After(s, c, actions), entries[..W.Done(entries, outcomes)], outcomes)
    decreases |held|
  {
    if held == [] {
      actions := [];
      assert WrittenFor([], outcomes) == {};
    } else {
      EntriesTail(held);
      var first := JobActions(t, outcomes(held[0].id));
      var mid := After(s, c, first);
      if outcomes(held[0].id).Raised? {
        JobRaised(s, c, t, role, owner, held);
        actions := first;
        assert EntriesOf(held)[..0] == [] && WrittenFor([], outcomes) == {};
      } else {
        JobAnswered(s, c, t, role, owner, held, outcomes(held[0].id).result);
        var rest := JobsAlone(mid, c, t, role, owner, held[1..], outcomes);
        actions := first + rest;
        AfterAppend(s, c, first, rest);
        JobsCons(s, mid, After(mid, c, rest), held, outcomes);
      }
    }
  }

  lemma JobsCons(s: State, mid: State, s': State, held: seq<Lease>, outcomes: nat -> W.Outcome)
    requires held != [] && outcomes(held[0].id).Answered?
    requires mid.stream == s.stream.Acked(held[0].id) && mid.dead == s.dead && mid.now == s.now
    requires mid.written == s.written + {Written(held[0].id, held[0].payload.request, outcomes(held[0].id).result)}
    requires var entries := EntriesOf(held[1..]); SettledTo(mid, s', entries[..W.Done(entries, outcomes)], outcomes)
    ensures var entries := EntriesOf(held); SettledTo(s, s', entries[..W.Done(entries, outcomes)], outcomes)
  {
    EntriesTail(held);
    var entries := EntriesOf(held);
    var n := W.Done(entries, outcomes);
    assert entries[..n][1..] == entries[1..][..n - 1];
    SettledFirst(s, mid, s', entries[..n], outcomes);
  }

  // ---- Whole rounds ----

  /** One round of the recovery loop, alone: reclaim, triage, and the jobs up to the first exception. It
      leaves what `RecoverOnce` specifies, with the results among those written, and the loop idle. */
  lemma RecoverOnceRefines(s: State, c: Settings, t: nat, outcomes: nat -> W.Outcome, results: map<RequestId, string>)
      returns (actions: seq<Action>)
    requires s.stream.Valid() && t in s.tasks && s.tasks[t] == Task(Recoverer, s.tasks[t].owner, Idle, [], [])
    ensures OwnActions(actions, t) && AtJobs(After(s, c, actions), t, Recoverer, s.tasks[t].owner, [])
    ensures var s' := After(s, c, actions);
      var r := R.Recovered(s.stream, s.tasks[t].owner, c.maxRetries, c.minIdle, s.now);
      var recovered := R.Contents(r.stream, s.dead + R.Letters(s.stream.entries, r.buried), results);
      var entries := R.EntriesAt(s.stream.entries, r.retryable);
      var retried := entries[..W.Done(entries, outcomes)];
      Reaches(s, s', recovered, retried, outcomes)
  {
    var calls, decisions, paged, mid := RecoveryRefines(s, c, t);
    var first := SoloActions(s, c, t, calls);
    var second := SoloActions(paged, c, t, decisions);
    var jobs := JobsAlone(mid, c, t, Recoverer, s.tasks[t].owner, mid.tasks[t].held, outcomes);
    actions := Joined(s, c, t, first, paged, second, mid, jobs);
    JobsAfterRecovery(s, mid, After(mid, c, jobs), c, t, outcomes, results);
  }

  lemma Joined(
      s: State, c: Settings, t: nat, first: seq<Action>, paged: State, second: seq<Action>, mid: State,
      jobs: seq<Action>)
      returns (actions: seq<Action>)
    requires OwnActions(first, t) && OwnActions(second, t) && OwnActions(jobs, t)
    requires After(s, c, first) == paged && After(paged, c, second) == mid
    ensures OwnActions(actions, t) && After(s, c, actions) == After(mid, c, jobs)
  {
    AfterAppend(s, c, first, second);
    AfterAppend(s, c, first + second, jobs);
    actions := first + second + jobs;
  }

  lemma JobsAfterRecovery(
      s: State, mid: State, s': State, c: Settings, t: nat, outcomes: nat -> W.Outcome, results: map<RequestId, string>)
    requires RecoveredTo(s, mid, c, t)
    requires var entries := EntriesOf(mid.tasks[t].held);
      SettledTo(mid, s', entries[..W.Done(entries, outcomes)], outcomes)
    ensures var r := R.Recovered(s.stream, s.tasks[t].owner, c.maxRetries, c.minIdle, s.now);
      var recovered := R.Contents(r.stream, s.dead + R.Letters(s.stream.entries, r.buried), results);
      var entries := R.EntriesAt(s.stream.entries, r.retryable);
      Reaches(s, s', recovered, entries[..W.Done(entries, outcomes)], outcomes)
  {
    var entries := EntriesOf(mid.tasks[t].held);
    Reached(s, mid, s', results, entries[..W.Done(entries, outcomes)], outcomes);
  }

  /** Settling the entries from `before` gives the stream and the dead letters, and each result that it
      changes is among the newly written ones. */
  ghost predicate Reaches(s: State, s': State, before: R.Contents, entries: seq<Entry>, outcomes: nat -> W.Outcome) {
    && (forall k :: 0 <= k < |entries| ==> outcomes(entries[k].id).Answered?)
    && s'.written == s.written + WrittenFor(entries, outcomes)
    && var after := W.SettledAll(before, entries, outcomes);
       && s'.stream == after.stream && s'.dead == after.dead
       && (forall r :: r in after.results ==>
             Accounted(before.results, after.results, r, WrittenFor(entries, outcomes)))
  }

  ghost predicate Accounted(
    before: map<RequestId, string>, after: map<RequestId, string>, r: RequestId, written: set<Written>)
    requires r in after
  {
    if r in before && before[r] == after[r] then true
    else exists w :: w in written && w.request == r && w.result == after[r]
  }

  lemma {:induction false} ResultsAccounted(
      before: R.Contents, entries: seq<Entry>, outcomes: nat -> W.Outcome, r: RequestId)
    requires forall k :: 0 <= k < |entries| ==> outcomes(entries[k].id).Answered?
    requires r in W.SettledAll(before, entries, outcomes).results
    ensures Accounted(before.results, W.SettledAll(before, entries, outcomes).results, r, WrittenFor(entries, outcomes))
    decreases |entries|
  {
    if entries != [] {
      var n := |entries| - 1;
      assert forall e :: e in entries[..n] ==> e in entries;
      assert WrittenFor(entries[..n], outcomes) <= WrittenFor(entries, outcomes);
      if r == entries[n].payload.request {
        assert WrittenOf(outcomes)(entries[n]) in WrittenFor(entries, outcomes);
      } else {
        ResultsAccounted(before, entries[..n], outcomes, r);
      }
    }
  }

  lemma Reached(
      s: State, mid: State, s': State, results: map<RequestId, string>, entries: seq<Entry>, outcomes: nat -> W.Outcome)
    requires forall k :: 0 <= k < |entries| ==> outcomes(entries[k].id).Answered?
    requires SameClock(s, mid) && SettledTo(mid, s', entries, outcomes)
    ensures Reaches(s, s', ContentsOf(mid).(results := results), entries, outcomes)
  {
    var before := ContentsOf(mid).(results := results);
    SettledStreams(before, ContentsOf(mid), entries, outcomes);
    forall r | r in W.SettledAll(before, entries, outcomes).results
      ensures Accounted(before.results, W.SettledAll(before, entries, outcomes).results, r,
                        WrittenFor(entries, outcomes))
    {
      ResultsAccounted(before, entries, outcomes, r);
    }
  }

  /** One round of the processing loop, alone: it leaves what `ProcessNext` specifies. */
  lemma ProcessNextRefines(s: State, c: Settings, t: nat, outcome: W.Outcome, results: map<RequestId, string>)
      returns (actions: seq<Action>)
    requires s.stream.Valid() && t in s.tasks && s.tasks[t] == Task(Processor, s.tasks[t].owner, Idle, [], [])
    ensures OwnActions(actions, t) && AtJobs(After(s, c, actions), t, Processor, s.tasks[t].owner, [])
    ensures var s' := After(s, c, actions);
      var read := R.Contents(s.stream.Read(s.tasks[t].owner, s.now), s.dead, results);
      var e := R.EntryAt(s.stream.entries)(s.stream.delivered + 1);
      var settled := if s.stream.delivered < |s.stream.entries| && outcome.Answered? then [e] else [];
      Reaches(s, s', read, settled, _ => outcome)
  {
    var read := Advance(t, "");
    var mid := After(s, c, [read]);
    ReadAlone(s, c, t);
    var jobs := JobsAlone(mid, c, t, Processor, s.tasks[t].owner, mid.tasks[t].held, _ => outcome);
    actions := [read] + jobs;
    AfterAppend(s, c, [read], jobs);
    var entries := EntriesOf(mid.tasks[t].held);
    Reached(s, mid, After(s, c, actions), results, entries[..W.Done(entries, _ => outcome)], _ => outcome);
  }

  lemma ReadAlone(s: State, c: Settings, t: nat)
    requires s.stream.Valid() && t in s.tasks && s.tasks[t] == Task(Processor, s.tasks[t].owner, Idle, [], [])
    ensures var mid := After(s, c, [Advance(t, "")]);
      var e := R.EntryAt(s.stream.entries)(s.stream.delivered + 1);
      && t in mid.tasks && AtJobs(mid, t, Processor, s.tasks[t].owner, mid.tasks[t].held) && SameClock(s, mid)
      && ContentsOf(mid) == R.Contents(s.stream.Read(s.tasks[t].owner, s.now), s.dead, map[])
      && EntriesOf(mid.tasks[t].held) == if s.stream.delivered < |s.stream.entries| then [e] else []
  {
    AfterCons(s, c, Advance(t, ""), []);
  }
}
