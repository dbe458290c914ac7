/** The reliable queue as a protocol. */
module QueueProtocol {
  // Any number of processing and recovery loops of workers/worker_pool.py share one stream and one
  // consumer group, and anything may happen between two Redis commands of a loop: commands of other
  // loops, the passing of time, or a fault that makes the loop drop what it holds.

  import opened Seqs
  import opened Streams
  import opened RetryPolicies

  datatype Settings = Settings(maxRetries: int, minIdle: int)

  /** A hand-out of an entry to a task: when, and the how-manieth of the entry it is. */
  datatype Lease = Lease(id: nat, payload: Payload, at: int, number: nat)

  datatype Handout = Handout(entry: nat, number: nat)

  datatype Role = Processor | Recoverer

  /** What a task does next. From `Triaging` to `Burying` and `Buried` it is inside `recover`, with the
      first held entry at hand; from `Processing` to `Acking` it processes the first held entry. */
  datatype Stage =
    | Idle
    | Reclaiming(cursor: nat)
    | Triaging
    | Burying
    | Buried
    | Processing
    | Running
    | Storing(result: string)
    | Acking

  /** A loop. `kept` are the entries that `recover` has found worth retrying so far. */
  datatype Task = Task(role: Role, owner: Consumer, stage: Stage, held: seq<Lease>, kept: seq<Lease>)

  datatype Written = Written(entry: nat, request: RequestId, result: string)

  /** History of the decisions: the hand-outs that reached `_process_job`; those that `recover` found worth
      retrying, by whether it found the entry pending (`granted`) or gone (`blind`), and how often it found
      an entry so (`kept`); the entries whose task a fault hit between SETEX and XACK (`torn`), and how
      often one hit it between the dead letter and XACK (`stranded`); and those claimed while a task held
      them (`overlapped`). */
  datatype Trail = Trail(
    entered: set<Handout>,
    granted: set<Handout>,
    blind: set<Handout>,
    kept: multiset<nat>,
    torn: set<nat>,
    stranded: multiset<nat>,
    overlapped: set<nat>)

  /** The clock, what Redis holds, the tasks, and history: the results written, the ids acknowledged, how
      often each entry was handed out and how often it reached `_process_job`, and the trail. */
  datatype State = State(
    now: int,
    stream: Stream,
    dead: seq<DeadLetter>,
    tasks: map<nat, Task>,
    written: set<Written>,
    acked: set<nat>,
    handed: multiset<nat>,
    processed: multiset<nat>,
    trail: Trail)

  const NO_TRAIL := Trail({}, {}, {}, multiset{}, {}, multiset{}, {})

  const START := State(0, Stream([], 0, map[]), [], map[], {}, {}, multiset{}, multiset{}, NO_TRAIL)

  datatype Action =
    | Enqueue(payload: Payload)
    | Tick(ms: nat)
    | Spawn(task: nat, role: Role, owner: Consumer)
    | Fault(task: nat)
    | Advance(task: nat, result: string)

  function Leases(k: Task): seq<Lease> {
    k.kept + k.held
  }

  /** The hand-out of an entry, given the stream after it. */
  function LeaseAt(s: Stream, now: int): nat -> Lease {
    (id: nat) => Lease(id, EntryAt(s.entries)(id).payload, now, s.Deliveries(id))
  }

  lemma LeaseOf(s: Stream, now: int, id: nat)
    requires 1 <= id <= |s.entries|
    ensures LeaseAt(s, now)(id) == Lease(id, s.entries[id - 1], now, s.Deliveries(id))
  {
    assert EntryAt(s.entries)(id) == Entry(id, s.entries[id - 1]);
  }

  function HandoutOf(l: Lease): Handout {
    Handout(l.id, l.number)
  }

  predicate HoldsEntry(k: Task, id: nat) {
    exists l :: l in Leases(k) && l.id == id
  }

  function Dropped(k: Task): Task {
    k.(stage := Idle, held := [], kept := [])
  }

  /** Inside `recover` with the first entries dealt with: on to the next, or on to processing what was
      kept. */
  function NextTriage(k: Task): Task {
    if k.held != [] then k.(stage := Triaging)
    else if k.kept != [] then k.(stage := Processing, held := k.kept, kept := [])
    else Dropped(k)
  }

  /** The first held entry is done. */
  function NextJob(k: Task): Task
    requires k.held != []
  {
    if |k.held| > 1 then k.(stage := Processing, held := k.held[1..]) else Dropped(k)
  }

  // ---- The commands ----

  function WithTask(s: State, t: nat, k: Task): State {
    s.(tasks := s.tasks[t := k])
  }

  /** XREADGROUP. */
  function ReadNext(s: State, t: nat): State
    requires t in s.tasks
  {
    var k := s.tasks[t];
    if s.stream.delivered >= |s.stream.entries| then s
    else
      var id := s.stream.delivered + 1;
      WithTask(s, t, k.(stage := Processing, held := [Lease(id, s.stream.entries[id - 1], s.now, 1)], kept := []))
        .(stream := s.stream.Read(k.owner, s.now), handed := s.handed + multiset{id})
  }

  /** XAUTOCLAIM from a cursor. */
  function ClaimPage(s: State, c: Settings, t: nat, cursor: nat): State
    requires t in s.tasks
  {
    var k := s.tasks[t];
    var page := PageFrom(s.stream, cursor, s.now, c.minIdle);
    var claimed := s.stream.Claimed(page.claimed, k.owner, s.now);
    var held := k.held + Map(page.claimed, LeaseAt(claimed, s.now));
    var k' :=
      if page.cursor == 0 || page.claimed == [] then NextTriage(k.(held := held))
      else k.(stage := Reclaiming(page.cursor), held := held);
    WithTask(s, t, k').(stream := claimed, handed := s.handed + multiset(page.claimed),
                        trail := s.trail.(overlapped := s.trail.overlapped + AlreadyHeld(s, page.claimed)))
  }

  /** Those of the entries that some task holds. */
  function AlreadyHeld(s: State, ids: seq<nat>): set<nat> {
    set id | id in ids && exists u :: u in s.tasks && HoldsEntry(s.tasks[u], id)
  }

  /** XPENDING, and the decision on its answer. */
  function Triage(s: State, c: Settings, t: nat): State
    requires t in s.tasks && s.tasks[t].held != []
  {
    var k := s.tasks[t];
    var head := k.held[0];
    if s.stream.Deliveries(head.id) > c.maxRetries then WithTask(s, t, k.(stage := Burying))
    else
      WithTask(s, t, NextTriage(k.(held := k.held[1..], kept := k.kept + [head])))
        .(trail := Decided(s.trail, head, head.id in s.stream.pending))
  }

  function Decided(trail: Trail, l: Lease, pending: bool): Trail {
    trail.(granted := if pending then trail.granted + {HandoutOf(l)} else trail.granted,
           blind := if pending then trail.blind else trail.blind + {HandoutOf(l)},
           kept := trail.kept + multiset{l.id})
  }

  /** XADD to the dead letters. */
  function Bury(s: State, t: nat): State
    requires t in s.tasks && s.tasks[t].held != []
  {
    var k := s.tasks[t];
    WithTask(s, t, k.(stage := Buried)).(dead := s.dead + [DeadLetter(k.held[0].id, k.held[0].payload, EXHAUSTED)])
  }

  /** XACK of the first held entry. */
  function Acknowledge(s: State, t: nat): State
    requires t in s.tasks && s.tasks[t].held != []
  {
    var k := s.tasks[t];
    WithTask(s, t, if k.stage.Buried? then NextTriage(k.(held := k.held[1..])) else NextJob(k))
      .(stream := s.stream.Acked(k.held[0].id), acked := s.acked + {k.held[0].id})
  }

  /** Entering `_process_job`. */
  function Enter(s: State, t: nat): State
    requires t in s.tasks && s.tasks[t].held != []
  {
    var k := s.tasks[t];
    WithTask(s, t, k.(stage := Running)).(processed := s.processed + multiset{k.held[0].id},
      trail := s.trail.(entered := s.trail.entered + {HandoutOf(k.held[0])}))
  }

  /** SETEX of the result. */
  function Store(s: State, t: nat, result: string): State
    requires t in s.tasks && s.tasks[t].held != []
  {
    var k := s.tasks[t];
    WithTask(s, t, k.(stage := Acking))
      .(written := s.written + {Written(k.held[0].id, k.held[0].payload.request, result)})
  }

  /** An exception or a crash: the task drops what it holds. */
  function Break(s: State, t: nat): State
    requires t in s.tasks
  {
    var k := s.tasks[t];
    WithTask(s, t, Dropped(k)).(trail := if k.held == [] then s.trail else Faulted(s.trail, k.stage, k.held[0].id))
  }

  function Faulted(trail: Trail, stage: Stage, id: nat): Trail {
    match stage
    case Acking => trail.(torn := trail.torn + {id})
    case Buried => trail.(stranded := trail.stranded + multiset{id})
    case _ => trail
  }

  function AdvanceTask(s: State, c: Settings, t: nat, result: string): State
    requires t in s.tasks
  {
    var k := s.tasks[t];
    match k.stage
    case Idle => if k.role.Processor? then ReadNext(s, t) else ClaimPage(s, c, t, 0)
    case Reclaiming(cursor) => ClaimPage(s, c, t, cursor)
    case _ => if k.held == [] then s else AdvanceHeld(s, c, t, result)
  }

  function AdvanceHeld(s: State, c: Settings, t: nat, result: string): State
    requires t in s.tasks && s.tasks[t].held != []
  {
    var k := s.tasks[t];
    match k.stage
    case Triaging => Triage(s, c, t)
    case Burying => Bury(s, t)
    case Processing => Enter(s, t)
    case Running => WithTask(s, t, k.(stage := Storing(result)))
    case Storing(r) => Store(s, t, r)
    case _ => Acknowledge(s, t)
  }

  function Step(s: State, c: Settings, a: Action): State {
    match a
    case Enqueue(p) => s.(stream := s.stream.Added(p))
    case Tick(ms) => s.(now := s.now + ms)
    case Spawn(t, role, owner) => if t in s.tasks then s else WithTask(s, t, Task(role, owner, Idle, [], []))
    case Fault(t) => if t in s.tasks then Break(s, t) else s
    case Advance(t, result) => if t in s.tasks then AdvanceTask(s, c, t, result) else s
  }

  function Run(c: Settings, actions: seq<Action>): State {
    if actions == [] then START else Step(Run(c, actions[..|actions| - 1]), c, actions[|actions| - 1])
  }

  // ---- The invariant ----

  ghost predicate LeaseOk(s: State, l: Lease) {
    && 1 <= l.id <= s.stream.delivered <= |s.stream.entries|
    && l.payload == s.stream.entries[l.id - 1] && s.handed[l.id] >= 1
  }

  ghost predicate AscendingLeases(ls: seq<Lease>) {
    forall i, j :: 0 <= i < j < |ls| ==> ls[i].id < ls[j].id
  }

  ghost predicate HasResult(s: State, id: nat) {
    1 <= id <= |s.stream.entries| &&
    exists w :: w in s.written && w.entry == id && w.request == s.stream.entries[id - 1].request
  }

  ghost predicate HasLetter(s: State, id: nat) {
    1 <= id <= |s.stream.entries| && DeadLetter(id, s.stream.entries[id - 1], EXHAUSTED) in s.dead
  }

  ghost predicate StageOk(s: State, c: Settings, k: Task) {
    match k.stage
    case Idle => k.held == [] && k.kept == []
    case Reclaiming(cursor) => k.kept == [] && forall l :: l in k.held ==> l.id < cursor
    case Triaging => k.held != []
    case Burying => k.held != [] && s.handed[k.held[0].id] > c.maxRetries
    case Buried => k.held != [] && HasLetter(s, k.held[0].id)
    case Acking => k.held != [] && k.kept == [] && HasResult(s, k.held[0].id)
    case _ => k.held != [] && k.kept == []
  }

  ghost predicate TaskOk(s: State, c: Settings, k: Task) {
    (forall l :: l in Leases(k) ==> LeaseOk(s, l)) && AscendingLeases(Leases(k)) && StageOk(s, c, k)
  }

  ghost predicate LetterOk(s: State, c: Settings, d: DeadLetter) {
    && 1 <= d.entry <= s.stream.delivered <= |s.stream.entries|
    && d.payload == s.stream.entries[d.entry - 1] && d.reason == EXHAUSTED
    && s.handed[d.entry] > c.maxRetries
  }

  /** Every delivered entry is either pending or acknowledged, and what is acknowledged was settled. */
  ghost predicate Ledger(s: State) {
    && s.stream.Valid()
    && (forall id {:trigger id in s.acked} :: id in s.acked ==>
          1 <= id <= s.stream.delivered && id !in s.stream.pending)
    && (forall id {:trigger id in s.stream.pending} :: 1 <= id <= s.stream.delivered && id !in s.acked ==>
          id in s.stream.pending)
    && (forall id :: id in s.stream.pending ==> s.stream.pending[id].deliveries == s.handed[id] >= 1)
    && (forall id :: id in s.handed ==> 1 <= id <= s.stream.delivered)
    && (forall id :: id in s.acked ==> HasResult(s, id) || HasLetter(s, id))
  }

  ghost predicate OkAt(s: State, c: Settings, t: nat) {
    t in s.tasks ==> TaskOk(s, c, s.tasks[t])
  }

  ghost predicate Inv(s: State, c: Settings) {
    && Ledger(s)
    && (forall d :: d in s.dead ==> LetterOk(s, c, d))
    && (forall t {:trigger OkAt(s, c, t)} :: OkAt(s, c, t))
  }

  // ---- What is written stays ----

  ghost predicate Grows(s: State, s': State) {
    && s.stream.entries <= s'.stream.entries && s.stream.delivered <= s'.stream.delivered <= |s'.stream.entries|
    && s.handed <= s'.handed && s.written <= s'.written && s.acked <= s'.acked && s.dead <= s'.dead
  }

  lemma HistoryKeeps(s: State, s': State, id: nat)
    requires Grows(s, s')
    ensures HasResult(s, id) ==> HasResult(s', id)
    ensures HasLetter(s, id) ==> HasLetter(s', id)
  {
    if HasLetter(s, id) {
      var d := DeadLetter(id, s.stream.entries[id - 1], EXHAUSTED);
      var i :| 0 <= i < |s.dead| && s.dead[i] == d;
      assert s'.dead[i] == d;
    }
    if HasResult(s, id) {
      var w :| w in s.written && w.entry == id && w.request == s.stream.entries[id - 1].request;
      assert w in s'.written;
    }
  }

  lemma LeaseKeeps(s: State, s': State, l: Lease)
    requires Grows(s, s') && LeaseOk(s, l)
    ensures LeaseOk(s', l)
  {
    assert s.handed[l.id] <= s'.handed[l.id];
  }

  lemma TaskKeeps(s: State, s': State, c: Settings, k: Task)
    requires Grows(s, s') && TaskOk(s, c, k)
    ensures TaskOk(s', c, k)
  {
    forall l | l in Leases(k)
      ensures LeaseOk(s', l)
    {
      LeaseKeeps(s, s', l);
    }
    if k.held != [] {
      HistoryKeeps(s, s', k.held[0].id);
      assert s.handed[k.held[0].id] <= s'.handed[k.held[0].id];
    }
  }

  lemma LettersKeep(s: State, s': State, c: Settings)
    requires Grows(s, s') && forall d :: d in s.dead ==> LetterOk(s, c, d)
    ensures forall d :: d in s.dead ==> LetterOk(s', c, d)
  {
    forall d | d in s.dead
      ensures LetterOk(s', c, d)
    {
      assert s.handed[d.entry] <= s'.handed[d.entry];
    }
  }

  /** A step that changes one task and only adds to the history needs an eye on that task and on the
      ledger alone. */
  lemma OneTask(s: State, s': State, c: Settings, t: nat)
    requires Inv(s, c) && Grows(s, s') && Ledger(s') && s'.dead == s.dead
    requires t in s'.tasks && s'.tasks == s.tasks[t := s'.tasks[t]] && TaskOk(s', c, s'.tasks[t])
    ensures Inv(s', c)
  {
    LettersKeep(s, s', c);
    forall u
      ensures OkAt(s', c, u)
    {
      assert OkAt(s, c, u);
      if u != t && u in s.tasks {
        TaskKeeps(s, s', c, s.tasks[u]);
      }
    }
  }

  /** A step that changes no task. */
  lemma NoTask(s: State, s': State, c: Settings)
    requires Inv(s, c) && Grows(s, s') && s'.tasks == s.tasks
    ensures forall t {:trigger OkAt(s', c, t)} :: OkAt(s', c, t)
  {
    forall t
      ensures OkAt(s', c, t)
    {
      assert OkAt(s, c, t);
      if t in s.tasks {
        TaskKeeps(s, s', c, s.tasks[t]);
      }
    }
  }

  /** A step that leaves the stream and the history as they are. */
  lemma OnlyTask(s: State, c: Settings, t: nat, k: Task)
    requires Inv(s, c) && TaskOk(s, c, k)
    ensures Inv(WithTask(s, t, k), c)
  {
    var s' := WithTask(s, t, k);
    SameLedger(s, s');
    TaskKeeps(s, s', c, k);
    OneTask(s, s', c, t);
  }

  lemma SameLedger(s: State, s': State)
    requires Ledger(s) && Grows(s, s') && s'.stream == s.stream && s'.acked == s.acked && s'.handed == s.handed
    ensures Ledger(s')
  {
    forall id | id in s'.acked
      ensures HasResult(s', id) || HasLetter(s', id)
    {
      HistoryKeeps(s, s', id);
    }
  }

  // ---- Each command keeps it ----

  lemma EnqueueKeeps(s: State, c: Settings, p: Payload)
    requires Inv(s, c)
    ensures Inv(Step(s, c, Enqueue(p)), c)
  {
    var s' := Step(s, c, Enqueue(p));
    LettersKeep(s, s', c);
    NoTask(s, s', c);
    forall id | id in s'.acked
      ensures HasResult(s', id) || HasLetter(s', id)
    {
      HistoryKeeps(s, s', id);
    }
  }

  lemma TickKeeps(s: State, c: Settings, ms: nat)
    requires Inv(s, c)
    ensures Inv(Step(s, c, Tick(ms)), c)
  {
    var s' := Step(s, c, Tick(ms));
    SameLedger(s, s');
    LettersKeep(s, s', c);
    NoTask(s, s', c);
  }

  lemma ReadLedger(s: State, s': State, owner: Consumer)
    requires Ledger(s) && s.stream.delivered < |s.stream.entries|
    requires s'.stream == s.stream.Read(owner, s.now) && s'.handed == s.handed + multiset{s.stream.delivered + 1}
    requires s'.acked == s.acked && s'.written == s.written && s'.dead == s.dead
    ensures Grows(s, s') && Ledger(s')
  {
    assert s.stream.delivered + 1 !in s.handed;
    forall id | id in s'.acked
      ensures HasResult(s', id) || HasLetter(s', id)
    {
      HistoryKeeps(s, s', id);
    }
  }

  lemma OneLease(s: State, c: Settings, k: Task, l: Lease)
    requires LeaseOk(s, l) && k.stage.Processing? && k.held == [l] && k.kept == []
    ensures TaskOk(s, c, k)
  {
    assert Leases(k) == [l];
  }

  lemma ReadKeeps(s: State, c: Settings, t: nat)
    requires Inv(s, c) && t in s.tasks && s.tasks[t].stage.Idle?
    ensures Inv(ReadNext(s, t), c)
  {
    if s.stream.delivered < |s.stream.entries| {
      var s' := ReadNext(s, t);
      ReadLedger(s, s', s.tasks[t].owner);
      var id := s.stream.delivered + 1;
      OneLease(s', c, s'.tasks[t], Lease(id, s.stream.entries[id - 1], s.now, 1));
      OneTask(s, s', c, t);
    }
  }

  lemma NextTriageOk(s: State, c: Settings, k: Task)
    requires (forall l :: l in Leases(k) ==> LeaseOk(s, l)) && AscendingLeases(Leases(k))
    ensures TaskOk(s, c, NextTriage(k))
  {
    assert k.held == [] ==> Leases(NextTriage(k)) == Leases(k);
  }

  lemma {:induction false} OnceEach(ids: seq<nat>, id: nat)
    requires Ascending(ids)
    ensures multiset(ids)[id] == if id in ids then 1 else 0
  {
    if ids != [] {
      OnceEach(ids[1..], id);
      assert ids == [ids[0]] + ids[1..];
      assert ids[0] !in ids[1..];
    }
  }

  /** A claim counts one more hand-out for each entry it returns, in Redis and in the history. */
  lemma ClaimLedger(s: State, s': State, page: seq<nat>, owner: Consumer)
    requires Ledger(s) && Ascending(page) && (forall id :: id in page ==> id in s.stream.pending)
    requires s'.stream == s.stream.Claimed(page, owner, s.now) && s'.handed == s.handed + multiset(page)
    requires s'.acked == s.acked && s'.written == s.written && s'.dead == s.dead
    ensures Grows(s, s') && Ledger(s')
  {
    forall id | id in s'.stream.pending
      ensures s'.stream.pending[id].deliveries == s'.handed[id]
    {
      OnceEach(page, id);
    }
    forall id | id in s'.acked
      ensures HasResult(s', id) || HasLetter(s', id)
    {
      HistoryKeeps(s, s', id);
    }
  }

  lemma AddedLeases(s': State, now: int, page: seq<nat>)
    requires Ledger(s') && Ascending(page)
    requires forall id :: id in page ==> id in s'.stream.pending && s'.handed[id] >= 1
    ensures var added := Map(page, LeaseAt(s'.stream, now));
      && AscendingLeases(added)
      && (forall l :: l in added ==> LeaseOk(s', l) && l.id in page)
  {
    var added := Map(page, LeaseAt(s'.stream, now));
    forall l | l in added
      ensures LeaseOk(s', l) && l.id in page
    {
      var i :| 0 <= i < |page| && added[i] == l;
      assert page[i] in page;
      LeaseOf(s'.stream, now, page[i]);
    }
  }

  lemma JoinedLeases(held: seq<Lease>, added: seq<Lease>, cursor: nat)
    requires AscendingLeases(held) && AscendingLeases(added)
    requires (forall l :: l in held ==> l.id < cursor) && forall l :: l in added ==> l.id >= cursor
    ensures AscendingLeases(held + added)
  {
    var leases := held + added;
    forall i, j | 0 <= i < j < |leases|
      ensures leases[i].id < leases[j].id
    {
      if i < |held| <= j {
        assert leases[i] in held && leases[j] in added;
      }
    }
  }

  lemma ClaimedLeases(s: State, s': State, held: seq<Lease>, page: seq<nat>, cursor: nat)
    requires Ledger(s') && Grows(s, s') && s'.stream.entries == s.stream.entries && Ascending(page)
    requires forall id :: id in page ==> id in s'.stream.pending && id >= cursor && s'.handed[id] >= 1
    requires AscendingLeases(held) && (forall l :: l in held ==> LeaseOk(s, l) && l.id < cursor)
    ensures var leases := held + Map(page, LeaseAt(s'.stream, s.now));
      AscendingLeases(leases) && forall l :: l in leases ==> LeaseOk(s', l)
  {
    AddedLeases(s', s.now, page);
    JoinedLeases(held, Map(page, LeaseAt(s'.stream, s.now)), cursor);
    forall l | l in held
      ensures LeaseOk(s', l)
    {
      LeaseKeeps(s, s', l);
    }
  }

  lemma ClaimKeeps(s: State, c: Settings, t: nat, cursor: nat)
    requires Inv(s, c) && t in s.tasks
    requires var k := s.tasks[t]; (k.stage.Idle? && cursor == 0) || k.stage == Reclaiming(cursor)
    ensures Inv(ClaimPage(s, c, t, cursor), c)
  {
    var s', k := ClaimPage(s, c, t, cursor), s.tasks[t];
    var page := PageFrom(s.stream, cursor, s.now, c.minIdle);
    assert OkAt(s, c, t);
    PageAdvances(s.stream, cursor, s.now, c.minIdle);
    ClaimLedger(s, s', page.claimed, k.owner);
    ClaimedTaskOk(s, s', c, k, page, cursor);
    OneTask(s, s', c, t);
  }

  lemma ClaimedTaskOk(s: State, s': State, c: Settings, k: Task, page: Page, cursor: nat)
    requires Ledger(s') && Grows(s, s') && s'.stream.entries == s.stream.entries && TaskOk(s, c, k)
    requires (k.stage.Idle? && cursor == 0) || k.stage == Reclaiming(cursor)
    requires Ascending(page.claimed) && s'.handed == s.handed + multiset(page.claimed)
    requires forall id :: id in page.claimed ==> id in s'.stream.pending && id >= cursor
    requires page.cursor != 0 ==> page.cursor >= cursor && forall id :: id in page.claimed ==> id < page.cursor
    ensures var held := k.held + Map(page.claimed, LeaseAt(s'.stream, s.now));
      && TaskOk(s', c, NextTriage(k.(held := held)))
      && (page.cursor != 0 ==> TaskOk(s', c, k.(stage := Reclaiming(page.cursor), held := held)))
  {
    forall id | id in page.claimed
      ensures s'.handed[id] >= 1
    {
      OnceEach(page.claimed, id);
    }
    assert Leases(k) == k.held;
    ClaimedLeases(s, s', k.held, page.claimed, cursor);
    var held := k.held + Map(page.claimed, LeaseAt(s'.stream, s.now));
    assert Leases(k.(held := held)) == held;
    NextTriageOk(s', c, k.(held := held));
    if page.cursor != 0 {
      ReclaimingOk(s', c, k, held, page.claimed, page.cursor, s);
    }
  }

  lemma BelowCursor(held: seq<Lease>, s: Stream, now: int, page: seq<nat>, cursor: nat)
    requires (forall l :: l in held ==> l.id < cursor) && forall id :: id in page ==> id < cursor
    ensures forall l :: l in held + Map(page, LeaseAt(s, now)) ==> l.id < cursor
  {
    var added := Map(page, LeaseAt(s, now));
    forall l | l in added
      ensures l.id < cursor
    {
      var i :| 0 <= i < |page| && added[i] == l;
      assert page[i] in page;
    }
  }

  lemma ReclaimingOk(s': State, c: Settings, k: Task, held: seq<Lease>, page: seq<nat>, cursor: nat, s: State)
    requires k.kept == [] && held == k.held + Map(page, LeaseAt(s'.stream, s.now))
    requires AscendingLeases(held) && forall l :: l in held ==> LeaseOk(s', l)
    requires (forall l :: l in k.held ==> l.id < cursor) && forall id :: id in page ==> id < cursor
    ensures TaskOk(s', c, k.(stage := Reclaiming(cursor), held := held))
  {
    assert Leases(k.(stage := Reclaiming(cursor), held := held)) == held;
    BelowCursor(k.held, s'.stream, s.now, page, cursor);
  }

  lemma TriageKeeps(s: State, c: Settings, t: nat)
    requires Inv(s, c) && t in s.tasks && s.tasks[t].stage.Triaging? && s.tasks[t].held != []
    ensures Inv(Triage(s, c, t), c)
  {
    var k := s.tasks[t];
    var head := k.held[0];
    assert OkAt(s, c, t) && head in Leases(k);
    assert LeaseOk(s, head);
    if s.stream.Deliveries(head.id) > c.maxRetries {
      assert Leases(k.(stage := Burying)) == Leases(k);
      OnlyTask(s, c, t, k.(stage := Burying));
    } else {
      var k' := k.(held := k.held[1..], kept := k.kept + [head]);
      assert Leases(k') == Leases(k);
      NextTriageOk(s, c, k');
      AfterDecision(s, c, t, NextTriage(k'));
    }
  }

  /** The trail says nothing about the invariant. */
  lemma AfterDecision(s: State, c: Settings, t: nat, k: Task)
    requires Inv(s, c) && t in s.tasks && TaskOk(s, c, k)
    ensures forall trail :: Inv(WithTask(s, t, k).(trail := trail), c)
  {
    forall trail
      ensures Inv(WithTask(s, t, k).(trail := trail), c)
    {
      var s' := WithTask(s, t, k).(trail := trail);
      SameLedger(s, s');
      TaskKeeps(s, s', c, k);
      OneTask(s, s', c, t);
    }
  }

  lemma BuryKeeps(s: State, c: Settings, t: nat)
    requires Inv(s, c) && t in s.tasks && s.tasks[t].stage.Burying? && s.tasks[t].held != []
    ensures Inv(Bury(s, t), c)
  {
    var s', k := Bury(s, t), s.tasks[t];
    var head := k.held[0];
    assert OkAt(s, c, t) && head in Leases(k);
    assert LeaseOk(s, head);
    var letter := DeadLetter(head.id, head.payload, EXHAUSTED);
    assert s'.dead[|s.dead|] == letter;
    SameLedger(s, s');
    LettersKeep(s, s', c);
    forall u
      ensures OkAt(s', c, u)
    {
      assert OkAt(s, c, u);
      if u in s.tasks {
        TaskKeeps(s, s', c, s.tasks[u]);
      }
    }
  }

  lemma TailOk(s: State, k: Task)
    requires k.held != [] && (forall l :: l in Leases(k) ==> LeaseOk(s, l)) && AscendingLeases(Leases(k))
    ensures var k' := k.(held := k.held[1..]);
      (forall l :: l in Leases(k') ==> LeaseOk(s, l)) && AscendingLeases(Leases(k'))
  {
    var n := |k.kept|;
    var rest := Leases(k.(held := k.held[1..]));
    assert forall i :: 0 <= i < |rest| ==> rest[i] == Leases(k)[if i < n then i else i + 1];
  }

  lemma AcknowledgedLedger(s: State, s': State, id: nat)
    requires Ledger(s) && 1 <= id <= s.stream.delivered && (HasResult(s, id) || HasLetter(s, id))
    requires s'.stream == s.stream.Acked(id) && s'.acked == s.acked + {id}
    requires s'.handed == s.handed && s'.written == s.written && s'.dead == s.dead
    ensures Grows(s, s') && Ledger(s')
  {
    forall i | i in s'.acked
      ensures HasResult(s', i) || HasLetter(s', i)
    {
      HistoryKeeps(s, s', i);
    }
  }

  lemma ReleasedTaskOk(s: State, c: Settings, k: Task)
    requires TaskOk(s, c, k) && k.held != [] && (k.stage.Buried? || k.stage.Acking?)
    ensures TaskOk(s, c, if k.stage.Buried? then NextTriage(k.(held := k.held[1..])) else NextJob(k))
  {
    TailOk(s, k);
    if k.stage.Buried? {
      NextTriageOk(s, c, k.(held := k.held[1..]));
    } else {
      assert Leases(k.(held := k.held[1..])) == k.held[1..];
      assert Leases(NextJob(k)) == k.held[1..];
    }
  }

  lemma AcknowledgeKeeps(s: State, c: Settings, t: nat)
    requires Inv(s, c) && t in s.tasks && s.tasks[t].held != []
    requires s.tasks[t].stage.Buried? || s.tasks[t].stage.Acking?
    ensures Inv(Acknowledge(s, t), c)
  {
    var s', k := Acknowledge(s, t), s.tasks[t];
    assert OkAt(s, c, t) && k.held[0] in Leases(k);
    assert LeaseOk(s, k.held[0]);
    AcknowledgedLedger(s, s', k.held[0].id);
    TaskKeeps(s, s', c, k);
    ReleasedTaskOk(s', c, k);
    OneTask(s, s', c, t);
  }

  lemma JobKeeps(s: State, c: Settings, t: nat, result: string)
    requires Inv(s, c) && t in s.tasks && s.tasks[t].held != []
    requires s.tasks[t].stage.Processing? || s.tasks[t].stage.Running? || s.tasks[t].stage.Storing?
    ensures Inv(AdvanceTask(s, c, t, result), c)
  {
    var s', k := AdvanceTask(s, c, t, result), s.tasks[t];
    var k' := s'.tasks[t];
    assert OkAt(s, c, t) && k.held[0] in Leases(k);
    assert LeaseOk(s, k.held[0]);
    SameLedger(s, s');
    assert Leases(k') == Leases(k);
    TaskKeeps(s, s', c, k);
    if k.stage.Storing? {
      assert Written(k.held[0].id, k.held[0].payload.request, k.stage.result) in s'.written;
    }
    OneTask(s, s', c, t);
  }

  lemma AdvanceKeeps(s: State, c: Settings, t: nat, result: string)
    requires Inv(s, c) && t in s.tasks
    ensures Inv(AdvanceTask(s, c, t, result), c)
  {
    var k := s.tasks[t];
    assert OkAt(s, c, t);
    match k.stage
    case Idle =>
      if k.role.Processor? {
        ReadKeeps(s, c, t);
      } else {
        ClaimKeeps(s, c, t, 0);
      }
    case Reclaiming(cursor) => ClaimKeeps(s, c, t, cursor);
    case Triaging => TriageKeeps(s, c, t);
    case Burying => BuryKeeps(s, c, t);
    case Buried => AcknowledgeKeeps(s, c, t);
    case Acking => AcknowledgeKeeps(s, c, t);
    case _ => JobKeeps(s, c, t, result);
  }

  lemma StepKeeps(s: State, c: Settings, a: Action)
    requires Inv(s, c)
    ensures Inv(Step(s, c, a), c)
  {
    match a
    case Enqueue(p) => EnqueueKeeps(s, c, p);
    case Tick(ms) => TickKeeps(s, c, ms);
    case Spawn(t, role, owner) =>
      if t !in s.tasks {
        OnlyTask(s, c, t, Task(role, owner, Idle, [], []));
      }
    case Fault(t) =>
      if t in s.tasks {
        AfterDecision(s, c, t, Dropped(s.tasks[t]));
      }
    case Advance(t, result) =>
      if t in s.tasks {
        AdvanceKeeps(s, c, t, result);
      }
  }

  lemma {:induction false} RunKeeps(c: Settings, actions: seq<Action>)
    ensures Inv(Run(c, actions), c)
  {
    if actions != [] {
      RunKeeps(c, actions[..|actions| - 1]);
      StepKeeps(Run(c, actions[..|actions| - 1]), c, actions[|actions| - 1]);
    }
  }

  // ---- Every run ----

  /** No job is lost: whatever crashes where, each enqueued entry is exactly one of undelivered, pending
      and acknowledged, and an acknowledged one has a result stored for its request or a dead letter with
      its payload. */
  lemma NothingLost(c: Settings, actions: seq<Action>, id: nat)
    requires 1 <= id <= |Run(c, actions).stream.entries|
    ensures var s := Run(c, actions);
      && (id > s.stream.delivered ==> id !in s.stream.pending && id !in s.acked)
      && (id <= s.stream.delivered ==> (id in s.stream.pending <==> id !in s.acked))
      && (id in s.acked ==> HasResult(s, id) || HasLetter(s, id))
  {
    RunKeeps(c, actions);
  }

  /** A dead letter carries the payload of an entry that was handed out more than `max_retries` times. */
  lemma DeadLettersSound(c: Settings, actions: seq<Action>, d: DeadLetter)
    requires d in Run(c, actions).dead
    ensures LetterOk(Run(c, actions), c, d) && d.reason == "max_retries_exceeded"
  {
    RunKeeps(c, actions);
  }

  /** No task ever holds an entry twice: the pages that one reclaim adds up are ascending, whatever others
      do between them. */
  lemma NoEntryTwice(c: Settings, actions: seq<Action>, t: nat)
    requires t in Run(c, actions).tasks
    ensures AscendingLeases(Leases(Run(c, actions).tasks[t]))
  {
    RunKeeps(c, actions);
    assert OkAt(Run(c, actions), c, t);
  }

  lemma AdvanceGrows(s: State, c: Settings, t: nat, result: string)
    requires s.stream.delivered <= |s.stream.entries| && t in s.tasks
    ensures Grows(s, AdvanceTask(s, c, t, result))
  {
  }

  lemma StepGrows(s: State, c: Settings, a: Action)
    requires Inv(s, c)
    ensures Grows(s, Step(s, c, a))
  {
    if a.Advance? && a.task in s.tasks {
      AdvanceGrows(s, c, a.task, a.result);
    }
  }

  lemma {:induction false} RunGrows(c: Settings, actions: seq<Action>, more: seq<Action>)
    ensures Grows(Run(c, actions), Run(c, actions + more))
  {
    if more == [] {
      assert actions + more == actions;
      RunKeeps(c, actions);
    } else {
      var front, last := more[..|more| - 1], more[|more| - 1];
      assert (actions + more)[..|actions + more| - 1] == actions + front;
      RunGrows(c, actions, front);
      RunKeeps(c, actions + front);
      StepGrows(Run(c, actions + front), c, last);
    }
  }

  /** An acknowledged entry is settled for good: it is never pending again, and its result or dead letter
      stays on record. */
  lemma SettledForGood(c: Settings, actions: seq<Action>, more: seq<Action>, id: nat)
    requires id in Run(c, actions).acked
    ensures var later := Run(c, actions + more);
      id !in later.stream.pending && id in later.acked && (HasResult(later, id) || HasLetter(later, id))
  {
    RunGrows(c, actions, more);
    RunKeeps(c, actions + more);
  }
}
