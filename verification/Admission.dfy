/** The capacity rule of gateway/routes.py over a whole run. */
module Admission {
  // Requests are admitted against what their workflow's context would become, while compressions come and
  // go between them.

  import opened Seqs
  import opened CircuitBreakers
  import opened LoadBalancing
  import opened ContextModels
  import opened ContextStores
  import opened Compression
  import opened CompressionRuns
  import opened Gateways
  import opened JobDispatch
  import opened Streams

  datatype Request = Request(workflow: Option<WorkflowId>, agent: Option<string>, content: string, id: ItemId, at: real)

  /** A request of a synchronous route, a queued job that a processing or recovery loop dispatches, or an
      event of a compression. */
  datatype Move =
    | Serve(request: Request, fleet: Fleet)
    | Work(job: Job, fleet: Fleet, id: ItemId, at: real)
    | Compress(event: CompressionRuns.Event)

  function Answer(s: State, r: Request, f: Fleet): Result<Worker, PickError> {
    Chosen(f, ProspectiveTokens(s.log, r.workflow, r.content))
  }

  /** The turn that a request or a job leaves, if it gets a worker. */
  function Recorded(s: State, m: Move): Option<ContextItem> {
    match m
    case Serve(r, f) =>
      if Answer(s, r, f).Ok? && r.workflow.Some? then Some(Turn(r.content, r.workflow, r.agent, r.id, r.at)) else None
    case Work(job, f, id, at) =>
      if Chosen(f, job.contextTokens).Ok? && job.workflow.Some? then Some(TurnOf(job, id, at)) else None
    case Compress(_) => None
  }

  function After(s: State, keep: int, m: Move): State {
    if m.Compress? then CompressionRuns.Step(s, keep, m.event)
    else
      var turn := Recorded(s, m);
      if turn.Some? then CompressionRuns.Step(s, keep, Record(turn.value)) else s
  }

  lemma WorkIsAfterJob(s: State, keep: int, job: Job, f: Fleet, id: ItemId, at: real)
    ensures After(s, keep, Work(job, f, id, at)).log == AfterJob(s.log, job, f, id, at)
  {
  }

  function Moves(keep: int, moves: seq<Move>): State {
    if moves == [] then EMPTY else After(Moves(keep, moves[..|moves| - 1]), keep, moves[|moves| - 1])
  }

  /** No worker holds more than `capacity`, and ids are fresh. */
  ghost predicate Plausible(s: State, capacity: nat, m: Move) {
    match m
    case Serve(r, f) => r.id !in Contents(s.recorded) && HoldsAtMost(f, capacity)
    case Work(_, f, id, _) => id !in Contents(s.recorded) && HoldsAtMost(f, capacity)
    case Compress(Begin(t, _, _)) => t !in s.flights
    case Compress(Finish(t, _, id, _)) => t in s.flights && id !in Contents(s.recorded)
    case Compress(Fail(t)) => t in s.flights
    case Compress(Record(_)) => false
  }

  function Load(s: State, w: WorkflowId): nat {
    TotalTokens(Listed(s.log, w, None))
  }

  /** The tokens of a compression's originals that its workflow still lists. */
  function LiveTokens(s: State, f: Flight): nat {
    TotalTokens(Filter(Listed(s.log, f.workflow, None), Inside(Contents(f.items))))
  }

  /** A job comes with a count that covers what a measurement at its dispatch would give. */
  predicate Covered(s: State, m: Move) {
    m.Work? && m.job.workflow.Some? ==>
      && m.job.contextTokens.Some?
      && ProspectiveTokens(s.log, m.job.workflow, ContentOf(m.job)).value <= m.job.contextTokens.value
  }

  /** A summary weighs no more than the originals that it replaces, those that are still there. */
  predicate LightForLive(s: State, m: Move) {
    m.Compress? && m.event.Finish? && m.event.task in s.flights ==>
      EstimateTokens(m.event.text) <= LiveTokens(s, s.flights[m.event.task])
  }

  /** A summary weighs no more than all of its originals. */
  predicate Light(s: State, m: Move) {
    m.Compress? && m.event.Finish? && m.event.task in s.flights ==>
      EstimateTokens(m.event.text) <= TotalTokens(s.flights[m.event.task].items)
  }

  /** No compression begins in a workflow that has one in flight. */
  predicate Alone(s: State, m: Move) {
    m.Compress? && m.event.Begin? ==> forall t :: t in s.flights ==> s.flights[t].workflow != m.event.workflow
  }

  ghost predicate PlausibleRun(keep: int, capacity: nat, moves: seq<Move>) {
    moves != [] ==>
      && PlausibleRun(keep, capacity, moves[..|moves| - 1])
      && Plausible(Moves(keep, moves[..|moves| - 1]), capacity, moves[|moves| - 1])
  }

  ghost predicate LightForLiveRun(keep: int, moves: seq<Move>) {
    moves != [] ==>
      && LightForLiveRun(keep, moves[..|moves| - 1])
      && LightForLive(Moves(keep, moves[..|moves| - 1]), moves[|moves| - 1])
      && Covered(Moves(keep, moves[..|moves| - 1]), moves[|moves| - 1])
  }

  ghost predicate LightAndAloneRun(keep: int, moves: seq<Move>) {
    moves != [] ==>
      && LightAndAloneRun(keep, moves[..|moves| - 1])
      && Light(Moves(keep, moves[..|moves| - 1]), moves[|moves| - 1])
      && Covered(Moves(keep, moves[..|moves| - 1]), moves[|moves| - 1])
      && Alone(Moves(keep, moves[..|moves| - 1]), moves[|moves| - 1])
  }

  // ---- What a move does to the totals ----

  /** What an accepted request is recorded under fits the worker that took it. */
  lemma ServedFits(s: State, r: Request, f: Fleet, capacity: nat)
    requires Answer(s, r, f).Ok? && r.workflow.Some? && HoldsAtMost(f, capacity)
    ensures Load(s, r.workflow.value) + EstimateTokens(r.content) <= capacity
  {
    PickSound(f.workers, f.blocked, ProspectiveTokens(s.log, r.workflow, r.content), f.strategy, f.rr);
  }

  /** The end of a compression, whatever has happened since it began, takes off what is left of its
      originals and adds its summary; other workflows do not grow. */
  lemma LoadAfterFinish(s: State, keep: int, t: nat, text: string, id: ItemId, at: real, w: WorkflowId)
    requires t in s.flights && s.flights[t].items != []
    ensures var f := s.flights[t];
      var after := Load(CompressionRuns.Step(s, keep, Finish(t, text, id, at)), w);
      if w == f.workflow && w.text != "" then after == Load(s, w) - LiveTokens(s, f) + EstimateTokens(text)
      else after <= Load(s, w)
  {
    var f := s.flights[t];
    var c := CompressedBy(f, text, id, at);
    FoldAccounting(s.log, w, c);
    OneToken(c.summary);
  }

  /** The end of a compression keeps its workflow within the capacity if and only if its summary weighs no
      more than the room there is and what is left of its originals. */
  lemma FinishFitsIff(s: State, keep: int, capacity: nat, t: nat, text: string, id: ItemId, at: real)
    requires t in s.flights && s.flights[t].items != [] && s.flights[t].workflow.text != ""
    ensures var f := s.flights[t];
      Load(CompressionRuns.Step(s, keep, Finish(t, text, id, at)), f.workflow) <= capacity
      <==> EstimateTokens(text) <= capacity - Load(s, f.workflow) + LiveTokens(s, f)
  {
    LoadAfterFinish(s, keep, t, text, id, at, s.flights[t].workflow);
  }

  // ---- The capacity rule ----

  ghost predicate Within(s: State, capacity: nat) {
    forall w {:trigger Load(s, w)} :: Load(s, w) <= capacity
  }

  /** A summary fits the room there is and what is left of its originals; the turn of a job that gets a
      worker fits the room there is. Nothing is asked of a request. */
  predicate Fits(s: State, capacity: nat, m: Move) {
    match m
    case Serve(_, _) => true
    case Work(job, f, _, _) =>
      Chosen(f, job.contextTokens).Ok? && job.workflow.Some? && job.workflow.value.text != "" ==>
        EstimateTokens(ContentOf(job)) <= capacity - Load(s, job.workflow.value)
    case Compress(e) =>
      e.Finish? && e.task in s.flights ==>
        EstimateTokens(e.text) <= capacity - Load(s, s.flights[e.task].workflow) + LiveTokens(s, s.flights[e.task])
  }

  /** A turn is added to one workflow's total. */
  lemma AddWithinIff(s: State, keep: int, capacity: nat, item: ContextItem)
    requires Within(s, capacity)
    ensures Within(CompressionRuns.Step(s, keep, Record(item)), capacity) <==>
      (item.workflow.Some? && item.workflow.value.text != "" ==>
         Load(s, item.workflow.value) + TokenCount(item) <= capacity)
  {
    var s' := CompressionRuns.Step(s, keep, Record(item));
    forall w
      ensures Load(s', w) == Load(s, w) + if w.text != "" && item.workflow == Some(w) then TokenCount(item) else 0
    {
      TokensAfterAdd(s.log, item, w);
    }
  }

  lemma TurnWithinIff(s: State, keep: int, capacity: nat, m: Move)
    requires Within(s, capacity) && Plausible(s, capacity, m) && !m.Compress?
    ensures Within(After(s, keep, m), capacity) <==> Fits(s, capacity, m)
  {
    var turn := Recorded(s, m);
    if turn.Some? {
      AddWithinIff(s, keep, capacity, turn.value);
      if m.Serve? {
        ServedFits(s, m.request, m.fleet, capacity);
      }
    }
  }

  /** A job whose count covers its measurement fits. */
  lemma CoveredFits(s: State, capacity: nat, m: Move)
    requires Plausible(s, capacity, m) && m.Work? && Covered(s, m)
    ensures Fits(s, capacity, m)
  {
    var f := m.fleet;
    PickSound(f.workers, f.blocked, m.job.contextTokens, f.strategy, f.rr);
  }

  ghost predicate FitsRun(keep: int, capacity: nat, moves: seq<Move>) {
    moves != [] ==>
      && FitsRun(keep, capacity, moves[..|moves| - 1])
      && Fits(Moves(keep, moves[..|moves| - 1]), capacity, moves[|moves| - 1])
  }

  /** Throughout the run. */
  ghost predicate AlwaysWithin(keep: int, capacity: nat, moves: seq<Move>) {
    Within(Moves(keep, moves), capacity) && (moves != [] ==> AlwaysWithin(keep, capacity, moves[..|moves| - 1]))
  }

  /** A compression in flight has items, and so a workflow. */
  ghost predicate Loaded(s: State) {
    forall t :: t in s.flights ==> s.flights[t].items != [] && s.flights[t].workflow.text != ""
  }

  lemma AfterLoaded(s: State, keep: int, m: Move)
    requires Loaded(s)
    ensures Loaded(After(s, keep, m))
  {
    if m.Compress? && m.event.Begin? {
      NoWorkflowNoTurns(s.log, m.event.workflow, m.event.threshold, keep);
    }
  }

  lemma NoWorkflowNoTurns(log: seq<ContextItem>, w: WorkflowId, threshold: int, keep: int)
    ensures Candidates(log, w, threshold, keep) != [] ==> w.text != ""
  {
    if w.text == "" {
      assert Turns(log, w) == [];
      assert StableSort(Turns(log, w), CreatedAt()) == [];
    }
  }

  lemma CompressWithinIff(s: State, keep: int, capacity: nat, e: CompressionRuns.Event)
    requires Loaded(s) && Within(s, capacity) && Plausible(s, capacity, Compress(e))
    ensures Within(After(s, keep, Compress(e)), capacity) <==> Fits(s, capacity, Compress(e))
  {
    var s' := After(s, keep, Compress(e));
    if e.Finish? {
      var f := s.flights[e.task];
      FinishFitsIff(s, keep, capacity, e.task, e.text, e.id, e.at);
      assert Fits(s, capacity, Compress(e)) <==> Load(s', f.workflow) <= capacity;
      forall w
        ensures w == f.workflow || Load(s', w) <= capacity
      {
        assert Load(s, w) <= capacity;
        LoadAfterFinish(s, keep, e.task, e.text, e.id, e.at, w);
      }
    } else {
      forall w
        ensures Load(s', w) <= capacity
      {
        assert Load(s', w) == Load(s, w);
      }
    }
  }

  /** Over any run of requests, dispatched jobs and compressions, overlapping as they may: every workflow's
      context stays within the largest worker throughout if and only if every summary, when it arrives,
      fits the room there is and what is left of its originals, and every job's turn the room there is. */
  lemma {:induction false} WithinIff(keep: int, capacity: nat, moves: seq<Move>)
    requires PlausibleRun(keep, capacity, moves)
    ensures Loaded(Moves(keep, moves))
    ensures AlwaysWithin(keep, capacity, moves) <==> FitsRun(keep, capacity, moves)
  {
    if moves != [] {
      var front, last := moves[..|moves| - 1], moves[|moves| - 1];
      var s := Moves(keep, front);
      WithinIff(keep, capacity, front);
      AfterLoaded(s, keep, last);
      if AlwaysWithin(keep, capacity, front) {
        assert Within(s, capacity);
        if last.Compress? {
          CompressWithinIff(s, keep, capacity, last.event);
        } else {
          TurnWithinIff(s, keep, capacity, last);
        }
      }
    } else {
      forall w
        ensures Load(EMPTY, w) <= capacity
      {
      }
    }
  }

  lemma {:induction false} LightFits(keep: int, capacity: nat, moves: seq<Move>)
    requires PlausibleRun(keep, capacity, moves) && LightForLiveRun(keep, moves)
    ensures FitsRun(keep, capacity, moves)
  {
    if moves != [] {
      var front, last := moves[..|moves| - 1], moves[|moves| - 1];
      LightFits(keep, capacity, front);
      WithinIff(keep, capacity, front);
      if last.Compress? && last.event.Finish? {
        assert Within(Moves(keep, front), capacity);
        assert Load(Moves(keep, front), Moves(keep, front).flights[last.event.task].workflow) <= capacity;
      } else if last.Work? {
        CoveredFits(Moves(keep, front), capacity, last);
      }
    }
  }

  /** So it is enough that no summary weighs more than what is left of its originals when it arrives and
      that every job's count covers what a measurement at its dispatch would give. */
  lemma WithinCapacity(keep: int, capacity: nat, moves: seq<Move>)
    requires PlausibleRun(keep, capacity, moves) && LightForLiveRun(keep, moves)
    ensures AlwaysWithin(keep, capacity, moves)
  {
    LightFits(keep, capacity, moves);
    WithinIff(keep, capacity, moves);
  }

  // ---- One compression at a time ----

  /** A flight's items are live, distinct turns of its workflow. */
  ghost predicate FlightLive(s: State, f: Flight) {
    && f.items != [] && f.workflow.text != "" && DistinctIds(f.items)
    && forall i :: i in f.items ==> i in Turns(s.log, f.workflow)
  }

  ghost predicate FlightAt(s: State, t: nat) {
    t in s.flights ==> FlightLive(s, s.flights[t])
  }

  ghost predicate OwnWorkflow(s: State, t: nat, u: nat) {
    t in s.flights && u in s.flights && t != u ==> s.flights[t].workflow != s.flights[u].workflow
  }

  ghost predicate AllLive(s: State) {
    && DistinctIds(s.log) && Contents(s.log) <= Contents(s.recorded)
    && (forall t {:trigger FlightAt(s, t)} :: FlightAt(s, t))
    && (forall t, u {:trigger OwnWorkflow(s, t, u)} :: OwnWorkflow(s, t, u))
  }

  lemma ContentsSnoc(log: seq<ContextItem>, item: ContextItem)
    ensures Contents(log + [item]) == Contents(log) + {item.id}
  {
    assert forall i :: i in log + [item] <==> i in log || i == item;
  }

  lemma TurnsKept(log: seq<ContextItem>, item: ContextItem, w: WorkflowId)
    ensures forall i :: i in Turns(log, w) ==> i in Turns(log + [item], w)
  {
    ListedSnoc(log, item, w, Some(CONVERSATION));
  }

  lemma RecordLive(s: State, keep: int, item: ContextItem)
    requires AllLive(s) && item.id !in Contents(s.recorded)
    ensures AllLive(CompressionRuns.Step(s, keep, Record(item)))
  {
    var s' := CompressionRuns.Step(s, keep, Record(item));
    ContentsSnoc(s.log, item);
    ContentsSnoc(s.recorded, item);
    FreshDistinct(s.log, item);
    forall t
      ensures FlightAt(s', t)
    {
      assert FlightAt(s, t);
      if t in s.flights {
        TurnsKept(s.log, item, s.flights[t].workflow);
      }
    }
    forall t, u
      ensures OwnWorkflow(s', t, u)
    {
      assert OwnWorkflow(s, t, u);
    }
  }

  lemma BeginLive(s: State, keep: int, t: nat, w: WorkflowId, threshold: int)
    requires AllLive(s) && t !in s.flights && forall u :: u in s.flights ==> s.flights[u].workflow != w
    ensures AllLive(CompressionRuns.Step(s, keep, Begin(t, w, threshold)))
  {
    var s' := CompressionRuns.Step(s, keep, Begin(t, w, threshold));
    CandidatesAreTurns(s.log, w, threshold, keep);
    SameLog(s, s', t);
  }

  /** Only the flights of task `t` differ. */
  lemma SameLog(s: State, s': State, t: nat)
    requires AllLive(s) && s' == s.(flights := s'.flights)
    requires forall u :: u in s'.flights && u != t ==> u in s.flights && s'.flights[u] == s.flights[u]
    requires t in s'.flights ==> FlightLive(s, s'.flights[t])
    requires forall u :: t in s'.flights && u in s'.flights && u != t ==>
      s'.flights[t].workflow != s'.flights[u].workflow
    ensures AllLive(s')
  {
    forall u
      ensures FlightAt(s', u)
    {
      assert FlightAt(s, u);
    }
    forall u, v
      ensures OwnWorkflow(s', u, v)
    {
      assert OwnWorkflow(s, u, v);
    }
  }

  /** The turns of the other flights survive a fold: they are another workflow's. */
  lemma FoldSparesOthers(s: State, f: Flight, c: Compressed, g: Flight)
    requires DistinctIds(s.log) && FlightLive(s, f) && FlightLive(s, g) && f.workflow != g.workflow
    requires c.originals == f.items && c.summary.workflow == Some(f.workflow)
    ensures forall i :: i in g.items ==> i in Turns(Folded(s.log, c), g.workflow)
  {
    OthersUntouched(s.log, f.workflow, f.items, c.summary, g.workflow);
    forall i | i in g.items
      ensures i in Turns(Folded(s.log, c), g.workflow)
    {
      ListedMember(s.log, g.workflow, Some(CONVERSATION), i);
      ListedMember(s.log, g.workflow, None, i);
      ListedMember(Folded(s.log, c), g.workflow, None, i);
      ListedMember(Folded(s.log, c), g.workflow, Some(CONVERSATION), i);
    }
  }

  lemma FoldedIds(log: seq<ContextItem>, c: Compressed, recorded: seq<ContextItem>)
    requires DistinctIds(log) && Contents(log) <= Contents(recorded) && c.summary.id !in Contents(recorded)
    ensures DistinctIds(Folded(log, c)) && Contents(Folded(log, c)) <= Contents(recorded + [c.summary])
  {
    var kept := Filter(log, Outside(Contents(c.originals)));
    FilterMembers(log, Outside(Contents(c.originals)));
    FilterDistinct(log, Outside(Contents(c.originals)));
    assert Contents(kept) <= Contents(log);
    ContentsSnoc(kept, c.summary);
    ContentsSnoc(recorded, c.summary);
    FreshDistinct(kept, c.summary);
  }

  lemma FinishLive(s: State, keep: int, t: nat, text: string, id: ItemId, at: real)
    requires AllLive(s) && t in s.flights && id !in Contents(s.recorded)
    ensures AllLive(CompressionRuns.Step(s, keep, Finish(t, text, id, at)))
  {
    var s' := CompressionRuns.Step(s, keep, Finish(t, text, id, at));
    var f := s.flights[t];
    assert FlightAt(s, t);
    var c := CompressedBy(f, text, id, at);
    FoldedIds(s.log, c, s.recorded);
    forall u
      ensures FlightAt(s', u)
    {
      assert FlightAt(s, u) && OwnWorkflow(s, t, u);
      if u in s'.flights {
        FoldSparesOthers(s, f, c, s.flights[u]);
      }
    }
    forall u, v
      ensures OwnWorkflow(s', u, v)
    {
      assert OwnWorkflow(s, u, v);
    }
  }

  lemma MoveLive(s: State, keep: int, capacity: nat, m: Move)
    requires AllLive(s) && Plausible(s, capacity, m) && Alone(s, m)
    ensures AllLive(After(s, keep, m))
  {
    match m
    case Serve(_, _) =>
      if Recorded(s, m).Some? {
        RecordLive(s, keep, Recorded(s, m).value);
      }
    case Work(_, _, _, _) =>
      if Recorded(s, m).Some? {
        RecordLive(s, keep, Recorded(s, m).value);
      }
    case Compress(Begin(t, w, threshold)) => BeginLive(s, keep, t, w, threshold);
    case Compress(Finish(t, text, id, at)) => FinishLive(s, keep, t, text, id, at);
    case Compress(Fail(t)) => SameLog(s, s.(flights := s.flights - {t}), t);
  }

  /** While all originals of a flight are live, a light summary is light for the live ones. */
  lemma LiveIsAll(s: State, f: Flight)
    requires DistinctIds(s.log) && FlightLive(s, f)
    ensures LiveTokens(s, f) == TotalTokens(f.items)
  {
    var c := Compressed(f.items, f.items[0]);
    TurnsUnaltered(s.log, f.workflow, f.items);
    ListedOriginals(s.log, f.workflow, c);
    forall i | i in f.items
      ensures Inside(Contents(s.log))(i)
    {
      assert i in s.log;
    }
    FilterAll(f.items, Inside(Contents(s.log)));
  }

  lemma {:induction false} AloneIsLive(keep: int, capacity: nat, moves: seq<Move>)
    requires PlausibleRun(keep, capacity, moves) && LightAndAloneRun(keep, moves)
    ensures AllLive(Moves(keep, moves)) && LightForLiveRun(keep, moves)
  {
    if moves != [] {
      var front, last := moves[..|moves| - 1], moves[|moves| - 1];
      var s := Moves(keep, front);
      AloneIsLive(keep, capacity, front);
      MoveLive(s, keep, capacity, last);
      if last.Compress? && last.event.Finish? {
        assert FlightAt(s, last.event.task);
        LiveIsAll(s, s.flights[last.event.task]);
      }
    }
  }

  /** In particular: with at most one compression in flight per workflow, summaries no heavier than what
      they replace and covering counts, no workflow's context ever outgrows the largest worker. */
  lemma WithinCapacityAlone(keep: int, capacity: nat, moves: seq<Move>)
    requires PlausibleRun(keep, capacity, moves) && LightAndAloneRun(keep, moves)
    ensures AlwaysWithin(keep, capacity, moves)
  {
    AloneIsLive(keep, capacity, moves);
    WithinCapacity(keep, capacity, moves);
  }

  /** A request of a workflow is admitted, and its turn recorded, exactly when a healthy and unblocked
      worker can hold the context with the request in it; otherwise nothing changes. */
  lemma AdmittedIffFits(s: State, keep: int, r: Request, f: Fleet)
    requires r.workflow.Some?
    ensures var needed := Load(s, r.workflow.value) + EstimateTokens(r.content);
      var fits := exists w ::
        && w in f.workers && w.stats.isHealthy && w.url !in f.blocked
        && needed <= w.maxContextTokens;
      var after := After(s, keep, Serve(r, f));
      if fits then AddsTurn(s.log, after.log, r.content, r.workflow.value, r.agent) && after.flights == s.flights
      else after == s
  {
    PickSound(f.workers, f.blocked, ProspectiveTokens(s.log, r.workflow, r.content), f.strategy, f.rr);
  }

  // ---- Why the live originals count ----

  /** Every summary weighs no more than all of its originals. */
  ghost predicate LightRun(keep: int, moves: seq<Move>) {
    moves != [] ==>
      && LightRun(keep, moves[..|moves| - 1])
      && Light(Moves(keep, moves[..|moves| - 1]), moves[|moves| - 1])
  }

  ghost predicate Ordinary(keep: int, capacity: nat, moves: seq<Move>) {
    PlausibleRun(keep, capacity, moves) && LightRun(keep, moves)
  }

  lemma MoreMoves(keep: int, capacity: nat, moves: seq<Move>, m: Move) returns (more: seq<Move>)
    requires Ordinary(keep, capacity, moves)
    requires Plausible(Moves(keep, moves), capacity, m) && Light(Moves(keep, moves), m)
    ensures Ordinary(keep, capacity, more) && Moves(keep, more) == After(Moves(keep, moves), keep, m)
    ensures more == moves + [m]
  {
    more := moves + [m];
    assert more[..|moves|] == moves;
  }

  const SHORT := "xxxxxxxxxxxxxxxx"  // four tokens
  const LONG := "xxxxxxxxxxxxxxxxxxxxxxxxxxxxxxxx"  // eight tokens
  const IDS := [ItemId("a"), ItemId("b"), ItemId("c"), ItemId("d")]

  function Sample(w: WorkflowId, k: nat): ContextItem
    requires k < 2
  {
    Turn(SHORT, Some(w), None, IDS[k], 0.0)
  }

  lemma TwoTurns(w: WorkflowId)
    requires w.text != ""
    ensures var log := [Sample(w, 0), Sample(w, 1)];
      && Listed(log[..1], w, None) == log[..1] && Listed(log, w, None) == log && Turns(log, w) == log
      && TotalTokens(log[..1]) == 4 && TotalTokens(log) == 8 && Candidates(log, w, 0, 0) == log
      && Filter(log, Outside(Contents(log))) == []
  {
    var log := [Sample(w, 0), Sample(w, 1)];
    FilterAll(log, InWorkflow(w));
    FilterAll(log[..1], InWorkflow(w));
    FilterAll(log, HasKind(CONVERSATION));
    assert TotalTokens(log[1..]) == 4 by {
      assert log[1..][1..] == [];
    }
    assert log[..1][1..] == [];
    StableSortIdentity(log, CreatedAt());
    assert log[..2] == log;
    FilterNone(log, Outside(Contents(log)));
  }

  function TwoSamples(w: WorkflowId): seq<ContextItem> {
    [Sample(w, 0), Sample(w, 1)]
  }

  function Fold(w: WorkflowId, k: nat): Compressed
    requires k < 2
  {
    CompressedBy(Flight(w, TwoSamples(w)), LONG, IDS[2 + k], 0.0)
  }

  function BothBegun(w: WorkflowId): State {
    var flight := Flight(w, TwoSamples(w));
    State(TwoSamples(w), map[0 := flight, 1 := flight], TwoSamples(w), {}, [])
  }

  function FirstDone(w: WorkflowId): State {
    State([Fold(w, 0).summary], map[1 := Flight(w, TwoSamples(w))], TwoSamples(w) + [Fold(w, 0).summary],
          Contents(TwoSamples(w)), [Fold(w, 0)])
  }

  function Ask(w: WorkflowId, url: Url, k: nat): Move
    requires k < 2
  {
    Serve(Request(Some(w), None, SHORT, IDS[k], 0.0), Single(url, 8))
  }

  lemma Admitted(s: State, w: WorkflowId, url: Url, k: nat)
    requires k < 2 && Load(s, w) <= 4
    ensures After(s, 0, Ask(w, url, k)) == s.(log := s.log + [Sample(w, k)], recorded := s.recorded + [Sample(w, k)])
  {
    SingleTakes(url, 8, ProspectiveTokens(s.log, Some(w), SHORT));
  }

  /** The state with the first `k` samples recorded. */
  function Served(w: WorkflowId, k: nat): State
    requires k <= 2
  {
    State(TwoSamples(w)[..k], map[], TwoSamples(w)[..k], {}, [])
  }

  lemma ServeNext(w: WorkflowId, url: Url, k: nat)
    requires k < 2 && w.text != ""
    ensures After(Served(w, k), 0, Ask(w, url, k)) == Served(w, k + 1)
    ensures Plausible(Served(w, k), 8, Ask(w, url, k))
  {
    TwoTurns(w);
    assert TwoSamples(w)[..0] == [];
    Admitted(Served(w, k), w, url, k);
    assert TwoSamples(w)[..k + 1] == TwoSamples(w)[..k] + [Sample(w, k)];
    FreshSample(w, k);
  }

  lemma FreshSample(w: WorkflowId, k: nat)
    requires k < 2
    ensures IDS[k] !in Contents(TwoSamples(w)[..k])
  {
    forall i | i in TwoSamples(w)[..k]
      ensures i.id == IDS[0] && k == 1
    {
    }
  }

  lemma ServeOne(w: WorkflowId, url: Url, moves: seq<Move>, k: nat) returns (more: seq<Move>)
    requires k < 2 && w.text != "" && Ordinary(0, 8, moves) && Moves(0, moves) == Served(w, k)
    ensures Ordinary(0, 8, more) && Moves(0, more) == Served(w, k + 1)
  {
    ServeNext(w, url, k);
    more := MoreMoves(0, 8, moves, Ask(w, url, k));
  }

  /** Two turns of four tokens each, admitted to a worker with room for eight. */
  lemma ServeTwo(w: WorkflowId, url: Url) returns (moves: seq<Move>)
    requires w.text != ""
    ensures Ordinary(0, 8, moves) && Moves(0, moves) == Served(w, 2)
  {
    assert Served(w, 0) == EMPTY;
    moves := ServeOne(w, url, [], 0);
    moves := ServeOne(w, url, moves, 1);
  }

  lemma BeginTwice(w: WorkflowId)
    requires w.text != ""
    ensures var s := Served(w, 2);
      After(After(s, 0, Compress(Begin(0, w, 0))), 0, Compress(Begin(1, w, 0))) == BothBegun(w)
  {
    TwoTurns(w);
    assert TwoSamples(w)[..2] == TwoSamples(w);
  }

  lemma FoldOnce(w: WorkflowId)
    requires w.text != ""
    ensures After(BothBegun(w), 0, Compress(Finish(0, LONG, IDS[2], 0.0))) == FirstDone(w)
  {
    TwoTurns(w);
    var s' := After(BothBegun(w), 0, Compress(Finish(0, LONG, IDS[2], 0.0)));
    assert s'.log == FirstDone(w).log && s'.flights == FirstDone(w).flights;
  }

  lemma FoldAgain(w: WorkflowId)
    requires w.text != ""
    ensures After(FirstDone(w), 0, Compress(Finish(1, LONG, IDS[3], 0.0))).log
         == [Fold(w, 0).summary, Fold(w, 1).summary]
  {
    assert Contents(TwoSamples(w)) == {IDS[0], IDS[1]};
    FilterOne(Fold(w, 0).summary, Outside(Contents(TwoSamples(w))));
  }

  lemma TwoSummaries(w: WorkflowId)
    requires w.text != ""
    ensures TotalTokens(Listed([Fold(w, 0).summary, Fold(w, 1).summary], w, None)) == 16
  {
    var log := [Fold(w, 0).summary, Fold(w, 1).summary];
    FilterAll(log, InWorkflow(w));
    assert Listed(log, w, None) == log;
    assert TokenCount(log[0]) == 8 && TokenCount(log[1]) == 8;
    assert log[1..][0] == log[1] && log[1..][1..] == [];
    assert TotalTokens(log[1..]) == 8;
  }

  lemma SampleIds(w: WorkflowId)
    ensures IDS[2] !in Contents(TwoSamples(w)) && IDS[3] !in Contents(TwoSamples(w)) && IDS[3] != IDS[2]
  {
    assert IDS[0].text[0] == 'a' && IDS[1].text[0] == 'b' && IDS[2].text[0] == 'c' && IDS[3].text[0] == 'd';
    forall i | i in TwoSamples(w)
      ensures i.id == IDS[0] || i.id == IDS[1]
    {
    }
  }

  lemma LightFold(w: WorkflowId)
    requires w.text != ""
    ensures EstimateTokens(LONG) <= TotalTokens(TwoSamples(w))
  {
    TwoTurns(w);
  }

  lemma FirstPlausible(w: WorkflowId)
    requires w.text != ""
    ensures var m := Compress(Finish(0, LONG, IDS[2], 0.0)); Plausible(BothBegun(w), 8, m) && Light(BothBegun(w), m)
  {
    SampleIds(w);
    LightFold(w);
  }

  lemma SecondPlausible(w: WorkflowId)
    requires w.text != ""
    ensures var m := Compress(Finish(1, LONG, IDS[3], 0.0)); Plausible(FirstDone(w), 8, m) && Light(FirstDone(w), m)
  {
    SampleIds(w);
    LightFold(w);
    ContentsSnoc(TwoSamples(w), Fold(w, 0).summary);
  }

  lemma BeginBoth(w: WorkflowId, url: Url) returns (moves: seq<Move>)
    requires w.text != ""
    ensures Ordinary(0, 8, moves) && Moves(0, moves) == BothBegun(w)
  {
    moves := ServeTwo(w, url);
    BeginTwice(w);
    moves := MoreMoves(0, 8, moves, Compress(Begin(0, w, 0)));
    moves := MoreMoves(0, 8, moves, Compress(Begin(1, w, 0)));
  }

  lemma FinishFirst(w: WorkflowId, url: Url) returns (moves: seq<Move>)
    requires w.text != ""
    ensures Ordinary(0, 8, moves) && Moves(0, moves) == FirstDone(w)
  {
    moves := BeginBoth(w, url);
    FirstPlausible(w);
    FoldOnce(w);
    moves := MoreMoves(0, 8, moves, Compress(Finish(0, LONG, IDS[2], 0.0)));
  }

  /** That a summary weighs no more than all of its originals is not enough: two compressions of the same
      two turns overlap, each deletes turns that only one of them can delete, and both add their summaries.
      The second reports that it saved nothing while the total rises by eight. */
  lemma OverlapOverruns(w: WorkflowId, url: Url) returns (before: seq<Move>, last: Move)
    requires w.text != ""
    ensures Ordinary(0, 8, before + [last]) && Load(Moves(0, before), w) == 8
    ensures last == Compress(Finish(1, LONG, IDS[3], 0.0)) && Load(Moves(0, before + [last]), w) == 16
    ensures var flights := Moves(0, before).flights;
      1 in flights && flights[1].items != [] && CompressedBy(flights[1], LONG, IDS[3], 0.0).TokensSaved() == 0
  {
    before := FinishFirst(w, url);
    last := Compress(Finish(1, LONG, IDS[3], 0.0));
    SecondPlausible(w);
    FoldAgain(w);
    TwoSummaries(w);
    NothingSaved(w);
    var _ := MoreMoves(0, 8, before, last);
  }

  lemma NothingSaved(w: WorkflowId)
    requires w.text != ""
    ensures Load(FirstDone(w), w) == 8 && Fold(w, 1).TokensSaved() == 0
  {
    TwoTurns(w);
    OneSummary(w);
    assert TokenCount(Fold(w, 1).summary) == 8;
  }

  lemma OneSummary(w: WorkflowId)
    requires w.text != ""
    ensures Load(FirstDone(w), w) == 8
  {
    FilterOne(Fold(w, 0).summary, InWorkflow(w));
    OneToken(Fold(w, 0).summary);
  }

  // ---- Queued jobs ----

  /** How often a run has dispatched the job to a worker. */
  function Dispatches(moves: seq<Move>, job: Job): nat {
    if moves == [] then 0
    else
      var last := moves[|moves| - 1];
      Dispatches(moves[..|moves| - 1], job)
      + if last.Work? && last.job == job && Chosen(last.fleet, job.contextTokens).Ok? then 1 else 0
  }

  function IsTurnOf(job: Job): ContextItem -> bool {
    (i: ContextItem) => i.kind == CONVERSATION && i.content == ContentOf(job) && i.workflow == job.workflow
  }

  /** Over any run every processing of a job that gets a worker records another turn, however often the
      queue hands the job out. */
  lemma {:induction false} ReprocessingRecordsAgain(keep: int, moves: seq<Move>, job: Job)
    requires job.workflow.Some?
    ensures |Filter(Moves(keep, moves).recorded, IsTurnOf(job))| >= Dispatches(moves, job)
  {
    if moves != [] {
      var front, last := moves[..|moves| - 1], moves[|moves| - 1];
      var s := Moves(keep, front);
      ReprocessingRecordsAgain(keep, front, job);
      RecordedGrows(s, keep, last);
      var added := Moves(keep, moves).recorded[|s.recorded|..];
      FilterAppend(s.recorded, added, IsTurnOf(job));
      if last.Work? && Recorded(s, last).Some? {
        FilterOne(Recorded(s, last).value, IsTurnOf(job));
      }
    }
  }

  lemma RecordedGrows(s: State, keep: int, m: Move)
    ensures var s' := After(s, keep, m);
      && s.recorded <= s'.recorded
      && s'.recorded == s.recorded + s'.recorded[|s.recorded|..]
      && (Recorded(s, m).Some? ==> s'.recorded[|s.recorded|..] == [Recorded(s, m).value])
  {
  }

  function Queued(w: WorkflowId, request: RequestId): Job {
    Job(request, None, Some(w), ProspectiveTokens([], Some(w), LONG), Some(LONG), [])
  }

  lemma WorkQueued(w: WorkflowId, url: Url, request: RequestId, s: State, id: ItemId)
    requires w.text != ""
    ensures var turn := TurnOf(Queued(w, request), id, 0.0);
      var s' := After(s, 0, Work(Queued(w, request), Single(url, 8), id, 0.0));
      s'.recorded == s.recorded + [turn] && Load(s', w) == Load(s, w) + 8
  {
    var job := Queued(w, request);
    assert job.contextTokens == Some(8);
    SingleTakes(url, 8, Some(8));
    TokensAfterAdd(s.log, TurnOf(job, id, 0.0), w);
  }

  /** Two jobs of one workflow, both enqueued before either is dispatched, are both admitted to a worker
      that can hold only one of them. With `first == second` it is one job that is processed twice. */
  lemma StaleCountOverruns(w: WorkflowId, url: Url, first: RequestId, second: RequestId)
    requires w.text != ""
    ensures var f := Single(url, 8);
      var moves := [Work(Queued(w, first), f, IDS[0], 0.0)] + [Work(Queued(w, second), f, IDS[1], 0.0)];
      PlausibleRun(0, 8, moves) && Load(Moves(0, moves), w) == 16
  {
    WorkQueued(w, url, first, EMPTY, IDS[0]);
    var one := Work(Queued(w, first), Single(url, 8), IDS[0], 0.0);
    var two := Work(Queued(w, second), Single(url, 8), IDS[1], 0.0);
    WorkQueued(w, url, second, After(EMPTY, 0, one), IDS[1]);
    var s := After(EMPTY, 0, one);
    assert [one][..0] == [];
    assert Moves(0, [one]) == s && PlausibleRun(0, 8, [one]);
    assert ([one] + [two])[..1] == [one];
    assert Plausible(s, 8, two) by {
      assert s.recorded == [TurnOf(Queued(w, first), IDS[0], 0.0)];
    }
  }
}
