/** Whole runs of context/manager.py. */
module CompressionRuns {
  // Records, and any number of overlapping compressions, interleaved at the one await of a compression.

  import opened Seqs
  import opened ContextModels
  import opened ContextStores
  import opened Compression

  /** A compression that waits for its summarizer. */
  datatype Flight = Flight(workflow: WorkflowId, items: seq<ContextItem>)

  datatype Event =
    | Record(item: ContextItem)
    | Begin(task: nat, workflow: WorkflowId, threshold: int)
    | Finish(task: nat, text: string, id: ItemId, at: real)
    | Fail(task: nat)

  /** The store's log, the compressions in flight, and the history: everything ever recorded, the ids
      deleted, and the compressions completed. */
  datatype State = State(
    log: seq<ContextItem>,
    flights: map<nat, Flight>,
    recorded: seq<ContextItem>,
    dead: set<ItemId>,
    completed: seq<Compressed>)

  const EMPTY := State([], map[], [], {}, [])

  function CompressedBy(f: Flight, text: string, id: ItemId, at: real): Compressed
    requires f.items != []
  {
    Compressed(f.items, Summary(f.items, f.workflow, text, id, at))
  }

  function Step(s: State, keep: int, e: Event): State {
    match e
    case Record(item) => s.(log := s.log + [item], recorded := s.recorded + [item])
    case Begin(t, w, threshold) =>
      var c := Candidates(s.log, w, threshold, keep);
      if c == [] then s else s.(flights := s.flights[t := Flight(w, c)])
    case Finish(t, text, id, at) =>
      if t in s.flights && s.flights[t].items != [] then
        var c := CompressedBy(s.flights[t], text, id, at);
        State(Folded(s.log, c), s.flights - {t}, s.recorded + [c.summary], s.dead + Contents(c.originals),
              s.completed + [c])
      else s
    case Fail(t) => s.(flights := s.flights - {t})
  }

  /** Ids are fresh and the creation times do not decrease. */
  ghost predicate FreshItem(s: State, id: ItemId, at: real) {
    id !in Contents(s.recorded) && forall i :: i in s.recorded ==> i.createdAt <= at
  }

  ghost predicate Possible(s: State, e: Event) {
    match e
    case Record(item) => FreshItem(s, item.id, item.createdAt)
    case Begin(t, _, _) => t !in s.flights
    case Finish(t, _, id, at) => t in s.flights && FreshItem(s, id, at)
    case Fail(t) => t in s.flights
  }

  function Run(keep: int, events: seq<Event>): State {
    if events == [] then EMPTY else Step(Run(keep, events[..|events| - 1]), keep, events[|events| - 1])
  }

  ghost predicate PossibleRun(keep: int, events: seq<Event>) {
    events == [] ||
    (PossibleRun(keep, events[..|events| - 1])
     && Possible(Run(keep, events[..|events| - 1]), events[|events| - 1]))
  }

  // ---- The newest turns ----

  /** All but the last `k`. */
  function Older<T>(s: seq<T>, k: nat): seq<T> {
    if |s| <= k then [] else s[..|s| - k]
  }

  /** The last `k`, or all of them when there are fewer. */
  function Newest<T>(s: seq<T>, k: nat): seq<T> {
    if |s| <= k then s else s[|s| - k..]
  }

  function Alive(dead: set<ItemId>): ContextItem -> bool { (i: ContextItem) => i.id !in dead }

  ghost predicate FlightWaits(s: State, keep: nat, f: Flight) {
    && f.items != [] && f.workflow.text != "" && DistinctIds(f.items)
    && forall i :: i in f.items ==> i in Older(Turns(s.recorded, f.workflow), keep)
  }

  ghost predicate NewestLive(s: State, keep: nat, w: WorkflowId) {
    forall i :: i in Newest(Turns(s.recorded, w), keep) ==> i.id !in s.dead
  }

  /** A deleted item was folded into a summary that the store received. */
  ghost predicate Folds(s: State, i: ContextItem) {
    exists c :: c in s.completed && i in c.originals && c.summary in s.recorded && c.summary.kind == SUMMARY
  }

  ghost predicate Inv(s: State, keep: nat) {
    && s.log == Filter(s.recorded, Alive(s.dead))
    && DistinctIds(s.recorded)
    && SortedBy(s.recorded, CreatedAt())
    && s.dead <= Contents(s.recorded)
    && (forall t :: t in s.flights ==> FlightWaits(s, keep, s.flights[t]))
    && (forall w {:trigger NewestLive(s, keep, w)} :: NewestLive(s, keep, w))
    && (forall i {:trigger Folds(s, i)} :: i in s.recorded && i.id in s.dead ==> Folds(s, i))
  }

  // ---- Begin: the candidates are older than the turns to keep ----

  lemma {:induction false} FilterSorted(s: seq<ContextItem>, p: ContextItem -> bool)
    requires SortedBy(s, CreatedAt())
    ensures SortedBy(Filter(s, p), CreatedAt())
  {
    if s != [] {
      FilterSorted(s[1..], p);
      var rest := Filter(s[1..], p);
      forall j | 0 <= j < |rest|
        ensures CreatedAt()(s[0]) <= CreatedAt()(rest[j])
      {
        FilterMember(s[1..], p, rest[j]);
        var k :| 0 <= k < |s[1..]| && s[1..][k] == rest[j];
        assert s[k + 1] == rest[j];
      }
      assert Filter(s, p) == if p(s[0]) then [s[0]] + rest else rest;
    }
  }

  lemma TurnsSorted(s: seq<ContextItem>, w: WorkflowId)
    requires SortedBy(s, CreatedAt())
    ensures SortedBy(Turns(s, w), CreatedAt())
  {
    FilterSorted(s, InWorkflow(w));
    FilterSorted(Filter(s, InWorkflow(w)), HasKind(CONVERSATION));
  }

  /** The live turns are the survivors of the older ones followed by all of the newest. */
  lemma LiveTurns(s: State, keep: nat, w: WorkflowId)
    requires Inv(s, keep)
    ensures var turns := Turns(s.recorded, w);
      Turns(s.log, w) == Filter(Older(turns, keep), Alive(s.dead)) + Newest(turns, keep)
  {
    var turns := Turns(s.recorded, w);
    assert NewestLive(s, keep, w);
    ListedCommutes(s.recorded, Alive(s.dead), w, Some(CONVERSATION));
    assert turns == Older(turns, keep) + Newest(turns, keep);
    FilterAppend(Older(turns, keep), Newest(turns, keep), Alive(s.dead));
    FilterAll(Newest(turns, keep), Alive(s.dead));
  }

  lemma BeginWaits(s: State, keep: nat, w: WorkflowId, threshold: int)
    requires Inv(s, keep) && Candidates(s.log, w, threshold, keep) != []
    ensures FlightWaits(s, keep, Flight(w, Candidates(s.log, w, threshold, keep)))
  {
    var turns, live := Turns(s.recorded, w), Turns(s.log, w);
    LiveTurns(s, keep, w);
    FilterSorted(s.recorded, Alive(s.dead));
    TurnsSorted(s.log, w);
    StableSortIdentity(live, CreatedAt());
    var older := Filter(Older(turns, keep), Alive(s.dead));
    assert |live| == |older| + |Newest(turns, keep)|;
    assert |turns| <= keep ==> Older(turns, keep) == [] && |live| <= keep;
    var candidates := Candidates(s.log, w, threshold, keep);
    var spare := |live| - keep;
    assert candidates == live[..spare];
    assert |Newest(turns, keep)| == keep && spare == |older|;
    assert candidates == older;
    FilterMembers(Older(turns, keep), Alive(s.dead));
    FilterDistinct(s.recorded, Alive(s.dead));
    CandidatesAreTurns(s.log, w, threshold, keep);
  }

  // ---- Record: the window of the newest turns only moves forward ----

  lemma WindowMoves<T>(s: seq<T>, x: T, keep: nat)
    ensures forall i :: i in Older(s, keep) ==> i in Older(s + [x], keep)
    ensures forall i :: i in Newest(s + [x], keep) ==> i in Newest(s, keep) || i == x
  {
    var t := s + [x];
    if |s| > keep {
      assert t[..|t| - keep] == s[..|s| - keep] + [t[|s| - keep]];
      if keep > 0 {
        assert t[|t| - keep..] == s[|s| - keep..][1..] + [x];
      }
    } else if |s| == keep && keep > 0 {
      assert t[1..] == s[1..] + [x];
    }
  }

  lemma RecordTurns(recorded: seq<ContextItem>, item: ContextItem, w: WorkflowId, keep: nat)
    ensures var before, after := Turns(recorded, w), Turns(recorded + [item], w);
      && (forall i :: i in Older(before, keep) ==> i in Older(after, keep))
      && (forall i :: i in Newest(after, keep) ==> i in Newest(before, keep) || i == item)
      && (item.kind != CONVERSATION ==> after == before)
  {
    ListedSnoc(recorded, item, w, Some(CONVERSATION));
    ListedOne(item, w, Some(CONVERSATION));
    var before := Turns(recorded, w);
    WindowMoves(before, item, keep);
    assert before + [] == before;
  }

  lemma SortedSnoc(s: seq<ContextItem>, item: ContextItem)
    requires SortedBy(s, CreatedAt()) && forall i :: i in s ==> i.createdAt <= item.createdAt
    ensures SortedBy(s + [item], CreatedAt())
  {
  }

  lemma RecordKeeps(s: State, keep: nat, item: ContextItem)
    requires Inv(s, keep) && FreshItem(s, item.id, item.createdAt)
    ensures Inv(Step(s, keep, Record(item)), keep)
  {
    var s' := Step(s, keep, Record(item));
    FilterAppend(s.recorded, [item], Alive(s.dead));
    FilterOne(item, Alive(s.dead));
    FreshDistinct(s.recorded, item);
    SortedSnoc(s.recorded, item);
    forall t | t in s'.flights
      ensures FlightWaits(s', keep, s'.flights[t])
    {
      assert FlightWaits(s, keep, s.flights[t]);
      RecordTurns(s.recorded, item, s.flights[t].workflow, keep);
    }
    forall w
      ensures NewestLive(s', keep, w)
    {
      assert NewestLive(s, keep, w);
      RecordTurns(s.recorded, item, w, keep);
    }
    forall i | i in s'.recorded && i.id in s'.dead
      ensures Folds(s', i)
    {
      assert Folds(s, i);
      var c :| c in s.completed && i in c.originals && c.summary in s.recorded && c.summary.kind == SUMMARY;
      assert c in s'.completed;
    }
  }

  // ---- Finish ----

  lemma OlderIsNotNewest(turns: seq<ContextItem>, keep: nat, a: ContextItem, b: ContextItem)
    requires DistinctIds(turns) && a in Older(turns, keep) && b in Newest(turns, keep)
    ensures a.id != b.id
  {
    var cut := |turns| - keep;
    var i :| 0 <= i < cut && turns[i] == a;
    var j :| 0 <= j < |turns[cut..]| && turns[cut..][j] == b;
    assert turns[cut + j] == b;
    assert !Clash(turns, i, cut + j);
  }

  /** Folding a waiting flight deletes none of the newest turns of any workflow. */
  lemma FoldSparesNewest(s: State, keep: nat, f: Flight, w: WorkflowId)
    requires Inv(s, keep) && FlightWaits(s, keep, f)
    ensures forall i :: i in Newest(Turns(s.recorded, w), keep) ==> i.id !in Contents(f.items)
  {
    var turns := Turns(s.recorded, f.workflow);
    forall i | i in Newest(Turns(s.recorded, w), keep)
      ensures i.id !in Contents(f.items)
    {
      if i.id in Contents(f.items) {
        var j :| j in f.items && j.id == i.id;
        assert j in turns && i in Turns(s.recorded, w);
        ListedMember(s.recorded, f.workflow, Some(CONVERSATION), j);
        ListedMember(s.recorded, w, Some(CONVERSATION), i);
        SameIdSameItem(s.recorded, i, j);
        ListedDistinct(s.recorded, w, Some(CONVERSATION));
        OlderIsNotNewest(turns, keep, j, i);
      }
    }
  }

  lemma FinishLog(s: State, c: Compressed)
    requires s.log == Filter(s.recorded, Alive(s.dead))
    requires c.summary.id !in s.dead && c.summary.id !in Contents(c.originals)
    ensures Folded(s.log, c) == Filter(s.recorded + [c.summary], Alive(s.dead + Contents(c.originals)))
  {
    var dead' := s.dead + Contents(c.originals);
    FilterFilter(s.recorded, Alive(s.dead), Outside(Contents(c.originals)), Alive(dead'));
    FilterAppend(s.recorded, [c.summary], Alive(dead'));
    FilterOne(c.summary, Alive(dead'));
  }

  lemma WaitingItems(s: State, keep: nat, f: Flight, i: ContextItem)
    requires FlightWaits(s, keep, f) && i in f.items
    ensures i in s.recorded && i.workflow == Some(f.workflow) && i.kind == CONVERSATION
  {
    var turns := Turns(s.recorded, f.workflow);
    assert i in Older(turns, keep) && i in turns;
    ListedMember(s.recorded, f.workflow, Some(CONVERSATION), i);
  }

  lemma FinishKeeps(s: State, keep: nat, t: nat, text: string, id: ItemId, at: real)
    requires Inv(s, keep) && t in s.flights && FreshItem(s, id, at)
    ensures Inv(Step(s, keep, Finish(t, text, id, at)), keep)
  {
    var f := s.flights[t];
    var s' := Step(s, keep, Finish(t, text, id, at));
    assert FlightWaits(s, keep, f);
    var c := CompressedBy(f, text, id, at);
    forall i | i in f.items
      ensures i in s.recorded
    {
      WaitingItems(s, keep, f, i);
    }
    FinishLog(s, c);
    FreshDistinct(s.recorded, c.summary);
    SortedSnoc(s.recorded, c.summary);
    forall u | u in s'.flights
      ensures FlightWaits(s', keep, s'.flights[u])
    {
      assert FlightWaits(s, keep, s.flights[u]);
      RecordTurns(s.recorded, c.summary, s.flights[u].workflow, keep);
    }
    forall w
      ensures NewestLive(s', keep, w)
    {
      assert NewestLive(s, keep, w);
      RecordTurns(s.recorded, c.summary, w, keep);
      FoldSparesNewest(s, keep, f, w);
    }
    forall i | i in s'.recorded && i.id in s'.dead
      ensures Folds(s', i)
    {
      FinishFolds(s, keep, f, c, s', i);
    }
  }

  lemma FinishFolds(s: State, keep: nat, f: Flight, c: Compressed, s': State, i: ContextItem)
    requires Inv(s, keep) && FlightWaits(s, keep, f) && c.originals == f.items && c.summary.kind == SUMMARY
    requires c.summary.id !in Contents(s.recorded)
    requires s'.recorded == s.recorded + [c.summary] && s'.dead == s.dead + Contents(c.originals)
    requires s'.completed == s.completed + [c]
    requires i in s'.recorded && i.id in s'.dead
    ensures Folds(s', i)
  {
    if i.id in s.dead {
      assert i in s.recorded;
      assert Folds(s, i);
      var d :| d in s.completed && i in d.originals && d.summary in s.recorded && d.summary.kind == SUMMARY;
      assert d in s'.completed;
    } else {
      var j :| j in f.items && j.id == i.id;
      WaitingItems(s, keep, f, j);
      assert i in s.recorded;
      SameIdSameItem(s.recorded, i, j);
      assert c in s'.completed;
    }
  }

  // ---- Every run ----

  lemma BeginKeeps(s: State, keep: nat, t: nat, w: WorkflowId, threshold: int)
    requires Inv(s, keep) && t !in s.flights
    ensures Inv(Step(s, keep, Begin(t, w, threshold)), keep)
  {
    var c := Candidates(s.log, w, threshold, keep);
    if c != [] {
      BeginWaits(s, keep, w, threshold);
      SameHistory(s, keep, s.(flights := s.flights[t := Flight(w, c)]));
    }
  }

  /** Only the flights differ. */
  lemma SameHistory(s: State, keep: nat, s': State)
    requires Inv(s, keep) && s' == s.(flights := s'.flights)
    requires forall t :: t in s'.flights ==> FlightWaits(s, keep, s'.flights[t])
    ensures Inv(s', keep)
  {
    forall w
      ensures NewestLive(s', keep, w)
    {
      assert NewestLive(s, keep, w);
    }
    forall i | i in s'.recorded && i.id in s'.dead
      ensures Folds(s', i)
    {
      assert Folds(s, i);
    }
  }

  lemma StepKeeps(s: State, keep: nat, e: Event)
    requires Inv(s, keep) && Possible(s, e)
    ensures Inv(Step(s, keep, e), keep)
  {
    match e
    case Record(item) => RecordKeeps(s, keep, item);
    case Begin(t, w, threshold) => BeginKeeps(s, keep, t, w, threshold);
    case Finish(t, text, id, at) => FinishKeeps(s, keep, t, text, id, at);
    case Fail(t) => SameHistory(s, keep, s.(flights := s.flights - {t}));
  }

  lemma {:induction false} RunKeeps(keep: nat, events: seq<Event>)
    requires PossibleRun(keep, events)
    ensures Inv(Run(keep, events), keep)
  {
    if events != [] {
      RunKeeps(keep, events[..|events| - 1]);
      StepKeeps(Run(keep, events[..|events| - 1]), keep, events[|events| - 1]);
    }
  }

  /** Whatever overlaps with whatever, the `keep` most recently recorded turns of every workflow are
      in the store. */
  lemma NewestTurnsSurvive(keep: nat, events: seq<Event>, w: WorkflowId)
    requires PossibleRun(keep, events)
    ensures var s := Run(keep, events);
      forall i :: i in Newest(Turns(s.recorded, w), keep) ==> i in s.log
  {
    RunKeeps(keep, events);
    var s := Run(keep, events);
    assert NewestLive(s, keep, w);
    forall i | i in Newest(Turns(s.recorded, w), keep)
      ensures i in s.log
    {
      assert i in Turns(s.recorded, w);
      ListedMember(s.recorded, w, Some(CONVERSATION), i);
      FilterMember(s.recorded, Alive(s.dead), i);
    }
  }

  /** A recorded item that is no longer in the store was a turn in the input of a completed compression
      whose summary was added. */
  lemma NothingForgotten(keep: nat, events: seq<Event>, i: ContextItem)
    requires PossibleRun(keep, events)
    requires i in Run(keep, events).recorded && i !in Run(keep, events).log
    ensures Folds(Run(keep, events), i)
  {
    RunKeeps(keep, events);
    var s := Run(keep, events);
    FilterMember(s.recorded, Alive(s.dead), i);
    assert i.id in s.dead;
  }

  /** Whatever overlaps with it, what a compression in flight is going to fold is in the store as it was
      when the compression began, or gone. */
  lemma FlightsUnaltered(keep: nat, events: seq<Event>, t: nat)
    requires PossibleRun(keep, events) && t in Run(keep, events).flights
    ensures var s := Run(keep, events);
      Unaltered(s.log, s.flights[t].workflow, s.flights[t].items)
  {
    RunKeeps(keep, events);
    var s := Run(keep, events);
    var f := s.flights[t];
    assert FlightWaits(s, keep, f);
    FilterDistinct(s.recorded, Alive(s.dead));
    forall i | i in f.items && i.id in Contents(s.log)
      ensures i in Listed(s.log, f.workflow, None)
    {
      WaitingItems(s, keep, f, i);
      var j :| j in s.log && j.id == i.id;
      FilterMember(s.recorded, Alive(s.dead), j);
      SameIdSameItem(s.recorded, i, j);
      ListedMember(s.log, f.workflow, None, i);
    }
  }

  /** So over every run, when a compression ends its workflow's total changes by exactly minus the
      `tokens_saved` it reports if and only if every original is still in the store. */
  lemma SavedInRunIff(keep: nat, events: seq<Event>, t: nat, text: string, id: ItemId, at: real)
    requires PossibleRun(keep, events) && t in Run(keep, events).flights && Run(keep, events).flights[t].items != []
    ensures var s := Run(keep, events);
      var f, s' := s.flights[t], Step(s, keep, Finish(t, text, id, at));
      TotalTokens(Listed(s'.log, f.workflow, None))
        == TotalTokens(Listed(s.log, f.workflow, None)) - CompressedBy(f, text, id, at).TokensSaved()
      <==> forall i :: i in f.items ==> i in s.log
  {
    var s := Run(keep, events);
    RunKeeps(keep, events);
    assert FlightWaits(s, keep, s.flights[t]);
    FlightsUnaltered(keep, events, t);
    SavedIff(s.log, s.flights[t].workflow, CompressedBy(s.flights[t], text, id, at));
  }
}
