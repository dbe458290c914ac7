/** The results and the dead letters of one entry. */
module Records {
  // An entry has both only if a fault hit its task between SETEX and XACK, or it was claimed while a task
  // still held it.

  import opened QueueProtocol
  import opened Handouts
  import opened LeaseSafety
  import RetryPolicies

  ghost predicate AckingAt(s: State, t: nat, id: nat) {
    t in s.tasks && s.tasks[t].stage.Acking? && s.tasks[t].held != [] && s.tasks[t].held[0].id == id
  }

  /** A result is about to be acknowledged, or was; and there is no letter beside it. */
  ghost predicate OneRecord(s: State, id: nat) {
    && (HasResult(s, id) ==> id in s.acked || exists t :: AckingAt(s, t, id))
    && !(HasResult(s, id) && HasLetter(s, id))
  }

  /** Every result is stored under its entry's own request, and every torn entry has one. */
  ghost predicate ResultsOk(s: State) {
    && (forall w :: w in s.written ==>
          && 1 <= w.entry <= s.stream.delivered <= |s.stream.entries|
          && w.request == s.stream.entries[w.entry - 1].request)
    && (forall id :: id in s.trail.torn ==> HasResult(s, id))
  }

  /** What a step writes, it writes for the first held entry. */
  lemma NewlyWritten(s: State, c: Settings, a: Action, w: Written)
    requires w in Step(s, c, a).written && w !in s.written
    ensures a.Advance? && a.task in s.tasks && s.tasks[a.task].held != [] && s.tasks[a.task].stage.Storing?
    ensures Step(s, c, a) == Store(s, a.task, s.tasks[a.task].stage.result)
    ensures w.entry == s.tasks[a.task].held[0].id && w.request == s.tasks[a.task].held[0].payload.request
  {
  }

  lemma NewlyTorn(s: State, c: Settings, a: Action, id: nat)
    requires id in Step(s, c, a).trail.torn && id !in s.trail.torn
    ensures a.Fault? && AckingAt(s, a.task, id)
  {
  }

  lemma StepResults(s: State, c: Settings, a: Action)
    requires Inv(s, c) && ResultsOk(s)
    ensures ResultsOk(Step(s, c, a))
  {
    var s' := Step(s, c, a);
    StepGrows(s, c, a);
    forall w | w in s'.written
      ensures 1 <= w.entry <= s'.stream.delivered <= |s'.stream.entries|
      ensures w.request == s'.stream.entries[w.entry - 1].request
    {
      if w !in s.written {
        NewlyWritten(s, c, a, w);
        assert OkAt(s, c, a.task) && s.tasks[a.task].held[0] in Leases(s.tasks[a.task]);
        assert LeaseOk(s, s.tasks[a.task].held[0]);
      }
    }
    forall id | id in s'.trail.torn
      ensures HasResult(s', id)
    {
      if id !in s.trail.torn {
        NewlyTorn(s, c, a, id);
        assert OkAt(s, c, a.task);
      }
      HistoryKeeps(s, s', id);
    }
  }

  // ---- What a step can change ----

  /** A new result is stored by a task that holds the entry, cleared. */
  lemma ResultIsStored(s: State, c: Settings, a: Action, id: nat)
    requires ResultsOk(s) && HasResult(Step(s, c, a), id) && !HasResult(s, id)
    ensures a.Advance? && a.task in s.tasks && s.tasks[a.task].held != [] && s.tasks[a.task].stage.Storing?
    ensures s.tasks[a.task].held[0].id == id && AckingAt(Step(s, c, a), a.task, id)
    ensures Step(s, c, a).dead == s.dead && Step(s, c, a).stream == s.stream
  {
    var s' := Step(s, c, a);
    var w :| w in s'.written && w.entry == id && w.request == s'.stream.entries[id - 1].request;
    if w in s.written {
      assert s'.stream.entries[id - 1] == s.stream.entries[id - 1] by {
        EntriesStay(s, c, a);
      }
    } else {
      NewlyWritten(s, c, a, w);
    }
  }

  lemma EntriesStay(s: State, c: Settings, a: Action)
    ensures s.stream.entries <= Step(s, c, a).stream.entries
  {
  }

  /** A new letter is added by a task that holds the entry, undecided. */
  lemma LetterIsBuried(s: State, c: Settings, a: Action, id: nat)
    requires (forall d :: d in s.dead ==> LetterOk(s, c, d)) && HasLetter(Step(s, c, a), id) && !HasLetter(s, id)
    ensures a.Advance? && a.task in s.tasks && s.tasks[a.task].held != [] && s.tasks[a.task].stage.Burying?
    ensures s.tasks[a.task].held[0].id == id
    ensures Step(s, c, a).written == s.written && Step(s, c, a).stream == s.stream
  {
    var s' := Step(s, c, a);
    var d := RetryPolicies.DeadLetter(id, s'.stream.entries[id - 1], RetryPolicies.EXHAUSTED);
    assert d in s'.dead && d !in s.dead;
  }

  /** An entry beyond the budget is not held by a task that would process it. */
  lemma ClearedHasNoLetter(s: State, c: Settings, t: nat, l: Lease)
    requires Inv(s, c) && Numbered(s, c) && Sole(s, l.id) && t in s.tasks && l in Cleared(s.tasks[t])
    ensures !HasLetter(s, l.id)
  {
    PartsOfLeases(s.tasks[t]);
    assert NumberedAt(s, t) && CurrentAt(s, t, l.id) && Current(s, l) && Admitted(s, HandoutOf(l));
    LetteredIsBeyond(s, c, l.id);
  }

  lemma LetteredIsBeyond(s: State, c: Settings, id: nat)
    requires Inv(s, c) && Numbered(s, c)
    ensures HasLetter(s, id) ==> s.handed[id] > c.maxRetries && s.handed[id] >= 2
  {
    if HasLetter(s, id) {
      var d := RetryPolicies.DeadLetter(id, s.stream.entries[id - 1], RetryPolicies.EXHAUSTED);
      assert LetterOk(s, c, d) && s.handed[d.entry] >= 2;
    }
  }

  /** An entry that a triage is about to bury has no result, unless it is torn. */
  lemma BurialHasNoResult(s: State, c: Settings, t: nat, id: nat)
    requires Inv(s, c) && Sole(s, id) && OneRecord(s, id) && t in s.tasks
    requires s.tasks[t].held != [] && s.tasks[t].stage.Burying? && s.tasks[t].held[0].id == id
    ensures !HasResult(s, id)
  {
    var l := s.tasks[t].held[0];
    assert l in Leases(s.tasks[t]) && CurrentAt(s, t, id) && Current(s, l);
    forall u | AckingAt(s, u, id)
      ensures u == t
    {
      assert s.tasks[u].held[0] in Leases(s.tasks[u]) && AloneAt(s, t, u, id);
    }
  }

  /** A task in `Acking` stays there until it acknowledges or a fault hits it. */
  lemma AckingOn(s: State, c: Settings, a: Action, t: nat, id: nat)
    requires AckingAt(s, t, id) && id !in Step(s, c, a).trail.torn
    ensures id in Step(s, c, a).acked || AckingAt(Step(s, c, a), t, id)
  {
    FaultTears(s, c, t, id);
    if a.Advance? && a.task == t {
      assert Step(s, c, a) == Acknowledge(s, t);
    } else if a != Fault(t) {
      TaskStays(s, c, t, a);
    }
  }

  lemma FaultTears(s: State, c: Settings, t: nat, id: nat)
    requires AckingAt(s, t, id)
    ensures id in Step(s, c, Fault(t)).trail.torn
  {
  }

  lemma StepOneRecord(s: State, c: Settings, a: Action, id: nat)
    requires Inv(s, c) && Numbered(s, c) && ResultsOk(s) && Sole(s, id) && OneRecord(s, id)
    requires id !in Step(s, c, a).trail.torn
    ensures OneRecord(Step(s, c, a), id)
  {
    var s' := Step(s, c, a);
    StepGrows(s, c, a);
    if HasResult(s', id) && !HasResult(s, id) {
      StoreKeepsOneRecord(s, c, a, id);
    } else if HasLetter(s', id) && !HasLetter(s, id) {
      LetterIsBuried(s, c, a, id);
      BurialHasNoResult(s, c, a.task, id);
    } else if HasResult(s, id) && id !in s.acked {
      var t :| AckingAt(s, t, id);
      AckingOn(s, c, a, t, id);
    }
  }

  lemma StoreKeepsOneRecord(s: State, c: Settings, a: Action, id: nat)
    requires Inv(s, c) && Numbered(s, c) && ResultsOk(s) && Sole(s, id)
    requires HasResult(Step(s, c, a), id) && !HasResult(s, id)
    ensures OneRecord(Step(s, c, a), id)
  {
    ResultIsStored(s, c, a, id);
    assert OkAt(s, c, a.task);
    var l := s.tasks[a.task].held[0];
    assert l in Leases(s.tasks[a.task]);
    ClearedHasNoLetter(s, c, a.task, l);
  }

  lemma TornGrows(s: State, c: Settings, a: Action)
    ensures s.trail.torn <= Step(s, c, a).trail.torn
  {
  }

  lemma {:induction false} RunResults(c: Settings, actions: seq<Action>)
    ensures ResultsOk(Run(c, actions))
  {
    if actions != [] {
      RunResults(c, actions[..|actions| - 1]);
      RunKeeps(c, actions[..|actions| - 1]);
      StepResults(Run(c, actions[..|actions| - 1]), c, actions[|actions| - 1]);
    }
  }

  lemma {:induction false} RunOneRecord(c: Settings, actions: seq<Action>, id: nat)
    requires id !in Run(c, actions).trail.torn && id !in Run(c, actions).trail.overlapped
    ensures OneRecord(Run(c, actions), id)
  {
    if actions != [] {
      var front, last := actions[..|actions| - 1], actions[|actions| - 1];
      var s := Run(c, front);
      TornGrows(s, c, last);
      OverlappedGrows(s, c, last);
      RunOneRecord(c, front, id);
      RunKeeps(c, front);
      RunNumbered(c, front);
      RunResults(c, front);
      RunSole(c, front, id);
      StepOneRecord(s, c, last, id);
    }
  }

  // ---- Every run ----

  /** Over every run an entry has both a result and a dead letter only if a fault hit a task between
      storing the entry's result and acknowledging it, or the entry was claimed while held. */
  lemma BothRecordsOnlyIf(c: Settings, actions: seq<Action>, id: nat)
    requires HasResult(Run(c, actions), id) && HasLetter(Run(c, actions), id)
    ensures id in Run(c, actions).trail.torn || id in Run(c, actions).trail.overlapped
  {
    if id !in Run(c, actions).trail.torn && id !in Run(c, actions).trail.overlapped {
      RunOneRecord(c, actions, id);
    }
  }

  /** An entry with a dead letter that was never claimed while held has a result too if and only if such
      a fault hit it. */
  lemma BothRecordsIff(c: Settings, actions: seq<Action>, id: nat)
    requires id !in Run(c, actions).trail.overlapped
    ensures var s := Run(c, actions);
      HasLetter(s, id) ==> (HasResult(s, id) <==> id in s.trail.torn)
  {
    RunResults(c, actions);
    if HasResult(Run(c, actions), id) && HasLetter(Run(c, actions), id) {
      BothRecordsOnlyIf(c, actions, id);
    }
  }

  /** So it is for every entry whose hand-outs all end in time. */
  lemma TimelyBothRecordsIff(c: Settings, actions: seq<Action>, id: nat)
    requires TimelyRun(c, actions, id)
    ensures var s := Run(c, actions);
      HasLetter(s, id) ==> (HasResult(s, id) <==> id in s.trail.torn)
  {
    TimelyNeverOverlaps(c, actions, id);
    BothRecordsIff(c, actions, id);
  }

  /** Every result is stored under the request of its own entry. */
  lemma ResultsSound(c: Settings, actions: seq<Action>, w: Written)
    requires w in Run(c, actions).written
    ensures 1 <= w.entry <= |Run(c, actions).stream.entries|
    ensures w.request == Run(c, actions).stream.entries[w.entry - 1].request
  {
    RunResults(c, actions);
  }

  // ---- How many letters an entry has ----

  function Letters(dead: seq<RetryPolicies.DeadLetter>, id: nat): nat {
    if dead == [] then 0
    else
      var n := |dead| - 1;
      Letters(dead[..n], id) + if dead[n].entry == id then 1 else 0
  }

  lemma LettersSnoc(dead: seq<RetryPolicies.DeadLetter>, d: RetryPolicies.DeadLetter, id: nat)
    ensures Letters(dead + [d], id) == Letters(dead, id) + if d.entry == id then 1 else 0
  {
    assert (dead + [d])[..|dead|] == dead;
  }

  ghost predicate BuriedAt(s: State, t: nat, id: nat) {
    t in s.tasks && s.tasks[t].stage.Buried? && s.tasks[t].held != [] && s.tasks[t].held[0].id == id
  }

  ghost predicate BuriedNow(s: State, id: nat) {
    exists t {:trigger BuriedAt(s, t, id)} :: BuriedAt(s, t, id)
  }

  /** Until it is acknowledged an entry has one letter for each fault between a letter and its
      acknowledgement, and one if a task is between the two. */
  ghost predicate LettersCounted(s: State, id: nat) {
    var letters, stranded := Letters(s.dead, id), s.trail.stranded[id];
    if id in s.acked then stranded <= letters <= stranded + 1
    else letters == stranded + if BuriedNow(s, id) then 1 else 0
  }

  /** Only XADD adds a letter. */
  lemma LettersChange(s: State, c: Settings, a: Action, id: nat)
    ensures Letters(Step(s, c, a).dead, id) == Letters(s.dead, id) || (a.Advance? && BuryingAt(s, a.task, id))
  {
    if a.Advance? && a.task in s.tasks && s.tasks[a.task].held != [] && s.tasks[a.task].stage.Burying? {
      var head := s.tasks[a.task].held[0];
      LettersSnoc(s.dead, RetryPolicies.DeadLetter(head.id, head.payload, RetryPolicies.EXHAUSTED), id);
    }
  }

  /** Only a fault in `Buried` strands an entry. */
  lemma StrandedChange(s: State, c: Settings, a: Action, id: nat)
    ensures Step(s, c, a).trail.stranded[id] == s.trail.stranded[id] || (a.Fault? && BuriedAt(s, a.task, id))
  {
  }

  ghost predicate BuryingAt(s: State, t: nat, id: nat) {
    t in s.tasks && s.tasks[t].stage.Burying? && s.tasks[t].held != [] && s.tasks[t].held[0].id == id
  }

  /** Under one holder at a time, a task that buries an entry is the only one, and the entry is pending. */
  lemma OneBurier(s: State, t: nat, u: nat, id: nat)
    requires Ledger(s) && Sole(s, id) && (BuriedAt(s, t, id) || BuryingAt(s, t, id))
    ensures id !in s.acked && (BuriedAt(s, u, id) ==> u == t)
  {
    assert s.tasks[t].held[0] in Leases(s.tasks[t]) && CurrentAt(s, t, id) && AloneAt(s, t, u, id);
    assert BuriedAt(s, u, id) ==> s.tasks[u].held[0] in Leases(s.tasks[u]);
  }

  lemma BuryCounted(s: State, t: nat, id: nat)
    requires Ledger(s) && Sole(s, id) && LettersCounted(s, id) && BuryingAt(s, t, id)
    ensures LettersCounted(Bury(s, t), id)
  {
    var s', head := Bury(s, t), s.tasks[t].held[0];
    OneBurier(s, t, t, id);
    forall u | BuriedAt(s, u, id)
      ensures false
    {
      OneBurier(s, t, u, id);
    }
    LettersSnoc(s.dead, RetryPolicies.DeadLetter(head.id, head.payload, RetryPolicies.EXHAUSTED), id);
    assert BuriedAt(s', t, id);
  }

  lemma StrandCounted(s: State, t: nat, id: nat)
    requires Ledger(s) && Sole(s, id) && LettersCounted(s, id) && BuriedAt(s, t, id)
    ensures LettersCounted(Break(s, t), id)
  {
    var s' := Break(s, t);
    OneBurier(s, t, t, id);
    forall u | BuriedAt(s', u, id)
      ensures false
    {
      assert BuriedAt(s, u, id);
      OneBurier(s, t, u, id);
    }
  }

  /** Otherwise only an acknowledgement takes an entry out of `Buried`. */
  lemma BuriedStays(s: State, c: Settings, a: Action, t: nat, id: nat)
    requires !(a.Advance? && BuryingAt(s, a.task, id)) && !(a.Fault? && BuriedAt(s, a.task, id))
    requires id !in Step(s, c, a).acked
    ensures BuriedAt(Step(s, c, a), t, id) <==> BuriedAt(s, t, id)
  {
    if t in s.tasks && a.Advance? && a.task == t {
      CommandKeepsBuried(s, c, t, a.result, id);
    } else if t in s.tasks && a != Fault(t) {
      TaskStays(s, c, t, a);
    }
  }

  lemma CommandKeepsBuried(s: State, c: Settings, t: nat, result: string, id: nat)
    requires t in s.tasks && !BuryingAt(s, t, id) && id !in AdvanceTask(s, c, t, result).acked
    ensures BuriedAt(AdvanceTask(s, c, t, result), t, id) <==> BuriedAt(s, t, id)
  {
  }

  lemma StepCounted(s: State, c: Settings, a: Action, id: nat)
    requires Inv(s, c) && Sole(s, id) && LettersCounted(s, id)
    ensures LettersCounted(Step(s, c, a), id)
  {
    var s' := Step(s, c, a);
    StepGrows(s, c, a);
    if a.Advance? && BuryingAt(s, a.task, id) {
      BuryCounted(s, a.task, id);
    } else if a.Fault? && BuriedAt(s, a.task, id) {
      StrandCounted(s, a.task, id);
    } else {
      LettersChange(s, c, a, id);
      StrandedChange(s, c, a, id);
      if id !in s'.acked {
        forall t
          ensures BuriedAt(s', t, id) <==> BuriedAt(s, t, id)
        {
          BuriedStays(s, c, a, t, id);
        }
      }
    }
  }

  lemma {:induction false} RunCounted(c: Settings, actions: seq<Action>, id: nat)
    requires id !in Run(c, actions).trail.overlapped
    ensures LettersCounted(Run(c, actions), id)
  {
    if actions != [] {
      var front, last := actions[..|actions| - 1], actions[|actions| - 1];
      OverlappedGrows(Run(c, front), c, last);
      RunCounted(c, front, id);
      RunKeeps(c, front);
      RunSole(c, front, id);
      StepCounted(Run(c, front), c, last, id);
    }
  }

  /** An entry never claimed while held gets one dead letter for each fault that hit its task between the
      letter and the acknowledgement, and at most one more. */
  lemma LettersBound(c: Settings, actions: seq<Action>, id: nat)
    requires id !in Run(c, actions).trail.overlapped
    ensures var s := Run(c, actions);
      s.trail.stranded[id] <= Letters(s.dead, id) <= s.trail.stranded[id] + 1
  {
    RunCounted(c, actions, id);
  }

  /** So over every run two letters take such a fault or an overlap. */
  lemma TwoLettersOnlyIf(c: Settings, actions: seq<Action>, id: nat)
    requires Letters(Run(c, actions).dead, id) >= 2
    ensures id in Run(c, actions).trail.stranded || id in Run(c, actions).trail.overlapped
  {
    if id !in Run(c, actions).trail.overlapped {
      LettersBound(c, actions, id);
    }
  }
}
