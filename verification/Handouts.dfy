/** What the delivery numbers of hand-outs say about every run. */
module Handouts {
  // However late its tasks are: how often an entry is retried and processed, and that a triage beyond the
  // budget ends it.

  import opened Seqs
  import opened Streams
  import opened QueueProtocol

  function Budget(c: Settings): nat {
    if c.maxRetries >= 1 then c.maxRetries else 1
  }

  /** How often `recover` may find an entry worth retrying. */
  function Retries(c: Settings): nat {
    if c.maxRetries >= 1 then c.maxRetries - 1 else 0
  }

  function Of(hs: set<Handout>, id: nat): set<Handout> {
    set h | h in hs && h.entry == id
  }

  predicate InJob(k: Task) {
    k.stage.Processing? || k.stage.Running? || k.stage.Storing? || k.stage.Acking?
  }

  /** The held leases that have not reached `_process_job` yet. */
  function Unentered(k: Task): seq<Lease> {
    if (k.stage.Running? || k.stage.Storing? || k.stage.Acking?) && k.held != [] then k.held[1..] else Leases(k)
  }

  /** The held leases that are going to be processed: read, or found worth retrying. */
  function Cleared(k: Task): seq<Lease> {
    if InJob(k) then Leases(k) else k.kept
  }

  /** The claimed leases that `recover` has not found worth retrying. */
  function Undecided(k: Task): seq<Lease> {
    if InJob(k) then [] else k.held
  }

  ghost predicate Admitted(s: State, h: Handout) {
    h.number == 1 || h in s.trail.granted || h in s.trail.blind
  }

  // ---- The invariant ----

  ghost predicate TaskNumbered(s: State, k: Task) {
    && (forall l :: l in Leases(k) ==> 1 <= l.number <= s.handed[l.id])
    && (forall l :: l in Unentered(k) ==> HandoutOf(l) !in s.trail.entered)
    && (forall l :: l in Undecided(k) ==>
          l.number >= 2 && HandoutOf(l) !in s.trail.granted && HandoutOf(l) !in s.trail.blind)
    && (forall l :: l in Cleared(k) ==> Admitted(s, HandoutOf(l)))
  }

  ghost predicate OtherHandouts(a: Task, b: Task) {
    forall l, m :: l in Leases(a) && m in Leases(b) ==> HandoutOf(l) != HandoutOf(m)
  }

  ghost predicate NumberedAt(s: State, t: nat) {
    t in s.tasks ==> TaskNumbered(s, s.tasks[t])
  }

  ghost predicate OthersAt(s: State, t: nat, u: nat) {
    t in s.tasks && u in s.tasks && t != u ==> OtherHandouts(s.tasks[t], s.tasks[u])
  }

  ghost predicate EnteredOnce(s: State, id: nat) {
    s.processed[id] == |Of(s.trail.entered, id)|
  }

  /** Every decision to keep an entry is about a hand-out that was undecided so far. */
  ghost predicate KeptOnce(s: State, id: nat) {
    s.trail.kept[id] == |Of(s.trail.granted, id)| + |Of(s.trail.blind, id)|
  }

  ghost predicate TrailOk(s: State, c: Settings) {
    && (forall h :: h in s.trail.entered ==> h.number <= s.handed[h.entry] && Admitted(s, h))
    && (forall h :: h in s.trail.granted ==> 2 <= h.number <= s.handed[h.entry] && h.number <= c.maxRetries)
    && (forall h :: h in s.trail.blind ==> 2 <= h.number <= s.handed[h.entry] && h.entry in s.acked)
    && (s.trail.blind != {} ==> c.maxRetries >= 0)
    && (forall d :: d in s.dead ==> s.handed[d.entry] >= 2)
    && (forall id {:trigger EnteredOnce(s, id)} :: EnteredOnce(s, id))
    && (forall id {:trigger KeptOnce(s, id)} :: KeptOnce(s, id))
  }

  ghost predicate Numbered(s: State, c: Settings) {
    && (forall t {:trigger NumberedAt(s, t)} :: NumberedAt(s, t))
    && (forall t, u {:trigger OthersAt(s, t, u)} :: OthersAt(s, t, u))
    && TrailOk(s, c)
  }

  // ---- Framing ----

  /** A step that only adds to the history, and to the decisions only hand-outs of `added`. */
  ghost predicate Extends(s: State, s': State, added: set<Handout>) {
    && s.handed <= s'.handed
    && s.trail.entered <= s'.trail.entered <= s.trail.entered + added
    && s.trail.granted <= s'.trail.granted <= s.trail.granted + added
    && s.trail.blind <= s'.trail.blind <= s.trail.blind + added
  }

  ghost predicate Spares(added: set<Handout>, k: Task) {
    forall l :: l in Leases(k) ==> HandoutOf(l) !in added
  }

  ghost predicate SparesAt(s: State, added: set<Handout>, t: nat, u: nat) {
    u in s.tasks && u != t ==> Spares(added, s.tasks[u])
  }

  ghost predicate OthersFrom(s: State, k: Task, t: nat, u: nat) {
    u in s.tasks && u != t ==> OtherHandouts(k, s.tasks[u])
  }

  lemma PartsOfLeases(k: Task)
    ensures forall l :: l in Unentered(k) ==> l in Leases(k)
    ensures forall l :: l in Undecided(k) ==> l in Leases(k)
    ensures forall l :: l in Cleared(k) ==> l in Leases(k)
  {
  }

  lemma NumberedKeeps(s: State, s': State, added: set<Handout>, k: Task)
    requires TaskNumbered(s, k) && Extends(s, s', added) && Spares(added, k)
    ensures TaskNumbered(s', k)
  {
    PartsOfLeases(k);
    forall l | l in Leases(k)
      ensures l.number <= s'.handed[l.id]
    {
      assert s.handed[l.id] <= s'.handed[l.id];
    }
  }

  /** A step of one task needs an eye on that task and on the trail alone. */
  lemma OneTaskNumbered(s: State, s': State, c: Settings, added: set<Handout>, t: nat, k: Task)
    requires Numbered(s, c) && Extends(s, s', added) && TrailOk(s', c)
    requires s'.tasks == s.tasks[t := k] && TaskNumbered(s', k)
    requires forall u {:trigger SparesAt(s, added, t, u)} :: SparesAt(s, added, t, u)
    requires forall u {:trigger OthersFrom(s, k, t, u)} :: OthersFrom(s, k, t, u)
    ensures Numbered(s', c)
  {
    forall u
      ensures NumberedAt(s', u)
    {
      assert NumberedAt(s, u) && SparesAt(s, added, t, u);
      if u in s.tasks && u != t {
        NumberedKeeps(s, s', added, s.tasks[u]);
      }
    }
    forall u, v
      ensures OthersAt(s', u, v)
    {
      assert OthersAt(s, u, v) && OthersFrom(s, k, t, u) && OthersFrom(s, k, t, v);
    }
  }

  ghost predicate Fewer(k': Task, k: Task) {
    forall l :: l in Leases(k') ==> l in Leases(k)
  }

  /** A task that goes on with some of its leases, having decided on hand-outs of its own only. */
  lemma FewerNumbered(s: State, s': State, c: Settings, added: set<Handout>, t: nat, k: Task)
    requires Numbered(s, c) && Extends(s, s', added) && TrailOk(s', c) && t in s.tasks
    requires s'.tasks == s.tasks[t := k] && TaskNumbered(s', k) && Fewer(k, s.tasks[t])
    requires forall h :: h in added ==> exists l :: l in Leases(s.tasks[t]) && HandoutOf(l) == h
    ensures Numbered(s', c)
  {
    forall u
      ensures SparesAt(s, added, t, u) && OthersFrom(s, k, t, u)
    {
      assert OthersAt(s, t, u);
    }
    OneTaskNumbered(s, s', c, added, t, k);
  }

  /** The history is longer only by hand-outs. */
  lemma SameTrail(s: State, s': State, c: Settings)
    requires TrailOk(s, c) && s.handed <= s'.handed && s.acked <= s'.acked
    requires s'.trail.(torn := {}, stranded := multiset{}, overlapped := {})
          == s.trail.(torn := {}, stranded := multiset{}, overlapped := {})
    requires s'.processed == s.processed && forall d :: d in s'.dead ==> d in s.dead || s'.handed[d.entry] >= 2
    ensures TrailOk(s', c)
  {
    forall id
      ensures EnteredOnce(s', id) && KeptOnce(s', id)
    {
      assert EnteredOnce(s, id) && KeptOnce(s, id);
    }
    forall h | h in s'.trail.entered
      ensures h.number <= s'.handed[h.entry] && Admitted(s', h)
    {
      assert Admitted(s, h) && s.handed[h.entry] <= s'.handed[h.entry];
    }
    forall h | h in s'.trail.granted || h in s'.trail.blind
      ensures h.number <= s'.handed[h.entry]
    {
      assert s.handed[h.entry] <= s'.handed[h.entry];
    }
    forall d | d in s'.dead
      ensures s'.handed[d.entry] >= 2
    {
      assert s.handed[d.entry] <= s'.handed[d.entry];
    }
  }

  // ---- Each command keeps it ----

  lemma ReadTaskNumbered(s: State, s': State, c: Settings, t: nat)
    requires Ledger(s) && TrailOk(s, c) && t in s.tasks
    requires s.stream.delivered < |s.stream.entries| && s' == ReadNext(s, t)
    ensures TaskNumbered(s', s'.tasks[t])
    ensures forall l :: l in Leases(s'.tasks[t]) ==> s.handed[l.id] == 0
  {
    var id := s.stream.delivered + 1;
    assert id !in s.handed;
    assert Leases(s'.tasks[t]) == [Lease(id, s.stream.entries[id - 1], s.now, 1)];
  }

  /** New hand-outs are numbered beyond those that exist. */
  lemma NewIsOther(s: State, k: Task, t: nat, u: nat)
    requires NumberedAt(s, u) && forall l :: l in Leases(k) ==>
      l.number > s.handed[l.id] || (t in s.tasks && l in Leases(s.tasks[t]))
    requires OthersAt(s, t, u)
    ensures OthersFrom(s, k, t, u)
  {
  }

  lemma ReadNumbered(s: State, c: Settings, t: nat)
    requires Ledger(s) && Numbered(s, c) && t in s.tasks && s.stream.delivered < |s.stream.entries|
    ensures Numbered(ReadNext(s, t), c)
  {
    var s' := ReadNext(s, t);
    ReadTaskNumbered(s, s', c, t);
    forall u
      ensures SparesAt(s, {}, t, u) && OthersFrom(s, s'.tasks[t], t, u)
    {
      assert NumberedAt(s, u) && OthersAt(s, t, u);
      NewIsOther(s, s'.tasks[t], t, u);
    }
    SameTrail(s, s', c);
    OneTaskNumbered(s, s', c, {}, t, s'.tasks[t]);
  }

  /** A claim numbers each hand-out by the new delivery count. */
  lemma AddedLease(s: State, s': State, page: seq<nat>, owner: Consumer, l: Lease)
    requires Ledger(s) && Ascending(page) && (forall id :: id in page ==> id in s.stream.pending)
    requires s'.stream == s.stream.Claimed(page, owner, s.now) && s'.handed == s.handed + multiset(page)
    requires l in Map(page, LeaseAt(s'.stream, s.now))
    ensures l.id in page && l.at == s.now && l.number == s.handed[l.id] + 1 == s'.handed[l.id] && l.number >= 2
  {
    var added := Map(page, LeaseAt(s'.stream, s.now));
    var i :| 0 <= i < |page| && added[i] == l;
    assert page[i] in page;
    LeaseOf(s'.stream, s.now, page[i]);
    OnceEach(page, l.id);
  }

  /** The leases of a task after its claim: those it held and those it was given. */
  lemma LeasesAfterClaim(s: State, s': State, c: Settings, t: nat, cursor: nat)
    requires t in s.tasks && s.tasks[t].kept == [] && s' == ClaimPage(s, c, t, cursor)
    ensures var k, page := s'.tasks[t], PageFrom(s.stream, cursor, s.now, c.minIdle).claimed;
      && s'.stream == s.stream.Claimed(page, s.tasks[t].owner, s.now)
      && Leases(k) == s.tasks[t].held + Map(page, LeaseAt(s'.stream, s.now))
      && Unentered(k) == Leases(k) && Cleared(k) == [] && Undecided(k) == Leases(k)
  {
    var k := s'.tasks[t];
    assert k.kept == [] && !InJob(k);
  }

  lemma ClaimedNumbered(s: State, s': State, k: Task, page: seq<nat>, l: Lease)
    requires Ledger(s) && Ascending(page) && (forall id :: id in page ==> id in s.stream.pending)
    requires s'.stream == s.stream.Claimed(page, k.owner, s.now) && s'.handed == s.handed + multiset(page)
    requires TaskNumbered(s, k) && k.kept == [] && (k.stage.Idle? || k.stage.Reclaiming?)
    requires forall h :: h in s.trail.entered || h in s.trail.granted || h in s.trail.blind ==>
      h.number <= s.handed[h.entry]
    requires s'.trail == s.trail.(overlapped := s'.trail.overlapped)
    requires l in k.held + Map(page, LeaseAt(s'.stream, s.now))
    ensures 2 <= l.number <= s'.handed[l.id]
    ensures HandoutOf(l) !in s'.trail.entered && HandoutOf(l) !in s'.trail.granted && HandoutOf(l) !in s'.trail.blind
    ensures l in Leases(k) || l.number > s.handed[l.id]
  {
    if l in k.held {
      assert l in Leases(k) && l in Unentered(k) && l in Undecided(k);
      assert s.handed[l.id] <= s'.handed[l.id];
    } else {
      AddedLease(s, s', page, k.owner, l);
    }
  }

  lemma ClaimedTaskNumbered(s: State, s': State, c: Settings, t: nat, cursor: nat)
    requires Ledger(s) && TrailOk(s, c) && t in s.tasks && TaskNumbered(s, s.tasks[t]) && s.tasks[t].kept == []
    requires (s.tasks[t].stage.Idle? || s.tasks[t].stage.Reclaiming?) && s' == ClaimPage(s, c, t, cursor)
    ensures TaskNumbered(s', s'.tasks[t])
    ensures forall l :: l in Leases(s'.tasks[t]) ==> l.number > s.handed[l.id] || l in Leases(s.tasks[t])
  {
    var page := PageFrom(s.stream, cursor, s.now, c.minIdle).claimed;
    PageAdvances(s.stream, cursor, s.now, c.minIdle);
    LeasesAfterClaim(s, s', c, t, cursor);
    forall l | l in Leases(s'.tasks[t])
      ensures 2 <= l.number <= s'.handed[l.id] && (l in Leases(s.tasks[t]) || l.number > s.handed[l.id])
      ensures HandoutOf(l) !in s'.trail.entered && HandoutOf(l) !in s'.trail.granted && HandoutOf(l) !in s'.trail.blind
    {
      ClaimedNumbered(s, s', s.tasks[t], page, l);
    }
  }

  lemma ClaimNumbered(s: State, c: Settings, t: nat, cursor: nat)
    requires Ledger(s) && Numbered(s, c) && t in s.tasks && s.tasks[t].kept == []
    requires s.tasks[t].stage.Idle? || s.tasks[t].stage.Reclaiming?
    ensures Numbered(ClaimPage(s, c, t, cursor), c)
  {
    var s' := ClaimPage(s, c, t, cursor);
    assert NumberedAt(s, t);
    ClaimedTaskNumbered(s, s', c, t, cursor);
    forall u
      ensures SparesAt(s, {}, t, u) && OthersFrom(s, s'.tasks[t], t, u)
    {
      assert NumberedAt(s, u) && OthersAt(s, t, u);
      NewIsOther(s, s'.tasks[t], t, u);
    }
    SameTrail(s, s', c);
    OneTaskNumbered(s, s', c, {}, t, s'.tasks[t]);
  }

  /** The rest of a task's leases are other entries than its first held one. */
  lemma TailDistinct(s: State, c: Settings, k: Task)
    requires TaskOk(s, c, k) && k.held != []
    ensures forall l :: l in k.kept + k.held[1..] ==> l in Leases(k) && l.id != k.held[0].id
  {
    var n := |k.kept|;
    assert Leases(k)[n] == k.held[0];
    forall l | l in k.kept + k.held[1..]
      ensures l in Leases(k) && l.id != k.held[0].id
    {
      if l in k.kept {
        var i :| 0 <= i < n && k.kept[i] == l;
        assert Leases(k)[i] == l;
      } else {
        var i :| 0 <= i < |k.held[1..]| && k.held[1..][i] == l;
        assert Leases(k)[n + 1 + i] == l;
      }
    }
  }

  /** The parts of a task that has found its first held entry worth retrying. */
  lemma KeptParts(k: Task)
    requires k.held != [] && k.stage.Triaging?
    ensures var k' := NextTriage(k.(held := k.held[1..], kept := k.kept + [k.held[0]]));
      && Leases(k') == Leases(k) && Unentered(k') == Leases(k) && Unentered(k) == Leases(k)
      && Undecided(k') == k.held[1..] && Cleared(k') == k.kept + [k.held[0]]
  {
    var k' := NextTriage(k.(held := k.held[1..], kept := k.kept + [k.held[0]]));
    assert k.kept + k.held == k.kept + [k.held[0]] + k.held[1..];
    assert k.held[1..] == [] ==> k.held == [k.held[0]];
  }

  lemma KeptNumbered(s: State, s': State, c: Settings, k: Task)
    requires TaskOk(s, c, k) && TaskNumbered(s, k) && k.held != [] && k.stage.Triaging?
    requires s'.handed == s.handed && s'.trail.entered == s.trail.entered && Extends(s, s', {HandoutOf(k.held[0])})
    requires HandoutOf(k.held[0]) in s'.trail.granted || HandoutOf(k.held[0]) in s'.trail.blind
    ensures TaskNumbered(s', NextTriage(k.(held := k.held[1..], kept := k.kept + [k.held[0]])))
  {
    KeptParts(k);
    TailDistinct(s, c, k);
    var k' := NextTriage(k.(held := k.held[1..], kept := k.kept + [k.held[0]]));
    forall l | l in Undecided(k')
      ensures l.number >= 2 && HandoutOf(l) !in s'.trail.granted && HandoutOf(l) !in s'.trail.blind
    {
      assert l in k.kept + k.held[1..] && l in Undecided(k);
    }
    forall l | l in Cleared(k')
      ensures Admitted(s', HandoutOf(l))
    {
      assert l in k.kept ==> Admitted(s, HandoutOf(l));
    }
  }

  /** A decision is recorded for a hand-out that was undecided. */
  lemma DecidedTrail(s: State, s': State, c: Settings, t: nat)
    requires Inv(s, c) && TrailOk(s, c) && NumberedAt(s, t)
    requires t in s.tasks && s.tasks[t].stage.Triaging? && s.tasks[t].held != []
    requires s.stream.Deliveries(s.tasks[t].held[0].id) <= c.maxRetries && s' == Triage(s, c, t)
    ensures TrailOk(s', c) && Extends(s, s', {HandoutOf(s.tasks[t].held[0])})
  {
    var head := s.tasks[t].held[0];
    assert OkAt(s, c, t) && head in Leases(s.tasks[t]) && head in Undecided(s.tasks[t]);
    assert LeaseOk(s, head);
    forall id
      ensures EnteredOnce(s', id) && KeptOnce(s', id)
    {
      assert EnteredOnce(s, id) && KeptOnce(s, id);
      OfAdd(s.trail.granted, HandoutOf(head), id);
      OfAdd(s.trail.blind, HandoutOf(head), id);
    }
    forall h | h in s'.trail.entered
      ensures Admitted(s', h)
    {
      assert Admitted(s, h);
    }
  }

  lemma TriageNumbered(s: State, c: Settings, t: nat)
    requires Inv(s, c) && Numbered(s, c) && t in s.tasks && s.tasks[t].stage.Triaging? && s.tasks[t].held != []
    ensures Numbered(Triage(s, c, t), c)
  {
    var s', k := Triage(s, c, t), s.tasks[t];
    var head := k.held[0];
    assert OkAt(s, c, t) && NumberedAt(s, t) && head in Leases(k);
    if s.stream.Deliveries(head.id) > c.maxRetries {
      SamePartsNumbered(s, s', c, t);
    } else {
      DecidedTrail(s, s', c, t);
      KeptNumbered(s, s', c, k);
      KeptParts(k);
      FewerNumbered(s, s', c, {HandoutOf(head)}, t, s'.tasks[t]);
    }
  }

  /** Another stage with the same leases, entered, decided and cleared as before. */
  lemma SamePartsNumbered(s: State, s': State, c: Settings, t: nat)
    requires Numbered(s, c) && t in s.tasks && t in s'.tasks && s'.tasks == s.tasks[t := s'.tasks[t]]
    requires s'.handed == s.handed && s.acked <= s'.acked && s'.processed == s.processed && s'.trail == s.trail
    requires forall d :: d in s'.dead ==> d in s.dead || s.handed[d.entry] >= 2
    requires var k, k' := s.tasks[t], s'.tasks[t];
      && Leases(k') == Leases(k) && Unentered(k') == Unentered(k)
      && Undecided(k') == Undecided(k) && Cleared(k') == Cleared(k)
    ensures Numbered(s', c)
  {
    assert NumberedAt(s, t);
    SameTrail(s, s', c);
    FewerNumbered(s, s', c, {}, t, s'.tasks[t]);
  }

  lemma OfAdd(hs: set<Handout>, h: Handout, id: nat)
    requires h !in hs
    ensures |Of(hs + {h}, id)| == |Of(hs, id)| + if h.entry == id then 1 else 0
  {
    if h.entry == id {
      assert Of(hs + {h}, id) == Of(hs, id) + {h};
    } else {
      assert Of(hs + {h}, id) == Of(hs, id);
    }
  }

  lemma EnteredTrail(s: State, s': State, c: Settings, t: nat)
    requires TrailOk(s, c) && t in s.tasks && s.tasks[t].held != [] && s.tasks[t].stage.Processing? && s' == Enter(s, t)
    requires NumberedAt(s, t) && s.tasks[t].kept == []
    ensures TrailOk(s', c) && Extends(s, s', {HandoutOf(s.tasks[t].held[0])})
  {
    var k := s.tasks[t];
    var head := k.held[0];
    assert head in Leases(k) && head in Unentered(k) && head in Cleared(k);
    forall id
      ensures EnteredOnce(s', id) && KeptOnce(s', id)
    {
      assert EnteredOnce(s, id) && KeptOnce(s, id);
      OfAdd(s.trail.entered, HandoutOf(head), id);
    }
    assert Admitted(s, HandoutOf(head));
    forall h | h in s'.trail.entered
      ensures Admitted(s', h)
    {
      assert Admitted(s, h);
    }
  }

  lemma EnteredNumbered(s: State, s': State, c: Settings, k: Task)
    requires TaskOk(s, c, k) && TaskNumbered(s, k) && k.held != [] && k.kept == [] && k.stage.Processing?
    requires s'.handed == s.handed && s'.trail == s.trail.(entered := s.trail.entered + {HandoutOf(k.held[0])})
    ensures TaskNumbered(s', k.(stage := Running))
  {
    var k' := k.(stage := Running);
    assert Leases(k) == k.held && Leases(k') == k.held;
    TailDistinct(s, c, k);
    forall l | l in Unentered(k')
      ensures HandoutOf(l) !in s'.trail.entered
    {
      assert l in k.kept + k.held[1..];
      assert l in Unentered(k);
    }
    forall l | l in Cleared(k')
      ensures Admitted(s', HandoutOf(l))
    {
      assert l in Cleared(k) && Admitted(s, HandoutOf(l));
    }
  }

  lemma EnterNumbered(s: State, c: Settings, t: nat)
    requires Inv(s, c) && Numbered(s, c) && t in s.tasks && s.tasks[t].held != [] && s.tasks[t].stage.Processing?
    ensures Numbered(Enter(s, t), c)
  {
    var s', k := Enter(s, t), s.tasks[t];
    assert OkAt(s, c, t) && NumberedAt(s, t) && k.held[0] in Leases(k);
    EnteredTrail(s, s', c, t);
    EnteredNumbered(s, s', c, k);
    FewerNumbered(s, s', c, {HandoutOf(k.held[0])}, t, s'.tasks[t]);
  }

  lemma ReleasedNumbered(s: State, s': State, c: Settings, k: Task, k': Task)
    requires TaskOk(s, c, k) && TaskNumbered(s, k) && k.held != []
    requires k.stage.Buried? || (k.stage.Acking? && k.kept == [])
    requires k' == if k.stage.Buried? then NextTriage(k.(held := k.held[1..])) else NextJob(k)
    requires s'.handed == s.handed && s'.trail == s.trail
    ensures TaskNumbered(s', k') && Fewer(k', k)
  {
    TailDistinct(s, c, k);
    var rest := k.kept + k.held[1..];
    assert Leases(k') == rest && Unentered(k') == rest;
    forall l | l in rest
      ensures l in Leases(k) && l in Unentered(k)
    {
    }
    assert forall l :: l in Undecided(k') ==> l in Undecided(k);
    forall l | l in Cleared(k')
      ensures Admitted(s', HandoutOf(l))
    {
      assert l in Cleared(k) && Admitted(s, HandoutOf(l));
    }
  }

  lemma AcknowledgeNumbered(s: State, c: Settings, t: nat)
    requires Inv(s, c) && Numbered(s, c) && t in s.tasks && s.tasks[t].held != []
    requires s.tasks[t].stage.Buried? || s.tasks[t].stage.Acking?
    ensures Numbered(Acknowledge(s, t), c)
  {
    var s', k := Acknowledge(s, t), s.tasks[t];
    assert OkAt(s, c, t) && NumberedAt(s, t);
    ReleasedNumbered(s, s', c, k, s'.tasks[t]);
    SameTrail(s, s', c);
    FewerNumbered(s, s', c, {}, t, s'.tasks[t]);
  }

  lemma BuryNumbered(s: State, c: Settings, t: nat)
    requires Numbered(s, c) && t in s.tasks && s.tasks[t].held != [] && s.tasks[t].stage.Burying?
    ensures Numbered(Bury(s, t), c)
  {
    var k := s.tasks[t];
    assert NumberedAt(s, t) && k.held[0] in Leases(k) && k.held[0] in Undecided(k);
    SamePartsNumbered(s, Bury(s, t), c, t);
  }

  lemma NothingHeld(s: State, k: Task)
    requires Leases(k) == []
    ensures TaskNumbered(s, k)
  {
    PartsOfLeases(k);
  }

  lemma BreakNumbered(s: State, c: Settings, t: nat)
    requires Numbered(s, c) && t in s.tasks
    ensures Numbered(Break(s, t), c)
  {
    var s' := Break(s, t);
    NothingHeld(s', s'.tasks[t]);
    SameTrail(s, s', c);
    FewerNumbered(s, s', c, {}, t, s'.tasks[t]);
  }

  lemma SpawnNumbered(s: State, c: Settings, t: nat, k: Task)
    requires Numbered(s, c) && t !in s.tasks && Leases(k) == []
    ensures Numbered(WithTask(s, t, k), c)
  {
    var s' := WithTask(s, t, k);
    NothingHeld(s', k);
    SameTrail(s, s', c);
    forall u
      ensures SparesAt(s, {}, t, u) && OthersFrom(s, k, t, u)
    {
    }
    OneTaskNumbered(s, s', c, {}, t, k);
  }

  lemma NoTaskNumbered(s: State, s': State, c: Settings)
    requires Numbered(s, c) && s'.tasks == s.tasks && s'.handed == s.handed && s'.acked == s.acked
    requires s'.processed == s.processed && s'.trail == s.trail && s'.dead == s.dead
    ensures Numbered(s', c)
  {
    SameTrail(s, s', c);
    forall t
      ensures NumberedAt(s', t)
    {
      assert NumberedAt(s, t);
      if t in s.tasks {
        NumberedKeeps(s, s', {}, s.tasks[t]);
      }
    }
    forall t, u
      ensures OthersAt(s', t, u)
    {
      assert OthersAt(s, t, u);
    }
  }

  lemma HeldNumbered(s: State, c: Settings, t: nat, result: string)
    requires Inv(s, c) && Numbered(s, c) && t in s.tasks && s.tasks[t].held != []
    requires !s.tasks[t].stage.Idle? && !s.tasks[t].stage.Reclaiming?
    ensures Numbered(AdvanceHeld(s, c, t, result), c)
  {
    var k := s.tasks[t];
    if k.stage.Triaging? {
      TriageNumbered(s, c, t);
    } else if k.stage.Burying? {
      BuryNumbered(s, c, t);
    } else if k.stage.Processing? {
      EnterNumbered(s, c, t);
    } else if k.stage.Buried? || k.stage.Acking? {
      AcknowledgeNumbered(s, c, t);
    } else {
      SamePartsNumbered(s, AdvanceHeld(s, c, t, result), c, t);
    }
  }

  lemma AdvanceNumbered(s: State, c: Settings, t: nat, result: string)
    requires Inv(s, c) && Numbered(s, c) && t in s.tasks
    ensures Numbered(AdvanceTask(s, c, t, result), c)
  {
    var k := s.tasks[t];
    assert OkAt(s, c, t);
    if k.stage.Reclaiming? {
      ClaimNumbered(s, c, t, k.stage.cursor);
    } else if !k.stage.Idle? {
      HeldNumbered(s, c, t, result);
    } else if k.role.Recoverer? {
      ClaimNumbered(s, c, t, 0);
    } else if s.stream.delivered < |s.stream.entries| {
      ReadNumbered(s, c, t);
    }
  }

  lemma StepNumbered(s: State, c: Settings, a: Action)
    requires Inv(s, c) && Numbered(s, c)
    ensures Numbered(Step(s, c, a), c)
  {
    match a
    case Enqueue(p) => NoTaskNumbered(s, Step(s, c, a), c);
    case Tick(ms) => NoTaskNumbered(s, Step(s, c, a), c);
    case Spawn(t, role, owner) =>
      if t !in s.tasks {
        SpawnNumbered(s, c, t, Task(role, owner, Idle, [], []));
      }
    case Fault(t) =>
      if t in s.tasks {
        BreakNumbered(s, c, t);
      }
    case Advance(t, result) =>
      if t in s.tasks {
        AdvanceNumbered(s, c, t, result);
      }
  }

  lemma {:induction false} RunNumbered(c: Settings, actions: seq<Action>)
    ensures Numbered(Run(c, actions), c)
  {
    if actions == [] {
      forall id
        ensures EnteredOnce(START, id) && KeptOnce(START, id)
      {
        assert Of({}, id) == {};
      }
    } else {
      RunNumbered(c, actions[..|actions| - 1]);
      RunKeeps(c, actions[..|actions| - 1]);
      StepNumbered(Run(c, actions[..|actions| - 1]), c, actions[|actions| - 1]);
    }
  }

  // ---- Every run ----

  /** Hand-outs of one entry with numbers from `lo` to `hi` are no more than those numbers. */
  lemma {:induction false} NumbersBound(hs: set<Handout>, id: nat, lo: nat, hi: int)
    requires forall h :: h in hs ==> h.entry == id && lo <= h.number <= hi
    ensures |hs| <= if hi >= lo then hi - lo + 1 else 0
    decreases hi
  {
    if hi < lo {
      assert hs == {};
    } else {
      var last := Handout(id, hi);
      NumbersBound(hs - {last}, id, lo, hi - 1);
      assert hs <= (hs - {last}) + {last};
      CardinalityOfUnion(hs - {last}, {last}, hs);
    }
  }

  lemma CardinalityOfUnion<T>(a: set<T>, b: set<T>, whole: set<T>)
    requires whole <= a + b
    ensures |whole| <= |a| + |b|
  {
    assert whole == (whole * a) + (whole - a);
    SubsetSmaller(whole * a, a);
    SubsetSmaller(whole - a, b);
  }

  /** Over every run, whoever asks and whatever happens in between: each decision to keep an entry is about
      another hand-out of it, and those that found it pending are at most max(0, max_retries - 1). */
  lemma RetriedWithinBudget(c: Settings, actions: seq<Action>, id: nat)
    ensures var trail := Run(c, actions).trail;
      && trail.kept[id] == |Of(trail.granted, id)| + |Of(trail.blind, id)|
      && |Of(trail.granted, id)| <= Retries(c)
  {
    RunNumbered(c, actions);
    assert KeptOnce(Run(c, actions), id);
    NumbersBound(Of(Run(c, actions).trail.granted, id), id, 2, c.maxRetries);
  }

  /** So `recover` has decided to keep an entry that nobody has acknowledged yet at most that often. */
  lemma KeptWhilePending(c: Settings, actions: seq<Action>, id: nat)
    requires id !in Run(c, actions).acked
    ensures Run(c, actions).trail.kept[id] <= Retries(c)
  {
    RunNumbered(c, actions);
    RetriedWithinBudget(c, actions, id);
    assert Of(Run(c, actions).trail.blind, id) == {};
  }

  /** Over every run, timely or not, an entry reaches `_process_job` at most max(1, max_retries) times and
      once more for each triage that did not find it pending: only such a triage breaks the budget. */
  lemma ProcessedWithinDecisions(c: Settings, actions: seq<Action>, id: nat)
    ensures var s := Run(c, actions);
      s.processed[id] <= Budget(c) + |Of(s.trail.blind, id)|
  {
    var s := Run(c, actions);
    RunNumbered(c, actions);
    assert EnteredOnce(s, id);
    var entered, granted, blind := Of(s.trail.entered, id), Of(s.trail.granted, id), Of(s.trail.blind, id);
    forall h | h in entered
      ensures h in ({Handout(id, 1)} + granted) + blind
    {
      assert Admitted(s, h);
    }
    CardinalityOfUnion({Handout(id, 1)} + granted, blind, entered);
    CardinalityOfUnion({Handout(id, 1)}, granted, {Handout(id, 1)} + granted);
    RetriedWithinBudget(c, actions, id);
  }

  /** With a negative budget a triage never finds an entry worth retrying, pending or not. */
  lemma NegativeBudgetHolds(c: Settings, actions: seq<Action>, id: nat)
    requires c.maxRetries < 0
    ensures Run(c, actions).processed[id] <= Budget(c)
  {
    var s := Run(c, actions);
    RunNumbered(c, actions);
    ProcessedWithinDecisions(c, actions, id);
    assert Of(s.trail.blind, id) == {};
  }

  // ---- Progress ----

  /** How many commands of task `t` are among the actions. */
  function Turns(actions: seq<Action>, t: nat): nat {
    if actions == [] then 0
    else
      var last := actions[|actions| - 1];
      Turns(actions[..|actions| - 1], t) + if last.Advance? && last.task == t then 1 else 0
  }

  predicate Undisturbed(actions: seq<Action>, t: nat) {
    forall a :: a in actions ==> a != Fault(t)
  }

  /** Task `t` is `done` commands into the triage of a lease whose entry is beyond the budget, unless the
      entry is acknowledged already. */
  ghost predicate Closing(s: State, c: Settings, t: nat, l: Lease, done: nat) {
    l.id in s.acked ||
    (t in s.tasks && s.tasks[t].held != [] && s.tasks[t].held[0] == l && s.handed[l.id] > c.maxRetries
     && ((done == 0 && s.tasks[t].stage.Triaging?) || (done == 1 && s.tasks[t].stage.Burying?)
         || (done == 2 && s.tasks[t].stage.Buried?)))
  }

  /** Only its own commands and faults change a task. */
  lemma TaskStays(s: State, c: Settings, t: nat, a: Action)
    requires t in s.tasks && a != Fault(t) && !(a.Advance? && a.task == t)
    ensures t in Step(s, c, a).tasks && Step(s, c, a).tasks[t] == s.tasks[t]
  {
  }

  /** The next command of a triage beyond the budget. */
  lemma ClosingCommand(s: State, s': State, c: Settings, t: nat, l: Lease, done: nat, result: string)
    requires Ledger(s) && Closing(s, c, t, l, done) && l.id !in s.acked && LeaseOk(s, l)
    requires s' == AdvanceTask(s, c, t, result)
    ensures Closing(s', c, t, l, done + 1)
  {
    assert l.id in s.stream.pending;
  }

  lemma ClosingStep(s: State, c: Settings, t: nat, l: Lease, done: nat, a: Action)
    requires Inv(s, c) && Closing(s, c, t, l, done) && a != Fault(t)
    ensures Closing(Step(s, c, a), c, t, l, if a.Advance? && a.task == t then done + 1 else done)
  {
    var s' := Step(s, c, a);
    StepGrows(s, c, a);
    if l.id !in s.acked {
      if a.Advance? && a.task == t {
        assert OkAt(s, c, t) && l in Leases(s.tasks[t]);
        ClosingCommand(s, s', c, t, l, done, a.result);
      } else {
        TaskStays(s, c, t, a);
        assert s.handed[l.id] <= s'.handed[l.id];
      }
    }
  }

  lemma {:induction false} ClosingRun(c: Settings, actions: seq<Action>, more: seq<Action>, t: nat, l: Lease)
    requires Closing(Run(c, actions), c, t, l, 0) && Undisturbed(more, t)
    ensures Closing(Run(c, actions + more), c, t, l, Turns(more, t))
  {
    if more == [] {
      assert actions + more == actions;
    } else {
      var front, last := more[..|more| - 1], more[|more| - 1];
      assert (actions + more)[..|actions + more| - 1] == actions + front;
      assert last in more && forall a :: a in front ==> a in more;
      ClosingRun(c, actions, front, t, l);
      RunKeeps(c, actions + front);
      ClosingStep(Run(c, actions + front), c, t, l, Turns(front, t), last);
    }
  }

  /** A claimed hand-out that comes after all the retries is beyond the budget: the retries have used up
      the numbers below. */
  lemma RetriesUsedUp(s: State, c: Settings, k: Task, l: Lease)
    requires TrailOk(s, c) && TaskNumbered(s, k) && l in Undecided(k) && |Of(s.trail.granted, l.id)| >= Retries(c)
    ensures l.number > c.maxRetries
  {
    var granted := Of(s.trail.granted, l.id);
    var all := granted + {HandoutOf(l)};
    assert |all| == |granted| + 1;
    if l.number <= c.maxRetries {
      NumbersBound(all, l.id, 2, c.maxRetries);
    }
  }

  /** Over every run: an entry that has had its max(0, max_retries - 1) retries is acknowledged, with its
      record, by the next triage of it that runs to its end, whatever happens between its three commands. */
  lemma TriageEnds(c: Settings, actions: seq<Action>, more: seq<Action>, t: nat, l: Lease)
    requires var s := Run(c, actions);
      && t in s.tasks && s.tasks[t].stage.Triaging? && s.tasks[t].held != [] && s.tasks[t].held[0] == l
      && |Of(s.trail.granted, l.id)| >= Retries(c)
    requires Undisturbed(more, t) && Turns(more, t) >= 3
    ensures var later := Run(c, actions + more);
      && l.id in later.acked && l.id !in later.stream.pending
      && (HasResult(later, l.id) || HasLetter(later, l.id))
  {
    var s := Run(c, actions);
    RunNumbered(c, actions);
    assert NumberedAt(s, t) && l in Leases(s.tasks[t]) && l in Undecided(s.tasks[t]);
    RetriesUsedUp(s, c, s.tasks[t], l);
    ClosingRun(c, actions, more, t, l);
    RunKeeps(c, actions + more);
  }
}
