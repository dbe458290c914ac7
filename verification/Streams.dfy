/** The Redis stream behind job_queue/streams.py. */
module Streams {
  // One stream and one consumer group, with the commands that the queue issues as functions on their
  // state. An entry's id is its position in the stream, from 1; the id "0-0" is 0.

  import opened Seqs

  datatype RequestId = RequestId(text: string)
  datatype Consumer = Consumer(name: string)

  /** A job: the request that its result is stored under, and the other fields. */
  datatype Payload = Payload(request: RequestId, body: string)

  /** An entry of the pending list: who was handed it last, when, and how many times it was handed out. */
  datatype Pending = Pending(owner: Consumer, since: int, deliveries: nat)

  datatype Entry = Entry(id: nat, payload: Payload)

  datatype Stream = Stream(entries: seq<Payload>, delivered: nat, pending: map<nat, Pending>)
  {
    ghost predicate Valid() {
      delivered <= |entries| && forall id :: id in pending ==> 1 <= id <= delivered && pending[id].deliveries >= 1
    }

    /** XADD. */
    function Added(p: Payload): Stream {
      this.(entries := entries + [p])
    }

    /** XREADGROUP with `>` and a count of one. */
    function Read(owner: Consumer, now: int): Stream {
      if delivered >= |entries| then this
      else this.(delivered := delivered + 1, pending := pending[delivered + 1 := Pending(owner, now, 1)])
    }

    /** XACK. */
    function Acked(id: nat): Stream {
      this.(pending := pending - {id})
    }

    /** The delivery count that XPENDING reports, or 0 for an entry that is not pending. */
    function Deliveries(id: nat): nat {
      if id in pending then pending[id].deliveries else 0
    }

    /** The state that XAUTOCLAIM leaves after handing the page to `owner`. */
    function Claimed(page: seq<nat>, owner: Consumer, now: int): Stream {
      this.(pending := Reassigned(pending, page, owner, now))
    }
  }

  function Reassigned(pending: map<nat, Pending>, page: seq<nat>, owner: Consumer, now: int): map<nat, Pending> {
    map id | id in pending :: if id in page then Pending(owner, now, pending[id].deliveries + 1) else pending[id]
  }

  // ---- XAUTOCLAIM ----

  const COUNT := 50
  const ATTEMPTS := COUNT * 10

  ghost predicate Ascending(ids: seq<nat>) {
    forall i, j :: 0 <= i < j < |ids| ==> ids[i] < ids[j]
  }

  /** The pending ids from `start` on, ascending. */
  function PendingFrom(pending: map<nat, Pending>, start: nat, last: nat): seq<nat>
    decreases last + 1 - start
  {
    if start > last then []
    else (if start in pending then [start] else []) + PendingFrom(pending, start + 1, last)
  }

  function Stale(pending: map<nat, Pending>, now: int, minIdle: int): nat -> bool {
    (id: nat) => id in pending && now - pending[id].since >= minIdle
  }

  /** How many entries one call looks at: it stops at the end of the list, after `attempts` entries, or
      once it has claimed `count`. */
  function Scanned(ids: seq<nat>, attempts: nat, count: nat, stale: nat -> bool): (n: nat)
    ensures n <= |ids| && n <= attempts
    decreases attempts
  {
    if ids == [] || attempts == 0 || count == 0 then 0
    else 1 + Scanned(ids[1..], attempts - 1, if stale(ids[0]) then count - 1 else count, stale)
  }

  /** One call's answer: the entries it claims and the id to continue from, 0 at the end. */
  datatype Page = Page(claimed: seq<nat>, cursor: nat)

  function PageOf(ids: seq<nat>, stale: nat -> bool): Page {
    var n := Scanned(ids, ATTEMPTS, COUNT, stale);
    Page(Filter(ids[..n], stale), if n < |ids| then ids[n] else 0)
  }

  function PageFrom(s: Stream, start: nat, now: int, minIdle: int): Page {
    PageOf(PendingFrom(s.pending, start, s.delivered), Stale(s.pending, now, minIdle))
  }

  lemma {:induction false} PendingFromAscends(pending: map<nat, Pending>, start: nat, last: nat)
    ensures forall id :: id in PendingFrom(pending, start, last) <==> id in pending && start <= id <= last
    ensures Ascending(PendingFrom(pending, start, last))
    decreases last + 1 - start
  {
    if start <= last {
      PendingFromAscends(pending, start + 1, last);
      var rest := PendingFrom(pending, start + 1, last);
      forall j | 0 <= j < |rest|
        ensures start < rest[j]
      {
        assert rest[j] in rest;
      }
      assert forall id :: id in PendingFrom(pending, start, last) <==> (id == start && start in pending) || id in rest;
    }
  }

  /** Continuing from a listed id lists the rest. */
  lemma {:induction false} PendingFromTail(pending: map<nat, Pending>, start: nat, last: nat, n: nat)
    requires n < |PendingFrom(pending, start, last)|
    ensures var ids := PendingFrom(pending, start, last);
      PendingFrom(pending, ids[n], last) == ids[n..]
    decreases last + 1 - start
  {
    var rest := PendingFrom(pending, start + 1, last);
    if start !in pending {
      PendingFromTail(pending, start + 1, last, n);
    } else if n > 0 {
      PendingFromTail(pending, start + 1, last, n - 1);
      assert ([start] + rest)[n..] == rest[n - 1..];
    }
  }

  /** Only the keys matter. */
  lemma {:induction false} PendingFromKeys(a: map<nat, Pending>, b: map<nat, Pending>, start: nat, last: nat)
    requires a.Keys == b.Keys
    ensures PendingFrom(a, start, last) == PendingFrom(b, start, last)
    decreases last + 1 - start
  {
    if start <= last {
      PendingFromKeys(a, b, start + 1, last);
      assert start in a <==> start in b;
    }
  }

  lemma {:induction false} FilterAscends(ids: seq<nat>, p: nat -> bool)
    requires Ascending(ids)
    ensures Ascending(Filter(ids, p))
  {
    if ids != [] {
      FilterAscends(ids[1..], p);
      var rest := Filter(ids[1..], p);
      forall j | 0 <= j < |rest|
        ensures ids[0] < rest[j]
      {
        FilterMember(ids[1..], p, rest[j]);
        var k :| 0 <= k < |ids[1..]| && ids[1..][k] == rest[j];
        assert ids[k + 1] == rest[j];
      }
      assert Filter(ids, p) == if p(ids[0]) then [ids[0]] + rest else rest;
    }
  }

  /** A page lists stale pending entries from its start on, in ascending order, and the cursor lies
      beyond them all: whatever others do before the next call, it cannot return one of them. */
  lemma PageAdvances(s: Stream, start: nat, now: int, minIdle: int)
    requires s.Valid()
    ensures var page := PageFrom(s, start, now, minIdle);
      && Ascending(page.claimed)
      && (forall id :: id in page.claimed ==> id in s.pending && id >= start && now - s.pending[id].since >= minIdle)
      && (page.cursor != 0 ==> page.cursor >= start && forall id :: id in page.claimed ==> id < page.cursor)
  {
    var ids := PendingFrom(s.pending, start, s.delivered);
    var stale := Stale(s.pending, now, minIdle);
    var n := Scanned(ids, ATTEMPTS, COUNT, stale);
    PendingFromAscends(s.pending, start, s.delivered);
    FilterAscends(ids[..n], stale);
    FilterMembers(ids[..n], stale);
    forall id | id in ids[..n]
      ensures id in ids && (n < |ids| ==> id < ids[n])
    {
      var k :| 0 <= k < n && ids[k] == id;
    }
    if n < |ids| {
      assert ids[n] in ids;
    }
  }

  /** What a call claims, and why it stops: at the end of the list, at `count`, or after `attempts`. */
  lemma {:induction false} ScanStops(ids: seq<nat>, attempts: nat, count: nat, stale: nat -> bool)
    ensures var n := Scanned(ids, attempts, count, stale);
      var claimed := Filter(ids[..n], stale);
      && |claimed| <= count
      && (n == |ids| || n == attempts || |claimed| == count)
    decreases attempts
  {
    if ids != [] && attempts > 0 && count > 0 {
      var fewer := if stale(ids[0]) then count - 1 else count;
      ScanStops(ids[1..], attempts - 1, fewer, stale);
      var n := Scanned(ids, attempts, count, stale);
      assert ids[..n][1..] == ids[1..][..n - 1];
    }
  }

  /** The entries from `start` up to `end`. */
  function PendingBetween(s: Stream, start: nat, end: nat): set<nat> {
    set id | id in s.pending && start <= id < end
  }

  lemma {:induction false} CountAscending(ids: seq<nat>, all: set<nat>)
    requires Ascending(ids) && forall id :: id in all <==> id in ids
    ensures |all| == |ids|
    decreases |ids|
  {
    if ids == [] {
      assert all == {};
    } else {
      var n := |ids| - 1;
      assert ids == ids[..n] + [ids[n]];
      assert ids[n] in all && ids[n] !in ids[..n];
      CountAscending(ids[..n], all - {ids[n]});
    }
  }

  lemma PrefixBelow(ids: seq<nat>, n: nat, id: nat)
    requires Ascending(ids) && n < |ids|
    ensures id in ids[..n] <==> id in ids && id < ids[n]
  {
    if id in ids && id < ids[n] {
      var k :| 0 <= k < |ids| && ids[k] == id;
      assert k < n && ids[..n][k] == id;
    }
    if id in ids[..n] {
      var k :| 0 <= k < n && ids[..n][k] == id;
      assert ids[k] == id;
    }
  }

  /** How many entries a page has looked at. */
  function Looked(s: Stream, start: nat, now: int, minIdle: int): (n: nat)
    ensures n <= |PendingFrom(s.pending, start, s.delivered)| && n <= 500
  {
    Scanned(PendingFrom(s.pending, start, s.delivered), ATTEMPTS, COUNT, Stale(s.pending, now, minIdle))
  }

  /** They are the pending ones from its start to its cursor. */
  lemma LookedAt(s: Stream, start: nat, now: int, minIdle: int, id: nat)
    requires s.Valid()
    ensures var cursor := PageFrom(s, start, now, minIdle).cursor;
      id in PendingFrom(s.pending, start, s.delivered)[..Looked(s, start, now, minIdle)] <==>
        id in s.pending && start <= id && (cursor != 0 ==> id < cursor)
  {
    var ids, n := PendingFrom(s.pending, start, s.delivered), Looked(s, start, now, minIdle);
    PendingFromAscends(s.pending, start, s.delivered);
    if n < |ids| {
      PrefixBelow(ids, n, id);
      assert ids[n] in ids;
    } else {
      assert ids[..n] == ids;
    }
  }

  /** A page claims every stale entry before its cursor, or to the end when the cursor is 0, and nothing
      else. */
  lemma PageExactly(s: Stream, start: nat, now: int, minIdle: int, id: nat)
    requires s.Valid()
    ensures var page := PageFrom(s, start, now, minIdle);
      id in page.claimed <==>
        && id in s.pending && now - s.pending[id].since >= minIdle
        && start <= id && (page.cursor != 0 ==> id < page.cursor)
  {
    LookedAt(s, start, now, minIdle, id);
    FilterMember(PendingFrom(s.pending, start, s.delivered)[..Looked(s, start, now, minIdle)],
                 Stale(s.pending, now, minIdle), id);
  }

  lemma LookedStops(s: Stream, start: nat, now: int, minIdle: int)
    ensures var page := PageFrom(s, start, now, minIdle);
      |page.claimed| <= 50 && (page.cursor != 0 ==> |page.claimed| == 50 || Looked(s, start, now, minIdle) == 500)
  {
    ScanStops(PendingFrom(s.pending, start, s.delivered), ATTEMPTS, COUNT, Stale(s.pending, now, minIdle));
  }

  lemma LookedCount(s: Stream, start: nat, now: int, minIdle: int, cursor: nat)
    requires s.Valid() && cursor == PageFrom(s, start, now, minIdle).cursor != 0
    ensures |PendingBetween(s, start, cursor)| == Looked(s, start, now, minIdle)
  {
    var looked := PendingFrom(s.pending, start, s.delivered)[..Looked(s, start, now, minIdle)];
    PendingFromAscends(s.pending, start, s.delivered);
    forall id
      ensures id in PendingBetween(s, start, cursor) <==> id in looked
    {
      LookedAt(s, start, now, minIdle, id);
    }
    CountAscending(looked, PendingBetween(s, start, cursor));
  }

  /** It claims at most 50, and when the cursor is not 0 it has claimed 50 or looked at 500. */
  lemma PageLimits(s: Stream, start: nat, now: int, minIdle: int)
    requires s.Valid()
    ensures var page := PageFrom(s, start, now, minIdle);
      && |page.claimed| <= 50
      && (page.cursor != 0 ==> |page.claimed| == 50 || |PendingBetween(s, start, page.cursor)| == 500)
  {
    var cursor := PageFrom(s, start, now, minIdle).cursor;
    LookedStops(s, start, now, minIdle);
    if cursor != 0 {
      LookedCount(s, start, now, minIdle, cursor);
    }
  }

  // ---- Paging through the whole list ----

  /** What the calls of one reclaim return together when the list does not change between them. It stops
      at the end of the list or at the first empty page. */
  function Reclaimed(ids: seq<nat>, stale: nat -> bool): seq<nat>
    decreases |ids|
  {
    var n := Scanned(ids, ATTEMPTS, COUNT, stale);
    var claimed := Filter(ids[..n], stale);
    if n == |ids| || claimed == [] then claimed else claimed + Reclaimed(ids[n..], stale)
  }

  /** Where the calls stop looking. */
  function GivesUpAt(ids: seq<nat>, stale: nat -> bool): (g: nat)
    ensures g <= |ids|
    decreases |ids|
  {
    var n := Scanned(ids, ATTEMPTS, COUNT, stale);
    if n == |ids| then n
    else if Filter(ids[..n], stale) == [] then 0
    else n + GivesUpAt(ids[n..], stale)
  }

  ghost predicate AllFresh(window: seq<nat>, stale: nat -> bool) {
    forall id :: id in window ==> !stale(id)
  }

  /** 500 entries in a row from `k` on. */
  function Window(ids: seq<nat>, k: nat): seq<nat>
    requires k + 500 <= |ids|
  {
    ids[k..k + 500]
  }

  /** A page that claims nothing has looked at `attempts` entries, or at all there are. */
  lemma {:induction false} EmptyPage(ids: seq<nat>, attempts: nat, count: nat, stale: nat -> bool)
    requires count > 0 && AllFresh(ids[..Scanned(ids, attempts, count, stale)], stale)
    ensures Scanned(ids, attempts, count, stale) == if |ids| <= attempts then |ids| else attempts
    decreases attempts
  {
    var n := Scanned(ids, attempts, count, stale);
    if n > 0 {
      assert ids[..n][0] == ids[0];
      assert !stale(ids[0]);
      var m := Scanned(ids[1..], attempts - 1, count, stale);
      assert ids[..n][1..] == ids[1..][..m];
      assert forall id :: id in ids[..n][1..] ==> id in ids[..n];
      EmptyPage(ids[1..], attempts - 1, count, stale);
    }
  }

  lemma FreshIffNoneFiltered(window: seq<nat>, stale: nat -> bool)
    ensures AllFresh(window, stale) <==> Filter(window, stale) == []
  {
    FilterMembers(window, stale);
    var found := Filter(window, stale);
    if found != [] {
      assert found[0] in found;
    }
  }

  /** A reclaim returns exactly the stale entries before the place where it gives up; that place is the
      end of the list, or 500 fresh entries in a row with others behind them. */
  lemma {:induction false} ReclaimedExactly(ids: seq<nat>, stale: nat -> bool)
    ensures var g := GivesUpAt(ids, stale);
      && Reclaimed(ids, stale) == Filter(ids[..g], stale)
      && (g == |ids| || (g + 500 < |ids| && AllFresh(Window(ids, g), stale)))
    decreases |ids|
  {
    var n := Scanned(ids, ATTEMPTS, COUNT, stale);
    FreshIffNoneFiltered(ids[..n], stale);
    if n == |ids| {
    } else if Filter(ids[..n], stale) == [] {
      EmptyPage(ids, ATTEMPTS, COUNT, stale);
      assert Window(ids, 0) == ids[..n];
    } else {
      var rest := ids[n..];
      ReclaimedExactly(rest, stale);
      var g := GivesUpAt(rest, stale);
      assert ids[..n + g] == ids[..n] + rest[..g];
      FilterAppend(ids[..n], rest[..g], stale);
      if g < |rest| {
        assert Window(ids, n + g) == Window(rest, g);
      }
    }
  }

  /** It returns every stale entry just when none lies behind the place where it gives up. Which gaps of
      500 to 998 fresh entries stop it depends on where the pages fall; `ReclaimedWithoutGaps` and
      `LongGapMisses` do not. */
  lemma ReclaimedAll(ids: seq<nat>, stale: nat -> bool)
    ensures Reclaimed(ids, stale) == Filter(ids, stale) <==> AllFresh(ids[GivesUpAt(ids, stale)..], stale)
  {
    ReclaimedExactly(ids, stale);
    PrefixHasAll(ids, GivesUpAt(ids, stale), stale);
  }

  lemma PrefixHasAll(ids: seq<nat>, g: nat, stale: nat -> bool)
    requires g <= |ids|
    ensures Filter(ids[..g], stale) == Filter(ids, stale) <==> AllFresh(ids[g..], stale)
  {
    var front, behind := ids[..g], ids[g..];
    assert ids == front + behind;
    FilterAppend(front, behind, stale);
    FreshIffNoneFiltered(behind, stale);
    Longer(Filter(front, stale), Filter(behind, stale));
  }

  lemma Longer(a: seq<nat>, b: seq<nat>)
    ensures a == a + b <==> b == []
  {
    assert |a + b| == |a| + |b|;
    if b == [] {
      assert a + b == a;
    }
  }

  /** Where no 500 entries in a row with others behind them are all fresh, every stale entry is
      reclaimed. */
  lemma ReclaimedWithoutGaps(ids: seq<nat>, stale: nat -> bool)
    requires forall k: nat {:trigger Window(ids, k)} :: k + 500 < |ids| ==> !AllFresh(Window(ids, k), stale)
    ensures Reclaimed(ids, stale) == Filter(ids, stale)
  {
    ReclaimedExactly(ids, stale);
    assert ids[..|ids|] == ids;
  }

  lemma InWindow(ids: seq<nat>, g: nat, j: nat)
    requires g <= j < g + 500 <= |ids|
    ensures ids[j] in Window(ids, g)
  {
    assert Window(ids, g)[j - g] == ids[j];
  }

  lemma GapBefore(ids: seq<nat>, stale: nat -> bool, g: nat, j: nat)
    requires g <= j < |ids| && stale(ids[j]) && g + 500 <= |ids| && AllFresh(Window(ids, g), stale)
    ensures g + 500 <= j
  {
    if j < g + 500 {
      InWindow(ids, g, j);
    }
  }

  /** A stale entry is reclaimed unless 500 fresh ones in a row come before it. */
  lemma ReclaimedUnlessGap(ids: seq<nat>, stale: nat -> bool, j: nat)
    requires j < |ids| && stale(ids[j])
    requires forall k: nat {:trigger Window(ids, k)} :: k + 500 <= j ==> !AllFresh(Window(ids, k), stale)
    ensures ids[j] in Reclaimed(ids, stale)
  {
    ReclaimedExactly(ids, stale);
    var g := GivesUpAt(ids, stale);
    if g <= j {
      GapBefore(ids, stale, g, j);
    }
    assert ids[..g][j] == ids[j];
    FilterMember(ids[..g], stale, ids[j]);
  }

  /** In particular every stale one of the first 500 is. */
  lemma FirstReclaimed(ids: seq<nat>, stale: nat -> bool, j: nat)
    requires j < |ids| && j < 500 && stale(ids[j])
    ensures ids[j] in Reclaimed(ids, stale)
  {
    ReclaimedUnlessGap(ids, stale, j);
  }

  /** Whatever the alignment of the pages, 999 fresh entries in a row end a reclaim: a stale entry behind
      them is missed. */
  lemma LongGapMisses(ids: seq<nat>, stale: nat -> bool, from: nat, j: nat)
    requires from + 999 <= j < |ids| && AllFresh(ids[from..from + 999], stale) && stale(ids[j])
    ensures Reclaimed(ids, stale) != Filter(ids, stale)
  {
    LongGapEndsReclaim(ids, stale, from);
    ReclaimedAll(ids, stale);
    var g := GivesUpAt(ids, stale);
    assert ids[g..][j - g] == ids[j];
  }

  lemma {:induction false} LongGapEndsReclaim(ids: seq<nat>, stale: nat -> bool, from: nat)
    requires from + 999 < |ids| && AllFresh(ids[from..from + 999], stale)
    ensures GivesUpAt(ids, stale) < from + 500
    decreases |ids|
  {
    var n := Scanned(ids, ATTEMPTS, COUNT, stale);
    FreshIffNoneFiltered(ids[..n], stale);
    if Filter(ids[..n], stale) != [] {
      var rest := ids[n..];
      if n <= from {
        assert rest[from - n..from - n + 999] == ids[from..from + 999];
        LongGapEndsReclaim(rest, stale, from - n);
      } else {
        PageStartsInside(ids, stale, from, n);
        FreshPageStops(rest, stale);
      }
    }
  }

  /** A page that claims something and ends inside the gap began before it, so the next one lies
      inside. */
  lemma PageStartsInside(ids: seq<nat>, stale: nat -> bool, from: nat, n: nat)
    requires from + 999 < |ids| && AllFresh(ids[from..from + 999], stale)
    requires from < n <= 500 && !AllFresh(ids[..n], stale)
    ensures n < from + 500 && AllFresh(Window(ids[n..], 0), stale)
  {
    var gap := ids[from..from + 999];
    assert forall k :: from <= k < from + 999 ==> ids[k] == gap[k - from] && gap[k - from] in gap;
    var k :| 0 <= k < n && stale(ids[k]);
    assert k < from;
    assert Window(ids[n..], 0) == gap[n - from..n - from + 500];
    assert forall id :: id in gap[n - from..n - from + 500] ==> id in gap;
  }

  lemma FreshPageStops(ids: seq<nat>, stale: nat -> bool)
    requires 500 < |ids| && AllFresh(Window(ids, 0), stale)
    ensures GivesUpAt(ids, stale) == 0
  {
    var n := Scanned(ids, ATTEMPTS, COUNT, stale);
    assert ids[..n] == Window(ids, 0)[..n];
    FreshIffNoneFiltered(ids[..n], stale);
  }

  /** Only the predicate's answers on the list matter. */
  lemma {:induction false} ScannedAgree(ids: seq<nat>, attempts: nat, count: nat, p: nat -> bool, q: nat -> bool)
    requires forall id :: id in ids ==> p(id) == q(id)
    ensures Scanned(ids, attempts, count, p) == Scanned(ids, attempts, count, q)
    decreases attempts
  {
    if ids != [] && attempts > 0 && count > 0 {
      assert ids[0] in ids;
      ScannedAgree(ids[1..], attempts - 1, if p(ids[0]) then count - 1 else count, p, q);
    }
  }

  lemma {:induction false} ReclaimedAgree(ids: seq<nat>, p: nat -> bool, q: nat -> bool)
    requires forall id :: id in ids ==> p(id) == q(id)
    ensures Reclaimed(ids, p) == Reclaimed(ids, q)
    decreases |ids|
  {
    var n := Scanned(ids, ATTEMPTS, COUNT, p);
    ScannedAgree(ids, ATTEMPTS, COUNT, p, q);
    FilterAgree(ids[..n], p, q);
    if n < |ids| && Filter(ids[..n], p) != [] {
      ReclaimedAgree(ids[n..], p, q);
    }
  }
}
