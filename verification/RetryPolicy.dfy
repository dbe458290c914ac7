/** job_queue/retry.py and job_queue/dead_letter.py. */
module RetryPolicies {
  // With the commands of job_queue/streams.py, run without interruption.

  import opened Seqs
  import opened Streams

  datatype DeadLetter = DeadLetter(entry: nat, payload: Payload, reason: string)

  const EXHAUSTED := "max_retries_exceeded"

  /** What Redis holds: the job stream, the dead-letter stream, and the results by request. */
  datatype Contents = Contents(stream: Stream, dead: seq<DeadLetter>, results: map<RequestId, string>)

  // ---- What a recovery does, on values ----

  const NO_PAYLOAD := Payload(RequestId(""), "")

  /** The entry with an id, which is always one of the stream's. */
  function EntryAt(entries: seq<Payload>): nat -> Entry {
    (id: nat) => Entry(id, if 1 <= id <= |entries| then entries[id - 1] else NO_PAYLOAD)
  }

  function LetterOf(): Entry -> DeadLetter { (e: Entry) => DeadLetter(e.id, e.payload, EXHAUSTED) }

  function EntriesAt(entries: seq<Payload>, ids: seq<nat>): seq<Entry> {
    Map(ids, EntryAt(entries))
  }

  /** The dead letters of entries. */
  function Letters(entries: seq<Payload>, ids: seq<nat>): seq<DeadLetter> {
    Map(EntriesAt(entries, ids), LetterOf())
  }

  lemma MapCons<T, U>(x: T, rest: seq<T>, f: T -> U)
    ensures Map([x] + rest, f) == [f(x)] + Map(rest, f)
  {
  }

  lemma MapAppend<T, U>(a: seq<T>, b: seq<T>, f: T -> U)
    ensures Map(a + b, f) == Map(a, f) + Map(b, f)
  {
  }

  function Spent(pending: map<nat, Pending>, maxRetries: int): nat -> bool {
    (id: nat) => id in pending && pending[id].deliveries > maxRetries
  }

  function Unspent(pending: map<nat, Pending>, maxRetries: int): nat -> bool {
    (id: nat) => !(id in pending && pending[id].deliveries > maxRetries)
  }

  /** The ids that a recovery at `now` reclaims. */
  function StaleIds(s: Stream, minIdle: int, now: int): seq<nat> {
    Reclaimed(PendingFrom(s.pending, 0, s.delivered), Stale(s.pending, now, minIdle))
  }

  /** A recovery splits what it reclaims by the delivery count after the claim. */
  datatype Recovery = Recovery(stream: Stream, retryable: seq<nat>, buried: seq<nat>)

  function Recovered(s: Stream, owner: Consumer, maxRetries: int, minIdle: int, now: int): Recovery {
    var ids := StaleIds(s, minIdle, now);
    var claimed := s.Claimed(ids, owner, now);
    var buried := Filter(ids, Spent(claimed.pending, maxRetries));
    var retryable := Filter(ids, Unspent(claimed.pending, maxRetries));
    Recovery(claimed.(pending := claimed.pending - Members(buried)), retryable, buried)
  }

  lemma StaleIdsAreStale(s: Stream, minIdle: int, now: int)
    requires s.Valid()
    ensures Ascending(StaleIds(s, minIdle, now))
    ensures forall id :: id in StaleIds(s, minIdle, now) ==> id in s.pending && now - s.pending[id].since >= minIdle
  {
    var ids, stale := PendingFrom(s.pending, 0, s.delivered), Stale(s.pending, now, minIdle);
    var g := GivesUpAt(ids, stale);
    PendingFromAscends(s.pending, 0, s.delivered);
    ReclaimedExactly(ids, stale);
    FilterAscends(ids[..g], stale);
    FilterMembers(ids[..g], stale);
  }

  /** The position of a pending entry is the number of pending ones before it. */
  lemma PendingPosition(s: Stream, id: nat) returns (j: nat)
    requires s.Valid() && id in s.pending
    ensures var ids := PendingFrom(s.pending, 0, s.delivered);
      j < |ids| && ids[j] == id && |PendingBetween(s, 0, id)| == j
  {
    var ids := PendingFrom(s.pending, 0, s.delivered);
    PendingFromAscends(s.pending, 0, s.delivered);
    j :| 0 <= j < |ids| && ids[j] == id;
    forall x
      ensures x in PendingBetween(s, 0, id) <==> x in ids[..j]
    {
      PrefixBelow(ids, j, x);
    }
    CountAscending(ids[..j], PendingBetween(s, 0, id));
  }

  /** A recovery reclaims every stale entry with fewer than 500 pending ones before it. */
  lemma FirstStaleReclaimed(s: Stream, minIdle: int, now: int, id: nat)
    requires s.Valid() && id in s.pending && now - s.pending[id].since >= minIdle
    requires |PendingBetween(s, 0, id)| < 500
    ensures id in StaleIds(s, minIdle, now)
  {
    var j := PendingPosition(s, id);
    FirstReclaimed(PendingFrom(s.pending, 0, s.delivered), Stale(s.pending, now, minIdle), j);
  }

  /** A recovery removes an entry from the pending list exactly when it reclaims it beyond the retry
      budget, and hands out every other entry it reclaims once more; the rest it leaves alone. */
  lemma RecoverSplits(s: Stream, owner: Consumer, maxRetries: int, minIdle: int, now: int, id: nat)
    requires s.Valid() && id in s.pending
    ensures var r := Recovered(s, owner, maxRetries, minIdle, now);
      var d := s.pending[id].deliveries;
      && r.stream.Valid()
      && (id in r.buried <==> id in StaleIds(s, minIdle, now) && d + 1 > maxRetries)
      && (id in r.retryable <==> id in StaleIds(s, minIdle, now) && d + 1 <= maxRetries)
      && (id in r.stream.pending <==> id !in r.buried)
      && (id in r.retryable ==> r.stream.pending[id] == Pending(owner, now, d + 1))
      && (id !in r.buried && id !in r.retryable ==> r.stream.pending[id] == s.pending[id])
  {
    var ids := StaleIds(s, minIdle, now);
    var claimed := s.Claimed(ids, owner, now);
    FilterMember(ids, Spent(claimed.pending, maxRetries), id);
    FilterMember(ids, Unspent(claimed.pending, maxRetries), id);
  }

  /** The letter of a delivered entry. */
  predicate Buries(d: DeadLetter, s: Stream, id: nat) {
    && d.entry == id && 1 <= id <= |s.entries|
    && d.payload == s.entries[id - 1] && d.reason == "max_retries_exceeded"
  }

  /** A recovery adds one letter for each entry it buries, in order. */
  lemma RecoveredLetters(
      s: Stream, dead: seq<DeadLetter>, owner: Consumer, maxRetries: int, minIdle: int, now: int)
    requires s.Valid()
    ensures var buried := Recovered(s, owner, maxRetries, minIdle, now).buried;
      var after := dead + Letters(s.entries, buried);
      && |after| == |dead| + |buried|
      && (forall k :: 0 <= k < |dead| ==> after[k] == dead[k])
      && (forall k :: 0 <= k < |buried| ==> Buries(after[|dead| + k], s, buried[k]))
  {
    var ids := StaleIds(s, minIdle, now);
    StaleIdsAreStale(s, minIdle, now);
    FilterMembers(ids, Spent(s.Claimed(ids, owner, now).pending, maxRetries));
    var buried := Recovered(s, owner, maxRetries, minIdle, now).buried;
    forall k | 0 <= k < |buried|
      ensures Buries((dead + Letters(s.entries, buried))[|dead| + k], s, buried[k])
    {
      assert buried[k] in buried;
    }
  }

  // ---- Repeated recoveries ----

  /** Recoveries at the given times with nothing acknowledged in between. */
  function Recoveries(s: Stream, owner: Consumer, maxRetries: int, minIdle: int, nows: seq<int>): Recovery
    decreases |nows|
  {
    if nows == [] then Recovery(s, [], [])
    else
      var first := Recovered(s, owner, maxRetries, minIdle, nows[0]);
      var rest := Recoveries(first.stream, owner, maxRetries, minIdle, nows[1..]);
      Recovery(rest.stream, first.retryable + rest.retryable, first.buried + rest.buried)
  }

  /** Each of the recoveries reclaims the entry for as long as it is pending. */
  ghost predicate KeepsReclaiming(s: Stream, owner: Consumer, maxRetries: int, minIdle: int, nows: seq<int>, id: nat)
    decreases |nows|
  {
    nows != [] ==>
      && (id in s.pending ==> id in StaleIds(s, minIdle, nows[0]))
      && KeepsReclaiming(Recovered(s, owner, maxRetries, minIdle, nows[0]).stream,
                         owner, maxRetries, minIdle, nows[1..], id)
  }

  /** How many more reclaims the entry can take before it leaves. */
  function Left(deliveries: nat, maxRetries: int): nat {
    if maxRetries + 1 - deliveries >= 1 then maxRetries + 1 - deliveries else 1
  }

  lemma {:induction false} GoneStaysGone(
      s: Stream, owner: Consumer, maxRetries: int, minIdle: int, nows: seq<int>, id: nat)
    requires s.Valid() && id !in s.pending
    ensures id !in Recoveries(s, owner, maxRetries, minIdle, nows).stream.pending
    decreases |nows|
  {
    if nows != [] {
      var after := Recovered(s, owner, maxRetries, minIdle, nows[0]).stream;
      GoneStaysGone(after, owner, maxRetries, minIdle, nows[1..], id);
    }
  }

  /** An entry that is never acknowledged leaves the pending list for the dead letters at exactly the
      reclaim that its delivery count calls for. */
  lemma {:induction false} RecoveryProgress(
      s: Stream, owner: Consumer, maxRetries: int, minIdle: int, nows: seq<int>, id: nat)
    requires s.Valid() && id in s.pending
    requires KeepsReclaiming(s, owner, maxRetries, minIdle, nows, id)
    ensures var r := Recoveries(s, owner, maxRetries, minIdle, nows);
      && (id in r.stream.pending <==> |nows| < Left(s.pending[id].deliveries, maxRetries))
      && (id in r.buried <==> id !in r.stream.pending)
    decreases |nows|
  {
    if nows != [] {
      var first := Recovered(s, owner, maxRetries, minIdle, nows[0]);
      RecoverSplits(s, owner, maxRetries, minIdle, nows[0], id);
      if id in first.stream.pending {
        RecoveryProgress(first.stream, owner, maxRetries, minIdle, nows[1..], id);
      } else {
        GoneStaysGone(first.stream, owner, maxRetries, minIdle, nows[1..], id);
      }
    }
  }

  // ---- The classes ----

  class Redis {
    var contents: Contents

    constructor ()
      ensures contents == Contents(Stream([], 0, map[]), [], map[])
    {
      contents := Contents(Stream([], 0, map[]), [], map[]);
    }
  }

  /** The entry was stale and has been handed to `owner`, once more than before. */
  predicate ClaimedNow(before: Stream, after: Stream, id: nat, owner: Consumer, minIdle: int, now: int) {
    && id in before.pending && now - before.pending[id].since >= minIdle
    && id in after.pending && after.pending[id] == Pending(owner, now, before.pending[id].deliveries + 1)
  }

  lemma PageMeaning(s: Stream, start: nat, minIdle: int, now: int, owner: Consumer)
    requires s.Valid()
    ensures var page := PageFrom(s, start, now, minIdle);
      var claimed, after := EntriesAt(s.entries, page.claimed), s.Claimed(page.claimed, owner, now);
      && (forall k :: 0 <= k < |claimed| ==> ClaimedNow(s, after, claimed[k].id, owner, minIdle, now))
      && (forall k :: 0 <= k < |claimed| ==>
            start <= claimed[k].id && (page.cursor != 0 ==> claimed[k].id < page.cursor))
      && (forall id :: id in s.pending && (forall k :: 0 <= k < |claimed| ==> claimed[k].id != id) ==>
            id in after.pending && after.pending[id] == s.pending[id])
  {
    var page := PageFrom(s, start, now, minIdle);
    PageAdvances(s, start, now, minIdle);
    var claimed := EntriesAt(s.entries, page.claimed);
    forall k | 0 <= k < |claimed|
      ensures claimed[k].id in page.claimed
    {
      assert claimed[k].id == page.claimed[k];
    }
    forall id | id in page.claimed
      ensures exists k :: 0 <= k < |claimed| && claimed[k].id == id
    {
      var k :| 0 <= k < |page.claimed| && page.claimed[k] == id;
      assert claimed[k].id == id;
    }
  }

  /** No stale entry before the cursor is left out of a page. */
  lemma StaleClaimed(s: Stream, start: nat, now: int, minIdle: int)
    requires s.Valid()
    ensures var page := PageFrom(s, start, now, minIdle);
      var claimed := EntriesAt(s.entries, page.claimed);
      forall id :: id in s.pending && now - s.pending[id].since >= minIdle && start <= id ==>
        (page.cursor != 0 && page.cursor <= id) || exists k :: 0 <= k < |claimed| && claimed[k].id == id
  {
    var page := PageFrom(s, start, now, minIdle);
    var claimed := EntriesAt(s.entries, page.claimed);
    forall id | id in s.pending && now - s.pending[id].since >= minIdle && start <= id
      ensures (page.cursor != 0 && page.cursor <= id) || exists k :: 0 <= k < |claimed| && claimed[k].id == id
    {
      PageExactly(s, start, now, minIdle, id);
      if page.cursor == 0 || id < page.cursor {
        var k :| 0 <= k < |page.claimed| && page.claimed[k] == id;
        assert claimed[k].id == id;
      }
    }
  }

  class RedisStreamQueue {
    const redis: Redis
    const consumer: Consumer

    constructor (redis: Redis, consumer: Consumer)
      ensures this.redis == redis && this.consumer == consumer
    {
      this.redis, this.consumer := redis, consumer;
    }

    method Enqueue(payload: Payload) returns (id: nat)
      requires redis.contents.stream.Valid()
      modifies redis
      ensures redis.contents.stream.Valid()
      ensures redis.contents == old(redis.contents).(stream := old(redis.contents).stream.Added(payload))
      ensures 1 <= id == |redis.contents.stream.entries|
      ensures EntryAt(redis.contents.stream.entries)(id).payload == payload
    {
      redis.contents := redis.contents.(stream := redis.contents.stream.Added(payload));
      return |redis.contents.stream.entries|;
    }

    /** The next new entry, which is pending from now on. */
    method Read(now: int) returns (e: Option<Entry>)
      requires redis.contents.stream.Valid()
      modifies redis
      ensures redis.contents.stream.Valid()
      ensures redis.contents == old(redis.contents).(stream := old(redis.contents).stream.Read(consumer, now))
      ensures var s := old(redis.contents).stream;
        e == if s.delivered < |s.entries| then Some(EntryAt(s.entries)(s.delivered + 1)) else None
      ensures var before, after := old(redis.contents).stream, redis.contents.stream;
        && (e.None? <==> before.delivered == |before.entries|)
        && (e.Some? ==>
              && before.delivered < e.value.id <= after.delivered && e.value.id !in before.pending
              && after.pending.Keys == before.pending.Keys + {e.value.id}
              && after.pending[e.value.id] == Pending(consumer, now, 1)
              && e.value.payload == after.entries[e.value.id - 1])
        && (forall id :: id in before.pending ==> id in after.pending && after.pending[id] == before.pending[id])
    {
      var s := redis.contents.stream;
      redis.contents := redis.contents.(stream := s.Read(consumer, now));
      return if s.delivered < |s.entries| then Some(EntryAt(s.entries)(s.delivered + 1)) else None;
    }

    method Ack(id: nat)
      requires redis.contents.stream.Valid()
      modifies redis
      ensures redis.contents.stream.Valid()
      ensures redis.contents == old(redis.contents).(stream := old(redis.contents).stream.Acked(id))
      ensures var before, after := old(redis.contents).stream, redis.contents.stream;
        && id !in after.pending
        && (forall other :: other in before.pending && other != id ==>
              other in after.pending && after.pending[other] == before.pending[other])
        && (forall other :: other in after.pending ==> other in before.pending)
    {
      redis.contents := redis.contents.(stream := redis.contents.stream.Acked(id));
    }

    method AutoClaim(start: nat, minIdle: int, now: int) returns (cursor: nat, claimed: seq<Entry>)
      requires redis.contents.stream.Valid()
      modifies redis
      ensures redis.contents.stream.Valid()
      ensures var s := old(redis.contents).stream;
        var page := PageFrom(s, start, now, minIdle);
        && cursor == page.cursor && claimed == EntriesAt(s.entries, page.claimed)
        && redis.contents == old(redis.contents).(stream := s.Claimed(page.claimed, consumer, now))
      ensures var before, after := old(redis.contents).stream, redis.contents.stream;
        && (forall k :: 0 <= k < |claimed| ==> ClaimedNow(before, after, claimed[k].id, consumer, minIdle, now))
        && (forall k :: 0 <= k < |claimed| ==> start <= claimed[k].id && (cursor != 0 ==> claimed[k].id < cursor))
        && (forall id :: id in before.pending && (forall k :: 0 <= k < |claimed| ==> claimed[k].id != id) ==>
              id in after.pending && after.pending[id] == before.pending[id])
      ensures var before := old(redis.contents).stream;
        && |claimed| <= 50
        && (cursor != 0 ==> |claimed| == 50 || |PendingBetween(before, start, cursor)| == 500)
        && (forall id :: id in before.pending && now - before.pending[id].since >= minIdle && start <= id ==>
              (cursor != 0 && cursor <= id) || exists k :: 0 <= k < |claimed| && claimed[k].id == id)
    {
      var s := redis.contents.stream;
      var page := PageFrom(s, start, now, minIdle);
      PageAdvances(s, start, now, minIdle);
      PageMeaning(s, start, minIdle, now, consumer);
      PageLimits(s, start, now, minIdle);
      StaleClaimed(s, start, now, minIdle);
      redis.contents := redis.contents.(stream := s.Claimed(page.claimed, consumer, now));
      return page.cursor, EntriesAt(s.entries, page.claimed);
    }
  }

  class DeadLetterQueue {
    const redis: Redis

    constructor (redis: Redis)
      ensures this.redis == redis
    {
      this.redis := redis;
    }

    method Add(entry: nat, payload: Payload, reason: string)
      modifies redis
      ensures redis.contents
           == old(redis.contents).(dead := old(redis.contents).dead + [DeadLetter(entry, payload, reason)])
      ensures var before, after := old(redis.contents).dead, redis.contents.dead;
        && |after| == |before| + 1 && before <= after
        && after[|before|].entry == entry && after[|before|].payload == payload && after[|before|].reason == reason
    {
      redis.contents := redis.contents.(dead := redis.contents.dead + [DeadLetter(entry, payload, reason)]);
    }
  }

  ghost predicate Within(ids: seq<nat>, pending: map<nat, Pending>) {
    forall k :: 0 <= k < |ids| ==> ids[k] in pending
  }

  ghost predicate Apart(a: seq<nat>, b: seq<nat>) {
    forall id :: id in a ==> id !in b
  }

  /** A reclaim that nothing interrupts, between two of its calls: `ids` are claimed and the calls that
      follow will claim the rest. */
  ghost predicate Paging(s: Stream, ids: seq<nat>, cursor: nat, owner: Consumer, minIdle: int, now: int) {
    var t := s.Claimed(ids, owner, now);
    var rest := PendingFrom(t.pending, cursor, t.delivered);
    && Within(ids, s.pending)
    && Apart(rest, ids)
    && StaleIds(s, minIdle, now) == ids + Reclaimed(rest, Stale(t.pending, now, minIdle))
  }

  lemma PagingStarts(s: Stream, owner: Consumer, minIdle: int, now: int)
    ensures s.Claimed([], owner, now) == s && Paging(s, [], 0, owner, minIdle, now)
  {
    assert s.Claimed([], owner, now) == s;
    var rest := Reclaimed(PendingFrom(s.pending, 0, s.delivered), Stale(s.pending, now, minIdle));
    assert [] + rest == rest;
  }

  /** The first page of a list, and what is left. */
  lemma PageOfList(rest: seq<nat>, stale: nat -> bool)
    requires Ascending(rest)
    ensures var page, n := PageOf(rest, stale).claimed, Scanned(rest, ATTEMPTS, COUNT, stale);
      && (forall id :: id in page ==> id in rest)
      && (forall id :: id in rest[n..] ==> id in rest)
      && Apart(rest[n..], page)
      && (n == |rest| || page == [] ==> Reclaimed(rest, stale) == page)
      && (n < |rest| && page != [] ==> n > 0 && Reclaimed(rest, stale) == page + Reclaimed(rest[n..], stale))
  {
    var n := Scanned(rest, ATTEMPTS, COUNT, stale);
    FilterMembers(rest[..n], stale);
    forall id | id in rest[n..]
      ensures id !in rest[..n]
    {
      var k :| n <= k < |rest| && rest[k] == id;
      assert forall j :: 0 <= j < n ==> rest[j] < rest[k];
    }
  }

  /** Claiming a page and then another is claiming both. */
  lemma ClaimedTwice(s: Stream, a: seq<nat>, b: seq<nat>, owner: Consumer, now: int)
    requires Apart(b, a)
    ensures s.Claimed(a, owner, now).Claimed(b, owner, now) == s.Claimed(a + b, owner, now)
  {
  }

  lemma ApartAppend(rest: seq<nat>, a: seq<nat>, b: seq<nat>)
    requires Apart(rest, a) && Apart(rest, b)
    ensures Apart(rest, a + b)
  {
  }

  /** The list that the next call begins with. */
  lemma RestAfter(t: Stream, claimed: seq<nat>, owner: Consumer, now: int, cursor: nat, n: nat, minIdle: int)
    requires n < |PendingFrom(t.pending, cursor, t.delivered)|
    requires Apart(PendingFrom(t.pending, cursor, t.delivered)[n..], claimed)
    ensures var rest := PendingFrom(t.pending, cursor, t.delivered);
      var u := t.Claimed(claimed, owner, now);
      && PendingFrom(u.pending, rest[n], u.delivered) == rest[n..]
      && Reclaimed(rest[n..], Stale(u.pending, now, minIdle)) == Reclaimed(rest[n..], Stale(t.pending, now, minIdle))
  {
    var rest := PendingFrom(t.pending, cursor, t.delivered);
    var u := t.Claimed(claimed, owner, now);
    PendingFromTail(t.pending, cursor, t.delivered, n);
    PendingFromKeys(t.pending, u.pending, rest[n], t.delivered);
    ReclaimedAgree(rest[n..], Stale(u.pending, now, minIdle), Stale(t.pending, now, minIdle));
  }

  /** One more call claims pending entries that no call before it claimed. */
  lemma PageClaims(s: Stream, ids: seq<nat>, cursor: nat, owner: Consumer, minIdle: int, now: int)
    requires Paging(s, ids, cursor, owner, minIdle, now)
    ensures var t := s.Claimed(ids, owner, now);
      var page := PageFrom(t, cursor, now, minIdle);
      && Within(ids + page.claimed, s.pending)
      && t.Claimed(page.claimed, owner, now) == s.Claimed(ids + page.claimed, owner, now)
  {
    var t := s.Claimed(ids, owner, now);
    var page := PageFrom(t, cursor, now, minIdle);
    PendingFromAscends(t.pending, cursor, t.delivered);
    PageOfList(PendingFrom(t.pending, cursor, t.delivered), Stale(t.pending, now, minIdle));
    assert Apart(page.claimed, ids);
    ClaimedTwice(s, ids, page.claimed, owner, now);
  }

  /** The call that ends the reclaim completes it. */
  lemma PagingEnds(s: Stream, ids: seq<nat>, cursor: nat, owner: Consumer, minIdle: int, now: int)
    requires s.Valid() && Paging(s, ids, cursor, owner, minIdle, now)
    ensures var page := PageFrom(s.Claimed(ids, owner, now), cursor, now, minIdle);
      page.cursor == 0 || page.claimed == [] ==> StaleIds(s, minIdle, now) == ids + page.claimed
  {
    var t := s.Claimed(ids, owner, now);
    var rest, stale := PendingFrom(t.pending, cursor, t.delivered), Stale(t.pending, now, minIdle);
    var n := Scanned(rest, ATTEMPTS, COUNT, stale);
    PendingFromAscends(t.pending, cursor, t.delivered);
    PageOfList(rest, stale);
    if n < |rest| {
      assert rest[n] in rest;
    }
  }

  /** Any other call leaves less to do. */
  lemma PagingContinues(s: Stream, ids: seq<nat>, cursor: nat, owner: Consumer, minIdle: int, now: int)
    requires Paging(s, ids, cursor, owner, minIdle, now)
    ensures var t := s.Claimed(ids, owner, now);
      var page := PageFrom(t, cursor, now, minIdle);
      var u := s.Claimed(ids + page.claimed, owner, now);
      page.cursor != 0 && page.claimed != [] ==>
        && Paging(s, ids + page.claimed, page.cursor, owner, minIdle, now)
        && |PendingFrom(u.pending, page.cursor, s.delivered)| < |PendingFrom(t.pending, cursor, s.delivered)|
  {
    var t := s.Claimed(ids, owner, now);
    var rest, stale := PendingFrom(t.pending, cursor, t.delivered), Stale(t.pending, now, minIdle);
    var page := PageFrom(t, cursor, now, minIdle);
    var n := Scanned(rest, ATTEMPTS, COUNT, stale);
    if n < |rest| && page.claimed != [] {
      PageClaims(s, ids, cursor, owner, minIdle, now);
      PendingFromAscends(t.pending, cursor, t.delivered);
      PageOfList(rest, stale);
      RestAfter(t, page.claimed, owner, now, cursor, n, minIdle);
      ApartAppend(rest[n..], ids, page.claimed);
      AppendThree(ids, page.claimed, Reclaimed(rest[n..], stale));
    }
  }

  lemma AppendThree<T>(a: seq<T>, b: seq<T>, c: seq<T>)
    ensures a + (b + c) == a + b + c
  {
  }

  function Buried(c: Contents, buried: seq<nat>): Contents {
    Contents(c.stream.(pending := c.stream.pending - Members(buried)),
             c.dead + Letters(c.stream.entries, buried), c.results)
  }

  /** The loop of `recover`: what each delivery count decides. */
  datatype Triage = Triage(contents: Contents, retryable: seq<Entry>, buried: seq<nat>)

  function AfterBurial(c: Contents, e: Entry): Contents {
    Contents(c.stream.Acked(e.id), c.dead + [DeadLetter(e.id, e.payload, EXHAUSTED)], c.results)
  }

  function TriageAll(c: Contents, entries: seq<Entry>, maxRetries: int): Triage
    decreases |entries|
  {
    if entries == [] then Triage(c, [], [])
    else if c.stream.Deliveries(entries[0].id) > maxRetries then
      var r := TriageAll(AfterBurial(c, entries[0]), entries[1..], maxRetries);
      Triage(r.contents, r.retryable, [entries[0].id] + r.buried)
    else
      var r := TriageAll(c, entries[1..], maxRetries);
      Triage(r.contents, [entries[0]] + r.retryable, r.buried)
  }

  lemma BuryFirst(c: Contents, id: nat, rest: seq<nat>)
    ensures Buried(AfterBurial(c, EntryAt(c.stream.entries)(id)), rest) == Buried(c, [id] + rest)
  {
    var entry := EntryAt(c.stream.entries);
    assert Members([id] + rest) == {id} + Members(rest);
    assert c.stream.pending - {id} - Members(rest) == c.stream.pending - Members([id] + rest);
    MapCons(id, rest, entry);
    MapCons(entry(id), Map(rest, entry), LetterOf());
    AppendThree(c.dead, [LetterOf()(entry(id))], Letters(c.stream.entries, rest));
  }

  /** A triage as a split of ids by their delivery counts. */
  ghost predicate SplitBy(t: Triage, c: Contents, ids: seq<nat>, spent: nat -> bool, unspent: nat -> bool) {
    var kept, buried := Filter(ids, unspent), Filter(ids, spent);
    t == Triage(Buried(c, buried), EntriesAt(c.stream.entries, kept), buried)
  }

  lemma SplitSpent(t: Triage, c: Contents, ids: seq<nat>, spent: nat -> bool, unspent: nat -> bool)
    requires ids != [] && spent(ids[0]) && !unspent(ids[0])
    requires SplitBy(t, AfterBurial(c, EntryAt(c.stream.entries)(ids[0])), ids[1..], spent, unspent)
    ensures SplitBy(Triage(t.contents, t.retryable, [ids[0]] + t.buried), c, ids, spent, unspent)
  {
    BuryFirst(c, ids[0], Filter(ids[1..], spent));
  }

  lemma SplitUnspent(t: Triage, c: Contents, ids: seq<nat>, spent: nat -> bool, unspent: nat -> bool)
    requires ids != [] && !spent(ids[0]) && unspent(ids[0])
    requires SplitBy(t, c, ids[1..], spent, unspent)
    ensures SplitBy(Triage(t.contents, [EntryAt(c.stream.entries)(ids[0])] + t.retryable, t.buried),
                    c, ids, spent, unspent)
  {
    assert Filter(ids, spent) == Filter(ids[1..], spent);
    assert Filter(ids, unspent) == [ids[0]] + Filter(ids[1..], unspent);
    MapCons(ids[0], Filter(ids[1..], unspent), EntryAt(c.stream.entries));
  }

  /** The loop's result for the given entries is the split by their counts. */
  ghost predicate Splits(c: Contents, ids: seq<nat>, maxRetries: int) {
    SplitBy(TriageAll(c, EntriesAt(c.stream.entries, ids), maxRetries), c, ids,
            Spent(c.stream.pending, maxRetries), Unspent(c.stream.pending, maxRetries))
  }

  lemma SpentFirst(c: Contents, ids: seq<nat>, maxRetries: int)
    requires ids != [] && Within(ids, c.stream.pending) && ids[0] !in ids[1..]
    requires Spent(c.stream.pending, maxRetries)(ids[0])
    requires Splits(AfterBurial(c, EntryAt(c.stream.entries)(ids[0])), ids[1..], maxRetries)
    ensures Splits(c, ids, maxRetries)
  {
    var spent, unspent := Spent(c.stream.pending, maxRetries), Unspent(c.stream.pending, maxRetries);
    var rest := ids[1..];
    var c' := AfterBurial(c, EntryAt(c.stream.entries)(ids[0]));
    assert ids == [ids[0]] + rest;
    MapCons(ids[0], rest, EntryAt(c.stream.entries));
    FilterAgree(rest, Spent(c'.stream.pending, maxRetries), spent);
    FilterAgree(rest, Unspent(c'.stream.pending, maxRetries), unspent);
    SplitSpent(TriageAll(c', EntriesAt(c.stream.entries, rest), maxRetries), c, ids, spent, unspent);
  }

  lemma UnspentFirst(c: Contents, ids: seq<nat>, maxRetries: int)
    requires ids != [] && Within(ids, c.stream.pending) && !Spent(c.stream.pending, maxRetries)(ids[0])
    requires Splits(c, ids[1..], maxRetries)
    ensures Splits(c, ids, maxRetries)
  {
    var rest := ids[1..];
    assert ids == [ids[0]] + rest;
    MapCons(ids[0], rest, EntryAt(c.stream.entries));
    SplitUnspent(TriageAll(c, EntriesAt(c.stream.entries, rest), maxRetries), c, ids,
                 Spent(c.stream.pending, maxRetries), Unspent(c.stream.pending, maxRetries));
  }

  /** The counts that decide are those after the claim: the loop splits the reclaimed entries by them,
      and the entries beyond the budget, no others, are acknowledged and become dead letters. */
  lemma {:induction false} TriageSplits(c: Contents, ids: seq<nat>, maxRetries: int)
    requires Ascending(ids) && Within(ids, c.stream.pending)
    ensures SplitBy(TriageAll(c, EntriesAt(c.stream.entries, ids), maxRetries), c, ids,
                    Spent(c.stream.pending, maxRetries), Unspent(c.stream.pending, maxRetries))
    decreases |ids|
  {
    if ids == [] {
      assert c.stream.pending - Members([]) == c.stream.pending;
    } else {
      WithinTail(c.stream.pending, ids);
      if Spent(c.stream.pending, maxRetries)(ids[0]) {
        TriageSplits(AfterBurial(c, EntryAt(c.stream.entries)(ids[0])), ids[1..], maxRetries);
        SpentFirst(c, ids, maxRetries);
      } else {
        TriageSplits(c, ids[1..], maxRetries);
        UnspentFirst(c, ids, maxRetries);
      }
    }
  }

  lemma WithinTail(pending: map<nat, Pending>, ids: seq<nat>)
    requires ids != [] && Ascending(ids) && Within(ids, pending)
    ensures var rest := ids[1..];
      && Ascending(rest) && Within(rest, pending) && Within(rest, pending - {ids[0]}) && ids[0] !in rest
  {
    forall k | 0 <= k < |ids[1..]|
      ensures ids[1..][k] == ids[k + 1] && ids[k + 1] > ids[0]
    {
    }
  }

  class RetryPolicy {
    const queue: RedisStreamQueue
    const maxRetries: int
    const minIdle: int

    constructor (queue: RedisStreamQueue, maxRetries: int, minIdle: int)
      ensures this.queue == queue && this.maxRetries == maxRetries && this.minIdle == minIdle
    {
      this.queue, this.maxRetries, this.minIdle := queue, maxRetries, minIdle;
    }

    method DeliveryCount(id: nat) returns (n: nat)
      requires queue.redis.contents.stream.Valid()
      ensures n == 0 <==> id !in queue.redis.contents.stream.pending
      ensures n > maxRetries && maxRetries >= 0 ==> id in queue.redis.contents.stream.pending
      ensures n == queue.redis.contents.stream.Deliveries(id)
      ensures var pending := queue.redis.contents.stream.pending; id in pending ==> n == pending[id].deliveries
    {
      return queue.redis.contents.stream.Deliveries(id);
    }

    method ReclaimStale(now: int) returns (reclaimed: seq<Entry>)
      requires queue.redis.contents.stream.Valid()
      modifies queue.redis
      ensures queue.redis.contents.stream.Valid()
      ensures var s := old(queue.redis.contents).stream;
        var ids := StaleIds(s, minIdle, now);
        && reclaimed == EntriesAt(s.entries, ids)
        && queue.redis.contents == old(queue.redis.contents).(stream := s.Claimed(ids, queue.consumer, now))
        && (forall id :: id in ids ==> id in s.pending && now - s.pending[id].since >= minIdle)
        && (forall id :: id in s.pending && now - s.pending[id].since >= minIdle && |PendingBetween(s, 0, id)| < 500 ==>
              id in ids)
    {
      ghost var s := queue.redis.contents.stream;
      ghost var ids: seq<nat> := [];
      PagingStarts(s, queue.consumer, minIdle, now);
      var cursor := 0;
      reclaimed := [];
      while true
        invariant queue.redis.contents == old(queue.redis.contents).(stream := s.Claimed(ids, queue.consumer, now))
        invariant Paging(s, ids, cursor, queue.consumer, minIdle, now)
        invariant reclaimed == EntriesAt(s.entries, ids)
        decreases |PendingFrom(queue.redis.contents.stream.pending, cursor, s.delivered)|
      {
        PageClaims(s, ids, cursor, queue.consumer, minIdle, now);
        PagingEnds(s, ids, cursor, queue.consumer, minIdle, now);
        PagingContinues(s, ids, cursor, queue.consumer, minIdle, now);
        ghost var page := PageFrom(queue.redis.contents.stream, cursor, now, minIdle);
        MapAppend(ids, page.claimed, EntryAt(s.entries));
        var entries;
        cursor, entries := queue.AutoClaim(cursor, minIdle, now);
        reclaimed := reclaimed + entries;
        ids := ids + page.claimed;
        if cursor == 0 || entries == [] {
          break;
        }
      }
      StaleIdsAreStale(s, minIdle, now);
      forall id | id in s.pending && now - s.pending[id].since >= minIdle && |PendingBetween(s, 0, id)| < 500
        ensures id in StaleIds(s, minIdle, now)
      {
        FirstStaleReclaimed(s, minIdle, now, id);
      }
    }

    /** What it reclaims is split by `Recovered`; each entry beyond the retry budget becomes a dead letter
        with the entry's own payload. */
    method Recover(deadLetter: DeadLetterQueue, now: int) returns (retryable: seq<Entry>, buried: seq<nat>)
      requires queue.redis.contents.stream.Valid() && deadLetter.redis == queue.redis
      modifies queue.redis
      ensures queue.redis.contents.stream.Valid()
      ensures var before, after := old(queue.redis.contents), queue.redis.contents;
        var r := Recovered(before.stream, queue.consumer, maxRetries, minIdle, now);
        && after == Contents(r.stream, before.dead + Letters(before.stream.entries, r.buried), before.results)
        && retryable == EntriesAt(before.stream.entries, r.retryable) && buried == r.buried
      ensures var before, after := old(queue.redis.contents), queue.redis.contents;
        && |after.dead| == |before.dead| + |buried|
        && (forall k :: 0 <= k < |before.dead| ==> after.dead[k] == before.dead[k])
        && (forall k :: 0 <= k < |buried| ==> Buries(after.dead[|before.dead| + k], before.stream, buried[k]))
    {
      ghost var before := queue.redis.contents;
      ghost var ids := StaleIds(before.stream, minIdle, now);
      StaleIdsAreStale(before.stream, minIdle, now);
      var reclaimed := ReclaimStale(now);
      TriageSplits(queue.redis.contents, ids, maxRetries);
      retryable, buried := TriageEach(reclaimed, deadLetter);
      RecoveredLetters(before.stream, before.dead, queue.consumer, maxRetries, minIdle, now);
    }

    /** The loop of `recover`. */
    method TriageEach(reclaimed: seq<Entry>, deadLetter: DeadLetterQueue)
        returns (retryable: seq<Entry>, buried: seq<nat>)
      requires queue.redis.contents.stream.Valid() && deadLetter.redis == queue.redis
      modifies queue.redis
      ensures queue.redis.contents.stream.Valid()
      ensures TriageAll(old(queue.redis.contents), reclaimed, maxRetries)
           == Triage(queue.redis.contents, retryable, buried)
    {
      retryable, buried := [], [];
      var k := 0;
      while k < |reclaimed|
        invariant 0 <= k <= |reclaimed|
        invariant queue.redis.contents.stream.Valid()
        invariant var rest := TriageAll(queue.redis.contents, reclaimed[k..], maxRetries);
          TriageAll(old(queue.redis.contents), reclaimed, maxRetries)
          == Triage(rest.contents, retryable + rest.retryable, buried + rest.buried)
      {
        var id, payload := reclaimed[k].id, reclaimed[k].payload;
        assert reclaimed[k..][0] == Entry(id, payload) && reclaimed[k..][1..] == reclaimed[k + 1..];
        var deliveries := DeliveryCount(id);
        if deliveries > maxRetries {
          deadLetter.Add(id, payload, EXHAUSTED);
          queue.Ack(id);
          buried := buried + [id];
        } else {
          retryable := retryable + [Entry(id, payload)];
        }
        k := k + 1;
      }
    }
  }
}
