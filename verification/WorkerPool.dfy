/** workers/worker_pool.py: one round of each loop, uninterrupted. */
module WorkerPools {
  // The call to a worker is a parameter: an answer (a model's, or an error for a RuntimeError), or any other
  // exception.

  import opened Seqs
  import opened Streams
  import opened RetryPolicies

  datatype Outcome = Answered(result: string) | Raised

  /** An answered job: its result is stored, then its entry acknowledged. */
  function Settled(c: Contents, e: Entry, result: string): Contents {
    Contents(c.stream.Acked(e.id), c.dead, c.results[e.payload.request := result])
  }

  /** How many jobs of a round are done: an exception ends the round. */
  function Done(entries: seq<Entry>, outcomes: nat -> Outcome): (n: nat)
    ensures n <= |entries|
    ensures forall k :: 0 <= k < n ==> outcomes(entries[k].id).Answered?
    ensures n < |entries| ==> outcomes(entries[n].id).Raised?
  {
    if entries == [] || outcomes(entries[0].id).Raised? then 0 else 1 + Done(entries[1..], outcomes)
  }

  function SettledAll(c: Contents, entries: seq<Entry>, outcomes: nat -> Outcome): Contents
    requires forall k :: 0 <= k < |entries| ==> outcomes(entries[k].id).Answered?
    decreases |entries|
  {
    if entries == [] then c
    else
      var last := entries[|entries| - 1];
      Settled(SettledAll(c, entries[..|entries| - 1], outcomes), last, outcomes(last.id).result)
  }

  /** No later entry has the request of the `k`th. */
  ghost predicate LastOfRequest(entries: seq<Entry>, k: nat)
    requires k < |entries|
  {
    forall j :: k < j < |entries| ==> entries[j].payload.request != entries[k].payload.request
  }

  lemma {:induction false} SettledStream(c: Contents, entries: seq<Entry>, outcomes: nat -> Outcome)
    requires forall k :: 0 <= k < |entries| ==> outcomes(entries[k].id).Answered?
    ensures var after := SettledAll(c, entries, outcomes);
      && after.dead == c.dead
      && after.stream.entries == c.stream.entries && after.stream.delivered == c.stream.delivered
      && (forall id :: id in after.stream.pending <==>
            id in c.stream.pending && forall e :: e in entries ==> e.id != id)
      && (forall id :: id in after.stream.pending ==> after.stream.pending[id] == c.stream.pending[id])
    decreases |entries|
  {
    if entries != [] {
      var front, last := entries[..|entries| - 1], entries[|entries| - 1];
      SettledStream(c, front, outcomes);
      assert entries == front + [last];
      assert forall e :: e in entries <==> e in front || e == last;
    }
  }

  /** The results after settling, seen from the `k`th entry. */
  lemma {:induction false} SettledAt(c: Contents, entries: seq<Entry>, outcomes: nat -> Outcome, k: nat)
    requires forall j :: 0 <= j < |entries| ==> outcomes(entries[j].id).Answered?
    requires k < |entries|
    ensures var results := SettledAll(c, entries, outcomes).results;
      && entries[k].payload.request in results
      && (LastOfRequest(entries, k) ==> results[entries[k].payload.request] == outcomes(entries[k].id).result)
    decreases |entries|
  {
    var n := |entries| - 1;
    if k < n {
      SettledAt(c, entries[..n], outcomes, k);
      if LastOfRequest(entries, k) {
        assert entries[n].payload.request != entries[k].payload.request;
        assert LastOfRequest(entries[..n], k);
      }
    }
  }

  /** Seen from a request of none of them. */
  lemma {:induction false} SettledOthers(c: Contents, entries: seq<Entry>, outcomes: nat -> Outcome, r: RequestId)
    requires forall k :: 0 <= k < |entries| ==> outcomes(entries[k].id).Answered?
    ensures var results := SettledAll(c, entries, outcomes).results;
      && (r in c.results ==> r in results)
      && ((forall e :: e in entries ==> e.payload.request != r) && r in results ==>
            r in c.results && results[r] == c.results[r])
    decreases |entries|
  {
    if entries != [] {
      var n := |entries| - 1;
      SettledOthers(c, entries[..n], outcomes, r);
      assert entries[n] in entries && forall e :: e in entries[..n] ==> e in entries;
    }
  }

  /** Settling acknowledges exactly the given entries, leaves each one's request with the result of its
      last entry, and touches no other request's result. */
  lemma SettledExactly(c: Contents, entries: seq<Entry>, outcomes: nat -> Outcome)
    requires forall k :: 0 <= k < |entries| ==> outcomes(entries[k].id).Answered?
    ensures var after := SettledAll(c, entries, outcomes);
      && after.dead == c.dead
      && after.stream.entries == c.stream.entries && after.stream.delivered == c.stream.delivered
      && (forall id :: id in after.stream.pending <==>
            id in c.stream.pending && forall e :: e in entries ==> e.id != id)
      && (forall id :: id in after.stream.pending ==> after.stream.pending[id] == c.stream.pending[id])
      && (forall k {:trigger entries[k]} :: 0 <= k < |entries| ==> entries[k].payload.request in after.results)
      && (forall k {:trigger LastOfRequest(entries, k)} :: 0 <= k < |entries| && LastOfRequest(entries, k) ==>
            after.results[entries[k].payload.request] == outcomes(entries[k].id).result)
      && (forall r :: r in c.results ==> r in after.results)
      && (forall r :: r in after.results && (forall e :: e in entries ==> e.payload.request != r) ==>
            r in c.results && after.results[r] == c.results[r])
  {
    SettledStream(c, entries, outcomes);
    forall k | 0 <= k < |entries|
      ensures entries[k].payload.request in SettledAll(c, entries, outcomes).results
      ensures LastOfRequest(entries, k) ==>
        SettledAll(c, entries, outcomes).results[entries[k].payload.request] == outcomes(entries[k].id).result
    {
      SettledAt(c, entries, outcomes, k);
    }
    forall r
      ensures var results := SettledAll(c, entries, outcomes).results;
        && (r in c.results ==> r in results)
        && ((forall e :: e in entries ==> e.payload.request != r) && r in results ==>
              r in c.results && results[r] == c.results[r])
    {
      SettledOthers(c, entries, outcomes, r);
    }
  }

  class WorkerPool {
    const queue: RedisStreamQueue
    const deadLetter: DeadLetterQueue
    const retryPolicy: RetryPolicy

    constructor (queue: RedisStreamQueue, deadLetter: DeadLetterQueue, retryPolicy: RetryPolicy)
      requires deadLetter.redis == queue.redis && retryPolicy.queue == queue
      ensures this.queue == queue && this.deadLetter == deadLetter && this.retryPolicy == retryPolicy
    {
      this.queue, this.deadLetter, this.retryPolicy := queue, deadLetter, retryPolicy;
    }

    method StoreResult(request: RequestId, result: string)
      modifies queue.redis
      ensures queue.redis.contents
           == old(queue.redis.contents).(results := old(queue.redis.contents).results[request := result])
    {
      queue.redis.contents := queue.redis.contents.(results := queue.redis.contents.results[request := result]);
    }

    /** An answered job leaves the queue with its result stored; a job whose call raised stays pending. */
    method ProcessNext(now: int, outcome: Outcome) returns (e: Option<Entry>)
      requires queue.redis.contents.stream.Valid()
      modifies queue.redis
      ensures queue.redis.contents.stream.Valid()
      ensures var before := old(queue.redis.contents);
        var s := before.stream;
        var read := before.(stream := s.Read(queue.consumer, now));
        && e == (if s.delivered < |s.entries| then Some(EntryAt(s.entries)(s.delivered + 1)) else None)
        && queue.redis.contents == if e.Some? && outcome.Answered? then Settled(read, e.value, outcome.result) else read
    {
      e := queue.Read(now);
      if e.Some? && outcome.Answered? {
        StoreResult(e.value.payload.request, outcome.result);
        queue.Ack(e.value.id);
      }
    }

    /** Entries beyond the retry budget become dead letters; of the others, those before the first
        exception are settled. */
    method RecoverOnce(now: int, outcomes: nat -> Outcome) returns (retried: seq<Entry>)
      requires queue.redis.contents.stream.Valid() && deadLetter.redis == queue.redis && retryPolicy.queue == queue
      modifies queue.redis
      ensures queue.redis.contents.stream.Valid()
      ensures var before := old(queue.redis.contents);
        var r := Recovered(before.stream, queue.consumer, retryPolicy.maxRetries, retryPolicy.minIdle, now);
        var recovered := Contents(r.stream, before.dead + Letters(before.stream.entries, r.buried), before.results);
        var entries := EntriesAt(before.stream.entries, r.retryable);
        && retried == entries[..Done(entries, outcomes)]
        && queue.redis.contents == SettledAll(recovered, retried, outcomes)
    {
      var retryable, _ := retryPolicy.Recover(deadLetter, now);
      retried := Retry(retryable, outcomes);
    }

    /** The loop over the retryable entries. */
    method Retry(retryable: seq<Entry>, outcomes: nat -> Outcome) returns (retried: seq<Entry>)
      requires queue.redis.contents.stream.Valid()
      modifies queue.redis
      ensures queue.redis.contents.stream.Valid()
      ensures retried == retryable[..Done(retryable, outcomes)]
      ensures queue.redis.contents == SettledAll(old(queue.redis.contents), retried, outcomes)
    {
      var n := Done(retryable, outcomes);
      var k := 0;
      while k < |retryable| && outcomes(retryable[k].id).Answered?
        invariant 0 <= k <= n
        invariant queue.redis.contents.stream.Valid()
        invariant queue.redis.contents == SettledAll(old(queue.redis.contents), retryable[..k], outcomes)
      {
        assert retryable[..k + 1][..k] == retryable[..k];
        StoreResult(retryable[k].payload.request, outcomes(retryable[k].id).result);
        queue.Ack(retryable[k].id);
        k := k + 1;
      }
      return retryable[..k];
    }
  }
}
