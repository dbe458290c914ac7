/** `_process_job` of workers/worker_pool.py: how a queued job is dispatched. */
module JobDispatch {
  import opened Seqs
  import opened Streams
  import opened LoadBalancing
  import opened ContextModels
  import opened ContextStores
  import opened Compression
  import opened Gateways
  import CircuitBreakers
  import WorkerPools

  datatype Job = Job(
    request: RequestId,
    agent: Option<string>,
    workflow: Option<WorkflowId>,
    contextTokens: Option<int>,  // measured when the job was enqueued
    prompt: Option<string>,
    messages: seq<string>)

  function Joined(lines: seq<string>): string {
    if lines == [] then "" else if |lines| == 1 then lines[0] else lines[0] + "\n" + Joined(lines[1..])
  }

  /** The text that is recorded: the prompt, or the messages when there is none or it is empty. */
  function ContentOf(job: Job): string {
    if job.prompt.Some? && job.prompt.value != "" then job.prompt.value else Joined(job.messages)
  }

  /** The lines of a text. */
  function Lines(text: string): (lines: seq<string>)
    ensures lines != []
  {
    if text == "" then [""]
    else
      var rest := Lines(text[1..]);
      if text[0] == '\n' then [""] + rest else [[text[0]] + rest[0]] + rest[1..]
  }

  lemma {:induction false} LinesOfLine(line: string)
    requires '\n' !in line
    ensures Lines(line) == [line]
  {
    if line != "" {
      LinesOfLine(line[1..]);
      assert line == [line[0]] + line[1..];
    } else {
      assert Lines(line) == [""];
    }
  }

  lemma {:induction false} LinesAppend(line: string, text: string)
    requires '\n' !in line
    ensures Lines(line + "\n" + text) == [line] + Lines(text)
  {
    var all := line + "\n" + text;
    if line == "" {
      assert all[1..] == text;
    } else {
      assert all[1..] == line[1..] + "\n" + text;
      LinesAppend(line[1..], text);
      assert all[0] == line[0] && line == [line[0]] + line[1..];
    }
  }

  /** Messages of one line each can be read back from the text that is recorded for them. */
  lemma {:induction false} JoinedLines(messages: seq<string>)
    requires messages != [] && forall m :: m in messages ==> '\n' !in m
    ensures Lines(Joined(messages)) == messages
  {
    if |messages| == 1 {
      LinesOfLine(messages[0]);
      assert Lines(Joined(messages)) == [messages[0]];
    } else {
      JoinedLines(messages[1..]);
      LinesAppend(messages[0], Joined(messages[1..]));
    }
  }

  /** A prompt that is not empty is recorded as it is; otherwise the messages are, line by line. */
  lemma ContentOfJob(job: Job)
    ensures job.prompt.Some? && job.prompt.value != "" ==> ContentOf(job) == job.prompt.value
    ensures job.prompt == None || job.prompt == Some("") ==>
      && (job.messages == [] ==> ContentOf(job) == "")
      && (job.messages != [] && (forall m :: m in job.messages ==> '\n' !in m) ==>
            Lines(ContentOf(job)) == job.messages)
  {
    if job.messages != [] && forall m :: m in job.messages ==> '\n' !in m {
      JoinedLines(job.messages);
    }
  }

  function TurnOf(job: Job, id: ItemId, at: real): ContextItem {
    Turn(ContentOf(job), job.workflow, job.agent, id, at)
  }

  /** How the worker's call ended: an answer, a RuntimeError, or anything else. */
  datatype Call = Response(text: string) | RuntimeError(text: string) | OtherException

  /** The key under which an error is reported in place of an answer. */
  const ERROR_KEY := "error: "

  class Dispatcher {
    const manager: ContextManager
    const balancer: LoadBalancer

    constructor (manager: ContextManager, balancer: LoadBalancer)
      ensures this.manager == manager && this.balancer == balancer
    {
      this.manager, this.balancer := manager, balancer;
    }

    /** Up to the await: the worker is picked for the count that came with the job, and the turn is
        recorded once there is a worker. */
    method BeginJob(job: Job, strategy: Strategy, now: real, id: ItemId, at: real)
        returns (r: Result<Worker, PickError>)
      requires manager.store.Valid() && id !in manager.store.items
      requires balancer.Valid() && balancer.latest <= now
      modifies manager.store, balancer
      ensures manager.store.Valid() && balancer.Valid() && balancer.latest <= now
      ensures balancer.workers == old(balancer.workers) && balancer.told == old(balancer.told)
      ensures r == Pick(balancer.workers, Refusing(old(balancer.breakers), balancer.settings, now), job.contextTokens,
                        strategy, old(balancer.rrIndex))
      ensures RightAnswer(r, balancer.workers, Refusing(old(balancer.breakers), balancer.settings, now),
                          job.contextTokens)
      ensures manager.store.log == old(manager.store.log)
        + if r.Ok? && job.workflow.Some? then [TurnOf(job, id, at)] else []
      ensures r.Ok? && job.workflow.Some? ==>
        AddsTurn(old(manager.store.log), manager.store.log, ContentOf(job), job.workflow.value, job.agent)
    {
      r := balancer.PickWorker(now, job.contextTokens, strategy);
      if r.Ok? && job.workflow.Some? {
        manager.Record(TurnOf(job, id, at));
      }
    }

    /** After the await, whatever happened meanwhile. The breaker of the worker hears of an answer or of a
        RuntimeError; if the worker has been removed, there is no breaker, and the job raises. */
    method EndJob(url: CircuitBreakers.Url, call: Call, now: real) returns (outcome: WorkerPools.Outcome)
      requires balancer.Valid() && balancer.latest <= now
      modifies balancer
      ensures balancer.Valid() && balancer.workers == old(balancer.workers)
      ensures outcome.Raised? <==> call.OtherException? || url !in old(balancer.breakers)
      ensures outcome.Answered? ==> outcome.result == if call.Response? then call.text else ERROR_KEY + call.text
      ensures outcome.Raised? ==> balancer.told == old(balancer.told) && balancer.breakers == old(balancer.breakers)
      ensures outcome.Answered? ==> balancer.told == old(balancer.told)[url :=
        CircuitBreakers.Tell(old(balancer.told)[url],
                             if call.Response? then CircuitBreakers.Success else CircuitBreakers.Failure(now))]
    {
      match call
      case Response(text) =>
        var known := balancer.RecordSuccess(url);
        outcome := if known then WorkerPools.Answered(text) else WorkerPools.Raised;
      case RuntimeError(text) =>
        var known := balancer.RecordFailure(url, now);
        outcome := if known then WorkerPools.Answered(ERROR_KEY + text) else WorkerPools.Raised;
      case OtherException =>
        outcome := WorkerPools.Raised;
    }
  }

  // ---- The count that came with the job ----

  function AfterJob(log: seq<ContextItem>, job: Job, f: Fleet, id: ItemId, at: real): seq<ContextItem> {
    if Chosen(f, job.contextTokens).Ok? && job.workflow.Some? then log + [TurnOf(job, id, at)] else log
  }

  /** An admitted job adds its own tokens; its workflow stays within the capacity of the worker as long as
      the count it came with is no less than what a measurement at dispatch would give. */
  lemma DispatchedFits(log: seq<ContextItem>, job: Job, f: Fleet, id: ItemId, at: real)
    requires job.workflow.Some? && job.workflow.value.text != ""
    ensures var r := Chosen(f, job.contextTokens);
      var measured := ProspectiveTokens(log, job.workflow, ContentOf(job)).value;
      var before := TotalTokens(Listed(log, job.workflow.value, None));
      var after := TotalTokens(Listed(AfterJob(log, job, f, id, at), job.workflow.value, None));
      && after == before + (if r.Ok? then EstimateTokens(ContentOf(job)) else 0)
      && (r.Ok? && job.contextTokens.Some? && measured <= job.contextTokens.value ==> after <= r.value.maxContextTokens)
  {
    PickSound(f.workers, f.blocked, job.contextTokens, f.strategy, f.rr);
    TokensAfterAdd(log, TurnOf(job, id, at), job.workflow.value);
  }

  /** Whatever fleet admits the job, its workflow fits the chosen worker afterwards, if and only if the
      count that came with it is no less than what a measurement at dispatch would give. */
  lemma DispatchedFitsIff(log: seq<ContextItem>, job: Job, id: ItemId, at: real)
    requires job.workflow.Some? && job.workflow.value.text != "" && job.contextTokens.Some?
    ensures (forall f: Fleet {:trigger FitsChosen(log, job, f, id, at)} :: FitsChosen(log, job, f, id, at))
      <==> ProspectiveTokens(log, job.workflow, ContentOf(job)).value <= job.contextTokens.value
  {
    var measured := ProspectiveTokens(log, job.workflow, ContentOf(job)).value;
    if measured <= job.contextTokens.value {
      forall f: Fleet
        ensures FitsChosen(log, job, f, id, at)
      {
        DispatchedFits(log, job, f, id, at);
      }
    } else {
      var room := job.contextTokens.value;
      var f := Single(CircuitBreakers.Url("w"), room);
      SingleTakes(CircuitBreakers.Url("w"), room, job.contextTokens);
      PickSound(f.workers, f.blocked, job.contextTokens, f.strategy, f.rr);
      DispatchedFits(log, job, f, id, at);
      assert !FitsChosen(log, job, f, id, at);
    }
  }

  ghost predicate FitsChosen(log: seq<ContextItem>, job: Job, f: Fleet, id: ItemId, at: real)
    requires job.workflow.Some?
  {
    var r := Chosen(f, job.contextTokens);
    r.Ok? ==>
      TotalTokens(Listed(AfterJob(log, job, f, id, at), job.workflow.value, None)) <= r.value.maxContextTokens
  }
}
