/** gateway/routes.py: what `generate` and `chat` do before they call a worker. */
module Gateways {
  import opened Seqs
  import opened LoadBalancing
  import opened ContextModels
  import opened ContextStores
  import opened Compression

  /** What the total of the request's workflow would become; a request without a workflow is not
      measured. */
  function ProspectiveTokens(log: seq<ContextItem>, workflow: Option<WorkflowId>, content: string): Option<int> {
    if workflow.None? then None
    else Some(TotalTokens(Listed(log, workflow.value, None)) + EstimateTokens(content))
  }

  function Turn(
    content: string, workflow: Option<WorkflowId>, agent: Option<string>, id: ItemId, at: real): ContextItem
  {
    ContextItem(CONVERSATION, content, None, agent, workflow, 0.5, 0.5, id, at)
  }

  /** One CONVERSATION item with this content, in the name of this agent and workflow, is added at the end. */
  ghost predicate AddsTurn(
    before: seq<ContextItem>, after: seq<ContextItem>, content: string, workflow: WorkflowId, agent: Option<string>)
  {
    && |after| == |before| + 1 && after[..|before|] == before
    && var i := after[|before|];
      i.kind.CONVERSATION? && i.content == content && i.workflow == Some(workflow) && i.agent == agent
  }

  /** What is measured before the pick is what the workflow's total becomes once the request is recorded. */
  lemma ProspectiveIsTotalAfter(
      before: seq<ContextItem>, after: seq<ContextItem>, content: string, workflow: WorkflowId, agent: Option<string>)
    requires workflow.text != "" && AddsTurn(before, after, content, workflow, agent)
    ensures ProspectiveTokens(before, Some(workflow), content) == Some(TotalTokens(Listed(after, workflow, None)))
  {
    assert after == before + [after[|before|]];
    TokensAfterAdd(before, after[|before|], workflow);
  }

  class Gateway {
    const manager: ContextManager
    const balancer: LoadBalancer

    constructor (manager: ContextManager, balancer: LoadBalancer)
      ensures this.manager == manager && this.balancer == balancer
    {
      this.manager, this.balancer := manager, balancer;
    }

    method GetProspectiveContextTokens(workflow: Option<WorkflowId>, content: string) returns (tokens: Option<int>)
      requires manager.store.Valid()
      ensures tokens == ProspectiveTokens(manager.store.log, workflow, content)
    {
      if workflow.None? {
        return None;
      }
      var total := manager.store.TotalTokensOf(workflow.value);
      return Some(total + EstimateTokens(content));
    }

    method RecordContext(workflow: Option<WorkflowId>, agent: Option<string>, content: string, id: ItemId, at: real)
      requires manager.store.Valid() && id !in manager.store.items
      modifies manager.store
      ensures manager.store.Valid()
      ensures manager.store.log == old(manager.store.log)
        + if workflow.Some? then [Turn(content, workflow, agent, id, at)] else []
      ensures workflow.Some? ==> AddsTurn(old(manager.store.log), manager.store.log, content, workflow.value, agent)
    {
      if workflow.None? {
        return;
      }
      manager.Record(Turn(content, workflow, agent, id, at));
    }

    /** Measure, pick, record. A refused request leaves the store as it was; an accepted one goes to a
        worker that can hold the workflow's context with the request in it. */
    method Dispatch(workflow: Option<WorkflowId>, agent: Option<string>, content: string, strategy: Strategy,
                    now: real, id: ItemId, at: real) returns (r: Result<Worker, PickError>)
      requires manager.store.Valid() && id !in manager.store.items
      requires balancer.Valid() && balancer.latest <= now
      modifies manager.store, balancer
      ensures manager.store.Valid() && balancer.Valid()
      ensures balancer.workers == old(balancer.workers) && balancer.told == old(balancer.told)
      ensures r == Pick(balancer.workers, Refusing(old(balancer.breakers), balancer.settings, now),
                        ProspectiveTokens(old(manager.store.log), workflow, content), strategy, old(balancer.rrIndex))
      ensures RightAnswer(r, balancer.workers, Refusing(old(balancer.breakers), balancer.settings, now),
                          ProspectiveTokens(old(manager.store.log), workflow, content))
      ensures r.Err? ==> manager.store.log == old(manager.store.log)
      ensures r.Ok? && workflow.Some? ==>
        AddsTurn(old(manager.store.log), manager.store.log, content, workflow.value, agent)
      ensures r.Ok? ==>
        manager.store.log == old(manager.store.log)
          + if workflow.Some? then [Turn(content, workflow, agent, id, at)] else []
    {
      var tokens := GetProspectiveContextTokens(workflow, content);
      r := balancer.PickWorker(now, tokens, strategy);
      if r.Ok? {
        RecordContext(workflow, agent, content, id, at);
      }
    }
  }
}
