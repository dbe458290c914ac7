/** context/models.py: the items of a workflow's context. */
module ContextModels {
  import opened Seqs
  import opened Packing

  datatype ContextType =
    | CONVERSATION | FILE | TOOL_RESULT | ERROR | MEMORY | SUMMARY | INSTRUCTION | TASK_STATE

  /** Item and workflow identifiers. The empty workflow id is falsy, as the source treats it. */
  datatype ItemId = ItemId(text: string)
  datatype WorkflowId = WorkflowId(text: string)

  function EstimateTokens(text: string): pos {
    if |text| / 4 >= 1 then |text| / 4 else 1
  }

  /** One token per four characters, rounded down, and at least one. */
  lemma EstimateIs(text: string)
    ensures |text| < 8 ==> EstimateTokens(text) == 1
    ensures |text| >= 4 ==> 4 * EstimateTokens(text) <= |text| < 4 * EstimateTokens(text) + 4
  {
  }

  datatype ContextItem = ContextItem(
    kind: ContextType,
    content: string,
    source: Option<string>,
    agent: Option<string>,
    workflow: Option<WorkflowId>,
    importance: real,
    relevance: real,
    id: ItemId,
    createdAt: real)

  /** `token_count`, fixed by the content when the item is built. */
  function TokenCount(item: ContextItem): pos {
    EstimateTokens(item.content)
  }

  function CreatedAt(): ContextItem -> real { (i: ContextItem) => i.createdAt }

  function TotalTokens(items: seq<ContextItem>): nat {
    if items == [] then 0 else TokenCount(items[0]) + TotalTokens(items[1..])
  }

  lemma {:induction false} TotalTokensAppend(a: seq<ContextItem>, b: seq<ContextItem>)
    ensures TotalTokens(a + b) == TotalTokens(a) + TotalTokens(b)
  {
    if a == [] {
      assert a + b == b;
    } else {
      assert (a + b)[1..] == a[1..] + b;
      TotalTokensAppend(a[1..], b);
    }
  }
}
