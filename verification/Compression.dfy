/** context/compression.py and the compression of context/manager.py. */
module Compression {
  // Old conversation turns are folded into one summary, with other requests interleaved at the single
  // await.

  import opened Seqs
  import opened ContextModels
  import opened ContextStores

  function MaxImportance(items: seq<ContextItem>): real
    requires items != []
  {
    if |items| == 1 then items[0].importance
    else
      var m := MaxImportance(items[1..]);
      if items[0].importance > m then items[0].importance else m
  }

  function Summary(items: seq<ContextItem>, w: WorkflowId, text: string, id: ItemId, at: real): ContextItem
    requires items != []
  {
    ContextItem(SUMMARY, text, Some("compression"), items[0].agent, Some(w), MaxImportance(items), 0.5, id, at)
  }

  /** `CompressionResult`. */
  datatype Compressed = Compressed(originals: seq<ContextItem>, summary: ContextItem)
  {
    function TokensBefore(): nat { TotalTokens(originals) }
    function TokensAfter(): nat { TokenCount(summary) }
    function TokensSaved(): int { TokensBefore() - TokensAfter() }
  }

  function Turns(log: seq<ContextItem>, w: WorkflowId): seq<ContextItem> {
    Listed(log, w, Some(CONVERSATION))
  }

  /** The first `n` by creation time, or all when there are fewer. */
  function Oldest(turns: seq<ContextItem>, n: nat): seq<ContextItem> {
    var sorted := StableSort(turns, CreatedAt());
    if n <= |sorted| then sorted[..n] else sorted
  }

  /** The turns that a compression started now would fold, oldest first; none when the workflow is
      within the threshold or has fewer than two turns to spare. */
  function Candidates(log: seq<ContextItem>, w: WorkflowId, threshold: int, keep: int): seq<ContextItem> {
    var turns := Turns(log, w);
    var spare := |turns| - keep;
    if TotalTokens(Listed(log, w, None)) <= threshold || spare < 2 then []
    else Oldest(turns, spare)
  }

  function Outside(ids: set<ItemId>): ContextItem -> bool { (i: ContextItem) => i.id !in ids }

  function Inside(ids: set<ItemId>): ContextItem -> bool { (i: ContextItem) => i.id in ids }

  /** The log once the originals are deleted and the summary is added. */
  function Folded(log: seq<ContextItem>, c: Compressed): seq<ContextItem> {
    Filter(log, Outside(Contents(c.originals))) + [c.summary]
  }

  // ---- The manager ----

  function DeleteEach(log: seq<ContextItem>, items: seq<ContextItem>): seq<ContextItem>
    decreases items
  {
    if items == [] then log else DeleteEach(Filter(log, HasOtherId(items[0].id)), items[1..])
  }

  lemma {:induction false} DeleteEachIsFilter(log: seq<ContextItem>, items: seq<ContextItem>)
    ensures DeleteEach(log, items) == Filter(log, Outside(Contents(items)))
    decreases items
  {
    if items == [] {
      FilterAll(log, Outside(Contents(items)));
    } else {
      var head, rest := items[0], items[1..];
      DeleteEachIsFilter(Filter(log, HasOtherId(head.id)), rest);
      ContentsCons(items);
      FilterFilter(log, HasOtherId(head.id), Outside(Contents(rest)), Outside(Contents(items)));
    }
  }

  lemma ContentsCons(items: seq<ContextItem>)
    requires items != []
    ensures Contents(items) == {items[0].id} + Contents(items[1..])
  {
    assert items == [items[0]] + items[1..];
  }

  class ContextManager {
    const store: ContextStore

    constructor (store: ContextStore)
      ensures this.store == store
    {
      this.store := store;
    }

    method Record(item: ContextItem)
      requires store.Valid() && item.id !in store.items
      modifies store
      ensures store.Valid() && store.log == old(store.log) + [item]
    {
      store.Add(item);
    }

    /** `compress_if_over_budget` up to its await. */
    method BeginCompression(w: WorkflowId, threshold: int, keep: int) returns (candidates: seq<ContextItem>)
      requires store.Valid()
      ensures candidates == Candidates(store.log, w, threshold, keep)
      ensures candidates != [] <==>
        && TotalTokens(Listed(store.log, w, None)) > threshold
        && |Turns(store.log, w)| >= keep + 2 && Turns(store.log, w) != []
    {
      CandidatesIff(store.log, w, threshold, keep);
      if store.TotalTokensOf(w) <= threshold {
        return [];
      }
      var turns := store.ListForWorkflow(w, Some(CONVERSATION));
      var spare := |turns| - keep;
      if spare < 2 {
        return [];
      }
      var sorted := StableSort(turns, CreatedAt());
      return if spare <= |sorted| then sorted[..spare] else sorted;
    }

    /** The rest of it, once the summarizer has answered. Originals that another compression deleted
        meanwhile are passed over; the summary is added regardless. */
    method FinishCompression(candidates: seq<ContextItem>, w: WorkflowId, text: string, id: ItemId, at: real)
        returns (c: Compressed)
      requires store.Valid() && candidates != [] && id !in store.items
      modifies store
      ensures store.Valid()
      ensures c == Compressed(candidates, Summary(candidates, w, text, id, at))
      ensures store.log == Folded(old(store.log), c)
    {
      c := Compressed(candidates, Summary(candidates, w, text, id, at));
      DeleteEachIsFilter(store.log, candidates);
      var k := 0;
      while k < |candidates|
        invariant 0 <= k <= |candidates|
        invariant store.Valid() && id !in store.items
        invariant DeleteEach(store.log, candidates[k..]) == DeleteEach(old(store.log), candidates)
      {
        assert candidates[k..][0] == candidates[k] && candidates[k..][1..] == candidates[k + 1..];
        DictionaryFilter(store.log, HasOtherId(candidates[k].id), {candidates[k].id});
        var _ := store.Delete(candidates[k].id);
        k := k + 1;
      }
      store.Add(c.summary);
    }

    /** With nothing interleaved: `answer` is what the summarizer returned, or None when it raised.
        A compression that takes effect folds the candidates and changes nothing else. */
    method CompressIfOverBudget(w: WorkflowId, threshold: int, keep: int, answer: Option<string>, id: ItemId, at: real)
        returns (c: Option<Compressed>)
      requires store.Valid() && id !in store.items
      modifies store
      ensures store.Valid()
      ensures var candidates := Candidates(old(store.log), w, threshold, keep);
        c == if candidates == [] || answer.None? then None
             else Some(Compressed(candidates, Summary(candidates, w, answer.value, id, at)))
      ensures store.log == if c.None? then old(store.log) else Folded(old(store.log), c.value)
      ensures c.Some? <==>
        && answer.Some? && TotalTokens(Listed(old(store.log), w, None)) > threshold
        && |Turns(old(store.log), w)| >= keep + 2 && Turns(old(store.log), w) != []
      ensures c.Some? ==>
        && c.value.summary in store.log && c.value.summary !in old(store.log)
        && forall i :: i in c.value.originals ==> i in old(store.log) && i !in store.log
    {
      CandidatesIff(store.log, w, threshold, keep);
      var candidates := BeginCompression(w, threshold, keep);
      if candidates == [] || answer.None? {
        return None;
      }
      CandidatesAreTurns(store.log, w, threshold, keep);
      DictionaryKeys(store.log, id);
      FoldReplaces(store.log, w, Compressed(candidates, Summary(candidates, w, answer.value, id, at)));
      var done := FinishCompression(candidates, w, answer.value, id, at);
      return Some(done);
    }
  }

  // ---- What one compression does to the accounts ----

  lemma {:induction false} DeleteTokens(s: seq<ContextItem>, gone: ContextItem)
    requires DistinctIds(s) && gone in s
    ensures TotalTokens(Filter(s, HasOtherId(gone.id))) == TotalTokens(s) - TokenCount(gone)
  {
    DistinctTail(s);
    if s[0] == gone {
      FilterAll(s[1..], HasOtherId(gone.id));
      assert Filter(s, HasOtherId(gone.id)) == s[1..];
    } else {
      assert gone in s[1..];
      DeleteTokens(s[1..], gone);
    }
  }

  /** Deleting distinct members takes exactly their tokens away. */
  lemma {:induction false} DeleteEachTokens(s: seq<ContextItem>, items: seq<ContextItem>)
    requires DistinctIds(s) && DistinctIds(items) && forall i :: i in items ==> i in s
    ensures TotalTokens(DeleteEach(s, items)) == TotalTokens(s) - TotalTokens(items)
    decreases items
  {
    if items != [] {
      var head, rest := items[0], items[1..];
      DistinctTail(items);
      DeleteTokens(s, head);
      FilterDistinct(s, HasOtherId(head.id));
      forall i | i in rest
        ensures i in Filter(s, HasOtherId(head.id))
      {
        FilterMember(s, HasOtherId(head.id), i);
      }
      DeleteEachTokens(Filter(s, HasOtherId(head.id)), rest);
    }
  }

  lemma ListedCommutes(log: seq<ContextItem>, p: ContextItem -> bool, w: WorkflowId, kind: Option<ContextType>)
    ensures Listed(Filter(log, p), w, kind) == Filter(Listed(log, w, kind), p)
  {
    FilterCommutes(log, p, InWorkflow(w));
    if kind.Some? {
      FilterCommutes(Filter(log, InWorkflow(w)), p, HasKind(kind.value));
    }
  }

  lemma ListedSnoc(log: seq<ContextItem>, item: ContextItem, w: WorkflowId, kind: Option<ContextType>)
    ensures Listed(log + [item], w, kind) == Listed(log, w, kind) + Listed([item], w, kind)
  {
    FilterAppend(log, [item], InWorkflow(w));
    if kind.Some? {
      FilterAppend(Filter(log, InWorkflow(w)), Filter([item], InWorkflow(w)), HasKind(kind.value));
    }
  }

  lemma ListedOne(item: ContextItem, w: WorkflowId, kind: Option<ContextType>)
    ensures Listed([item], w, kind) ==
      if w.text != "" && item.workflow == Some(w) && (kind.None? || item.kind == kind.value) then [item] else []
  {
    FilterOne(item, InWorkflow(w));
    if kind.Some? {
      FilterOne(item, HasKind(kind.value));
    }
  }

  lemma TokensAfterAdd(log: seq<ContextItem>, item: ContextItem, w: WorkflowId)
    ensures TotalTokens(Listed(log + [item], w, None)) == TotalTokens(Listed(log, w, None))
      + if w.text != "" && item.workflow == Some(w) then TokenCount(item) else 0
  {
    ListedSnoc(log, item, w, None);
    ListedOne(item, w, None);
    TotalTokensAppend(Listed(log, w, None), Listed([item], w, None));
  }

  lemma ListedMember(log: seq<ContextItem>, w: WorkflowId, kind: Option<ContextType>, i: ContextItem)
    ensures i in Listed(log, w, kind) <==>
      i in log && w.text != "" && i.workflow == Some(w) && (kind.None? || i.kind == kind.value)
  {
    FilterMember(log, InWorkflow(w), i);
    if kind.Some? {
      FilterMember(Filter(log, InWorkflow(w)), HasKind(kind.value), i);
    }
  }

  lemma ListedDistinct(log: seq<ContextItem>, w: WorkflowId, kind: Option<ContextType>)
    requires DistinctIds(log)
    ensures DistinctIds(Listed(log, w, kind))
  {
    FilterDistinct(log, InWorkflow(w));
    if kind.Some? {
      FilterDistinct(Filter(log, InWorkflow(w)), HasKind(kind.value));
    }
  }

  lemma PrefixDistinct(s: seq<ContextItem>, n: nat)
    requires DistinctIds(s) && n <= |s|
    ensures DistinctIds(s[..n])
  {
    forall i, j | 0 <= i < j < n
      ensures !Clash(s[..n], i, j)
    {
      assert !Clash(s, i, j);
    }
  }

  lemma PermutedDistinct(s: seq<ContextItem>, t: seq<ContextItem>)
    requires DistinctIds(s) && multiset(s) == multiset(t)
    ensures DistinctIds(t)
  {
    forall i, j | 0 <= i < j < |t|
      ensures !Clash(t, i, j)
    {
      if Clash(t, i, j) {
        assert t[i] in multiset(t) && t[j] in multiset(t);
        assert t[i] in s && t[j] in s;
        SameIdSameItem(s, t[i], t[j]);
        TwiceInSeq(t, i, j);
        OnceInDistinct(s, t[i]);
      }
    }
  }

  lemma TwiceInSeq<T>(t: seq<T>, i: nat, j: nat)
    requires i < j < |t| && t[i] == t[j]
    ensures multiset(t)[t[i]] >= 2
  {
    assert t == t[..i] + [t[i]] + t[i + 1..j] + [t[j]] + t[j + 1..];
  }

  lemma {:induction false} OnceInDistinct(s: seq<ContextItem>, x: ContextItem)
    requires DistinctIds(s)
    ensures multiset(s)[x] <= 1
  {
    if s != [] {
      DistinctTail(s);
      OnceInDistinct(s[1..], x);
      assert s == [s[0]] + s[1..];
      assert s[0] !in s[1..];
    }
  }

  /** There is something to fold if and only if the workflow's total exceeds the threshold and at least two
      of its turns can be spared. */
  lemma CandidatesIff(log: seq<ContextItem>, w: WorkflowId, threshold: int, keep: int)
    ensures Candidates(log, w, threshold, keep) != [] <==>
      && TotalTokens(Listed(log, w, None)) > threshold
      && |Turns(log, w)| >= keep + 2 && Turns(log, w) != []
  {
    var turns := Turns(log, w);
    StableSortSorts(turns, CreatedAt());
    assert |multiset(StableSort(turns, CreatedAt()))| == |multiset(turns)|;
  }

  /** A workflow's turns are its CONVERSATION items, in the order of the log. */
  lemma TurnsExactly(log: seq<ContextItem>, w: WorkflowId, p: ContextItem -> bool)
    requires forall i :: i in log ==> (p(i) <==> w.text != "" && i.workflow == Some(w) && i.kind.CONVERSATION?)
    ensures Turns(log, w) == Filter(log, p)
  {
    if w.text == "" {
      FilterNone(log, p);
    } else {
      FilterFilter(log, InWorkflow(w), HasKind(CONVERSATION), p);
    }
  }

  /** A summary is a SUMMARY item with the summarizer's text, of the same workflow, in the name of the
      first original's agent, and as important as the most important original. */
  lemma {:induction false} SummaryIs(items: seq<ContextItem>, w: WorkflowId, text: string, id: ItemId, at: real)
    requires items != []
    ensures var s := Summary(items, w, text, id, at);
      && s.kind.SUMMARY? && s.content == text && s.workflow == Some(w) && s.agent == items[0].agent
      && s.source == Some("compression") && s.relevance == 0.5 && s.id == id && s.createdAt == at
      && (forall i :: i in items ==> i.importance <= s.importance)
      && (exists i :: i in items && i.importance == s.importance)
    decreases |items|
  {
    if |items| == 1 {
      assert items[0] in items;
    } else {
      SummaryIs(items[1..], w, text, id, at);
      assert items == [items[0]] + items[1..];
      assert forall i :: i in items <==> i == items[0] || i in items[1..];
    }
  }

  /** A fold with a fresh summary takes every original out and brings the summary in. */
  lemma FoldReplaces(log: seq<ContextItem>, w: WorkflowId, c: Compressed)
    requires c.summary.id !in Contents(log) && forall i :: i in c.originals ==> i in Turns(log, w)
    ensures c.summary in Folded(log, c) && c.summary !in log
    ensures forall i :: i in c.originals ==> i in log && i !in Folded(log, c)
  {
    FilterMembers(log, Outside(Contents(c.originals)));
    assert Folded(log, c)[|Folded(log, c)| - 1] == c.summary;
    forall i | i in c.originals
      ensures i in log && i !in Folded(log, c)
    {
      ListedMember(log, w, Some(CONVERSATION), i);
    }
  }

  /** The candidates are distinct turns of the workflow, all but `keep` of them. */
  lemma CandidatesAreTurns(log: seq<ContextItem>, w: WorkflowId, threshold: int, keep: int)
    requires DistinctIds(log)
    ensures var c := Candidates(log, w, threshold, keep);
      && DistinctIds(c)
      && (forall i :: i in c ==> i in Turns(log, w))
      && (c != [] ==> w.text != "" && |c| == if keep >= 0 then |Turns(log, w)| - keep else |Turns(log, w)|)
  {
    ListedDistinct(log, w, Some(CONVERSATION));
    var spare := |Turns(log, w)| - keep;
    if spare >= 0 {
      OldestAreTurns(Turns(log, w), spare);
    }
  }

  lemma OldestAreTurns(turns: seq<ContextItem>, n: nat)
    requires DistinctIds(turns)
    ensures var c := Oldest(turns, n);
      && DistinctIds(c) && (forall i :: i in c ==> i in turns)
      && |c| == if n <= |turns| then n else |turns|
  {
    var sorted := StableSort(turns, CreatedAt());
    SortedTurns(turns);
    if n <= |sorted| {
      PrefixDistinct(sorted, n);
      assert forall i :: i in sorted[..n] ==> i in sorted;
    }
  }

  lemma OldestSorted(turns: seq<ContextItem>, n: nat)
    ensures
      forall i, j :: 0 <= i < j < |Oldest(turns, n)| ==> Oldest(turns, n)[i].createdAt <= Oldest(turns, n)[j].createdAt
  {
    var sorted := StableSort(turns, CreatedAt());
    StableSortSorts(turns, CreatedAt());
    forall i, j | 0 <= i < j < |sorted|
      ensures sorted[i].createdAt <= sorted[j].createdAt
    {
      assert CreatedAt()(sorted[i]) <= CreatedAt()(sorted[j]);
    }
  }

  /** The candidates come oldest first. */
  lemma CandidatesInOrder(log: seq<ContextItem>, w: WorkflowId, threshold: int, keep: int, i: nat, j: nat)
    requires i < j < |Candidates(log, w, threshold, keep)|
    ensures var c := Candidates(log, w, threshold, keep); c[i].createdAt <= c[j].createdAt
  {
    OldestSorted(Turns(log, w), |Turns(log, w)| - keep);
  }

  /** No turn outside the candidates is older than one of them. */
  lemma CandidatesAreOldest(log: seq<ContextItem>, w: WorkflowId, threshold: int, keep: int)
    ensures var c := Candidates(log, w, threshold, keep);
      forall i, j :: i in c && j in Turns(log, w) && j !in c ==> i.createdAt <= j.createdAt
  {
    var turns := Turns(log, w);
    var sorted := StableSort(turns, CreatedAt());
    var spare := |turns| - keep;
    if 0 <= spare <= |sorted| {
      PrefixIsOldest(turns, spare);
    }
    AllSorted(turns);
  }

  lemma AllSorted(turns: seq<ContextItem>)
    ensures forall j :: j in turns ==> j in StableSort(turns, CreatedAt())
  {
    StableSortSorts(turns, CreatedAt());
    forall j | j in turns
      ensures j in StableSort(turns, CreatedAt())
    {
      assert j in multiset(turns);
    }
  }

  lemma PrefixIsOldest(turns: seq<ContextItem>, n: nat)
    requires n <= |StableSort(turns, CreatedAt())|
    ensures var c := StableSort(turns, CreatedAt())[..n];
      forall i, j :: i in c && j in turns && j !in c ==> i.createdAt <= j.createdAt
  {
    var sorted := StableSort(turns, CreatedAt());
    var c := sorted[..n];
    StableSortSorts(turns, CreatedAt());
    assert forall b :: 0 <= b < n ==> sorted[b] == c[b];
    forall i, j | i in c && j in turns && j !in c
      ensures i.createdAt <= j.createdAt
    {
      assert j in multiset(sorted);
      var a :| 0 <= a < n && sorted[a] == i;
      var b :| 0 <= b < |sorted| && sorted[b] == j;
      assert b >= n;
      assert CreatedAt()(sorted[a]) <= CreatedAt()(sorted[b]);
    }
  }

  lemma SortedTurns(turns: seq<ContextItem>)
    requires DistinctIds(turns)
    ensures var sorted := StableSort(turns, CreatedAt());
      |sorted| == |turns| && DistinctIds(sorted) && forall i :: i in sorted ==> i in turns
  {
    var sorted := StableSort(turns, CreatedAt());
    StableSortSorts(turns, CreatedAt());
    assert |multiset(sorted)| == |sorted| && |multiset(turns)| == |turns|;
    PermutedDistinct(turns, sorted);
    forall i | i in sorted
      ensures i in turns
    {
      assert i in multiset(sorted);
    }
  }

  lemma {:induction false} SplitTokens(s: seq<ContextItem>, ids: set<ItemId>)
    ensures TotalTokens(s) == TotalTokens(Filter(s, Inside(ids))) + TotalTokens(Filter(s, Outside(ids)))
  {
    if s != [] {
      SplitTokens(s[1..], ids);
      FilterTokens(s, Inside(ids));
      FilterTokens(s, Outside(ids));
    }
  }

  lemma FilterTokens(s: seq<ContextItem>, p: ContextItem -> bool)
    requires s != []
    ensures TotalTokens(Filter(s, p)) == TotalTokens(Filter(s[1..], p)) + if p(s[0]) then TokenCount(s[0]) else 0
  {
    var rest := Filter(s[1..], p);
    assert ([s[0]] + rest)[1..] == rest;
    assert Filter(s, p) == if p(s[0]) then [s[0]] + rest else rest;
  }

  /** What a workflow still lists of a compression's originals. */
  function StillListed(log: seq<ContextItem>, c: Compressed, w: WorkflowId): seq<ContextItem> {
    Filter(Listed(log, w, None), Inside(Contents(c.originals)))
  }

  /** Whatever happened since the compression began, its end takes the tokens of the originals that are
      still listed off each workflow's total, and adds the summary's to its own. */
  lemma FoldAccounting(log: seq<ContextItem>, w: WorkflowId, c: Compressed)
    ensures var after := Folded(log, c);
      var added := if w.text != "" && c.summary.workflow == Some(w) then [c.summary] else [];
      && Listed(after, w, None) == Filter(Listed(log, w, None), Outside(Contents(c.originals))) + added
      && TotalTokens(Listed(after, w, None))
         == TotalTokens(Listed(log, w, None)) - TotalTokens(StillListed(log, c, w)) + TotalTokens(added)
  {
    var gone := Outside(Contents(c.originals));
    var kept := Filter(log, gone);
    ListedSnoc(kept, c.summary, w, None);
    ListedCommutes(log, gone, w, None);
    ListedOne(c.summary, w, None);
    SplitTokens(Listed(log, w, None), Contents(c.originals));
    TotalTokensAppend(Filter(Listed(log, w, None), gone), Listed([c.summary], w, None));
  }

  lemma OneToken(i: ContextItem)
    ensures TotalTokens([i]) == TokenCount(i)
  {
    assert [i][1..] == [];
  }

  /** The originals are as they were when the compression began, or gone. */
  ghost predicate Unaltered(log: seq<ContextItem>, w: WorkflowId, originals: seq<ContextItem>) {
    && DistinctIds(log) && DistinctIds(originals)
    && forall i :: i in originals && i.id in Contents(log) ==> i in Listed(log, w, None)
  }

  /** The tokens still listed are those of the originals that are still in the store. */
  lemma ListedOriginals(log: seq<ContextItem>, w: WorkflowId, c: Compressed)
    requires Unaltered(log, w, c.originals)
    ensures TotalTokens(StillListed(log, c, w)) == TotalTokens(Filter(c.originals, Inside(Contents(log))))
  {
    var items := Listed(log, w, None);
    var live := Filter(c.originals, Inside(Contents(log)));
    FilterMembers(c.originals, Inside(Contents(log)));
    FilterDistinct(c.originals, Inside(Contents(log)));
    ListedDistinct(log, w, None);
    DeleteEachTokens(items, live);
    DeleteEachIsFilter(items, live);
    forall i | i in items
      ensures Outside(Contents(live))(i) == Outside(Contents(c.originals))(i)
    {
      ListedMember(log, w, None, i);
      if i.id in Contents(c.originals) {
        var j :| j in c.originals && j.id == i.id;
        assert j in live;
      }
    }
    FilterAgree(items, Outside(Contents(live)), Outside(Contents(c.originals)));
    SplitTokens(items, Contents(c.originals));
  }

  lemma {:induction false} AllTokens(s: seq<ContextItem>, p: ContextItem -> bool)
    ensures TotalTokens(Filter(s, p)) <= TotalTokens(s)
    ensures TotalTokens(Filter(s, p)) == TotalTokens(s) <==> forall i :: i in s ==> p(i)
  {
    if s != [] {
      AllTokens(s[1..], p);
      FilterTokens(s, p);
      assert forall i :: i in s <==> i == s[0] || i in s[1..];
    }
  }

  /** The workflow's total changes by exactly minus `tokens_saved` if and only if every original is still
      in the store. */
  lemma SavedIff(log: seq<ContextItem>, w: WorkflowId, c: Compressed)
    requires Unaltered(log, w, c.originals) && w.text != "" && c.summary.workflow == Some(w)
    ensures TotalTokens(Listed(Folded(log, c), w, None)) == TotalTokens(Listed(log, w, None)) - c.TokensSaved()
      <==> forall i :: i in c.originals ==> i in log
  {
    FoldAccounting(log, w, c);
    OneToken(c.summary);
    ListedOriginals(log, w, c);
    AllTokens(c.originals, Inside(Contents(log)));
    forall i | i in c.originals
      ensures Inside(Contents(log))(i) <==> i in log
    {
      if i.id in Contents(log) {
        ListedMember(log, w, None, i);
      }
    }
  }

  lemma TurnsUnaltered(log: seq<ContextItem>, w: WorkflowId, originals: seq<ContextItem>)
    requires DistinctIds(log) && DistinctIds(originals) && forall i :: i in originals ==> i in Turns(log, w)
    ensures Unaltered(log, w, originals) && forall i :: i in originals ==> i in log
  {
    forall i | i in originals
      ensures i in Listed(log, w, None) && i in log
    {
      ListedMember(log, w, Some(CONVERSATION), i);
      ListedMember(log, w, None, i);
    }
  }

  lemma {:induction false} DeleteEachLength(s: seq<ContextItem>, items: seq<ContextItem>)
    requires DistinctIds(s) && DistinctIds(items) && forall i :: i in items ==> i in s
    ensures |DeleteEach(s, items)| == |s| - |items|
    decreases items
  {
    if items != [] {
      var head, rest := items[0], items[1..];
      DistinctTail(items);
      DeleteLength(s, head);
      FilterDistinct(s, HasOtherId(head.id));
      FilterMembers(s, HasOtherId(head.id));
      DeleteEachLength(Filter(s, HasOtherId(head.id)), rest);
    }
  }

  lemma {:induction false} DeleteLength(s: seq<ContextItem>, gone: ContextItem)
    requires DistinctIds(s) && gone in s
    ensures |Filter(s, HasOtherId(gone.id))| == |s| - 1
  {
    DistinctTail(s);
    if s[0] == gone {
      FilterAll(s[1..], HasOtherId(gone.id));
      assert Filter(s, HasOtherId(gone.id)) == s[1..];
    } else {
      assert gone in s[1..];
      DeleteLength(s[1..], gone);
    }
  }

  lemma FoldedTurns(log: seq<ContextItem>, w: WorkflowId, c: Compressed)
    requires c.summary.kind == SUMMARY
    ensures Turns(Folded(log, c), w) == Filter(Turns(log, w), Outside(Contents(c.originals)))
  {
    var gone := Outside(Contents(c.originals));
    ListedSnoc(Filter(log, gone), c.summary, w, Some(CONVERSATION));
    ListedOne(c.summary, w, Some(CONVERSATION));
    ListedCommutes(log, gone, w, Some(CONVERSATION));
    assert Filter(Turns(log, w), gone) + [] == Filter(Turns(log, w), gone);
  }

  /** The turns that an effective compression leaves: as many as it should keep, in order, and none older
      than one it folded. */
  lemma TurnsThatRemain(log: seq<ContextItem>, w: WorkflowId, threshold: int, keep: int, summary: ContextItem)
    requires DistinctIds(log) && Candidates(log, w, threshold, keep) != [] && summary.kind == SUMMARY
    ensures var candidates := Candidates(log, w, threshold, keep);
      var after := Folded(log, Compressed(candidates, summary));
      && Turns(after, w) == Filter(Turns(log, w), Outside(Contents(candidates)))
      && |Turns(after, w)| == (if keep >= 0 then keep else 0)
      && (forall i, j :: i in candidates && j in Turns(after, w) ==> i.createdAt <= j.createdAt)
  {
    var candidates := Candidates(log, w, threshold, keep);
    var gone := Outside(Contents(candidates));
    var turns := Turns(log, w);
    CandidatesAreTurns(log, w, threshold, keep);
    CandidatesAreOldest(log, w, threshold, keep);
    FoldedTurns(log, w, Compressed(candidates, summary));
    ListedDistinct(log, w, Some(CONVERSATION));
    DeleteEachLength(turns, candidates);
    DeleteEachIsFilter(turns, candidates);
    FilterMembers(turns, gone);
  }

  /** When the turns were recorded in the order of their creation times, what remains is exactly the last
      `keep` of them. */
  lemma NewestRemain(log: seq<ContextItem>, w: WorkflowId, threshold: int, keep: nat, summary: ContextItem)
    requires DistinctIds(log) && Candidates(log, w, threshold, keep) != [] && summary.kind == SUMMARY
    requires SortedBy(Turns(log, w), CreatedAt())
    ensures var turns := Turns(log, w);
      keep <= |turns| &&
      Turns(Folded(log, Compressed(Candidates(log, w, threshold, keep), summary)), w) == turns[|turns| - keep..]
  {
    var n := |Turns(log, w)| - keep;
    OldestPrefix(log, w, threshold, keep);
    FoldedTurns(log, w, Compressed(Candidates(log, w, threshold, keep), summary));
    ListedDistinct(log, w, Some(CONVERSATION));
    SuffixRemains(Turns(log, w), n, Candidates(log, w, threshold, keep),
                  Turns(Folded(log, Compressed(Candidates(log, w, threshold, keep), summary)), w));
  }

  lemma SuffixRemains(turns: seq<ContextItem>, n: nat, folded: seq<ContextItem>, after: seq<ContextItem>)
    requires DistinctIds(turns) && n <= |turns| && folded == turns[..n]
    requires after == Filter(turns, Outside(Contents(folded)))
    ensures after == turns[n..]
  {
    KeepSuffix(turns, n);
  }

  lemma OldestPrefix(log: seq<ContextItem>, w: WorkflowId, threshold: int, keep: nat)
    requires Candidates(log, w, threshold, keep) != [] && SortedBy(Turns(log, w), CreatedAt())
    ensures keep <= |Turns(log, w)| && Candidates(log, w, threshold, keep) == Turns(log, w)[..|Turns(log, w)| - keep]
  {
    StableSortIdentity(Turns(log, w), CreatedAt());
  }

  lemma KeepSuffix(s: seq<ContextItem>, n: nat)
    requires DistinctIds(s) && n <= |s|
    ensures Filter(s, Outside(Contents(s[..n]))) == s[n..]
  {
    var gone := Outside(Contents(s[..n]));
    assert s == s[..n] + s[n..];
    FilterAppend(s[..n], s[n..], gone);
    FilterNone(s[..n], gone);
    forall i | i in s[n..]
      ensures gone(i)
    {
      var b :| n <= b < |s| && s[b] == i;
      forall j | j in s[..n]
        ensures j.id != i.id
      {
        var a :| 0 <= a < n && s[a] == j;
        assert !Clash(s, a, b);
      }
    }
    FilterAll(s[n..], gone);
  }

  /** An effective compression takes `tokens_saved` off its workflow's total, exactly; leaves the newest
      `keep` turns, in order, and the other kinds of items; and appends the summary. Other workflows keep
      every item. */
  lemma CompressionAccounting(log: seq<ContextItem>, w: WorkflowId, threshold: int, keep: int, text: string,
                              id: ItemId, at: real, other: WorkflowId)
    requires DistinctIds(log) && Candidates(log, w, threshold, keep) != []
    ensures var candidates := Candidates(log, w, threshold, keep);
      var c := Compressed(candidates, Summary(candidates, w, text, id, at));
      var after := Folded(log, c);
      && TotalTokens(Listed(after, w, None)) == TotalTokens(Listed(log, w, None)) - c.TokensSaved()
      && Listed(after, w, None) == Filter(Listed(log, w, None), Outside(Contents(candidates))) + [c.summary]
      && Turns(after, w) == Filter(Turns(log, w), Outside(Contents(candidates)))
      && |Turns(after, w)| == (if keep >= 0 then keep else 0)
      && (forall i, j :: i in candidates && j in Turns(after, w) ==> i.createdAt <= j.createdAt)
      && (forall i :: i in Listed(log, w, None) && i.kind != CONVERSATION ==> i in Listed(after, w, None))
      && (other != w ==> Listed(after, other, None) == Listed(log, other, None))
  {
    var candidates := Candidates(log, w, threshold, keep);
    var c := Compressed(candidates, Summary(candidates, w, text, id, at));
    CandidatesAreTurns(log, w, threshold, keep);
    TurnsUnaltered(log, w, candidates);
    FoldAccounting(log, w, c);
    SavedIff(log, w, c);
    TurnsThatRemain(log, w, threshold, keep, c.summary);
    OthersUntouched(log, w, candidates, c.summary, other);
  }

  lemma OthersUntouched(log: seq<ContextItem>, w: WorkflowId, candidates: seq<ContextItem>, summary: ContextItem,
                        other: WorkflowId)
    requires DistinctIds(log) && (forall i :: i in candidates ==> i in Turns(log, w)) && summary.workflow == Some(w)
    ensures var after := Filter(log, Outside(Contents(candidates))) + [summary];
      && (forall i :: i in Listed(log, w, None) && i.kind != CONVERSATION ==> i in Listed(after, w, None))
      && (other != w ==> Listed(after, other, None) == Listed(log, other, None))
  {
    var gone := Outside(Contents(candidates));
    var kept := Filter(log, gone);
    forall i | i in log && (i.kind != CONVERSATION || i.workflow != Some(w))
      ensures gone(i)
    {
      if i.id in Contents(candidates) {
        var j :| j in candidates && j.id == i.id;
        ListedMember(log, w, Some(CONVERSATION), j);
        SameIdSameItem(log, i, j);
      }
    }
    forall i | i in Listed(log, w, None) && i.kind != CONVERSATION
      ensures i in Listed(kept + [summary], w, None)
    {
      ListedMember(log, w, None, i);
      FilterMember(log, gone, i);
      ListedMember(kept + [summary], w, None, i);
    }
    if other != w {
      ListedSnoc(kept, summary, other, None);
      ListedOne(summary, other, None);
      ListedCommutes(log, gone, other, None);
      forall i | i in Listed(log, other, None)
        ensures gone(i)
      {
        ListedMember(log, other, None, i);
      }
      FilterAll(Listed(log, other, None), gone);
    }
  }
}
