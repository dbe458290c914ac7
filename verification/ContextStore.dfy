/** context/store.py: the in-memory store, an item dictionary with an index of ids by workflow. It stands for
    a log of its live items in the order in which they were added, which is what the other modules speak of. */
module ContextStores {
  import opened Seqs
  import opened ContextModels

  // ---- The log that the store stands for: its live items in the order they were added ----

  datatype Op = Add(item: ContextItem) | Delete(id: ItemId) | Clear(workflow: WorkflowId)

  function InWorkflow(w: WorkflowId): ContextItem -> bool { (i: ContextItem) => i.workflow == Some(w) }

  function NotInWorkflow(w: WorkflowId): ContextItem -> bool { (i: ContextItem) => i.workflow != Some(w) }

  function HasOtherId(id: ItemId): ContextItem -> bool { (i: ContextItem) => i.id != id }

  function HasKind(kind: ContextType): ContextItem -> bool { (i: ContextItem) => i.kind == kind }

  function Apply(log: seq<ContextItem>, op: Op): seq<ContextItem> {
    match op
    case Add(item) => log + [item]
    case Delete(id) => Filter(log, HasOtherId(id))
    case Clear(w) => if w.text == "" then log else Filter(log, NotInWorkflow(w))
  }

  function Replay(ops: seq<Op>): seq<ContextItem> {
    if ops == [] then [] else Apply(Replay(ops[..|ops| - 1]), ops[|ops| - 1])
  }

  /** The items of a workflow, optionally of one type only; none for the empty workflow id. */
  function Listed(log: seq<ContextItem>, w: WorkflowId, kind: Option<ContextType>): seq<ContextItem> {
    var items := if w.text == "" then [] else Filter(log, InWorkflow(w));
    if kind.Some? then Filter(items, HasKind(kind.value)) else items
  }

  predicate Removes(op: Op, item: ContextItem) {
    (op.Delete? && op.id == item.id) ||
    (op.Clear? && op.workflow.text != "" && item.workflow == Some(op.workflow))
  }

  predicate RemovedBy(ops: seq<Op>, item: ContextItem) {
    exists op :: op in ops && Removes(op, item)
  }

  /** What survives of the additions, from the definition of an item's life alone: it was added and
      no later operation removed it. */
  function Survivors(ops: seq<Op>): seq<ContextItem> {
    if ops == [] then [] else Surviving(ops[0], ops[1..]) + Survivors(ops[1..])
  }

  function Surviving(op: Op, later: seq<Op>): seq<ContextItem> {
    if op.Add? && !RemovedBy(later, op.item) then [op.item] else []
  }

  function KeptBy(op: Op): ContextItem -> bool { (i: ContextItem) => !Removes(op, i) }

  lemma RemovedBySnoc(ops: seq<Op>, op: Op, item: ContextItem)
    ensures RemovedBy(ops + [op], item) <==> RemovedBy(ops, item) || Removes(op, item)
  {
    assert forall o :: o in ops + [op] <==> o in ops || o == op;
  }

  lemma SurvivingSnoc(first: Op, later: seq<Op>, op: Op)
    ensures Surviving(first, later + [op]) == Filter(Surviving(first, later), KeptBy(op))
  {
    if first.Add? {
      RemovedBySnoc(later, op, first.item);
      FilterOne(first.item, KeptBy(op));
    }
  }

  lemma {:induction false} SurvivorsSnoc(ops: seq<Op>, op: Op)
    ensures Survivors(ops + [op]) == Filter(Survivors(ops), KeptBy(op)) + Surviving(op, [])
  {
    var all := ops + [op];
    if ops == [] {
      assert all[1..] == [];
    } else {
      assert all[1..] == ops[1..] + [op];
      SurvivorsSnoc(ops[1..], op);
      SurvivingSnoc(ops[0], ops[1..], op);
      FilterAppend(Surviving(ops[0], ops[1..]), Survivors(ops[1..]), KeptBy(op));
    }
  }

  /** Replaying the operations leaves exactly the items that were added and not removed since, in
      the order of their addition. */
  lemma {:induction false} ReplayIsSurvivors(ops: seq<Op>)
    ensures Replay(ops) == Survivors(ops)
  {
    if ops != [] {
      var front, op := ops[..|ops| - 1], ops[|ops| - 1];
      ReplayIsSurvivors(front);
      assert ops == front + [op];
      SurvivorsSnoc(front, op);
      var before := Replay(front);
      match op {
        case Add(item) => FilterAll(before, KeptBy(op));
        case Delete(id) => FilterAgree(before, KeptBy(op), HasOtherId(id));
        case Clear(w) =>
          if w.text == "" {
            FilterAll(before, KeptBy(op));
          } else {
            FilterAgree(before, KeptBy(op), NotInWorkflow(w));
          }
      }
    }
  }

  // ---- The index ----

  predicate Clash(items: seq<ContextItem>, i: nat, j: nat)
    requires i < j < |items|
  {
    items[i].id == items[j].id
  }

  ghost predicate DistinctIds(items: seq<ContextItem>) {
    forall i, j {:trigger Clash(items, i, j)} :: 0 <= i < j < |items| ==> !Clash(items, i, j)
  }

  lemma DistinctTail(items: seq<ContextItem>)
    requires DistinctIds(items) && items != []
    ensures DistinctIds(items[1..])
    ensures forall i :: i in items[1..] ==> i.id != items[0].id
  {
    forall i, j | 0 <= i < j < |items[1..]|
      ensures !Clash(items[1..], i, j)
    {
      assert !Clash(items, i + 1, j + 1);
    }
    forall k | 0 <= k < |items[1..]|
      ensures items[1..][k].id != items[0].id
    {
      assert !Clash(items, 0, k + 1);
    }
  }

  lemma DistinctCons(item: ContextItem, rest: seq<ContextItem>)
    requires DistinctIds(rest) && forall i :: i in rest ==> i.id != item.id
    ensures DistinctIds([item] + rest)
  {
    var all := [item] + rest;
    forall i, j | 0 <= i < j < |all|
      ensures !Clash(all, i, j)
    {
      if i == 0 {
        assert all[j] == rest[j - 1] && rest[j - 1] in rest;
      } else {
        assert !Clash(rest, i - 1, j - 1);
      }
    }
  }

  function Ids(items: seq<ContextItem>): (ids: seq<ItemId>)
    ensures |ids| == |items| && forall k :: 0 <= k < |items| ==> ids[k] == items[k].id
  {
    if items == [] then [] else [items[0].id] + Ids(items[1..])
  }

  lemma {:induction false} IdsAppend(a: seq<ContextItem>, b: seq<ContextItem>)
    ensures Ids(a + b) == Ids(a) + Ids(b)
  {
  }

  function Indexed(byWorkflow: map<WorkflowId, seq<ItemId>>, w: WorkflowId): seq<ItemId> {
    if w in byWorkflow then byWorkflow[w] else []
  }

  /** The comprehension of `list_for_workflow`: the ids that are still in the dictionary. */
  function Lookup(ids: seq<ItemId>, items: map<ItemId, ContextItem>): seq<ContextItem> {
    if ids == [] then []
    else (if ids[0] in items then [items[ids[0]]] else []) + Lookup(ids[1..], items)
  }

  function RemoveFirst(ids: seq<ItemId>, id: ItemId): seq<ItemId> {
    if ids == [] then [] else if ids[0] == id then ids[1..] else [ids[0]] + RemoveFirst(ids[1..], id)
  }

  /** The dictionary of a log. */
  function Dictionary(log: seq<ContextItem>): map<ItemId, ContextItem> {
    if log == [] then map[] else Dictionary(log[..|log| - 1])[log[|log| - 1].id := log[|log| - 1]]
  }

  ghost predicate IndexFits(byWorkflow: map<WorkflowId, seq<ItemId>>, log: seq<ContextItem>) {
    forall w: WorkflowId {:trigger IndexFitsAt(byWorkflow, log, w)} :: IndexFitsAt(byWorkflow, log, w)
  }

  ghost predicate IndexFitsAt(byWorkflow: map<WorkflowId, seq<ItemId>>, log: seq<ContextItem>, w: WorkflowId) {
    if w.text == "" then w !in byWorkflow
    else Indexed(byWorkflow, w) == Ids(Filter(log, InWorkflow(w)))
  }

  lemma {:induction false} DictionaryKeys(log: seq<ContextItem>, id: ItemId)
    ensures id in Dictionary(log) <==> exists i :: i in log && i.id == id
    ensures id in Dictionary(log) ==> Dictionary(log)[id] in log && Dictionary(log)[id].id == id
  {
    if log != [] {
      var front, last := log[..|log| - 1], log[|log| - 1];
      DictionaryKeys(front, id);
      assert log == front + [last];
      assert forall i :: i in log <==> i in front || i == last;
    }
  }

  lemma DictionaryHolds(log: seq<ContextItem>, item: ContextItem)
    requires DistinctIds(log) && item in log
    ensures item.id in Dictionary(log) && Dictionary(log)[item.id] == item
  {
    DictionaryKeys(log, item.id);
    SameIdSameItem(log, item, Dictionary(log)[item.id]);
  }

  lemma {:induction false} LookupIds(s: seq<ContextItem>, items: map<ItemId, ContextItem>)
    requires forall i :: i in s ==> i.id in items && items[i.id] == i
    ensures Lookup(Ids(s), items) == s
  {
    if s != [] {
      LookupIds(s[1..], items);
      assert s[0] in s;
    }
  }

  lemma {:induction false} RemoveFirstIds(s: seq<ContextItem>, id: ItemId)
    requires DistinctIds(s)
    ensures RemoveFirst(Ids(s), id) == Ids(Filter(s, HasOtherId(id)))
  {
    if s != [] {
      var head, rest := s[0], s[1..];
      DistinctTail(s);
      assert Ids(s) == [head.id] + Ids(rest);
      if head.id == id {
        FilterAll(rest, HasOtherId(id));
        assert Filter(s, HasOtherId(id)) == rest;
      } else {
        RemoveFirstIds(rest, id);
        var kept := Filter(rest, HasOtherId(id));
        assert Filter(s, HasOtherId(id)) == [head] + kept;
        IdsAppend([head], kept);
      }
    }
  }

  lemma {:induction false} FilterDistinct(s: seq<ContextItem>, p: ContextItem -> bool)
    requires DistinctIds(s)
    ensures DistinctIds(Filter(s, p))
  {
    if s != [] {
      DistinctTail(s);
      FilterDistinct(s[1..], p);
      if p(s[0]) {
        forall i | i in Filter(s[1..], p)
          ensures i.id != s[0].id
        {
          FilterMember(s[1..], p, i);
        }
        DistinctCons(s[0], Filter(s[1..], p));
      } else {
        assert Filter(s, p) == Filter(s[1..], p);
      }
    }
  }

  lemma {:induction false} FilterCommutes(s: seq<ContextItem>, p: ContextItem -> bool, q: ContextItem -> bool)
    ensures Filter(Filter(s, p), q) == Filter(Filter(s, q), p)
  {
    var both := (i: ContextItem) => p(i) && q(i);
    FilterFilter(s, p, q, both);
    FilterFilter(s, q, p, both);
  }

  lemma SameIdSameItem(log: seq<ContextItem>, a: ContextItem, b: ContextItem)
    requires DistinctIds(log) && a in log && b in log && a.id == b.id
    ensures a == b
  {
    var i :| 0 <= i < |log| && log[i] == a;
    var j :| 0 <= j < |log| && log[j] == b;
    assert i < j ==> !Clash(log, i, j);
    assert j < i ==> !Clash(log, j, i);
  }

  function IndexAfterDelete(byWorkflow: map<WorkflowId, seq<ItemId>>, gone: ContextItem): map<WorkflowId, seq<ItemId>> {
    if gone.workflow.Some? && gone.workflow.value.text != "" && gone.workflow.value in byWorkflow then
      var w := gone.workflow.value;
      byWorkflow[w := RemoveFirst(byWorkflow[w], gone.id)]
    else byWorkflow
  }

  lemma DeleteHere(s: seq<ContextItem>, gone: ContextItem, w: WorkflowId)
    requires DistinctIds(s) && gone in s && gone.workflow == Some(w)
    ensures RemoveFirst(Ids(Filter(s, InWorkflow(w))), gone.id)
         == Ids(Filter(Filter(s, HasOtherId(gone.id)), InWorkflow(w)))
  {
    FilterDistinct(s, InWorkflow(w));
    RemoveFirstIds(Filter(s, InWorkflow(w)), gone.id);
    FilterCommutes(s, HasOtherId(gone.id), InWorkflow(w));
  }

  lemma DeleteElsewhere(s: seq<ContextItem>, gone: ContextItem, w: WorkflowId)
    requires DistinctIds(s) && gone in s && gone.workflow != Some(w)
    ensures Filter(Filter(s, HasOtherId(gone.id)), InWorkflow(w)) == Filter(s, InWorkflow(w))
  {
    FilterCommutes(s, HasOtherId(gone.id), InWorkflow(w));
    var here := Filter(s, InWorkflow(w));
    forall i | i in here
      ensures HasOtherId(gone.id)(i)
    {
      FilterMember(s, InWorkflow(w), i);
      if i.id == gone.id {
        SameIdSameItem(s, i, gone);
      }
    }
    FilterAll(here, HasOtherId(gone.id));
  }

  /** Deleting the item `gone` changes the index of its own workflow only, by one removal. */
  lemma DeleteFits(byWorkflow: map<WorkflowId, seq<ItemId>>, log: seq<ContextItem>, gone: ContextItem)
    requires DistinctIds(log) && IndexFits(byWorkflow, log) && gone in log
    ensures IndexFits(IndexAfterDelete(byWorkflow, gone), Filter(log, HasOtherId(gone.id)))
  {
    forall w: WorkflowId
      ensures IndexFitsAt(IndexAfterDelete(byWorkflow, gone), Filter(log, HasOtherId(gone.id)), w)
    {
      assert IndexFitsAt(byWorkflow, log, w);
      if gone.workflow == Some(w) && w.text != "" {
        DeleteHere(log, gone, w);
        FilterMember(log, InWorkflow(w), gone);
        assert w in byWorkflow;
      } else if w.text != "" {
        DeleteElsewhere(log, gone, w);
      }
    }
  }

  function IndexAfterAdd(byWorkflow: map<WorkflowId, seq<ItemId>>, item: ContextItem): map<WorkflowId, seq<ItemId>> {
    if item.workflow.Some? && item.workflow.value.text != "" then
      var w := item.workflow.value;
      byWorkflow[w := Indexed(byWorkflow, w) + [item.id]]
    else byWorkflow
  }

  lemma AddFitsAt(byWorkflow: map<WorkflowId, seq<ItemId>>, log: seq<ContextItem>, item: ContextItem, w: WorkflowId)
    requires IndexFitsAt(byWorkflow, log, w)
    ensures IndexFitsAt(IndexAfterAdd(byWorkflow, item), log + [item], w)
  {
    FilterAppend(log, [item], InWorkflow(w));
    FilterOne(item, InWorkflow(w));
    if item.workflow == Some(w) {
      IdsAppend(Filter(log, InWorkflow(w)), [item]);
    } else {
      IdsAppend(Filter(log, InWorkflow(w)), []);
    }
  }

  lemma AddFits(byWorkflow: map<WorkflowId, seq<ItemId>>, log: seq<ContextItem>, item: ContextItem)
    requires IndexFits(byWorkflow, log)
    ensures IndexFits(IndexAfterAdd(byWorkflow, item), log + [item])
  {
    forall w: WorkflowId
      ensures IndexFitsAt(IndexAfterAdd(byWorkflow, item), log + [item], w)
    {
      assert IndexFitsAt(byWorkflow, log, w);
      AddFitsAt(byWorkflow, log, item, w);
    }
  }

  lemma ClearFits(byWorkflow: map<WorkflowId, seq<ItemId>>, log: seq<ContextItem>, w: WorkflowId)
    requires IndexFits(byWorkflow, log) && w.text != ""
    ensures IndexFits(byWorkflow - {w}, Filter(log, NotInWorkflow(w)))
  {
    forall v: WorkflowId
      ensures IndexFitsAt(byWorkflow - {w}, Filter(log, NotInWorkflow(w)), v)
    {
      assert IndexFitsAt(byWorkflow, log, v);
      FilterCommutes(log, NotInWorkflow(w), InWorkflow(v));
      FilterMembers(log, InWorkflow(v));
      if v == w {
        FilterNone(Filter(log, InWorkflow(v)), NotInWorkflow(w));
      } else {
        FilterAll(Filter(log, InWorkflow(v)), NotInWorkflow(w));
      }
    }
  }

  lemma FreshDistinct(log: seq<ContextItem>, item: ContextItem)
    requires DistinctIds(log) && item.id !in Contents(log)
    ensures DistinctIds(log + [item])
  {
    var all := log + [item];
    forall i, j | 0 <= i < j < |all|
      ensures !Clash(all, i, j)
    {
      if j == |log| {
        assert log[i] in log;
      } else {
        assert !Clash(log, i, j);
      }
    }
  }

  lemma DictionaryAdd(log: seq<ContextItem>, item: ContextItem)
    ensures Dictionary(log + [item]) == Dictionary(log)[item.id := item]
  {
    assert (log + [item])[..|log|] == log;
  }

  lemma MinusUpdate<K, V>(m: map<K, V>, k: K, v: V, gone: set<K>)
    ensures m[k := v] - gone == if k in gone then m - gone else (m - gone)[k := v]
  {
  }

  lemma FilterLast(log: seq<ContextItem>, p: ContextItem -> bool)
    requires log != []
    ensures var front, last := log[..|log| - 1], log[|log| - 1];
      Filter(log, p) == if p(last) then Filter(front, p) + [last] else Filter(front, p)
  {
    var front, last := log[..|log| - 1], log[|log| - 1];
    assert log == front + [last];
    FilterAppend(front, [last], p);
  }

  lemma {:induction false} DictionaryFilter(log: seq<ContextItem>, p: ContextItem -> bool, gone: set<ItemId>)
    requires forall i :: i in log ==> (p(i) <==> i.id !in gone)
    ensures Dictionary(Filter(log, p)) == Dictionary(log) - gone
  {
    if log != [] {
      var front, last := log[..|log| - 1], log[|log| - 1];
      DictionaryFilter(front, p, gone);
      FilterLast(log, p);
      DictionaryAdd(Filter(front, p), last);
      MinusUpdate(Dictionary(front), last.id, last, gone);
    }
  }

  lemma DictionaryClear(log: seq<ContextItem>, w: WorkflowId)
    requires DistinctIds(log)
    ensures Dictionary(Filter(log, NotInWorkflow(w))) == Dictionary(log) - Members(Ids(Filter(log, InWorkflow(w))))
  {
    var here := Filter(log, InWorkflow(w));
    forall i | i in log
      ensures NotInWorkflow(w)(i) <==> i.id !in Members(Ids(here))
    {
      FilterMember(log, InWorkflow(w), i);
      if i.id in Members(Ids(here)) {
        var j :| 0 <= j < |here| && Ids(here)[j] == i.id;
        FilterMember(log, InWorkflow(w), here[j]);
        SameIdSameItem(log, here[j], i);
      }
      if i in here {
        var j :| 0 <= j < |here| && here[j] == i;
        assert Ids(here)[j] == i.id;
      }
    }
    DictionaryFilter(log, NotInWorkflow(w), Members(Ids(here)));
  }

  function Contents(log: seq<ContextItem>): set<ItemId> { set i | i in log :: i.id }

  lemma LookupWorkflow(log: seq<ContextItem>, w: WorkflowId)
    requires DistinctIds(log)
    ensures Lookup(Ids(Filter(log, InWorkflow(w))), Dictionary(log)) == Filter(log, InWorkflow(w))
  {
    var here := Filter(log, InWorkflow(w));
    forall i | i in here
      ensures i.id in Dictionary(log) && Dictionary(log)[i.id] == i
    {
      FilterMember(log, InWorkflow(w), i);
      DictionaryHolds(log, i);
    }
    LookupIds(here, Dictionary(log));
  }

  lemma {:induction false} LookupAppend(a: seq<ItemId>, b: seq<ItemId>, items: map<ItemId, ContextItem>)
    ensures Lookup(a + b, items) == Lookup(a, items) + Lookup(b, items)
  {
    if a == [] {
      assert a + b == b;
    } else {
      assert (a + b)[1..] == a[1..] + b;
      LookupAppend(a[1..], b, items);
    }
  }

  lemma {:induction false} LookupFinds(ids: seq<ItemId>, items: map<ItemId, ContextItem>, id: ItemId)
    requires id in ids && id in items
    ensures items[id] in Lookup(ids, items)
  {
    if ids[0] != id {
      LookupFinds(ids[1..], items, id);
    }
  }

  /** Adding an item whose id its workflow has already makes `list_for_workflow` return it twice. */
  lemma StoredIdListedTwice(
      byWorkflow: map<WorkflowId, seq<ItemId>>, log: seq<ContextItem>, item: ContextItem, w: WorkflowId)
    requires IndexFits(byWorkflow, log) && w.text != "" && item.workflow == Some(w)
    requires exists i :: i in log && i.id == item.id && i.workflow == Some(w)
    ensures var items := Dictionary(log)[item.id := item];
      var before := Lookup(Indexed(byWorkflow, w), items);
      item in before && Lookup(Indexed(IndexAfterAdd(byWorkflow, item), w), items) == before + [item]
  {
    var items, ids := Dictionary(log)[item.id := item], Indexed(byWorkflow, w);
    assert IndexFitsAt(byWorkflow, log, w);
    var i :| i in log && i.id == item.id && i.workflow == Some(w);
    var here := Filter(log, InWorkflow(w));
    FilterMember(log, InWorkflow(w), i);
    var k :| 0 <= k < |here| && here[k] == i;
    assert Ids(here)[k] == item.id;
    LookupFinds(ids, items, item.id);
    LookupAppend(ids, [item.id], items);
    assert Lookup([item.id], items) == [item];
  }

  class ContextStore {
    var items: map<ItemId, ContextItem>
    var byWorkflow: map<WorkflowId, seq<ItemId>>
    ghost var log: seq<ContextItem>

    ghost predicate Valid()
      reads this
    {
      DistinctIds(log) && items == Dictionary(log) && IndexFits(byWorkflow, log)
    }

    constructor ()
      ensures Valid() && log == []
    {
      items, byWorkflow, log := map[], map[], [];
    }

    /** A fresh id is appended to the log. One that is stored replaces the item in the dictionary and is
        indexed once more, after which the store is no log (`StoredIdListedTwice`). */
    method Add(item: ContextItem)
      requires Valid()
      modifies this
      ensures items == old(items)[item.id := item] && byWorkflow == IndexAfterAdd(old(byWorkflow), item)
      ensures item.id !in old(items) ==> Valid() && log == Apply(old(log), Op.Add(item))
    {
      if item.id !in items {
        DictionaryAdd(log, item);
        DictionaryKeys(log, item.id);
        FreshDistinct(log, item);
        AddFits(byWorkflow, log, item);
      }
      items := items[item.id := item];
      if item.workflow.Some? && item.workflow.value.text != "" {
        var w := item.workflow.value;
        byWorkflow := byWorkflow[w := Indexed(byWorkflow, w) + [item.id]];
      }
      log := log + [item];
    }

    function ListForWorkflow(w: WorkflowId, kind: Option<ContextType>): (r: seq<ContextItem>)
      requires Valid()
      reads this
      ensures r == Listed(log, w, kind)
      ensures DistinctIds(r)
    {
      var found := Lookup(Indexed(byWorkflow, w), items);
      assert found == Listed(log, w, None) by {
        assert IndexFitsAt(byWorkflow, log, w);
        LookupWorkflow(log, w);
      }
      FilterDistinct(log, InWorkflow(w));
      if kind.Some? then
        FilterDistinct(found, HasKind(kind.value));
        Filter(found, HasKind(kind.value))
      else found
    }

    function TotalTokensOf(w: WorkflowId): (n: nat)
      requires Valid()
      reads this
      ensures n == TotalTokens(Listed(log, w, None))
    {
      TotalTokens(ListForWorkflow(w, None))
    }

    method Delete(id: ItemId) returns (found: bool)
      requires Valid()
      modifies this
      ensures Valid() && log == Apply(old(log), Op.Delete(id)) && found == (id in Contents(old(log)))
    {
      DictionaryFilter(log, HasOtherId(id), {id});
      DictionaryKeys(log, id);
      FilterDistinct(log, HasOtherId(id));
      if id !in items {
        FilterAll(log, HasOtherId(id));
        return false;
      }
      var item := items[id];
      DeleteFits(byWorkflow, log, item);
      items := items - {id};
      if item.workflow.Some? && item.workflow.value.text != "" && item.workflow.value in byWorkflow {
        var w := item.workflow.value;
        byWorkflow := byWorkflow[w := RemoveFirst(byWorkflow[w], id)];
      }
      log := Filter(log, HasOtherId(id));
      return true;
    }

    method ClearWorkflow(w: WorkflowId) returns (removed: nat)
      requires Valid()
      modifies this
      ensures Valid() && log == Apply(old(log), Op.Clear(w)) && removed == |Listed(old(log), w, None)|
    {
      assert IndexFitsAt(byWorkflow, log, w);
      var ids := Indexed(byWorkflow, w);
      ClearAll(byWorkflow, log, w);
      byWorkflow := byWorkflow - {w};
      PopAll(ids);
      log := Apply(log, Op.Clear(w));
      return |ids|;
    }

    method PopAll(ids: seq<ItemId>)
      modifies this`items
      ensures items == old(items) - Members(ids)
    {
      var k := 0;
      while k < |ids|
        invariant 0 <= k <= |ids|
        invariant items == old(items) - Members(ids[..k])
      {
        assert Members(ids[..k + 1]) == Members(ids[..k]) + {ids[k]};
        items := items - {ids[k]};
        k := k + 1;
      }
      assert ids[..k] == ids;
    }
  }

  lemma ClearAll(byWorkflow: map<WorkflowId, seq<ItemId>>, log: seq<ContextItem>, w: WorkflowId)
    requires DistinctIds(log) && IndexFits(byWorkflow, log)
    ensures var after := Apply(log, Op.Clear(w));
      && DistinctIds(after) && IndexFits(byWorkflow - {w}, after)
      && Dictionary(after) == Dictionary(log) - Members(Indexed(byWorkflow, w))
      && |Indexed(byWorkflow, w)| == |Listed(log, w, None)|
  {
    assert IndexFitsAt(byWorkflow, log, w);
    if w.text == "" {
      assert byWorkflow - {w} == byWorkflow;
      assert Dictionary(log) - Members([]) == Dictionary(log);
    } else {
      ClearFits(byWorkflow, log, w);
      DictionaryClear(log, w);
      FilterDistinct(log, NotInWorkflow(w));
    }
  }
}
