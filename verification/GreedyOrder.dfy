/** What the packer's choice looks like from the unordered items: which positions it takes, and why. Used to
    say what each policy means without its sort key. */
module GreedyOrder {
  import opened Seqs
  import opened Packing

  // ---- Items at positions ----

  /** The items at the positions of `taken`. */
  function At<T>(items: seq<T>, taken: set<nat>): seq<T> {
    if items == [] then []
    else
      var n := |items| - 1;
      At(items[..n], taken) + if n in taken then [items[n]] else []
  }

  /** What the items at the positions with `q` cost together. */
  function CostWhere<T>(items: seq<T>, cost: T -> pos, q: nat -> bool): nat {
    if items == [] then 0
    else
      var n := |items| - 1;
      CostWhere(items[..n], cost, q) + if q(n) then cost(items[n]) else 0
  }

  function TakenSooner(taken: set<nat>, sooner: (nat, nat) -> bool, j: nat): nat -> bool {
    (i: nat) => i in taken && sooner(i, j)
  }

  /** A position is taken if and only if its item fits what the taken ones that come sooner leave over. */
  ghost predicate TakenInTurn<T>(
    items: seq<T>, cost: T -> pos, budget: int, taken: set<nat>, sooner: (nat, nat) -> bool)
  {
    && (forall i :: i in taken ==> i < |items|)
    && (forall j {:trigger j in taken} :: 0 <= j < |items| ==>
          (j in taken <==> cost(items[j]) + CostWhere(items, cost, TakenSooner(taken, sooner, j)) <= budget))
  }

  /** The selected items are those at positions taken in turn; the others are discarded. */
  ghost predicate Explains<T>(
    p: Packed<T>, items: seq<T>, cost: T -> pos, budget: int, taken: set<nat>, sooner: (nat, nat) -> bool)
  {
    && TakenInTurn(items, cost, budget, taken, sooner)
    && multiset(p.selected) == multiset(At(items, taken))
    && multiset(p.selected) + multiset(p.discarded) == multiset(items)
  }

  /** Sooner is a smaller key, or the same key and an earlier position. */
  ghost predicate BySooner<T>(items: seq<T>, key: T -> real, sooner: (nat, nat) -> bool) {
    forall i, j {:trigger sooner(i, j)} :: 0 <= i < |items| && 0 <= j < |items| ==>
      (sooner(i, j) <==> key(items[i]) < key(items[j]) || (key(items[i]) == key(items[j]) && i < j))
  }

  lemma {:induction false} CostWhereAgree<T(!new)>(items: seq<T>, cost: T -> pos, q: nat -> bool, q': nat -> bool)
    requires forall i :: 0 <= i < |items| ==> q(i) == q'(i)
    ensures CostWhere(items, cost, q) == CostWhere(items, cost, q')
  {
    if items != [] {
      CostWhereAgree(items[..|items| - 1], cost, q, q');
    }
  }

  lemma {:induction false} CostWithout<T(!new)>(items: seq<T>, cost: T -> pos, q: nat -> bool, q': nat -> bool, m: nat)
    requires m < |items| && q(m) && forall i :: 0 <= i < |items| ==> q'(i) == (q(i) && i != m)
    ensures CostWhere(items, cost, q) == CostWhere(items, cost, q') + cost(items[m])
  {
    var n := |items| - 1;
    if m == n {
      CostWhereAgree(items[..n], cost, q, q');
    } else {
      CostWithout(items[..n], cost, q, q', m);
    }
  }

  lemma {:induction false} NoCost<T(!new)>(items: seq<T>, cost: T -> pos, q: nat -> bool)
    requires forall i :: 0 <= i < |items| ==> !q(i)
    ensures CostWhere(items, cost, q) == 0
  {
    if items != [] {
      NoCost(items[..|items| - 1], cost, q);
    }
  }

  lemma AtLast<T(!new)>(items: seq<T>, taken: set<nat>)
    requires items != []
    ensures var n := |items| - 1;
      multiset(At(items, taken))
        == multiset(At(items[..n], taken)) + if n in taken then multiset{items[n]} else multiset{}
  {
  }

  lemma {:induction false} AtWithout<T(!new)>(items: seq<T>, taken: set<nat>, m: nat)
    requires m < |items| && m in taken
    ensures multiset(At(items, taken)) == multiset(At(items, taken - {m})) + multiset{items[m]}
  {
    var n := |items| - 1;
    AtLast(items, taken);
    AtLast(items, taken - {m});
    if m == n {
      AtAgree(items[..n], taken, taken - {m});
    } else {
      AtWithout(items[..n], taken, m);
    }
  }

  lemma {:induction false} AtAgree<T(!new)>(items: seq<T>, a: set<nat>, b: set<nat>)
    requires forall i :: 0 <= i < |items| ==> (i in a <==> i in b)
    ensures At(items, a) == At(items, b)
  {
    if items != [] {
      AtAgree(items[..|items| - 1], a, b);
    }
  }

  lemma {:induction false} AtNothing<T(!new)>(items: seq<T>)
    ensures At(items, {}) == []
  {
    if items != [] {
      AtNothing(items[..|items| - 1]);
    }
  }

  // ---- Items with their positions ----

  datatype Placed<T> = Placed(item: T, at: nat)

  function ItemOf<T>(): Placed<T> -> T { (x: Placed<T>) => x.item }

  function PlacedKey<T>(key: T -> real): Placed<T> -> real { (x: Placed<T>) => key(x.item) }

  function PlacedCost<T>(cost: T -> pos): Placed<T> -> pos { (x: Placed<T>) => cost(x.item) }

  function Place<T>(items: seq<T>): (placed: seq<Placed<T>>)
    ensures |placed| == |items| && forall i :: 0 <= i < |items| ==> placed[i] == Placed(items[i], i)
  {
    seq(|items|, i requires 0 <= i < |items| => Placed(items[i], i))
  }

  predicate Before<T>(key: T -> real, x: Placed<T>, y: Placed<T>) {
    key(x.item) < key(y.item) || (key(x.item) == key(y.item) && x.at < y.at)
  }

  ghost predicate Ordered<T>(s: seq<Placed<T>>, key: T -> real) {
    s != [] ==> (forall y :: y in s[1..] ==> Before(key, s[0], y)) && Ordered(s[1..], key)
  }

  lemma InsertMembers<T(!new)>(x: T, s: seq<T>, key: T -> real, y: T)
    ensures y in Insert(x, s, key) <==> y == x || y in s
  {
    InsertPermutes(x, s, key);
    assert y in Insert(x, s, key) <==> y in multiset(Insert(x, s, key));
  }

  lemma {:induction false} InsertOrders<T(!new)>(x: Placed<T>, s: seq<Placed<T>>, key: T -> real)
    requires Ordered(s, key) && forall y :: y in s ==> x.at < y.at
    ensures Ordered(Insert(x, s, PlacedKey(key)), key)
  {
    var k := PlacedKey(key);
    if s != [] {
      assert s[0] in s && s == [s[0]] + s[1..];
      if k(x) <= k(s[0]) {
        assert ([x] + s)[1..] == s;
      } else {
        var rest := Insert(x, s[1..], k);
        InsertOrders(x, s[1..], key);
        assert ([s[0]] + rest)[1..] == rest;
        forall y | y in rest
          ensures Before(key, s[0], y)
        {
          InsertMembers(x, s[1..], k, y);
        }
      }
    }
  }

  lemma {:induction false} SortOrders<T(!new)>(s: seq<Placed<T>>, key: T -> real)
    requires forall i, j :: 0 <= i < j < |s| ==> s[i].at < s[j].at
    ensures Ordered(StableSort(s, PlacedKey(key)), key)
  {
    if s != [] {
      var rest := StableSort(s[1..], PlacedKey(key));
      SortOrders(s[1..], key);
      StableSortSorts(s[1..], PlacedKey(key));
      forall y | y in rest
        ensures s[0].at < y.at
      {
        assert y in multiset(s[1..]);
        var i :| 0 <= i < |s[1..]| && s[1..][i] == y;
        assert s[i + 1] == y;
      }
      InsertOrders(s[0], rest, key);
    }
  }

  /** What comes before and after an item of an ordered sequence. */
  lemma {:induction false} OrderedAround<T(!new)>(s: seq<Placed<T>>, key: T -> real, k: nat)
    requires k < |s| && Ordered(s, key)
    ensures forall y :: y in s[..k] ==> Before(key, y, s[k])
    ensures forall y :: y in s[k + 1..] ==> Before(key, s[k], y)
  {
    if k > 0 {
      OrderedAround(s[1..], key, k - 1);
      assert s[1..][k - 1] == s[k] && s[k] in s[1..];
      assert s[..k] == [s[0]] + s[1..][..k - 1];
    }
  }

  // ---- The walk, split at one item ----

  lemma {:induction false} PackSplit<T(!new)>(a: seq<T>, b: seq<T>, cost: T -> pos, budget: int)
    ensures var first := Pack(a, cost, budget);
      var second := Pack(b, cost, budget - Spent(first.selected, cost));
      Pack(a + b, cost, budget) == Packed(first.selected + second.selected, first.discarded + second.discarded)
  {
    if a == [] {
      assert a + b == b;
    } else {
      assert (a + b)[1..] == a[1..] + b;
      PackSplit(a[1..], b, cost, if cost(a[0]) <= budget then budget - cost(a[0]) else budget);
    }
  }

  lemma PackMembers<T(!new)>(ordered: seq<T>, cost: T -> pos, budget: int)
    ensures var p := Pack(ordered, cost, budget);
      forall x :: x in ordered <==> x in p.selected || x in p.discarded
  {
    var p := Pack(ordered, cost, budget);
    PackPartitions(ordered, cost, budget);
    forall x
      ensures x in ordered <==> x in p.selected || x in p.discarded
    {
      assert x in multiset(ordered) <==> x in multiset(p.selected) || x in multiset(p.discarded);
    }
  }

  /** What an item leaves over. */
  function Left(budget: int, c: pos): int {
    if c <= budget then budget - c else budget
  }

  lemma PackCons<T(!new)>(x: T, behind: seq<T>, cost: T -> pos, budget: int)
    ensures var rest := Pack(behind, cost, Left(budget, cost(x))).selected;
      Pack([x] + behind, cost, budget).selected == if cost(x) <= budget then [x] + rest else rest
  {
    assert ([x] + behind)[1..] == behind;
  }

  /** What is selected, seen from one item of the order. */
  lemma SelectedAround<T(!new)>(front: seq<T>, x: T, behind: seq<T>, cost: T -> pos, budget: int)
    ensures var before := Pack(front, cost, budget).selected;
      var left := budget - Spent(before, cost);
      var after := Pack(behind, cost, Left(left, cost(x))).selected;
      && Pack(front + [x] + behind, cost, budget).selected
         == before + (if cost(x) <= left then [x] else []) + after
      && (forall y :: y in before ==> y in front)
      && (forall y :: y in after ==> y in behind)
  {
    assert front + [x] + behind == front + ([x] + behind);
    PackSplit(front, [x] + behind, cost, budget);
    var left := budget - Spent(Pack(front, cost, budget).selected, cost);
    PackCons(x, behind, cost, left);
    SelectedFit(front, cost, budget);
    SelectedFit(behind, cost, Left(left, cost(x)));
  }

  /** In such an order an item is selected if and only if it fits what the selected ones before it leave
      over, and those are the selected ones of the part before it. */
  lemma SelectedAt<T(!new)>(ordered: seq<Placed<T>>, key: T -> real, cost: Placed<T> -> pos, budget: int, k: nat)
    requires k < |ordered| && Ordered(ordered, key)
    ensures var p, before := Pack(ordered, cost, budget).selected, Pack(ordered[..k], cost, budget).selected;
      && (ordered[k] in p <==> cost(ordered[k]) + Spent(before, cost) <= budget)
      && (forall x :: x in before <==> x in p && Before(key, x, ordered[k]))
  {
    var front, x, behind := ordered[..k], ordered[k], ordered[k + 1..];
    assert ordered == front + [x] + behind;
    SelectedAround(front, x, behind, cost, budget);
    OrderedAround(ordered, key, k);
    var before := Pack(front, cost, budget).selected;
    var left := budget - Spent(before, cost);
    PiecesAround(key, x, before, if cost(x) <= left then [x] else [], Pack(behind, cost, Left(left, cost(x))).selected);
  }

  /** The pieces of a selection that lie before and after an item. */
  lemma PiecesAround<T(!new)>(
      key: T -> real, x: Placed<T>, before: seq<Placed<T>>, mid: seq<Placed<T>>, after: seq<Placed<T>>)
    requires (forall y :: y in before ==> Before(key, y, x)) && (forall y :: y in after ==> Before(key, x, y))
    requires mid == [] || mid == [x]
    ensures x in before + mid + after <==> mid == [x]
    ensures forall y :: y in before <==> y in before + mid + after && Before(key, y, x)
  {
    forall y
      ensures y in before <==> y in before + mid + after && Before(key, y, x)
    {
      assert y in before + mid + after <==> y in before || y in mid || y in after;
    }
    assert x in before + mid + after <==> x in before || x in mid || x in after;
  }

  lemma {:induction false} SelectedOrdered<T(!new)>(
      ordered: seq<Placed<T>>, key: T -> real, cost: Placed<T> -> pos, budget: int)
    requires Ordered(ordered, key)
    ensures Ordered(Pack(ordered, cost, budget).selected, key)
  {
    if ordered != [] {
      var x, behind := ordered[0], ordered[1..];
      var left := Left(budget, cost(x));
      var rest := Pack(behind, cost, left).selected;
      assert ordered == [x] + behind && ([x] + rest)[1..] == rest;
      SelectedOrdered(behind, key, cost, left);
      PackMembers(behind, cost, left);
      PackCons(x, behind, cost, budget);
    }
  }

  // ---- From items with positions to positions ----

  ghost function Positions<T>(s: seq<Placed<T>>): set<nat> {
    set x | x in s :: x.at
  }

  /** Each item is the one at its position. */
  ghost predicate PlacedIn<T>(s: seq<Placed<T>>, items: seq<T>) {
    forall x :: x in s ==> x.at < |items| && x.item == items[x.at]
  }

  lemma PlacedTail<T(!new)>(s: seq<Placed<T>>, items: seq<T>, key: T -> real)
    requires s != [] && PlacedIn(s, items) && Ordered(s, key)
    ensures PlacedIn(s[1..], items) && Positions(s[1..]) == Positions(s) - {s[0].at}
    ensures s[0].at in Positions(s) && s[0].at < |items| && s[0].item == items[s[0].at]
  {
    assert s[0] in s && s == [s[0]] + s[1..];
    assert forall x :: x in s <==> x == s[0] || x in s[1..];
    forall x | x in s[1..]
      ensures x.at != s[0].at
    {
      assert Before(key, s[0], x);
    }
  }

  lemma {:induction false} PlacedCostIs<T(!new)>(
      s: seq<Placed<T>>, items: seq<T>, key: T -> real, cost: T -> pos, q: nat -> bool)
    requires PlacedIn(s, items) && Ordered(s, key)
    requires forall i :: 0 <= i < |items| ==> (q(i) <==> i in Positions(s))
    ensures Spent(s, PlacedCost(cost)) == CostWhere(items, cost, q)
  {
    if s == [] {
      NoCost(items, cost, q);
    } else {
      PlacedTail(s, items, key);
      var m := s[0].at;
      var q' := (i: nat) => q(i) && i != m;
      PlacedCostIs(s[1..], items, key, cost, q');
      CostWithout(items, cost, q, q', m);
    }
  }

  lemma {:induction false} PlacedItems<T(!new)>(s: seq<Placed<T>>, items: seq<T>, key: T -> real)
    requires PlacedIn(s, items) && Ordered(s, key)
    ensures multiset(Map(s, ItemOf())) == multiset(At(items, Positions(s)))
  {
    if s == [] {
      AtNothing(items);
      assert Positions(s) == {};
    } else {
      PlacedTail(s, items, key);
      PlacedItems(s[1..], items, key);
      AtWithout(items, Positions(s), s[0].at);
      assert Map(s, ItemOf()) == [s[0].item] + Map(s[1..], ItemOf());
    }
  }

  // ---- The choice, explained ----

  /** The packer's walk over the sorted items, on items with their positions. */
  function PlacedPack<T>(items: seq<T>, key: T -> real, cost: T -> pos, budget: int): Packed<Placed<T>> {
    Pack(StableSort(Place(items), PlacedKey(key)), PlacedCost(cost), budget)
  }

  lemma PlacedPackIs<T(!new)>(items: seq<T>, key: T -> real, cost: T -> pos, budget: int)
    ensures var p := PlacedPack(items, key, cost, budget);
      Pack(StableSort(items, key), cost, budget) == Packed(Map(p.selected, ItemOf()), Map(p.discarded, ItemOf()))
  {
    assert Map(Place(items), ItemOf()) == items;
    StableSortMap(Place(items), ItemOf(), PlacedKey(key), key);
    PackMap(StableSort(Place(items), PlacedKey(key)), ItemOf(), PlacedCost(cost), cost, budget);
  }

  lemma PlacedSorted<T(!new)>(items: seq<T>, key: T -> real, cost: T -> pos, budget: int)
    ensures var ordered := StableSort(Place(items), PlacedKey(key));
      && Ordered(ordered, key)
      && (forall x :: x in ordered <==> x.at < |items| && x.item == items[x.at])
  {
    var placed := Place(items);
    var ordered := StableSort(placed, PlacedKey(key));
    SortOrders(placed, key);
    StableSortSorts(placed, PlacedKey(key));
    forall x
      ensures x in ordered <==> x.at < |items| && x.item == items[x.at]
    {
      assert x in multiset(ordered) <==> x in multiset(placed);
      assert x.at < |items| ==> placed[x.at] in placed;
    }
  }

  lemma PositionIn<T(!new)>(s: seq<Placed<T>>, items: seq<T>, i: nat)
    requires PlacedIn(s, items) && i < |items|
    ensures i in Positions(s) <==> Placed(items[i], i) in s
  {
    assert Placed(items[i], i).at == i;
  }

  /** The selected ones before position `j`. */
  lemma TakenBefore<T(!new)>(
      items: seq<T>, key: T -> real, cost: T -> pos, budget: int, j: nat, before: seq<Placed<T>>, q: nat -> bool)
    requires j < |items| && PlacedIn(before, items) && Ordered(before, key)
    requires var p := PlacedPack(items, key, cost, budget).selected;
      && PlacedIn(p, items)
      && (forall x :: x in before <==> x in p && Before(key, x, Placed(items[j], j)))
      && forall i :: 0 <= i < |items| ==>
           (q(i) <==> i in Positions(p) && Before(key, Placed(items[i], i), Placed(items[j], j)))
    ensures Spent(before, PlacedCost(cost)) == CostWhere(items, cost, q)
  {
    forall i | 0 <= i < |items|
      ensures q(i) <==> i in Positions(before)
    {
      PositionIn(before, items, i);
      PositionIn(PlacedPack(items, key, cost, budget).selected, items, i);
    }
    PlacedCostIs(before, items, key, cost, q);
  }

  /** Whether position `j` is taken. */
  lemma TakenAt<T(!new)>(items: seq<T>, key: T -> real, cost: T -> pos, budget: int, j: nat, q: nat -> bool)
    requires j < |items|
    requires var taken := Positions(PlacedPack(items, key, cost, budget).selected);
      forall i :: 0 <= i < |items| ==>
        (q(i) <==> i in taken && Before(key, Placed(items[i], i), Placed(items[j], j)))
    ensures j in Positions(PlacedPack(items, key, cost, budget).selected) <==>
      cost(items[j]) + CostWhere(items, cost, q) <= budget
  {
    var ordered, c := StableSort(Place(items), PlacedKey(key)), PlacedCost(cost);
    var p := PlacedPack(items, key, cost, budget).selected;
    PlacedSorted(items, key, cost, budget);
    PackMembers(ordered, c, budget);
    var x := Placed(items[j], j);
    assert x in ordered;
    var k :| 0 <= k < |ordered| && ordered[k] == x;
    var before := Pack(ordered[..k], c, budget).selected;
    SelectedAt(ordered, key, c, budget, k);
    OrderedPrefix(ordered, key, k);
    SelectedOrdered(ordered[..k], key, c, budget);
    TakenBefore(items, key, cost, budget, j, before, q);
    PositionIn(p, items, j);
  }

  lemma {:induction false} OrderedPrefix<T(!new)>(s: seq<Placed<T>>, key: T -> real, k: nat)
    requires k <= |s| && Ordered(s, key)
    ensures Ordered(s[..k], key)
  {
    if k > 0 {
      OrderedPrefix(s[1..], key, k - 1);
      assert s[..k][1..] == s[1..][..k - 1];
    }
  }

  /** The packer's choice from items sorted by a key. */
  lemma GreedyExplained<T(!new)>(
      items: seq<T>, key: T -> real, cost: T -> pos, budget: int, sooner: (nat, nat) -> bool)
      returns (taken: set<nat>)
    requires BySooner(items, key, sooner)
    ensures Explains(Pack(StableSort(items, key), cost, budget), items, cost, budget, taken, sooner)
  {
    taken := Positions(PlacedPack(items, key, cost, budget).selected);
    TakenItems(items, key, cost, budget);
    StableSortSorts(items, key);
    PackPartitions(StableSort(items, key), cost, budget);
    forall j {:trigger j in taken} | 0 <= j < |items|
      ensures j in taken <==> cost(items[j]) + CostWhere(items, cost, TakenSooner(taken, sooner, j)) <= budget
    {
      TakenAt(items, key, cost, budget, j, TakenSooner(taken, sooner, j));
    }
  }

  lemma TakenItems<T(!new)>(items: seq<T>, key: T -> real, cost: T -> pos, budget: int)
    ensures var taken := Positions(PlacedPack(items, key, cost, budget).selected);
      && (forall i :: i in taken ==> i < |items|)
      && multiset(Pack(StableSort(items, key), cost, budget).selected) == multiset(At(items, taken))
  {
    var ordered := StableSort(Place(items), PlacedKey(key));
    PlacedPackIs(items, key, cost, budget);
    PlacedSorted(items, key, cost, budget);
    PackMembers(ordered, PlacedCost(cost), budget);
    SelectedOrdered(ordered, key, PlacedCost(cost), budget);
    PlacedItems(PlacedPack(items, key, cost, budget).selected, items, key);
  }

  // ---- There is one explanation ----

  lemma {:induction false} Soonest<T(!new)>(s: set<nat>, items: seq<T>, key: T -> real, sooner: (nat, nat) -> bool)
      returns (m: nat)
    requires BySooner(items, key, sooner) && s != {} && forall i :: i in s ==> i < |items|
    ensures m in s && forall i :: i in s ==> !sooner(i, m)
    decreases s
  {
    var x :| x in s;
    var rest := s - {x};
    assert forall i :: i in s <==> i == x || i in rest;
    if rest == {} {
      m := x;
    } else {
      m := Soonest(rest, items, key, sooner);
      if sooner(x, m) {
        m := x;
      }
    }
  }

  lemma SameAt<T(!new)>(
      items: seq<T>, cost: T -> pos, budget: int, a: set<nat>, b: set<nat>, sooner: (nat, nat) -> bool, m: nat)
    requires TakenInTurn(items, cost, budget, a, sooner) && TakenInTurn(items, cost, budget, b, sooner)
    requires m < |items| && forall i :: i in (a - b) + (b - a) ==> !sooner(i, m)
    ensures m in a <==> m in b
  {
    var q, q' := TakenSooner(a, sooner, m), TakenSooner(b, sooner, m);
    forall i | 0 <= i < |items|
      ensures q(i) == q'(i)
    {
      assert i in (a - b) + (b - a) || (i in a <==> i in b);
    }
    CostWhereAgree(items, cost, q, q');
  }

  /** There is one way to take positions in turn. */
  lemma OneWay<T(!new)>(
      items: seq<T>, key: T -> real, cost: T -> pos, budget: int, a: set<nat>, b: set<nat>, sooner: (nat, nat) -> bool)
    requires BySooner(items, key, sooner)
    requires TakenInTurn(items, cost, budget, a, sooner) && TakenInTurn(items, cost, budget, b, sooner)
    ensures a == b
  {
    var differ := (a - b) + (b - a);
    if differ != {} {
      var m := Soonest(differ, items, key, sooner);
      SameAt(items, cost, budget, a, b, sooner, m);
    }
  }
}
