/** The greedy budget packer, on any kind of item. */
module Packing {
  // `Pack` of context/selection.py and memory/retrieval.py walks an already ordered sequence, taking each
  // item that still fits and skipping the rest.

  import opened Seqs

  type pos = n: nat | n > 0 witness 1

  datatype Packed<T> = Packed(selected: seq<T>, discarded: seq<T>)

  function Pack<T>(ordered: seq<T>, cost: T -> pos, budget: int): Packed<T> {
    if ordered == [] then Packed([], [])
    else if cost(ordered[0]) <= budget then
      var rest := Pack(ordered[1..], cost, budget - cost(ordered[0]));
      Packed([ordered[0]] + rest.selected, rest.discarded)
    else
      var rest := Pack(ordered[1..], cost, budget);
      Packed(rest.selected, [ordered[0]] + rest.discarded)
  }

  function Negated<T>(key: T -> real): T -> real { (x: T) => -key(x) }

  /** `sorted(items, key=key, reverse=reverse)`. Reversed, Python still keeps ties in their original
      order, which is an ascending stable sort by the negated key. */
  function Sorted<T>(items: seq<T>, key: T -> real, reverse: bool): seq<T> {
    StableSort(items, if reverse then Negated(key) else key)
  }

  function Spent<T>(items: seq<T>, cost: T -> pos): nat {
    if items == [] then 0 else cost(items[0]) + Spent(items[1..], cost)
  }

  lemma {:induction false} SpentAppend<T>(a: seq<T>, b: seq<T>, cost: T -> pos)
    ensures Spent(a + b, cost) == Spent(a, cost) + Spent(b, cost)
  {
    if a == [] {
      assert a + b == b;
    } else {
      assert (a + b)[1..] == a[1..] + b;
      SpentAppend(a[1..], b, cost);
    }
  }

  /** One step of the walk, seen from position `i`. */
  lemma PackStep<T>(ordered: seq<T>, i: nat, cost: T -> pos, budget: int)
    requires i < |ordered|
    ensures var item := ordered[i];
      Pack(ordered[i..], cost, budget) ==
        if cost(item) <= budget then
          var rest := Pack(ordered[i + 1..], cost, budget - cost(item));
          Packed([item] + rest.selected, rest.discarded)
        else
          var rest := Pack(ordered[i + 1..], cost, budget);
          Packed(rest.selected, [item] + rest.discarded)
  {
    assert ordered[i..][1..] == ordered[i + 1..];
  }

  /** Nothing is lost or invented, the selection fits any budget that is not negative, and no
      discarded item would fit in what the selection leaves over. */
  lemma {:induction false} PackPartitions<T>(ordered: seq<T>, cost: T -> pos, budget: int)
    ensures var p := Pack(ordered, cost, budget);
      && multiset(p.selected) + multiset(p.discarded) == multiset(ordered)
      && (budget >= 0 ==> Spent(p.selected, cost) <= budget)
      && (budget < 0 ==> p.selected == [])
      && forall d :: d in p.discarded ==> cost(d) > budget - Spent(p.selected, cost)
  {
    if ordered != [] {
      assert ordered == [ordered[0]] + ordered[1..];
      PackPartitions(ordered[1..], cost,
                     if cost(ordered[0]) <= budget then budget - cost(ordered[0]) else budget);
    }
  }

  /** A larger budget never selects fewer tokens, whichever items it selects. */
  lemma {:induction false} PackMonotone<T>(ordered: seq<T>, cost: T -> pos, less: int, more: int)
    requires less <= more
    ensures Spent(Pack(ordered, cost, less).selected, cost) <= Spent(Pack(ordered, cost, more).selected, cost)
  {
    if ordered != [] {
      var t := cost(ordered[0]);
      if t <= less {
        PackMonotone(ordered[1..], cost, less - t, more - t);
      } else if t <= more {
        // The larger budget takes an item that alone outweighs everything the smaller can take.
        PackPartitions(ordered, cost, less);
      } else {
        PackMonotone(ordered[1..], cost, less, more);
      }
    }
  }

  // ---- The selection as a subset, written as one Boolean per ordered item ----

  function Choose<T>(ordered: seq<T>, mask: seq<bool>): seq<T>
    requires |mask| == |ordered|
  {
    if ordered == [] then []
    else (if mask[0] then [ordered[0]] else []) + Choose(ordered[1..], mask[1..])
  }

  function Negate(mask: seq<bool>): (r: seq<bool>)
    ensures |r| == |mask|
    ensures forall i :: 0 <= i < |mask| ==> r[i] == !mask[i]
  {
    if mask == [] then [] else [!mask[0]] + Negate(mask[1..])
  }

  function GreedyMask<T>(ordered: seq<T>, cost: T -> pos, budget: int): (mask: seq<bool>)
    ensures |mask| == |ordered|
  {
    if ordered == [] then []
    else
      var take := cost(ordered[0]) <= budget;
      [take] + GreedyMask(ordered[1..], cost, if take then budget - cost(ordered[0]) else budget)
  }

  predicate Fits<T>(ordered: seq<T>, cost: T -> pos, budget: int, mask: seq<bool>) {
    |mask| == |ordered| && Spent(Choose(ordered, mask), cost) <= budget
  }

  /** `a` takes the first item on which the two subsets differ. */
  ghost predicate LexAbove(a: seq<bool>, b: seq<bool>) {
    exists i :: 0 <= i < |a| == |b| && a[..i] == b[..i] && a[i] && !b[i]
  }

  ghost predicate LexGreatestFit<T(!new)>(ordered: seq<T>, cost: T -> pos, budget: int, mask: seq<bool>) {
    && Fits(ordered, cost, budget, mask)
    && forall other :: Fits(ordered, cost, budget, other) && other != mask ==> LexAbove(mask, other)
  }

  lemma {:induction false} PackIsMask<T>(ordered: seq<T>, cost: T -> pos, budget: int)
    ensures var mask := GreedyMask(ordered, cost, budget);
      Pack(ordered, cost, budget) == Packed(Choose(ordered, mask), Choose(ordered, Negate(mask)))
  {
    if ordered != [] {
      var mask := GreedyMask(ordered, cost, budget);
      PackIsMask(ordered[1..], cost,
                 if cost(ordered[0]) <= budget then budget - cost(ordered[0]) else budget);
      assert Negate(mask)[1..] == Negate(mask[1..]);
    }
  }

  lemma LexCons(h: bool, a: seq<bool>, b: seq<bool>)
    requires LexAbove(a, b)
    ensures LexAbove([h] + a, [h] + b)
  {
    var i :| 0 <= i < |a| == |b| && a[..i] == b[..i] && a[i] && !b[i];
    assert ([h] + a)[..i + 1] == [h] + a[..i];
    assert ([h] + b)[..i + 1] == [h] + b[..i];
    assert ([h] + a)[i + 1] && !([h] + b)[i + 1];
  }

  lemma FitsTail<T>(ordered: seq<T>, cost: T -> pos, budget: int, mask: seq<bool>)
    requires ordered != [] && Fits(ordered, cost, budget, mask)
    ensures Fits(ordered[1..], cost, if mask[0] then budget - cost(ordered[0]) else budget, mask[1..])
    ensures mask[0] ==> cost(ordered[0]) <= budget
  {
    var tail := Choose(ordered[1..], mask[1..]);
    assert ([ordered[0]] + tail)[1..] == tail;
    assert [] + tail == tail;
  }

  lemma {:induction false} GreedyBeats<T>(ordered: seq<T>, cost: T -> pos, budget: int, other: seq<bool>)
    requires Fits(ordered, cost, budget, other) && other != GreedyMask(ordered, cost, budget)
    ensures LexAbove(GreedyMask(ordered, cost, budget), other)
  {
    var mask := GreedyMask(ordered, cost, budget);
    FitsTail(ordered, cost, budget, other);
    assert other == [other[0]] + other[1..];
    if mask[0] == other[0] {
      GreedyBeats(ordered[1..], cost, if mask[0] then budget - cost(ordered[0]) else budget, other[1..]);
      LexCons(mask[0], mask[1..], other[1..]);
    } else {
      assert mask[..0] == other[..0];
    }
  }

  lemma GreedyIsGreatest<T(!new)>(ordered: seq<T>, cost: T -> pos, budget: int)
    requires budget >= 0
    ensures LexGreatestFit(ordered, cost, budget, GreedyMask(ordered, cost, budget))
  {
    var greedy := GreedyMask(ordered, cost, budget);
    PackIsMask(ordered, cost, budget);
    PackPartitions(ordered, cost, budget);
    forall other | Fits(ordered, cost, budget, other) && other != greedy
      ensures LexAbove(greedy, other)
    {
      GreedyBeats(ordered, cost, budget, other);
    }
  }

  /** Exactly one subset is lexicographically greatest among those that fit, and it is the one the
      packer selects. */
  lemma PackIsLexGreatest<T(!new)>(ordered: seq<T>, cost: T -> pos, budget: int, mask: seq<bool>)
    requires budget >= 0
    ensures LexGreatestFit(ordered, cost, budget, mask) <==> mask == GreedyMask(ordered, cost, budget)
  {
    var greedy := GreedyMask(ordered, cost, budget);
    GreedyIsGreatest(ordered, cost, budget);
    if LexGreatestFit(ordered, cost, budget, mask) && mask != greedy {
      assert LexAbove(mask, greedy) && LexAbove(greedy, mask);
      LexAsymmetric(mask, greedy);
    }
  }

  lemma LexAsymmetric(a: seq<bool>, b: seq<bool>)
    requires LexAbove(a, b)
    ensures !LexAbove(b, a)
  {
    var i :| 0 <= i < |a| == |b| && a[..i] == b[..i] && a[i] && !b[i];
    forall j | 0 <= j < |b|
      ensures !(b[..j] == a[..j] && b[j] && !a[j])
    {
      if j < i {
        assert a[j] == a[..i][j] && b[j] == b[..i][j];
      } else if i < j {
        assert a[i] == a[..j][i] && b[i] == b[..j][i];
      }
    }
  }

  // ---- Approximation bound ----

  /** The sort key of the density policies: value per token. */
  function Density<T>(cost: T -> pos, value: T -> real): T -> real {
    (x: T) => value(x) / cost(x) as real
  }

  /** What `x` is worth beyond the price `rho` per token, if anything. */
  function Excess<T>(cost: T -> pos, value: T -> real, rho: real): T -> real {
    (x: T) => var e := value(x) - rho * cost(x) as real; if e > 0.0 then e else 0.0
  }

  /** Weak duality: at any price, a subset is worth at most its tokens plus all the excess. */
  lemma {:induction false} ValueAtPrice<T>(alt: seq<T>, cost: T -> pos, value: T -> real, rho: real)
    ensures SumReal(alt, value) <= rho * Spent(alt, cost) as real + SumReal(alt, Excess(cost, value, rho))
  {
    if alt != [] {
      ValueAtPrice(alt[1..], cost, value, rho);
      assert rho * Spent(alt, cost) as real
          == rho * cost(alt[0]) as real + rho * Spent(alt[1..], cost) as real;
    }
  }

  /** When every item is worth at least its price, the bound is tight. */
  lemma {:induction false} DenseAtPrice<T>(items: seq<T>, cost: T -> pos, value: T -> real, rho: real)
    requires forall x :: x in items ==> WorthPrice(x, cost, value, rho)
    ensures SumReal(items, value) == rho * Spent(items, cost) as real + SumReal(items, Excess(cost, value, rho))
  {
    if items != [] {
      DenseAtPrice(items[1..], cost, value, rho);
      assert WorthPrice(items[0], cost, value, rho);
      assert rho * Spent(items, cost) as real
          == rho * cost(items[0]) as real + rho * Spent(items[1..], cost) as real;
    }
  }

  lemma {:induction false} SparseAtPrice<T>(items: seq<T>, cost: T -> pos, value: T -> real, rho: real)
    requires forall x :: x in items ==> BelowPrice(x, cost, value, rho)
    ensures SumReal(items, Excess(cost, value, rho)) == 0.0
  {
    if items != [] {
      SparseAtPrice(items[1..], cost, value, rho);
      assert BelowPrice(items[0], cost, value, rho);
    }
  }

  predicate WorthPrice<T>(x: T, cost: T -> pos, value: T -> real, rho: real) {
    value(x) >= rho * cost(x) as real
  }

  predicate BelowPrice<T>(x: T, cost: T -> pos, value: T -> real, rho: real) {
    value(x) <= rho * cost(x) as real
  }

  lemma DensityPrice<T>(x: T, cost: T -> pos, value: T -> real, rho: real)
    ensures Density(cost, value)(x) >= rho <==> WorthPrice(x, cost, value, rho)
    ensures Density(cost, value)(x) <= rho <==> BelowPrice(x, cost, value, rho)
  {
    var c := cost(x) as real;
    var d := value(x) / c;
    assert value(x) == d * c;
    if d >= rho { MulMono(rho, d, c); } else { MulMonoStrict(d, rho, c); }
    if d <= rho { MulMono(d, rho, c); } else { MulMonoStrict(rho, d, c); }
  }

  predicate Denser<T>(x: T, y: T, cost: T -> pos, value: T -> real) {
    Density(cost, value)(x) >= Density(cost, value)(y)
  }

  ghost predicate ByDensity<T>(ordered: seq<T>, cost: T -> pos, value: T -> real) {
    forall i, j {:trigger Denser(ordered[i], ordered[j], cost, value)} :: 0 <= i < j < |ordered| ==>
      Denser(ordered[i], ordered[j], cost, value)
  }

  /** The density of item `k` is a price that the items before it are worth and the rest are not
      above. */
  lemma PriceSplits<T>(ordered: seq<T>, k: nat, cost: T -> pos, value: T -> real) returns (rho: real)
    requires k < |ordered| && ByDensity(ordered, cost, value)
    ensures IsPrice(rho, cost(ordered[k]) as real, value(ordered[k]))
    ensures forall x :: x in ordered[..k] ==> WorthPrice(x, cost, value, rho)
    ensures forall x :: x in ordered[k..] ==> BelowPrice(x, cost, value, rho)
  {
    rho := Density(cost, value)(ordered[k]);
    DensityPrice(ordered[k], cost, value, rho);
    forall x | x in ordered[..k]
      ensures WorthPrice(x, cost, value, rho)
    {
      var i :| 0 <= i < k && ordered[i] == x;
      assert Denser(ordered[i], ordered[k], cost, value);
      DensityPrice(x, cost, value, rho);
    }
    forall x | x in ordered[k..]
      ensures BelowPrice(x, cost, value, rho)
    {
      var i :| k <= i < |ordered| && ordered[i] == x;
      assert i == k || Denser(ordered[k], ordered[i], cost, value);
      DensityPrice(x, cost, value, rho);
    }
  }

  lemma MulMono(a: real, b: real, c: real)
    requires a <= b && c >= 0.0
    ensures a * c <= b * c
  {
  }

  lemma MulMonoStrict(a: real, b: real, c: real)
    requires a < b && c > 0.0
    ensures a * c < b * c
  {
  }

  /** Up to its first discarded item the packer takes a prefix of the order. */
  lemma {:induction false} PackPrefix<T>(ordered: seq<T>, cost: T -> pos, budget: int) returns (k: nat)
    requires Pack(ordered, cost, budget).discarded != []
    ensures k < |ordered| && ordered[k] == Pack(ordered, cost, budget).discarded[0]
    ensures ordered[..k] <= Pack(ordered, cost, budget).selected
    ensures budget < Spent(ordered[..k], cost) + cost(ordered[k])
    ensures budget >= 0 ==> Spent(ordered[..k], cost) <= budget
  {
    if cost(ordered[0]) <= budget {
      var j := PackPrefix(ordered[1..], cost, budget - cost(ordered[0]));
      k := j + 1;
      assert ordered[..k] == [ordered[0]] + ordered[1..][..j];
    } else {
      k := 0;
    }
  }

  /** Packing by density is a fractional-knapsack argument: adding the first discarded item is
      enough to reach the value of every subset that fits, and what is lost is bounded by that one
      item's share of the budget. When nothing is discarded the packer is optimal. */
  lemma DensityApproximation<T>(ordered: seq<T>, cost: T -> pos, value: T -> real, budget: int, alt: seq<T>)
    requires ByDensity(ordered, cost, value)
    requires forall x :: x in ordered ==> value(x) >= 0.0
    requires multiset(alt) <= multiset(ordered) && Spent(alt, cost) <= budget
    ensures var p := Pack(ordered, cost, budget);
      && (p.discarded == [] ==> SumReal(alt, value) <= SumReal(p.selected, value))
      && (p.discarded != [] ==>
            && SumReal(alt, value) <= SumReal(p.selected, value) + value(p.discarded[0])
            && GuaranteedShare(SumReal(alt, value), SumReal(p.selected, value), budget as real,
                               cost(p.discarded[0]) as real))
  {
    var p := Pack(ordered, cost, budget);
    PackPartitions(ordered, cost, budget);
    if p.discarded == [] {
      ValuesNonNegative(p.selected, ordered, value);
      assert multiset(alt) <= multiset(p.selected);
      SumRealSubMultiset(alt, p.selected, value);
    } else {
      ValuesNonNegative(alt, ordered, value);
      OverflowingPack(ordered, cost, value, budget, alt);
    }
  }

  lemma OverflowingPack<T>(ordered: seq<T>, cost: T -> pos, value: T -> real, budget: int, alt: seq<T>)
    requires ByDensity(ordered, cost, value) && Pack(ordered, cost, budget).discarded != []
    requires forall x :: x in ordered ==> value(x) >= 0.0
    requires multiset(alt) <= multiset(ordered) && Spent(alt, cost) <= budget && SumReal(alt, value) >= 0.0
    ensures var p := Pack(ordered, cost, budget);
      && SumReal(alt, value) <= SumReal(p.selected, value) + value(p.discarded[0])
      && GuaranteedShare(SumReal(alt, value), SumReal(p.selected, value), budget as real,
                         cost(p.discarded[0]) as real)
  {
    var p := Pack(ordered, cost, budget);
    var k := PackPrefix(ordered, cost, budget);
    assert multiset(p.selected) <= multiset(ordered) by {
      PackPartitions(ordered, cost, budget);
    }
    SelectedWorth(ordered[..k], p, ordered, value);
    OverflowBound(ordered, k, cost, value, budget, SumReal(p.selected, value), alt);
  }

  /** The bound, for a prefix that was taken whole and an item `k` that overflowed the budget. */
  lemma OverflowBound<T>(ordered: seq<T>, k: nat, cost: T -> pos, value: T -> real, budget: int,
                         selected: real, alt: seq<T>)
    requires k < |ordered| && ByDensity(ordered, cost, value) && multiset(alt) <= multiset(ordered)
    requires Spent(ordered[..k], cost) <= budget < Spent(ordered[..k], cost) + cost(ordered[k])
    requires Spent(alt, cost) <= budget && value(ordered[k]) >= 0.0
    requires 0.0 <= SumReal(ordered[..k], value) <= selected && 0.0 <= SumReal(alt, value)
    ensures SumReal(alt, value) <= selected + value(ordered[k])
    ensures GuaranteedShare(SumReal(alt, value), selected, budget as real, cost(ordered[k]) as real)
  {
    var worth, rho := PriceBound(ordered, k, cost, value, alt);
    var opt, tokens := SumReal(alt, value), Spent(ordered[..k], cost) as real;
    var b, c := budget as real, cost(ordered[k]) as real;
    PriceNonNegative(rho, c, value(ordered[k]));
    GapAtPrice(opt, worth, rho, Spent(alt, cost) as real, tokens, b);
    ValueBound(opt, worth, selected, rho, b - tokens, c, value(ordered[k]));
    ShareBound(opt, worth, selected, rho, b - tokens, tokens, b, c);
  }

  /** A subset worth `opt` for `spent` tokens, against a prefix worth `worth` for `tokens`. */
  predicate Priced(opt: real, worth: real, rho: real, spent: real, tokens: real) {
    opt <= worth + rho * spent - rho * tokens
  }

  predicate IsPrice(rho: real, c: real, v: real) {
    rho * c == v
  }

  predicate WithinGap(opt: real, worth: real, rho: real, gap: real) {
    opt <= worth + rho * gap
  }

  predicate Covers(worth: real, rho: real, tokens: real) {
    rho * tokens <= worth
  }

  /** The share of the optimum that is guaranteed: opt * (budget - c) <= selected * budget. */
  predicate GuaranteedShare(opt: real, selected: real, budget: real, c: real) {
    opt * (budget - c) <= selected * budget
  }

  /** What is known about a prefix at the price of the item that follows it. */
  lemma PriceBound<T>(ordered: seq<T>, k: nat, cost: T -> pos, value: T -> real, alt: seq<T>)
      returns (worth: real, rho: real)
    requires k < |ordered| && ByDensity(ordered, cost, value) && multiset(alt) <= multiset(ordered)
    ensures worth == SumReal(ordered[..k], value)
    ensures IsPrice(rho, cost(ordered[k]) as real, value(ordered[k]))
    ensures Priced(SumReal(alt, value), worth, rho, Spent(alt, cost) as real, Spent(ordered[..k], cost) as real)
    ensures Covers(worth, rho, Spent(ordered[..k], cost) as real)
  {
    worth := SumReal(ordered[..k], value);
    rho := PriceSplits(ordered, k, cost, value);
    assert ordered == ordered[..k] + ordered[k..];
    FractionalBound(ordered[..k], ordered[k..], cost, value, rho, alt);
    PriceOfPrefix(ordered[..k], cost, value, rho);
  }

  lemma ValuesNonNegative<T>(part: seq<T>, ordered: seq<T>, value: T -> real)
    requires multiset(part) <= multiset(ordered)
    requires forall x :: x in ordered ==> value(x) >= 0.0
    ensures forall x :: x in part ==> value(x) >= 0.0
    ensures SumReal(part, value) >= 0.0
  {
    forall x | x in part
      ensures value(x) >= 0.0
    {
      assert x in multiset(part);
      assert x in multiset(ordered);
    }
    SumRealNonNegative(part, value);
  }

  lemma ExcessOfSubset<T>(alt: seq<T>, ordered: seq<T>, cost: T -> pos, value: T -> real, rho: real)
    requires multiset(alt) <= multiset(ordered)
    ensures SumReal(alt, Excess(cost, value, rho)) <= SumReal(ordered, Excess(cost, value, rho))
  {
    SumRealSubMultiset(alt, ordered, Excess(cost, value, rho));
  }

  lemma ExcessOfSplit<T>(prefix: seq<T>, rest: seq<T>, cost: T -> pos, value: T -> real, rho: real)
    requires forall x :: x in prefix ==> WorthPrice(x, cost, value, rho)
    requires forall x :: x in rest ==> BelowPrice(x, cost, value, rho)
    ensures SumReal(prefix + rest, Excess(cost, value, rho))
        == SumReal(prefix, value) - rho * Spent(prefix, cost) as real
  {
    SumRealAppend(prefix, rest, Excess(cost, value, rho));
    DenseAtPrice(prefix, cost, value, rho);
    SparseAtPrice(rest, cost, value, rho);
  }

  /** The value of `alt` against a prefix, at a price that splits there. */
  lemma FractionalBound<T>(prefix: seq<T>, rest: seq<T>, cost: T -> pos, value: T -> real, rho: real, alt: seq<T>)
    requires multiset(alt) <= multiset(prefix + rest)
    requires forall x :: x in prefix ==> WorthPrice(x, cost, value, rho)
    requires forall x :: x in rest ==> BelowPrice(x, cost, value, rho)
    ensures Priced(SumReal(alt, value), SumReal(prefix, value), rho,
                   Spent(alt, cost) as real, Spent(prefix, cost) as real)
  {
    ValueAtPrice(alt, cost, value, rho);
    ExcessOfSubset(alt, prefix + rest, cost, value, rho);
    ExcessOfSplit(prefix, rest, cost, value, rho);
  }

  lemma SelectedWorth<T>(prefix: seq<T>, p: Packed<T>, ordered: seq<T>, value: T -> real)
    requires prefix <= p.selected && multiset(p.selected) <= multiset(ordered)
    requires forall x :: x in ordered ==> value(x) >= 0.0
    ensures 0.0 <= SumReal(prefix, value) <= SumReal(p.selected, value)
  {
    var rest := p.selected[|prefix|..];
    assert p.selected == prefix + rest;
    ValuesNonNegative(p.selected, ordered, value);
    SumRealAppend(prefix, rest, value);
    SumRealNonNegative(prefix, value);
    SumRealNonNegative(rest, value);
  }

  lemma PriceOfPrefix<T>(prefix: seq<T>, cost: T -> pos, value: T -> real, rho: real)
    requires forall x :: x in prefix ==> WorthPrice(x, cost, value, rho)
    ensures Covers(SumReal(prefix, value), rho, Spent(prefix, cost) as real)
  {
    DenseAtPrice(prefix, cost, value, rho);
    SumRealNonNegative(prefix, Excess(cost, value, rho));
  }

  // The arithmetic of the bound: `opt` against a prefix worth `worth` for `tokens`, a price `rho`
  // and a first discarded item of cost `c` and value `v`.

  lemma GapAtPrice(opt: real, worth: real, rho: real, spent: real, tokens: real, budget: real)
    requires Priced(opt, worth, rho, spent, tokens) && spent <= budget && rho >= 0.0
    ensures WithinGap(opt, worth, rho, budget - tokens)
  {
    MulMono(spent, budget, rho);
    assert rho * (budget - tokens) == rho * budget - rho * tokens;
  }

  lemma PriceNonNegative(rho: real, c: real, v: real)
    requires IsPrice(rho, c, v) && v >= 0.0 && c > 0.0
    ensures rho >= 0.0
  {
    if rho < 0.0 {
      MulMonoStrict(rho, 0.0, c);
    }
  }

  lemma ValueBound(opt: real, worth: real, selected: real, rho: real, gap: real, c: real, v: real)
    requires WithinGap(opt, worth, rho, gap) && worth <= selected && rho >= 0.0 && gap <= c && IsPrice(rho, c, v)
    ensures opt <= selected + v
  {
    MulMono(gap, c, rho);
  }

  lemma ShareBound(opt: real, worth: real, selected: real, rho: real, gap: real, tokens: real, budget: real, c: real)
    requires WithinGap(opt, worth, rho, gap) && Covers(worth, rho, tokens)
    requires 0.0 <= worth <= selected && 0.0 <= opt && rho >= 0.0
    requires 0.0 <= tokens && gap == budget - tokens && 0.0 <= gap < c
    ensures GuaranteedShare(opt, selected, budget, c)
  {
    MulMono(budget - c, tokens, opt);
    MulMono(opt, worth + rho * gap, tokens);
    MulMono(rho * tokens, worth, gap);
    MulMono(worth, selected, budget);
    calc {
      opt * (budget - c);
    <= tokens * opt;
    <= (worth + rho * gap) * tokens;
    == worth * tokens + (rho * tokens) * gap;
    <= worth * tokens + worth * gap;
    == worth * budget;
    <= selected * budget;
    }
  }

  lemma SortedByDensity<T>(items: seq<T>, cost: T -> pos, value: T -> real)
    ensures ByDensity(Sorted(items, Density(cost, value), true), cost, value)
    ensures multiset(Sorted(items, Density(cost, value), true)) == multiset(items)
    ensures forall x :: x in Sorted(items, Density(cost, value), true) ==> x in items
  {
    var ordered := Sorted(items, Density(cost, value), true);
    var key := Negated(Density(cost, value));
    StableSortSorts(items, key);
    forall i, j | 0 <= i < j < |ordered|
      ensures Denser(ordered[i], ordered[j], cost, value)
    {
      assert key(ordered[i]) <= key(ordered[j]);
    }
    forall x | x in ordered
      ensures x in items
    {
      assert x in multiset(ordered);
    }
  }

  lemma {:induction false} SelectedFit<T(!new)>(ordered: seq<T>, cost: T -> pos, budget: int)
    ensures forall x :: x in Pack(ordered, cost, budget).selected ==> x in ordered && cost(x) <= budget
    ensures forall x :: x in Pack(ordered, cost, budget).discarded ==> x in ordered
  {
    if ordered != [] {
      SelectedFit(ordered[1..], cost, budget);
      SelectedFit(ordered[1..], cost, budget - cost(ordered[0]));
      assert forall x :: x in ordered[1..] ==> x in ordered;
    }
  }

  /** An item that is left out was not to be considered before a selected one that costs as much or
      more. */
  lemma {:induction false} PreferredFirst<T(!new)>(
      ordered: seq<T>, key: T -> real, cost: T -> pos, budget: int, s: T, d: T)
    requires SortedBy(ordered, key) && cost(d) <= cost(s)
    requires s in Pack(ordered, cost, budget).selected && d in Pack(ordered, cost, budget).discarded
    ensures key(s) <= key(d)
  {
    var rest := ordered[1..];
    if cost(ordered[0]) <= budget {
      SelectedFit(rest, cost, budget - cost(ordered[0]));
      if s in Pack(rest, cost, budget - cost(ordered[0])).selected {
        PreferredFirst(rest, key, cost, budget - cost(ordered[0]), s, d);
      }
    } else {
      SelectedFit(rest, cost, budget);
      PreferredFirst(rest, key, cost, budget, s, d);
    }
  }

  /** Packing commutes with a renaming of the items that keeps their costs. */
  lemma {:induction false} PackMap<T, U>(ordered: seq<T>, f: T -> U, cost: T -> pos, cost': U -> pos, budget: int)
    requires forall x :: x in ordered ==> cost'(f(x)) == cost(x)
    ensures var p := Pack(ordered, cost, budget);
      Pack(Map(ordered, f), cost', budget) == Packed(Map(p.selected, f), Map(p.discarded, f))
  {
    if ordered != [] {
      var rest := if cost(ordered[0]) <= budget then budget - cost(ordered[0]) else budget;
      PackMap(ordered[1..], f, cost, cost', rest);
      assert Map(ordered, f)[1..] == Map(ordered[1..], f);
      var p := Pack(ordered, cost, budget);
      assert p.selected != [] && cost(ordered[0]) <= budget ==>
        Map(p.selected, f) == [f(p.selected[0])] + Map(p.selected[1..], f);
      assert cost(ordered[0]) > budget ==>
        Map(p.discarded, f) == [f(p.discarded[0])] + Map(p.discarded[1..], f);
    }
  }
}
