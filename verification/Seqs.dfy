/** Sequence vocabulary shared by the other modules: filtering, mapping, summing, and the stable
    sort that Python's `sorted` performs. */
module Seqs {

  datatype Option<+T> = None | Some(value: T)

  datatype Result<+T, +E> = Ok(value: T) | Err(error: E)

  function Filter<T>(s: seq<T>, p: T -> bool): seq<T> {
    if s == [] then [] else (if p(s[0]) then [s[0]] else []) + Filter(s[1..], p)
  }

  function Map<T, U>(s: seq<T>, f: T -> U): (r: seq<U>)
    ensures |r| == |s|
    ensures forall i :: 0 <= i < |s| ==> r[i] == f(s[i])
  {
    if s == [] then [] else [f(s[0])] + Map(s[1..], f)
  }

  function Members<T(==)>(s: seq<T>): set<T> {
    set x | x in s
  }

  function SumReal<T>(s: seq<T>, f: T -> real): real {
    if s == [] then 0.0 else f(s[0]) + SumReal(s[1..], f)
  }

  lemma SubsetSmaller<T>(a: set<T>, b: set<T>)
    requires a <= b
    ensures |a| <= |b|
    ensures a != b ==> |a| < |b|
  {
    assert b == a + (b - a);
    assert |b| == |a| + |b - a|;
  }

  lemma {:induction false} FilterAppend<T>(a: seq<T>, b: seq<T>, p: T -> bool)
    ensures Filter(a + b, p) == Filter(a, p) + Filter(b, p)
  {
    if a == [] {
      assert a + b == b;
    } else {
      assert (a + b)[0] == a[0] && (a + b)[1..] == a[1..] + b;
      FilterAppend(a[1..], b, p);
      var head := if p(a[0]) then [a[0]] else [];
      assert Filter(a + b, p) == head + (Filter(a[1..], p) + Filter(b, p));
      assert Filter(a, p) == head + Filter(a[1..], p);
    }
  }

  lemma {:induction false} FilterMember<T>(s: seq<T>, p: T -> bool, x: T)
    ensures x in Filter(s, p) <==> x in s && p(x)
  {
    if s != [] {
      FilterMember(s[1..], p, x);
      assert x in s <==> x == s[0] || x in s[1..];
    }
  }

  lemma FilterMembers<T>(s: seq<T>, p: T -> bool)
    ensures forall x :: x in Filter(s, p) <==> x in s && p(x)
  {
    forall x
      ensures x in Filter(s, p) <==> x in s && p(x)
    {
      FilterMember(s, p, x);
    }
  }

  lemma FilterOne<T>(x: T, p: T -> bool)
    ensures Filter([x], p) == if p(x) then [x] else []
  {
    assert Filter([x][1..], p) == [];
  }

  /** Only the predicate's answers on the members of `s` matter. */
  lemma {:induction false} FilterAgree<T>(s: seq<T>, p: T -> bool, q: T -> bool)
    requires forall x :: x in s ==> p(x) == q(x)
    ensures Filter(s, p) == Filter(s, q)
  {
    if s != [] {
      FilterAgree(s[1..], p, q);
    }
  }

  lemma {:induction false} FilterAll<T>(s: seq<T>, p: T -> bool)
    requires forall x :: x in s ==> p(x)
    ensures Filter(s, p) == s
  {
    if s != [] {
      FilterAll(s[1..], p);
    }
  }

  lemma {:induction false} FilterNone<T>(s: seq<T>, p: T -> bool)
    requires forall x :: x in s ==> !p(x)
    ensures Filter(s, p) == []
  {
    if s != [] {
      FilterNone(s[1..], p);
    }
  }

  /** Filtering twice is filtering by the conjunction. */
  lemma {:induction false} FilterFilter<T>(s: seq<T>, p: T -> bool, q: T -> bool, both: T -> bool)
    requires forall x :: x in s ==> both(x) == (p(x) && q(x))
    ensures Filter(Filter(s, p), q) == Filter(s, both)
  {
    if s != [] {
      FilterFilter(s[1..], p, q, both);
      FilterAppend(if p(s[0]) then [s[0]] else [], Filter(s[1..], p), q);
      assert p(s[0]) ==> Filter([s[0]], q) == if q(s[0]) then [s[0]] else [];
    }
  }

  lemma {:induction false} SumRealAppend<T>(a: seq<T>, b: seq<T>, f: T -> real)
    ensures SumReal(a + b, f) == SumReal(a, f) + SumReal(b, f)
  {
    if a == [] {
      assert a + b == b;
    } else {
      assert (a + b)[1..] == a[1..] + b;
      SumRealAppend(a[1..], b, f);
    }
  }

  lemma RemoveOne<T>(s: seq<T>, j: nat)
    requires j < |s|
    ensures multiset(s[..j] + s[j + 1..]) == multiset(s) - multiset{s[j]}
  {
    assert s == s[..j] + [s[j]] + s[j + 1..];
  }

  lemma SumRealRemoveOne<T>(s: seq<T>, j: nat, f: T -> real)
    requires j < |s|
    ensures SumReal(s, f) == f(s[j]) + SumReal(s[..j] + s[j + 1..], f)
  {
    var front, back := s[..j], s[j + 1..];
    var tail := [s[j]] + back;
    assert s == front + tail;
    SumRealAppend(front, tail, f);
    SumRealAppend(front, back, f);
    assert tail[1..] == back;
  }

  lemma RestSubMultiset<T>(part: seq<T>, whole: seq<T>, j: nat)
    requires multiset(part) <= multiset(whole) && part != [] && j < |whole| && whole[j] == part[0]
    ensures multiset(part[1..]) <= multiset(whole[..j] + whole[j + 1..])
  {
    RemoveOne(part, 0);
    RemoveOne(whole, j);
    assert part[..0] + part[0 + 1..] == part[1..];
  }

  /** A sub-multiset has no larger a sum when no term is negative. */
  lemma {:induction false} SumRealSubMultiset<T>(part: seq<T>, whole: seq<T>, f: T -> real)
    requires multiset(part) <= multiset(whole)
    requires forall x :: x in whole ==> f(x) >= 0.0
    ensures SumReal(part, f) <= SumReal(whole, f)
    decreases |part|
  {
    if part == [] {
      SumRealNonNegative(whole, f);
    } else {
      var x := part[0];
      assert x in multiset(part);
      var j :| 0 <= j < |whole| && whole[j] == x;
      SumRealRemoveOne(whole, j, f);
      var rest := whole[..j] + whole[j + 1..];
      RestSubMultiset(part, whole, j);
      forall y | y in rest
        ensures f(y) >= 0.0
      {
        assert y in whole[..j] || y in whole[j + 1..];
      }
      SumRealSubMultiset(part[1..], rest, f);
    }
  }

  lemma {:induction false} SumRealNonNegative<T>(s: seq<T>, f: T -> real)
    requires forall x :: x in s ==> f(x) >= 0.0
    ensures SumReal(s, f) >= 0.0
  {
    if s != [] {
      SumRealNonNegative(s[1..], f);
    }
  }

  // ---- Python's sorted(): ascending and stable ----

  ghost predicate SortedBy<T>(s: seq<T>, key: T -> real) {
    forall i, j :: 0 <= i < j < |s| ==> key(s[i]) <= key(s[j])
  }

  function Insert<T>(x: T, s: seq<T>, key: T -> real): seq<T> {
    if s == [] || key(x) <= key(s[0]) then [x] + s else [s[0]] + Insert(x, s[1..], key)
  }

  function StableSort<T>(s: seq<T>, key: T -> real): seq<T> {
    if s == [] then [] else Insert(s[0], StableSort(s[1..], key), key)
  }

  function HasKey<T>(key: T -> real, k: real): T -> bool {
    (x: T) => key(x) == k
  }

  /** The members of `s` that share a key, in their order of appearance. */
  function Ties<T>(s: seq<T>, key: T -> real, k: real): seq<T> {
    Filter(s, HasKey(key, k))
  }

  lemma {:induction false} InsertPermutes<T>(x: T, s: seq<T>, key: T -> real)
    ensures multiset(Insert(x, s, key)) == multiset{x} + multiset(s)
  {
    if s == [] || key(x) <= key(s[0]) {
    } else {
      InsertPermutes(x, s[1..], key);
      assert s == [s[0]] + s[1..];
    }
  }

  lemma {:induction false} InsertSorts<T>(x: T, s: seq<T>, key: T -> real)
    requires SortedBy(s, key)
    ensures SortedBy(Insert(x, s, key), key)
  {
    if s == [] || key(x) <= key(s[0]) {
    } else {
      InsertSorts(x, s[1..], key);
      InsertPermutes(x, s[1..], key);
      var rest := Insert(x, s[1..], key);
      forall i | 0 <= i < |rest|
        ensures key(s[0]) <= key(rest[i])
      {
        assert rest[i] in multiset(rest);
        assert rest[i] == x || rest[i] in s[1..];
      }
    }
  }

  lemma {:induction false} InsertKeepsTies<T>(x: T, s: seq<T>, key: T -> real, k: real)
    requires SortedBy(s, key)
    ensures Ties(Insert(x, s, key), key, k) == Ties([x] + s, key, k)
  {
    if s == [] || key(x) <= key(s[0]) {
    } else {
      InsertKeepsTies(x, s[1..], key, k);
      var p := HasKey(key, k);
      FilterAppend([x], s, p);
      FilterAppend([x], s[1..], p);
      FilterAppend([s[0]], s[1..], p);
      FilterAppend([s[0]], Insert(x, s[1..], key), p);
      assert s == [s[0]] + s[1..];
      assert Filter([x], p) == [] || Filter([s[0]], p) == [];
    }
  }

  /** The result is sorted, keeps every element, and keeps equal keys in their original order. */
  lemma {:induction false} StableSortSorts<T>(s: seq<T>, key: T -> real)
    ensures SortedBy(StableSort(s, key), key)
    ensures multiset(StableSort(s, key)) == multiset(s)
    ensures forall k :: Ties(StableSort(s, key), key, k) == Ties(s, key, k)
  {
    if s != [] {
      StableSortSorts(s[1..], key);
      var rest := StableSort(s[1..], key);
      InsertSorts(s[0], rest, key);
      InsertPermutes(s[0], rest, key);
      assert s == [s[0]] + s[1..];
      forall k
        ensures Ties(StableSort(s, key), key, k) == Ties(s, key, k)
      {
        assert Ties(rest, key, k) == Ties(s[1..], key, k);
        TiesStep(s, rest, key, k);
      }
    }
  }

  lemma TiesStep<T>(s: seq<T>, rest: seq<T>, key: T -> real, k: real)
    requires s != [] && SortedBy(rest, key) && Ties(rest, key, k) == Ties(s[1..], key, k)
    ensures Ties(Insert(s[0], rest, key), key, k) == Ties(s, key, k)
  {
    InsertKeepsTies(s[0], rest, key, k);
    assert ([s[0]] + rest)[1..] == rest;
  }

  /** Sortedness and the order of ties leave only one possible result. */
  lemma {:induction false} StableSortUnique<T>(a: seq<T>, b: seq<T>, key: T -> real)
    requires SortedBy(a, key) && SortedBy(b, key)
    requires forall k :: Ties(a, key, k) == Ties(b, key, k)
    ensures a == b
  {
    if a == [] || b == [] {
      if a != [] {
        HeadOfTies(a, key);
      }
      if b != [] {
        HeadOfTies(b, key);
      }
    } else {
      HeadOfTies(a, key);
      HeadOfTies(b, key);
      FirstKeyLeast(a, key, key(b[0]));
      FirstKeyLeast(b, key, key(a[0]));
      assert a[0] == b[0];
      forall k
        ensures Ties(a[1..], key, k) == Ties(b[1..], key, k)
      {
        var t := Ties(a, key, k);
        assert t == (if key(a[0]) == k then [a[0]] else []) + Ties(a[1..], key, k);
        assert t == (if key(a[0]) == k then [a[0]] else []) + Ties(b[1..], key, k);
        assert Ties(a[1..], key, k) == t[if key(a[0]) == k then 1 else 0..];
      }
      StableSortUnique(a[1..], b[1..], key);
    }
  }

  lemma HeadOfTies<T>(s: seq<T>, key: T -> real)
    requires s != []
    ensures Ties(s, key, key(s[0])) != [] && Ties(s, key, key(s[0]))[0] == s[0]
  {
  }

  lemma FirstKeyLeast<T>(s: seq<T>, key: T -> real, k: real)
    requires s != [] && SortedBy(s, key) && Ties(s, key, k) != []
    ensures key(s[0]) <= k
  {
    var x := Ties(s, key, k)[0];
    FilterMember(s, HasKey(key, k), x);
    var i :| 0 <= i < |s| && s[i] == x;
  }

  /** Sorting an already ordered sequence changes nothing. */
  lemma {:induction false} StableSortIdentity<T>(s: seq<T>, key: T -> real)
    requires SortedBy(s, key)
    ensures StableSort(s, key) == s
  {
    if s != [] {
      StableSortIdentity(s[1..], key);
    }
  }

  /** A renaming of the elements that preserves the order of the keys commutes with sorting. */
  lemma {:induction false} StableSortMap<T, U>(s: seq<T>, f: T -> U, key: T -> real, key': U -> real)
    requires forall x, y :: x in s && y in s ==> (key(x) <= key(y) <==> key'(f(x)) <= key'(f(y)))
    ensures StableSort(Map(s, f), key') == Map(StableSort(s, key), f)
  {
    if s != [] {
      StableSortMap(s[1..], f, key, key');
      assert Map(s, f)[1..] == Map(s[1..], f);
      StableSortSorts(s[1..], key);
      forall y | y in StableSort(s[1..], key)
        ensures y in s
      {
        assert y in multiset(s[1..]);
      }
      InsertMap(s[0], StableSort(s[1..], key), f, key, key');
    }
  }

  lemma {:induction false} InsertMap<T, U>(x: T, s: seq<T>, f: T -> U, key: T -> real, key': U -> real)
    requires forall y :: y in s ==> (key(x) <= key(y) <==> key'(f(x)) <= key'(f(y)))
    ensures Insert(f(x), Map(s, f), key') == Map(Insert(x, s, key), f)
  {
    if s == [] || key(x) <= key(s[0]) {
      assert Map([x] + s, f) == [f(x)] + Map(s, f);
    } else {
      InsertMap(x, s[1..], f, key, key');
      assert Map(s, f)[1..] == Map(s[1..], f);
      assert ([s[0]] + Insert(x, s[1..], key))[1..] == Insert(x, s[1..], key);
    }
  }
}
