/** The min-max normalisation that context/selection.py and memory/ranking.py share: values are scaled
    into [0, 1] within the candidate set and kept in a dictionary by item id. */
module Normalizing {
  import opened Seqs
  import opened Packing

  function MinOf<T>(items: seq<T>, f: T -> real): real
    requires items != []
  {
    if |items| == 1 then f(items[0])
    else var m := MinOf(items[1..], f); if f(items[0]) < m then f(items[0]) else m
  }

  function MaxOf<T>(items: seq<T>, f: T -> real): real
    requires items != []
  {
    if |items| == 1 then f(items[0])
    else var m := MaxOf(items[1..], f); if f(items[0]) > m then f(items[0]) else m
  }

  /** 1.0 for everything when all candidates tie. */
  function Scaled(t: real, lo: real, hi: real): real {
    if hi == lo then 1.0 else (t - lo) / (hi - lo)
  }

  /** A later item with the same id overwrites, as in a dictionary comprehension. */
  function ScaledMap<T, K>(items: seq<T>, id: T -> K, f: T -> real, lo: real, hi: real): map<K, real> {
    if items == [] then map[]
    else
      var last := items[|items| - 1];
      ScaledMap(items[..|items| - 1], id, f, lo, hi)[id(last) := Scaled(f(last), lo, hi)]
  }

  function Normalized<T, K>(items: seq<T>, id: T -> K, f: T -> real): map<K, real> {
    if items == [] then map[] else ScaledMap(items, id, f, MinOf(items, f), MaxOf(items, f))
  }

  /** Every candidate gets a score, and every score lies in [0, 1]. */
  lemma NormalizedInUnit<T, K>(items: seq<T>, id: T -> K, f: T -> real)
    ensures var m := Normalized(items, id, f);
      && (forall i :: i in items ==> id(i) in m)
      && (forall k :: k in m ==> 0.0 <= m[k] <= 1.0)
  {
    if items != [] {
      ExtremesBound(items, f);
      ScaledMapInUnit(items, id, f, MinOf(items, f), MaxOf(items, f));
    }
  }

  /** No two candidates share an id. */
  ghost predicate OwnIds<T, K>(items: seq<T>, id: T -> K) {
    forall x, y :: x in items && y in items && id(x) == id(y) ==> x == y
  }

  lemma NormalizedAt<T(!new), K>(items: seq<T>, id: T -> K, f: T -> real, i: T, lo: T, hi: T)
    requires OwnIds(items, id) && i in items && lo in items && hi in items
    requires forall x :: x in items ==> f(lo) <= f(x) <= f(hi)
    ensures var m := Normalized(items, id, f);
      id(i) in m && m[id(i)] == Scaled(f(i), f(lo), f(hi))
  {
    ExtremesBound(items, f);
    ExtremesAttained(items, f);
    ScaledMapAt(items, id, f, MinOf(items, f), MaxOf(items, f), i);
  }

  lemma ScaledIs(t: real, lo: real, hi: real)
    requires lo <= t <= hi
    ensures var r := Scaled(t, lo, hi);
      && (t == hi ==> r == 1.0) && (t == lo < hi ==> r == 0.0) && (lo < hi ==> r * (hi - lo) == t - lo)
  {
    if lo < hi {
      var n, d := t - lo, hi - lo;
      var q := n / d;
      assert q * d == n;
      if t == hi {
        QuotientUnique(d, d, 1.0);
      } else if t == lo {
        QuotientUnique(0.0, d, 0.0);
      }
    }
  }

  lemma ScaledOrder(s: real, t: real, lo: real, hi: real)
    requires lo <= s <= hi && lo <= t <= hi
    ensures s <= t <==> Scaled(s, lo, hi) <= Scaled(t, lo, hi)
  {
    if lo < hi {
      var d := hi - lo;
      var x, y := Scaled(s, lo, hi), Scaled(t, lo, hi);
      ScaledIs(s, lo, hi);
      ScaledIs(t, lo, hi);
      assert x * d == s - lo && y * d == t - lo;
      TimesOrder(x, y, d);
    }
  }

  lemma TimesOrder(x: real, y: real, d: real)
    requires d > 0.0
    ensures x <= y <==> x * d <= y * d
  {
    if x <= y { MulMono(x, y, d); } else { MulMonoStrict(y, x, d); }
  }

  /** The scale: the largest candidate scores 1, the smallest 0, and in between the score is the share of
      the way; when all tie, all score 1. */
  lemma NormalizedScale<T(!new), K>(items: seq<T>, id: T -> K, f: T -> real, i: T, lo: T, hi: T)
    requires OwnIds(items, id) && i in items && lo in items && hi in items
    requires forall x :: x in items ==> f(lo) <= f(x) <= f(hi)
    ensures var m := Normalized(items, id, f);
      && id(i) in m
      && (f(i) == f(hi) ==> m[id(i)] == 1.0)
      && (f(i) == f(lo) < f(hi) ==> m[id(i)] == 0.0)
      && (f(lo) < f(hi) ==> m[id(i)] * (f(hi) - f(lo)) == f(i) - f(lo))
  {
    NormalizedAt(items, id, f, i, lo, hi);
    ScaledIs(f(i), f(lo), f(hi));
  }

  lemma {:induction false} ExtremesAttained<T>(items: seq<T>, f: T -> real)
    requires items != []
    ensures exists x :: x in items && f(x) == MinOf(items, f)
    ensures exists x :: x in items && f(x) == MaxOf(items, f)
  {
    assert items[0] in items;
    if |items| > 1 {
      ExtremesAttained(items[1..], f);
      var x :| x in items[1..] && f(x) == MinOf(items[1..], f);
      var y :| y in items[1..] && f(y) == MaxOf(items[1..], f);
      assert x in items && y in items;
    }
  }

  lemma {:induction false} ScaledMapAt<T(!new), K>(
      items: seq<T>, id: T -> K, f: T -> real, lo: real, hi: real, i: T)
    requires OwnIds(items, id) && i in items
    ensures var m := ScaledMap(items, id, f, lo, hi); id(i) in m && m[id(i)] == Scaled(f(i), lo, hi)
  {
    var n := |items| - 1;
    assert items == items[..n] + [items[n]] && items[n] in items;
    if id(i) != id(items[n]) {
      assert i in items[..n] && forall x :: x in items[..n] ==> x in items;
      ScaledMapAt(items[..n], id, f, lo, hi, i);
    }
  }

  /** A larger candidate never scores lower, and one that is strictly larger scores strictly higher. */
  lemma NormalizedOrder<T(!new), K>(items: seq<T>, id: T -> K, f: T -> real, a: T, b: T)
    requires OwnIds(items, id) && a in items && b in items
    ensures var m := Normalized(items, id, f);
      id(a) in m && id(b) in m && (f(a) <= f(b) <==> m[id(a)] <= m[id(b)])
  {
    ExtremesBound(items, f);
    ExtremesAttained(items, f);
    var lo :| lo in items && f(lo) == MinOf(items, f);
    var hi :| hi in items && f(hi) == MaxOf(items, f);
    NormalizedAt(items, id, f, a, lo, hi);
    NormalizedAt(items, id, f, b, lo, hi);
    ScaledOrder(f(a), f(b), f(lo), f(hi));
  }

  lemma {:induction false} ExtremesBound<T>(items: seq<T>, f: T -> real)
    requires items != []
    ensures forall i :: i in items ==> MinOf(items, f) <= f(i) <= MaxOf(items, f)
  {
    if |items| > 1 {
      ExtremesBound(items[1..], f);
      assert forall i :: i in items ==> i == items[0] || i in items[1..];
    }
  }

  lemma {:induction false} ScaledMapInUnit<T, K>(items: seq<T>, id: T -> K, f: T -> real, lo: real, hi: real)
    requires forall i :: i in items ==> lo <= f(i) <= hi
    ensures var m := ScaledMap(items, id, f, lo, hi);
      && (forall i :: i in items ==> id(i) in m)
      && (forall k :: k in m ==> 0.0 <= m[k] <= 1.0)
  {
    if items != [] {
      var last := items[|items| - 1];
      ScaledMapInUnit(items[..|items| - 1], id, f, lo, hi);
      assert forall i :: i in items ==> i == last || i in items[..|items| - 1];
      ScaledInUnit(f(last), lo, hi);
    }
  }

  lemma ScaledInUnit(t: real, lo: real, hi: real)
    requires lo <= t <= hi
    ensures 0.0 <= Scaled(t, lo, hi) <= 1.0
  {
    if hi != lo {
      var d, n := hi - lo, t - lo;
      var q := n / d;
      assert q * d == n;
      if q < 0.0 { MulMonoStrict(q, 0.0, d); }
      if q > 1.0 { MulMonoStrict(1.0, q, d); }
    }
  }

  // ---- Weighted sums ----

  /** What a component gains by `d` under the weight `w`. */
  function Gain(w: real, d: real): real { w * d }

  lemma GainSign(w: real, d: real)
    requires w >= 0.0 && d >= 0.0
    ensures Gain(w, d) >= 0.0 && (w > 0.0 && d > 0.0 ==> Gain(w, d) > 0.0)
  {
  }

  lemma GainIs(w: real, x: real, y: real)
    ensures Gain(w, x - y) == w * x - w * y
  {
  }

  lemma GainsAdd(score: real, score': real, a: real, b: real, c: real, d: real)
    requires score - score' == a + b + c + d && a >= 0.0 && b >= 0.0 && c >= 0.0 && d >= 0.0
    ensures score >= score' && (a > 0.0 || b > 0.0 || c > 0.0 || d > 0.0 ==> score > score')
  {
  }

  lemma QuotientOrder(x: real, y: real, c: pos)
    ensures x < y <==> x / c as real < y / c as real
  {
    var p, q, d := x / c as real, y / c as real, c as real;
    assert p * d == x && q * d == y;
    TimesOrder(q, p, d);
  }

  // ---- Reading the values through another clock ----

  /** A clock that shows a*t + b where the first shows t. */
  function Affine(a: real, b: real): real -> real {
    (t: real) => a * t + b
  }

  ghost predicate KeepsOrder(g: real -> real) {
    forall s, t :: s <= t <==> g(s) <= g(t)
  }

  ghost predicate KeepsRatios(g: real -> real) {
    forall t, lo, hi :: Scaled(g(t), g(lo), g(hi)) == Scaled(t, lo, hi)
  }

  lemma AffineKeeps(a: real, b: real)
    requires a > 0.0
    ensures KeepsOrder(Affine(a, b)) && KeepsRatios(Affine(a, b))
  {
    var g := Affine(a, b);
    forall s, t
      ensures s <= t <==> g(s) <= g(t)
    {
      AffineOrder(s, t, a, b);
    }
    forall t, lo, hi
      ensures Scaled(g(t), g(lo), g(hi)) == Scaled(t, lo, hi)
    {
      AffineRatio(t, lo, hi, a, b);
    }
  }

  lemma AffineOrder(s: real, t: real, a: real, b: real)
    requires a > 0.0
    ensures s <= t <==> Affine(a, b)(s) <= Affine(a, b)(t)
  {
    ScaleOrder(s, t, a, b);
    assert Affine(a, b)(s) == a * s + b && Affine(a, b)(t) == a * t + b;
  }

  lemma AffineRatio(t: real, lo: real, hi: real, a: real, b: real)
    requires a > 0.0
    ensures var g := Affine(a, b); Scaled(g(t), g(lo), g(hi)) == Scaled(t, lo, hi)
  {
    ScaledOnClock(t, lo, hi, a, b);
  }

  lemma ScaleOrder(s: real, t: real, a: real, b: real)
    requires a > 0.0
    ensures s <= t <==> a * s + b <= a * t + b
  {
    if s <= t { MulMono(s, t, a); } else { MulMonoStrict(t, s, a); }
  }

  lemma ScaledOnClock(t: real, lo: real, hi: real, a: real, b: real)
    requires a > 0.0
    ensures Scaled(a * t + b, a * lo + b, a * hi + b) == Scaled(t, lo, hi)
  {
    if hi != lo {
      var q := (t - lo) / (hi - lo);
      assert q * (hi - lo) == t - lo;
      var d := (a * hi + b) - (a * lo + b);
      assert d == a * (hi - lo);
      if hi > lo { MulMonoStrict(0.0, hi - lo, a); } else { MulMonoStrict(hi - lo, 0.0, a); }
      assert q * d == a * (q * (hi - lo));
      assert q * d == (a * t + b) - (a * lo + b);
      QuotientUnique((a * t + b) - (a * lo + b), d, q);
    }
  }

  lemma QuotientUnique(n: real, d: real, q: real)
    requires d != 0.0 && q * d == n
    ensures n / d == q
  {
  }

  /** The normalised scores are the same on both clocks: `h` re-reads each item, `g` each value. */
  lemma NormalizedThrough<T, K>(items: seq<T>, id: T -> K, f: T -> real, h: T -> T, g: real -> real)
    requires KeepsOrder(g) && KeepsRatios(g)
    requires forall i :: i in items ==> id(h(i)) == id(i) && f(h(i)) == g(f(i))
    ensures Normalized(Map(items, h), id, f) == Normalized(items, id, f)
  {
    if items != [] {
      ExtremesThrough(items, f, h, g);
      ScaledMapThrough(items, id, f, MinOf(items, f), MaxOf(items, f), h, g);
    }
  }

  lemma {:induction false} ExtremesThrough<T>(items: seq<T>, f: T -> real, h: T -> T, g: real -> real)
    requires KeepsOrder(g) && items != []
    requires forall i :: i in items ==> f(h(i)) == g(f(i))
    ensures MinOf(Map(items, h), f) == g(MinOf(items, f))
    ensures MaxOf(Map(items, h), f) == g(MaxOf(items, f))
  {
    if |items| > 1 {
      ExtremesThrough(items[1..], f, h, g);
      assert Map(items, h)[1..] == Map(items[1..], h);
    }
  }

  lemma {:induction false} ScaledMapThrough<T, K>(items: seq<T>, id: T -> K, f: T -> real, lo: real, hi: real,
                                               h: T -> T, g: real -> real)
    requires KeepsRatios(g)
    requires forall i :: i in items ==> id(h(i)) == id(i) && f(h(i)) == g(f(i))
    ensures ScaledMap(Map(items, h), id, f, g(lo), g(hi)) == ScaledMap(items, id, f, lo, hi)
  {
    if items != [] {
      var n := |items| - 1;
      ScaledMapThrough(items[..n], id, f, lo, hi, h, g);
      assert Map(items, h)[..n] == Map(items[..n], h);
      assert Scaled(g(f(items[n])), g(lo), g(hi)) == Scaled(f(items[n]), lo, hi);
    }
  }

  /** Values untouched by the re-reading keep their scores. */
  lemma NormalizedUntouched<T, K>(items: seq<T>, id: T -> K, f: T -> real, h: T -> T)
    requires forall i :: i in items ==> id(h(i)) == id(i) && f(h(i)) == f(i)
    ensures Normalized(Map(items, h), id, f) == Normalized(items, id, f)
  {
    NormalizedThrough(items, id, f, h, (t: real) => t);
  }
}
