/** memory/ranking.py and memory/retrieval.py: scoring stored memories and packing them into a budget. */
module Memory {
  import opened Seqs
  import opened Packing
  import opened Normalizing
  import opened ContextModels

  datatype MemoryItem = MemoryItem(
    content: string,
    importance: real,
    id: string,
    lastUsedAt: real,
    accessCount: int)

  datatype Weights = Weights(relevance: real, importance: real, recency: real, accessFrequency: real)

  const DEFAULT_WEIGHTS := Weights(0.25, 0.25, 0.25, 0.25)

  // ---- Ranking ----

  function Lower(c: char): char {
    if 'A' <= c <= 'Z' then c - 'A' + 'a' else c
  }

  predicate WordChar(c: char) {
    'a' <= c <= 'z' || '0' <= c <= '9'
  }

  /** The maximal runs of letters and digits in `text`; `run` is the run being read. */
  function WordsFrom(text: string, run: string): set<string> {
    if text == [] then (if run == [] then {} else {run})
    else if WordChar(Lower(text[0])) then WordsFrom(text[1..], run + [Lower(text[0])])
    else (if run == [] then {} else {run}) + WordsFrom(text[1..], [])
  }

  function Words(text: string): set<string> {
    WordsFrom(text, [])
  }

  /** `word` is a maximal run of letters and digits of `text`, from `i` to `j`, in lower case. */
  ghost predicate RunAt(text: string, i: nat, j: nat, word: string) {
    && i < j <= |text| && |word| == j - i
    && (forall k :: 0 <= k < |word| ==>
          if 'A' <= text[i + k] <= 'Z' then word[k] == text[i + k] - 'A' + 'a' else word[k] == text[i + k])
    && (forall k :: 0 <= k < |word| ==> 'a' <= word[k] <= 'z' || '0' <= word[k] <= '9')
    && (i > 0 ==> !Alphanumeric(text[i - 1])) && (j < |text| ==> !Alphanumeric(text[j]))
  }

  predicate Alphanumeric(c: char) {
    'a' <= c <= 'z' || 'A' <= c <= 'Z' || '0' <= c <= '9'
  }

  /** In the middle of `text`, `run` is the part read so far of the run that begins before `k`. */
  ghost predicate Reading(text: string, k: nat, run: string) {
    && |run| <= k <= |text|
    && (forall m :: 0 <= m < |run| ==> run[m] == Lower(text[k - |run| + m]))
    && (forall m :: k - |run| <= m < k ==> Alphanumeric(text[m]))
    && (k > |run| ==> !Alphanumeric(text[k - |run| - 1]))
  }

  lemma LowerIs(c: char)
    ensures Alphanumeric(c) <==> WordChar(Lower(c))
    ensures Lower(c) == if 'A' <= c <= 'Z' then c - 'A' + 'a' else c
  {
  }

  /** The run that ends at `k` is the one being read. */
  lemma ReadRun(text: string, k: nat, run: string, i: nat, j: nat, word: string)
    requires Reading(text, k, run) && (k < |text| ==> !Alphanumeric(text[k])) && k - |run| <= i <= k
    ensures RunAt(text, i, j, word) <==> run != "" && i == k - |run| && j == k && word == run
  {
    if RunAt(text, i, j, word) {
      assert Alphanumeric(text[i]) by {
        LowerIs(text[i]);
        assert word[0] == Lower(text[i + 0]) && WordChar(word[0]);
      }
      assert i < k;
      if k < j {
        LowerIs(text[k]);
        assert word[k - i] == Lower(text[i + (k - i)]) && WordChar(word[k - i]);
      }
    }
    if run != "" && i == k - |run| && j == k && word == run {
      forall m | 0 <= m < |word|
        ensures WordChar(word[m])
      {
        LowerIs(text[i + m]);
      }
    }
  }

  lemma {:induction false} WordsFromRuns(text: string, k: nat, run: string, word: string)
    requires Reading(text, k, run)
    ensures word in WordsFrom(text[k..], run) <==> exists i, j :: k - |run| <= i && RunAt(text, i, j, word)
    decreases |text| - k
  {
    if k == |text| {
      forall i, j | k - |run| <= i
        ensures RunAt(text, i, j, word) <==> run != "" && i == k - |run| && j == k && word == run
      {
        if i <= k {
          ReadRun(text, k, run, i, j, word);
        }
      }
      assert word == run != "" ==> RunAt(text, k - |run|, k, word);
    } else {
      LowerIs(text[k]);
      assert text[k..][0] == text[k] && text[k..][1..] == text[k + 1..];
      if Alphanumeric(text[k]) {
        WordsFromRuns(text, k + 1, run + [Lower(text[k])], word);
      } else {
        WordsFromRuns(text, k + 1, "", word);
        forall i, j | k - |run| <= i <= k
          ensures RunAt(text, i, j, word) <==> run != "" && i == k - |run| && j == k && word == run
        {
          ReadRun(text, k, run, i, j, word);
        }
        if word == run != "" {
          ReadRun(text, k, run, k - |run|, k, word);
          assert RunAt(text, k - |run|, k, word);
        }
      }
    }
  }

  /** The words of a text are its maximal runs of letters and digits, in lower case. */
  lemma WordsAreRuns(text: string, word: string)
    ensures word in Words(text) <==> exists i, j :: RunAt(text, i, j, word)
  {
    WordsFromRuns(text, 0, "", word);
    assert text[0..] == text;
  }

  /** The share of `common` among `all`. */
  function Share(common: set<string>, all: set<string>): (r: real)
    requires common <= all
    ensures 0.0 <= r <= 1.0 && (r == 0.0 <==> common == {})
    ensures r * |all| as real == |common| as real
  {
    if all == {} then 0.0
    else
      SubsetSmaller(common, all);
      SubsetSmaller({}, common);
      QuotientInUnit(|common| as real, |all| as real);
      |common| as real / |all| as real
  }

  /** Jaccard similarity of the two word sets: the share of the common words among all words of the two
      texts, if there are any. */
  function LexicalRelevance(query: string, content: string): (r: real)
    ensures 0.0 <= r <= 1.0
    ensures r == 0.0 <==> Words(query) * Words(content) == {}
    ensures r == Share(Words(query) * Words(content), Words(query) + Words(content))
  {
    var q, c := Words(query), Words(content);
    if query == [] || q == {} || c == {} then
      assert query == [] ==> q == {};
      0.0
    else Share(q * c, q + c)
  }

  lemma QuotientInUnit(n: real, d: real)
    requires 0.0 <= n <= d && d > 0.0
    ensures 0.0 <= n / d <= 1.0 && (n / d == 0.0 <==> n == 0.0) && n / d * d == n
  {
    var q := n / d;
    assert q * d == n;
    if q < 0.0 { MulMonoStrict(q, 0.0, d); }
    if q > 1.0 { MulMonoStrict(1.0, q, d); }
  }

  function IdOf(): MemoryItem -> string { (i: MemoryItem) => i.id }

  function LastUsed(): MemoryItem -> real { (i: MemoryItem) => i.lastUsedAt }

  function Accesses(): MemoryItem -> real { (i: MemoryItem) => i.accessCount as real }

  function Lookup(m: map<string, real>, id: string): real {
    if id in m then m[id] else 0.0
  }

  function MemoryScore(w: Weights, relevance: real, importance: real, recency: real, access: real): real {
    w.relevance * relevance + w.importance * importance + w.recency * recency + w.accessFrequency * access
  }

  lemma MemoryScoreNonNegative(w: Weights, relevance: real, importance: real, recency: real, access: real)
    requires w.relevance >= 0.0 && w.importance >= 0.0 && w.recency >= 0.0 && w.accessFrequency >= 0.0
    requires relevance >= 0.0 && importance >= 0.0 && recency >= 0.0 && access >= 0.0
    ensures MemoryScore(w, relevance, importance, recency, access) >= 0.0
  {
    MulMono(0.0, w.relevance, relevance);
    MulMono(0.0, w.importance, importance);
    MulMono(0.0, w.recency, recency);
    MulMono(0.0, w.accessFrequency, access);
  }

  /** `score_memories`, as the score it assigns to each candidate of `items`. */
  function Score(items: seq<MemoryItem>, query: string, w: Weights): MemoryItem -> real {
    var recency := Normalized(items, IdOf(), LastUsed());
    var access := Normalized(items, IdOf(), Accesses());
    (i: MemoryItem) =>
      MemoryScore(w, LexicalRelevance(query, i.content), i.importance, Lookup(recency, i.id), Lookup(access, i.id))
  }

  function WeightsOrDefault(weights: Option<Weights>): Weights {
    if weights.Some? then weights.value else DEFAULT_WEIGHTS
  }

  function MemoryCost(): MemoryItem -> pos { (i: MemoryItem) => EstimateTokens(i.content) }

  // ---- Retrieval ----

  /** The packing behind `retrieve_relevant_memories`; the source keeps only what is selected. */
  function RetrievalPack(items: seq<MemoryItem>, budget: int, query: string, weights: Option<Weights>)
      : Packed<MemoryItem>
  {
    var density := Density(MemoryCost(), Score(items, query, WeightsOrDefault(weights)));
    Pack(Sorted(items, density, true), MemoryCost(), budget)
  }

  method SelectWithinBudget(items: seq<MemoryItem>, score: MemoryItem -> real, budgetTokens: int)
      returns (selected: seq<MemoryItem>)
    ensures selected == Pack(Sorted(items, Density(MemoryCost(), score), true), MemoryCost(), budgetTokens).selected
    ensures budgetTokens >= 0 ==> Spent(selected, MemoryCost()) <= budgetTokens
    ensures multiset(selected) <= multiset(items)
    ensures forall i :: i in items && i !in selected ==> MemoryCost()(i) > budgetTokens - Spent(selected, MemoryCost())
  {
    var ordered := Sorted(items, Density(MemoryCost(), score), true);
    var remaining := budgetTokens;
    selected := [];
    ghost var whole := Pack(ordered, MemoryCost(), budgetTokens);
    assert ordered[0..] == ordered;
    var k := 0;
    while k < |ordered|
      invariant 0 <= k <= |ordered|
      invariant whole.selected == selected + Pack(ordered[k..], MemoryCost(), remaining).selected
    {
      var item := ordered[k];
      PackStep(ordered, k, MemoryCost(), remaining);
      var cost := EstimateTokens(item.content);
      if cost <= remaining {
        selected := selected + [item];
        remaining := remaining - cost;
      }
      k := k + 1;
    }
    BudgetRespected(items, score, budgetTokens);
  }

  lemma BudgetRespected(items: seq<MemoryItem>, score: MemoryItem -> real, budget: int)
    ensures var selected := Pack(Sorted(items, Density(MemoryCost(), score), true), MemoryCost(), budget).selected;
      && (budget >= 0 ==> Spent(selected, MemoryCost()) <= budget)
      && multiset(selected) <= multiset(items)
      && forall i :: i in items && i !in selected ==> MemoryCost()(i) > budget - Spent(selected, MemoryCost())
  {
    var ordered := Sorted(items, Density(MemoryCost(), score), true);
    var p := Pack(ordered, MemoryCost(), budget);
    PackPartitions(ordered, MemoryCost(), budget);
    SortedByDensity(items, MemoryCost(), score);
    forall i | i in items && i !in p.selected
      ensures i in p.discarded
    {
      assert i in multiset(items);
      assert i !in multiset(p.selected);
      assert i in multiset(p.discarded);
    }
  }

  method RetrieveRelevantMemories(items: seq<MemoryItem>, budgetTokens: int, query: string, weights: Option<Weights>)
      returns (selected: seq<MemoryItem>)
    ensures selected == RetrievalPack(items, budgetTokens, query, weights).selected
    ensures OwnMemoryIds(items) && NonNegative(WeightsOrDefault(weights)) ==>
      KeepsBetter(items, selected, query, WeightsOrDefault(weights))
  {
    if items == [] {
      return [];
    }
    var score := Score(items, query, WeightsOrDefault(weights));
    selected := SelectWithinBudget(items, score, budgetTokens);
    if OwnMemoryIds(items) && NonNegative(WeightsOrDefault(weights)) {
      RetrievalKeepsBetter(items, budgetTokens, query, weights);
    }
  }

  lemma ScoresNonNegative(items: seq<MemoryItem>, query: string, w: Weights)
    requires w.relevance >= 0.0 && w.importance >= 0.0 && w.recency >= 0.0 && w.accessFrequency >= 0.0
    requires forall i :: i in items ==> i.importance >= 0.0
    ensures forall i :: i in items ==> Score(items, query, w)(i) >= 0.0
  {
    NormalizedInUnit(items, IdOf(), LastUsed());
    NormalizedInUnit(items, IdOf(), Accesses());
    forall i | i in items
      ensures Score(items, query, w)(i) >= 0.0
    {
      MemoryScoreNonNegative(w, LexicalRelevance(query, i.content), i.importance,
                             Lookup(Normalized(items, IdOf(), LastUsed()), i.id),
                             Lookup(Normalized(items, IdOf(), Accesses()), i.id));
    }
  }

  /** Memories have ids of their own. */
  ghost predicate OwnMemoryIds(items: seq<MemoryItem>) {
    forall x, y :: x in items && y in items && x.id == y.id ==> x == y
  }

  ghost predicate NonNegative(w: Weights) {
    w.relevance >= 0.0 && w.importance >= 0.0 && w.recency >= 0.0 && w.accessFrequency >= 0.0
  }

  /** `a` is at least as relevant to the query, important, recently used and often used as `b`. */
  ghost predicate AtLeastAsGood(a: MemoryItem, b: MemoryItem, query: string) {
    && LexicalRelevance(query, a.content) >= LexicalRelevance(query, b.content)
    && a.importance >= b.importance && a.lastUsedAt >= b.lastUsedAt && a.accessCount >= b.accessCount
  }

  /** And better in something that counts. */
  ghost predicate Better(a: MemoryItem, b: MemoryItem, query: string, w: Weights) {
    && AtLeastAsGood(a, b, query)
    && ((w.relevance > 0.0 && LexicalRelevance(query, a.content) > LexicalRelevance(query, b.content))
        || (w.importance > 0.0 && a.importance > b.importance)
        || (w.recency > 0.0 && a.lastUsedAt > b.lastUsedAt)
        || (w.accessFrequency > 0.0 && a.accessCount > b.accessCount))
  }

  /** How the scores of two memories differ. */
  lemma ScoreDifference(w: Weights, r: real, i: real, c: real, f: real, r': real, i': real, c': real, f': real)
    ensures MemoryScore(w, r, i, c, f) - MemoryScore(w, r', i', c', f')
         == Gain(w.relevance, r - r') + Gain(w.importance, i - i') + Gain(w.recency, c - c')
            + Gain(w.accessFrequency, f - f')
  {
    GainIs(w.relevance, r, r');
    GainIs(w.importance, i, i');
    GainIs(w.recency, c, c');
    GainIs(w.accessFrequency, f, f');
  }

  lemma MemoryScoreOrder(w: Weights, r: real, i: real, c: real, f: real, r': real, i': real, c': real, f': real)
    requires NonNegative(w) && r >= r' && i >= i' && c >= c' && f >= f'
    ensures MemoryScore(w, r, i, c, f) >= MemoryScore(w, r', i', c', f')
    ensures (w.relevance > 0.0 && r > r') || (w.importance > 0.0 && i > i')
        || (w.recency > 0.0 && c > c') || (w.accessFrequency > 0.0 && f > f')
      ==> MemoryScore(w, r, i, c, f) > MemoryScore(w, r', i', c', f')
  {
    ScoreDifference(w, r, i, c, f, r', i', c', f');
    GainSign(w.relevance, r - r');
    GainSign(w.importance, i - i');
    GainSign(w.recency, c - c');
    GainSign(w.accessFrequency, f - f');
    GainsAdd(MemoryScore(w, r, i, c, f), MemoryScore(w, r', i', c', f'), Gain(w.relevance, r - r'),
             Gain(w.importance, i - i'), Gain(w.recency, c - c'), Gain(w.accessFrequency, f - f'));
  }

  /** The scores follow the memories: the better of two scores higher. */
  lemma BetterScoresHigher(items: seq<MemoryItem>, query: string, w: Weights, a: MemoryItem, b: MemoryItem)
    requires OwnMemoryIds(items) && a in items && b in items && NonNegative(w) && AtLeastAsGood(a, b, query)
    ensures Score(items, query, w)(a) >= Score(items, query, w)(b)
    ensures Better(a, b, query, w) ==> Score(items, query, w)(a) > Score(items, query, w)(b)
  {
    var recency, access := Normalized(items, IdOf(), LastUsed()), Normalized(items, IdOf(), Accesses());
    NormalizedOrder(items, IdOf(), LastUsed(), a, b);
    NormalizedOrder(items, IdOf(), LastUsed(), b, a);
    NormalizedOrder(items, IdOf(), Accesses(), a, b);
    NormalizedOrder(items, IdOf(), Accesses(), b, a);
    MemoryScoreOrder(w, LexicalRelevance(query, a.content), a.importance, recency[a.id], access[a.id],
                     LexicalRelevance(query, b.content), b.importance, recency[b.id], access[b.id]);
  }

  lemma BetterNotDiscarded(items: seq<MemoryItem>, budget: int, query: string, weights: Option<Weights>,
                           a: MemoryItem, b: MemoryItem)
    requires OwnMemoryIds(items) && a in items && b in items && NonNegative(WeightsOrDefault(weights))
    requires Better(a, b, query, WeightsOrDefault(weights)) && EstimateTokens(a.content) == EstimateTokens(b.content)
    requires b in RetrievalPack(items, budget, query, weights).selected
    ensures a !in RetrievalPack(items, budget, query, weights).discarded
  {
    var score := Score(items, query, WeightsOrDefault(weights));
    BetterScoresHigher(items, query, WeightsOrDefault(weights), a, b);
    QuotientOrder(score(b), score(a), EstimateTokens(a.content));
    if a in RetrievalPack(items, budget, query, weights).discarded {
      var density := Density(MemoryCost(), score);
      StableSortSorts(items, Negated(density));
      PreferredFirst(Sorted(items, density, true), Negated(density), MemoryCost(), budget, b, a);
    }
  }

  /** So of two memories of the same cost the better one is never left out while the other is selected. */
  lemma BetterNotLeftOut(items: seq<MemoryItem>, budget: int, query: string, weights: Option<Weights>,
                         a: MemoryItem, b: MemoryItem)
    requires OwnMemoryIds(items) && a in items && b in items && NonNegative(WeightsOrDefault(weights))
    requires Better(a, b, query, WeightsOrDefault(weights)) && EstimateTokens(a.content) == EstimateTokens(b.content)
    requires b in RetrievalPack(items, budget, query, weights).selected
    ensures a in RetrievalPack(items, budget, query, weights).selected
  {
    BetterNotDiscarded(items, budget, query, weights, a, b);
    RetrievedOrDiscarded(items, budget, query, weights, a);
  }

  lemma RetrievedOrDiscarded(
      items: seq<MemoryItem>, budget: int, query: string, weights: Option<Weights>, a: MemoryItem)
    requires a in items
    ensures var p := RetrievalPack(items, budget, query, weights); a in p.selected || a in p.discarded
  {
    var score := Score(items, query, WeightsOrDefault(weights));
    SortedByDensity(items, MemoryCost(), score);
    PackPartitions(Sorted(items, Density(MemoryCost(), score), true), MemoryCost(), budget);
    var p := RetrievalPack(items, budget, query, weights);
    assert a in multiset(items) && multiset(p.selected) + multiset(p.discarded) == multiset(items);
  }

  /** No memory of the same cost is better than a selected one and left out. */
  ghost predicate KeepsBetter(items: seq<MemoryItem>, selected: seq<MemoryItem>, query: string, w: Weights) {
    forall a, b {:trigger Better(a, b, query, w)} ::
      && a in items && b in selected
      && EstimateTokens(a.content) == EstimateTokens(b.content) && Better(a, b, query, w)
      ==> a in selected
  }

  lemma RetrievalKeepsBetter(items: seq<MemoryItem>, budget: int, query: string, weights: Option<Weights>)
    requires OwnMemoryIds(items) && NonNegative(WeightsOrDefault(weights))
    ensures KeepsBetter(items, RetrievalPack(items, budget, query, weights).selected, query, WeightsOrDefault(weights))
  {
    var w := WeightsOrDefault(weights);
    var selected := RetrievalPack(items, budget, query, weights).selected;
    BudgetRespected(items, Score(items, query, w), budget);
    forall a, b {:trigger Better(a, b, query, w)} |
      a in items && b in selected && EstimateTokens(a.content) == EstimateTokens(b.content) && Better(a, b, query, w)
      ensures a in selected
    {
      assert b in multiset(selected);
      BetterNotLeftOut(items, budget, query, weights, a, b);
    }
  }

  /** The default weights treat the four components alike: the score is their mean. */
  lemma DefaultIsMean(items: seq<MemoryItem>, query: string, i: MemoryItem)
    requires OwnMemoryIds(items) && i in items
    ensures var recency, access := Normalized(items, IdOf(), LastUsed()), Normalized(items, IdOf(), Accesses());
      && i.id in recency && i.id in access
      && Score(items, query, WeightsOrDefault(None))(i) * 4.0
         == LexicalRelevance(query, i.content) + i.importance + recency[i.id] + access[i.id]
  {
    NormalizedOrder(items, IdOf(), LastUsed(), i, i);
    NormalizedOrder(items, IdOf(), Accesses(), i, i);
  }

  /** Retrieval is within the first overflowing memory of the best choice, under the default weights
      or any that are not negative. */
  lemma RetrievalApproximates(items: seq<MemoryItem>, budget: int, query: string, weights: Option<Weights>,
                              alt: seq<MemoryItem>)
    requires var w := WeightsOrDefault(weights);
      w.relevance >= 0.0 && w.importance >= 0.0 && w.recency >= 0.0 && w.accessFrequency >= 0.0
    requires forall i :: i in items ==> i.importance >= 0.0
    requires multiset(alt) <= multiset(items) && Spent(alt, MemoryCost()) <= budget
    ensures var score := Score(items, query, WeightsOrDefault(weights));
      var p := RetrievalPack(items, budget, query, weights);
      && (p.discarded == [] ==> SumReal(alt, score) <= SumReal(p.selected, score))
      && (p.discarded != [] ==>
            && SumReal(alt, score) <= SumReal(p.selected, score) + score(p.discarded[0])
            && GuaranteedShare(SumReal(alt, score), SumReal(p.selected, score), budget as real,
                               MemoryCost()(p.discarded[0]) as real))
  {
    var score := Score(items, query, WeightsOrDefault(weights));
    ScoresNonNegative(items, query, WeightsOrDefault(weights));
    SortedByDensity(items, MemoryCost(), score);
    DensityApproximation(Sorted(items, Density(MemoryCost(), score), true), MemoryCost(), score, budget, alt);
  }

  /** A larger budget never retrieves fewer tokens of memory. */
  lemma RetrievalMonotone(items: seq<MemoryItem>, less: int, more: int, query: string, weights: Option<Weights>)
    requires less <= more
    ensures Spent(RetrievalPack(items, less, query, weights).selected, MemoryCost())
         <= Spent(RetrievalPack(items, more, query, weights).selected, MemoryCost())
  {
    PackMonotone(Sorted(items, Density(MemoryCost(), Score(items, query, WeightsOrDefault(weights))), true),
                 MemoryCost(), less, more);
  }

  function Reused(g: real -> real): MemoryItem -> MemoryItem {
    (i: MemoryItem) => i.(lastUsedAt := g(i.lastUsedAt))
  }

  /** The unit and origin of the usage clock do not matter. */
  lemma RetrievalClockIndependence(items: seq<MemoryItem>, budget: int, query: string, weights: Option<Weights>,
                                   a: real, b: real)
    requires a > 0.0
    ensures var f := Reused(Affine(a, b));
      var p := RetrievalPack(items, budget, query, weights);
      RetrievalPack(Map(items, f), budget, query, weights) == Packed(Map(p.selected, f), Map(p.discarded, f))
  {
    var g, f := Affine(a, b), Reused(Affine(a, b));
    AffineKeeps(a, b);
    NormalizedThrough(items, IdOf(), LastUsed(), f, g);
    NormalizedUntouched(items, IdOf(), Accesses(), f);
    RetrievalReused(items, budget, query, weights, g);
  }

  lemma RetrievalReused(items: seq<MemoryItem>, budget: int, query: string, weights: Option<Weights>, g: real -> real)
    requires Normalized(Map(items, Reused(g)), IdOf(), LastUsed()) == Normalized(items, IdOf(), LastUsed())
    requires Normalized(Map(items, Reused(g)), IdOf(), Accesses()) == Normalized(items, IdOf(), Accesses())
    ensures var f := Reused(g);
      var p := RetrievalPack(items, budget, query, weights);
      RetrievalPack(Map(items, f), budget, query, weights) == Packed(Map(p.selected, f), Map(p.discarded, f))
  {
    var f, w := Reused(g), WeightsOrDefault(weights);
    var score := Score(items, query, w);
    assert Score(Map(items, f), query, w) == score;
    OrderReused(items, query, w, g);
    PackMap(Sorted(items, Density(MemoryCost(), score), true), f, MemoryCost(), MemoryCost(), budget);
  }

  lemma OrderReused(items: seq<MemoryItem>, query: string, w: Weights, g: real -> real)
    ensures var key := Density(MemoryCost(), Score(items, query, w));
      Sorted(Map(items, Reused(g)), key, true) == Map(Sorted(items, key, true), Reused(g))
  {
    var f, key := Reused(g), Negated(Density(MemoryCost(), Score(items, query, w)));
    forall x, y | x in items && y in items
      ensures key(x) <= key(y) <==> key(f(x)) <= key(f(y))
    {
      DensityReused(items, query, w, g, x);
      DensityReused(items, query, w, g, y);
    }
    StableSortMap(items, f, key, key);
  }

  lemma DensityReused(items: seq<MemoryItem>, query: string, w: Weights, g: real -> real, x: MemoryItem)
    ensures var score := Score(items, query, w);
      Density(MemoryCost(), score)(Reused(g)(x)) == Density(MemoryCost(), score)(x)
  {
    var score := Score(items, query, w);
    assert score(Reused(g)(x)) == score(x);
  }
}
