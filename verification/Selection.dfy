/** context/selection.py: choosing the part of a workflow's context that fits a token budget. */
module Selection {
  import opened Seqs
  import opened Packing
  import opened Normalizing
  import opened GreedyOrder
  import opened ContextModels

  datatype Weights = Weights(relevance: real, recency: real, importance: real)

  const DEFAULT_WEIGHTS := Weights(0.4, 0.3, 0.3)

  /** The policy names that `select_context` knows; every other string is `Other`. */
  datatype Policy = Full | Recent | MostRelevant | BudgetAware | Hybrid | Other(name: string)

  datatype SelectionError = UnknownPolicy(policy: Policy)

  datatype SelectionResult = SelectionResult(
    selected: seq<ContextItem>,
    discarded: seq<ContextItem>,
    policy: Policy,
    budgetTokens: int,
    candidateTokens: nat,
    selectedTokens: nat)

  function MakeResult(p: Packed<ContextItem>, policy: Policy, budget: int): SelectionResult {
    SelectionResult(p.selected, p.discarded, policy, budget,
                    TotalTokens(p.selected) + TotalTokens(p.discarded), TotalTokens(p.selected))
  }

  // ---- Sort keys ----

  function ItemIdOf(): ContextItem -> ItemId { (i: ContextItem) => i.id }

  function RecencyScores(items: seq<ContextItem>): map<ItemId, real> {
    Normalized(items, ItemIdOf(), CreatedAt())
  }

  function HybridScore(item: ContextItem, recency: real, w: Weights): real {
    w.relevance * item.relevance + w.recency * recency + w.importance * item.importance
  }

  function Relevance(): ContextItem -> real { (i: ContextItem) => i.relevance }

  function Importance(): ContextItem -> real { (i: ContextItem) => i.importance }

  function HybridValue(recency: map<ItemId, real>, w: Weights): ContextItem -> real {
    (i: ContextItem) => HybridScore(i, if i.id in recency then recency[i.id] else 0.0, w)
  }

  function ItemCost(): ContextItem -> pos { (i: ContextItem) => TokenCount(i) }

  function WeightsOrDefault(weights: Option<Weights>): Weights {
    if weights.Some? then weights.value else DEFAULT_WEIGHTS
  }

  /** What a policy's packing sorts by: the key and the direction. */
  function PolicyKey(items: seq<ContextItem>, policy: Policy, weights: Option<Weights>): (ContextItem -> real, bool)
    requires !policy.Other?
  {
    if policy.Full? then (CreatedAt(), false)
    else if policy.Recent? then (CreatedAt(), true)
    else if policy.MostRelevant? then (Relevance(), true)
    else if policy.BudgetAware? then (Density(ItemCost(), Importance()), true)
    else (Density(ItemCost(), HybridValue(RecencyScores(items), WeightsOrDefault(weights))), true)
  }

  /** The order in which a policy considers the candidates. */
  function PolicyOrder(items: seq<ContextItem>, policy: Policy, weights: Option<Weights>): seq<ContextItem>
    requires !policy.Other?
  {
    var (key, reverse) := PolicyKey(items, policy, weights);
    Sorted(items, key, reverse)
  }

  /** The packing that `SelectContext` computes. */
  function PolicyPack(items: seq<ContextItem>, budget: int, policy: Policy, weights: Option<Weights>)
      : Packed<ContextItem>
    requires !policy.Other?
  {
    Pack(PolicyOrder(items, policy, weights), ItemCost(), budget)
  }

  // ---- The operations ----

  method GreedyPack(items: seq<ContextItem>, budgetTokens: int, key: ContextItem -> real, reverse: bool)
      returns (selected: seq<ContextItem>, discarded: seq<ContextItem>)
    ensures Packed(selected, discarded) == Pack(Sorted(items, key, reverse), ItemCost(), budgetTokens)
    ensures multiset(selected) + multiset(discarded) == multiset(items)
    ensures budgetTokens >= 0 ==> TotalTokens(selected) <= budgetTokens
    ensures forall d :: d in discarded ==> TokenCount(d) > budgetTokens - TotalTokens(selected)
  {
    var ordered := Sorted(items, key, reverse);
    selected, discarded := [], [];
    var remaining := budgetTokens;
    var i := 0;
    ghost var whole := Pack(ordered, ItemCost(), budgetTokens);
    assert ordered[0..] == ordered;
    while i < |ordered|
      invariant 0 <= i <= |ordered|
      invariant whole.selected == selected + Pack(ordered[i..], ItemCost(), remaining).selected
      invariant whole.discarded == discarded + Pack(ordered[i..], ItemCost(), remaining).discarded
    {
      var item := ordered[i];
      PackStep(ordered, i, ItemCost(), remaining);
      if TokenCount(item) <= remaining {
        selected := selected + [item];
        remaining := remaining - TokenCount(item);
      } else {
        discarded := discarded + [item];
      }
      i := i + 1;
    }
    SortedPackPartitions(items, key, reverse, budgetTokens);
  }

  lemma SortedPackPartitions(items: seq<ContextItem>, key: ContextItem -> real, reverse: bool, budget: int)
    ensures var p := Pack(Sorted(items, key, reverse), ItemCost(), budget);
      && multiset(p.selected) + multiset(p.discarded) == multiset(items)
      && (budget >= 0 ==> TotalTokens(p.selected) <= budget)
      && (budget < 0 ==> p.selected == [])
      && forall d :: d in p.discarded ==> TokenCount(d) > budget - TotalTokens(p.selected)
  {
    StableSortSorts(items, if reverse then Negated(key) else key);
    PackPartitions(Sorted(items, key, reverse), ItemCost(), budget);
    SpentIsTotalTokens(Pack(Sorted(items, key, reverse), ItemCost(), budget).selected);
  }

  lemma {:induction false} SpentIsTotalTokens(items: seq<ContextItem>)
    ensures Spent(items, ItemCost()) == TotalTokens(items)
  {
    if items != [] {
      SpentIsTotalTokens(items[1..]);
    }
  }

  method SelectContext(items: seq<ContextItem>, budgetTokens: int, policy: Policy, weights: Option<Weights>)
      returns (r: Result<SelectionResult, SelectionError>)
    ensures policy.Other? ==> r == Err(UnknownPolicy(policy))
    ensures !policy.Other? ==>
      r == Ok(MakeResult(PolicyPack(items, budgetTokens, policy, weights), policy, budgetTokens))
    ensures r.Ok? ==>
      && r.value.policy == policy && r.value.budgetTokens == budgetTokens
      && r.value.selectedTokens == TotalTokens(r.value.selected)
      && r.value.candidateTokens == TotalTokens(r.value.selected) + TotalTokens(r.value.discarded)
    ensures r.Ok? ==> Prefers(policy, r.value.selected, r.value.discarded)
  {
    if policy.Other? {
      return Err(UnknownPolicy(policy));
    }
    var selected, discarded;
    if policy.Full? {
      selected, discarded := GreedyPack(items, budgetTokens, CreatedAt(), false);
    } else if policy.Recent? {
      selected, discarded := GreedyPack(items, budgetTokens, CreatedAt(), true);
    } else if policy.MostRelevant? {
      selected, discarded := GreedyPack(items, budgetTokens, Relevance(), true);
    } else if policy.BudgetAware? {
      selected, discarded := GreedyPack(items, budgetTokens, Density(ItemCost(), Importance()), true);
    } else {
      var w := WeightsOrDefault(weights);
      var recency := RecencyScores(items);
      selected, discarded := GreedyPack(items, budgetTokens, Density(ItemCost(), HybridValue(recency, w)), true);
    }
    SelectionPrefers(items, budgetTokens, policy, weights);
    return Ok(MakeResult(Packed(selected, discarded), policy, budgetTokens));
  }

  // ---- What every policy guarantees ----

  /** For every policy and budget: a partition of the candidates, within any non-negative budget,
      maximal in that nothing discarded would still fit. */
  lemma SelectionPartitions(items: seq<ContextItem>, budget: int, policy: Policy, weights: Option<Weights>)
    requires !policy.Other?
    ensures var r := MakeResult(PolicyPack(items, budget, policy, weights), policy, budget);
      && multiset(r.selected) + multiset(r.discarded) == multiset(items)
      && r.candidateTokens == TotalTokens(items)
      && (budget >= 0 ==> r.selectedTokens <= budget)
      && (budget < 0 ==> r.selected == [])
      && forall d :: d in r.discarded ==> TokenCount(d) > budget - r.selectedTokens
  {
    var (key, reverse) := PolicyKey(items, policy, weights);
    var p := PolicyPack(items, budget, policy, weights);
    SortedPackPartitions(items, key, reverse, budget);
    TotalTokensAppend(p.selected, p.discarded);
    TotalTokensPermutation(p.selected + p.discarded, items);
  }

  // ---- What each policy prefers ----

  /** Of a selected item and a discarded one that costs no more, `full` selects the one that is not newer,
      `recent` the one that is not older, `relevance` the one that is not less relevant, and
      `budget_aware` the one that is not less important per token. */
  ghost predicate Prefers(policy: Policy, selected: seq<ContextItem>, discarded: seq<ContextItem>) {
    forall s, d :: s in selected && d in discarded && TokenCount(d) <= TokenCount(s) ==>
      && (policy.Full? ==> s.createdAt <= d.createdAt)
      && (policy.Recent? ==> s.createdAt >= d.createdAt)
      && (policy.MostRelevant? ==> s.relevance >= d.relevance)
      && (policy.BudgetAware? ==> s.importance / TokenCount(s) as real >= d.importance / TokenCount(d) as real)
  }

  lemma KeyPrefers(items: seq<ContextItem>, budget: int, policy: Policy, weights: Option<Weights>,
                   s: ContextItem, d: ContextItem)
    requires !policy.Other? && TokenCount(d) <= TokenCount(s)
    requires s in PolicyPack(items, budget, policy, weights).selected
    requires d in PolicyPack(items, budget, policy, weights).discarded
    ensures SortKey(items, policy, weights)(s) <= SortKey(items, policy, weights)(d)
  {
    var key := SortKey(items, policy, weights);
    StableSortSorts(items, key);
    PreferredFirst(StableSort(items, key), key, ItemCost(), budget, s, d);
  }

  lemma KeyMeans(items: seq<ContextItem>, policy: Policy, weights: Option<Weights>, s: ContextItem, d: ContextItem)
    requires !policy.Other? && SortKey(items, policy, weights)(s) <= SortKey(items, policy, weights)(d)
    ensures policy.Full? ==> s.createdAt <= d.createdAt
    ensures policy.Recent? ==> s.createdAt >= d.createdAt
    ensures policy.MostRelevant? ==> s.relevance >= d.relevance
    ensures policy.BudgetAware? ==> s.importance / TokenCount(s) as real >= d.importance / TokenCount(d) as real
  {
  }

  lemma SelectionPrefers(items: seq<ContextItem>, budget: int, policy: Policy, weights: Option<Weights>)
    requires !policy.Other?
    ensures var p := PolicyPack(items, budget, policy, weights); Prefers(policy, p.selected, p.discarded)
  {
    var p := PolicyPack(items, budget, policy, weights);
    forall s, d | s in p.selected && d in p.discarded && TokenCount(d) <= TokenCount(s)
      ensures policy.Full? ==> s.createdAt <= d.createdAt
      ensures policy.Recent? ==> s.createdAt >= d.createdAt
      ensures policy.MostRelevant? ==> s.relevance >= d.relevance
      ensures policy.BudgetAware? ==> s.importance / TokenCount(s) as real >= d.importance / TokenCount(d) as real
    {
      KeyPrefers(items, budget, policy, weights, s, d);
      KeyMeans(items, policy, weights, s, d);
    }
  }

  /** The key of an ascending sort. */
  function SortKey(items: seq<ContextItem>, policy: Policy, weights: Option<Weights>): ContextItem -> real
    requires !policy.Other?
  {
    var (key, reverse) := PolicyKey(items, policy, weights);
    if reverse then Negated(key) else key
  }

  /** The turns that a policy gives to the positions of the candidates. Ties go by position. */
  function OldestFirst(items: seq<ContextItem>): (nat, nat) -> bool {
    (i: nat, j: nat) => i < |items| && j < |items| &&
      (items[i].createdAt < items[j].createdAt || (items[i].createdAt == items[j].createdAt && i < j))
  }

  function NewestFirst(items: seq<ContextItem>): (nat, nat) -> bool {
    (i: nat, j: nat) => i < |items| && j < |items| &&
      (items[i].createdAt > items[j].createdAt || (items[i].createdAt == items[j].createdAt && i < j))
  }

  function MostRelevantFirst(items: seq<ContextItem>): (nat, nat) -> bool {
    (i: nat, j: nat) => i < |items| && j < |items| &&
      (items[i].relevance > items[j].relevance || (items[i].relevance == items[j].relevance && i < j))
  }

  /** More value per token first. */
  function DensestFirst(items: seq<ContextItem>, value: ContextItem -> real): (nat, nat) -> bool {
    (i: nat, j: nat) => i < |items| && j < |items| &&
      var x, y := value(items[i]) / TokenCount(items[i]) as real, value(items[j]) / TokenCount(items[j]) as real;
      x > y || (x == y && i < j)
  }

  /** `full` takes the candidates in turn from the oldest on, each that fits what the ones taken before it
      leave over; the others from the newest, the most relevant, and the most important or most valuable
      per token on. There is one way to do so (`GreedyOrder.OneWay`). */
  lemma PoliciesTakeInTurn(items: seq<ContextItem>, budget: int, policy: Policy, weights: Option<Weights>)
      returns (taken: set<nat>)
    requires !policy.Other?
    ensures var p := PolicyPack(items, budget, policy, weights);
      match policy
      case Full => Explains(p, items, ItemCost(), budget, taken, OldestFirst(items))
      case Recent => Explains(p, items, ItemCost(), budget, taken, NewestFirst(items))
      case MostRelevant => Explains(p, items, ItemCost(), budget, taken, MostRelevantFirst(items))
      case BudgetAware => Explains(p, items, ItemCost(), budget, taken, DensestFirst(items, Importance()))
      case _ =>
        Explains(p, items, ItemCost(), budget, taken,
                 DensestFirst(items, HybridValue(RecencyScores(items), WeightsOrDefault(weights))))
  {
    var key := SortKey(items, policy, weights);
    match policy
    case Full => taken := GreedyExplained(items, key, ItemCost(), budget, OldestFirst(items));
    case Recent => taken := GreedyExplained(items, key, ItemCost(), budget, NewestFirst(items));
    case MostRelevant => taken := GreedyExplained(items, key, ItemCost(), budget, MostRelevantFirst(items));
    case BudgetAware => taken := GreedyExplained(items, key, ItemCost(), budget, DensestFirst(items, Importance()));
    case _ =>
      var value := HybridValue(RecencyScores(items), WeightsOrDefault(weights));
      taken := GreedyExplained(items, key, ItemCost(), budget, DensestFirst(items, value));
  }

  // ---- What the hybrid value is made of ----

  ghost predicate OwnItemIds(items: seq<ContextItem>) {
    forall x, y :: x in items && y in items && x.id == y.id ==> x == y
  }

  ghost predicate NonNegative(w: Weights) {
    w.relevance >= 0.0 && w.recency >= 0.0 && w.importance >= 0.0
  }

  /** `a` is at least as relevant, recent and important as `b`. */
  ghost predicate AtLeastAsGood(a: ContextItem, b: ContextItem) {
    a.relevance >= b.relevance && a.createdAt >= b.createdAt && a.importance >= b.importance
  }

  /** And better in something that counts. */
  ghost predicate Better(a: ContextItem, b: ContextItem, w: Weights) {
    && AtLeastAsGood(a, b)
    && ((w.relevance > 0.0 && a.relevance > b.relevance)
        || (w.recency > 0.0 && a.createdAt > b.createdAt)
        || (w.importance > 0.0 && a.importance > b.importance))
  }

  lemma HybridScoreOrder(a: ContextItem, r: real, b: ContextItem, r': real, w: Weights)
    requires NonNegative(w) && a.relevance >= b.relevance && r >= r' && a.importance >= b.importance
    ensures HybridScore(a, r, w) >= HybridScore(b, r', w)
    ensures (w.relevance > 0.0 && a.relevance > b.relevance) || (w.recency > 0.0 && r > r')
        || (w.importance > 0.0 && a.importance > b.importance)
      ==> HybridScore(a, r, w) > HybridScore(b, r', w)
  {
    GainIs(w.relevance, a.relevance, b.relevance);
    GainIs(w.recency, r, r');
    GainIs(w.importance, a.importance, b.importance);
    GainSign(w.relevance, a.relevance - b.relevance);
    GainSign(w.recency, r - r');
    GainSign(w.importance, a.importance - b.importance);
    GainsAdd(HybridScore(a, r, w), HybridScore(b, r', w), Gain(w.relevance, a.relevance - b.relevance),
             Gain(w.recency, r - r'), Gain(w.importance, a.importance - b.importance), 0.0);
  }

  /** The better of two items has the higher hybrid value. */
  lemma BetterValue(items: seq<ContextItem>, w: Weights, a: ContextItem, b: ContextItem)
    requires OwnItemIds(items) && a in items && b in items && NonNegative(w) && AtLeastAsGood(a, b)
    ensures var value := HybridValue(RecencyScores(items), w);
      value(a) >= value(b) && (Better(a, b, w) ==> value(a) > value(b))
  {
    var recency := RecencyScores(items);
    NormalizedOrder(items, ItemIdOf(), CreatedAt(), a, b);
    NormalizedOrder(items, ItemIdOf(), CreatedAt(), b, a);
    HybridScoreOrder(a, recency[a.id], b, recency[b.id], w);
  }

  /** So under `hybrid`, of two items of the same cost the better one is never left out while the other is
      selected. */
  lemma HybridKeepsBetter(items: seq<ContextItem>, budget: int, weights: Option<Weights>,
                          a: ContextItem, b: ContextItem)
    requires OwnItemIds(items) && a in items && b in items && NonNegative(WeightsOrDefault(weights))
    requires Better(a, b, WeightsOrDefault(weights)) && TokenCount(a) == TokenCount(b)
    requires b in PolicyPack(items, budget, Hybrid, weights).selected
    ensures a !in PolicyPack(items, budget, Hybrid, weights).discarded
  {
    var value := HybridValue(RecencyScores(items), WeightsOrDefault(weights));
    BetterValue(items, WeightsOrDefault(weights), a, b);
    QuotientOrder(value(b), value(a), TokenCount(a));
    if a in PolicyPack(items, budget, Hybrid, weights).discarded {
      var key := Negated(Density(ItemCost(), value));
      StableSortSorts(items, key);
      PreferredFirst(PolicyOrder(items, Hybrid, weights), key, ItemCost(), budget, b, a);
    }
  }

  /** The default weights: ten times the value is four times the relevance, three times the recency and three
      times the importance, where recency is 1 for the newest item and 0 for the oldest. */
  lemma DefaultValue(items: seq<ContextItem>, i: ContextItem, oldest: ContextItem, newest: ContextItem)
    requires OwnItemIds(items) && i in items && oldest in items && newest in items
    requires forall x :: x in items ==> oldest.createdAt <= x.createdAt <= newest.createdAt
    ensures var recency := RecencyScores(items);
      && i.id in recency
      && HybridValue(recency, WeightsOrDefault(None))(i) * 10.0
         == 4.0 * i.relevance + 3.0 * recency[i.id] + 3.0 * i.importance
      && (i.createdAt == newest.createdAt ==> recency[i.id] == 1.0)
      && (i.createdAt == oldest.createdAt < newest.createdAt ==> recency[i.id] == 0.0)
      && (oldest.createdAt < newest.createdAt ==>
            recency[i.id] * (newest.createdAt - oldest.createdAt) == i.createdAt - oldest.createdAt)
  {
    NormalizedScale(items, ItemIdOf(), CreatedAt(), i, oldest, newest);
  }

  function RealCost(): ContextItem -> real { (i: ContextItem) => TokenCount(i) as real }

  lemma {:induction false} TotalTokensReal(items: seq<ContextItem>)
    ensures SumReal(items, RealCost()) == TotalTokens(items) as real
  {
    if items != [] {
      TotalTokensReal(items[1..]);
    }
  }

  lemma TotalTokensPermutation(a: seq<ContextItem>, b: seq<ContextItem>)
    requires multiset(a) == multiset(b)
    ensures TotalTokens(a) == TotalTokens(b)
  {
    SumRealSubMultiset(a, b, RealCost());
    SumRealSubMultiset(b, a, RealCost());
    TotalTokensReal(a);
    TotalTokensReal(b);
  }

  /** Raising the budget never lowers the number of tokens selected. */
  lemma SelectionMonotone(items: seq<ContextItem>, less: int, more: int, policy: Policy, weights: Option<Weights>)
    requires !policy.Other? && less <= more
    ensures TotalTokens(PolicyPack(items, less, policy, weights).selected)
         <= TotalTokens(PolicyPack(items, more, policy, weights).selected)
  {
    PackMonotone(PolicyOrder(items, policy, weights), ItemCost(), less, more);
    SpentIsTotalTokens(PolicyPack(items, less, policy, weights).selected);
    SpentIsTotalTokens(PolicyPack(items, more, policy, weights).selected);
  }

  /** In the policy's order the selection is the lexicographically greatest subset that fits, and it
      is the only one. */
  lemma SelectionLexGreatest(items: seq<ContextItem>, budget: int, policy: Policy, weights: Option<Weights>,
                             mask: seq<bool>)
    requires !policy.Other? && budget >= 0
    ensures var ordered := PolicyOrder(items, policy, weights);
      LexGreatestFit(ordered, ItemCost(), budget, mask) ==>
        && Choose(ordered, mask) == PolicyPack(items, budget, policy, weights).selected
        && Choose(ordered, Negate(mask)) == PolicyPack(items, budget, policy, weights).discarded
    ensures var ordered := PolicyOrder(items, policy, weights);
      LexGreatestFit(ordered, ItemCost(), budget, GreedyMask(ordered, ItemCost(), budget))
  {
    var ordered := PolicyOrder(items, policy, weights);
    PackIsLexGreatest(ordered, ItemCost(), budget, mask);
    PackIsLexGreatest(ordered, ItemCost(), budget, GreedyMask(ordered, ItemCost(), budget));
    PackIsMask(ordered, ItemCost(), budget);
  }

  // ---- Approximation of the best subset ----

  /** The value a density policy packs by. */
  function PolicyValue(items: seq<ContextItem>, policy: Policy, weights: Option<Weights>): ContextItem -> real {
    if policy.BudgetAware? then Importance()
    else HybridValue(RecencyScores(items), WeightsOrDefault(weights))
  }

  /** `alt` is a choice among `items`, no item twice, that fits the budget. */
  ghost predicate Feasible(alt: seq<ContextItem>, items: seq<ContextItem>, budget: int) {
    multiset(alt) <= multiset(items) && TotalTokens(alt) <= budget
  }

  lemma SelectionApproximates(items: seq<ContextItem>, budget: int, policy: Policy, weights: Option<Weights>,
                              alt: seq<ContextItem>)
    requires policy.BudgetAware? || policy.Hybrid?
    requires forall i :: i in items ==> PolicyValue(items, policy, weights)(i) >= 0.0
    requires Feasible(alt, items, budget)
    ensures var value := PolicyValue(items, policy, weights);
      var p := PolicyPack(items, budget, policy, weights);
      && (p.discarded == [] ==> SumReal(alt, value) <= SumReal(p.selected, value))
      && (p.discarded != [] ==>
            && SumReal(alt, value) <= SumReal(p.selected, value) + value(p.discarded[0])
            && GuaranteedShare(SumReal(alt, value), SumReal(p.selected, value), budget as real,
                               TokenCount(p.discarded[0]) as real))
  {
    var value := PolicyValue(items, policy, weights);
    var ordered := PolicyOrder(items, policy, weights);
    assert ordered == Sorted(items, Density(ItemCost(), value), true);
    SortedByDensity(items, ItemCost(), value);
    SpentIsTotalTokens(alt);
    DensityApproximation(ordered, ItemCost(), value, budget, alt);
  }

  /** Scores in [0, 1] and weights that are not negative make every hybrid value non-negative, so the
      bound applies to them. */
  lemma HybridValuesNonNegative(items: seq<ContextItem>, weights: Option<Weights>)
    requires var w := WeightsOrDefault(weights); w.relevance >= 0.0 && w.recency >= 0.0 && w.importance >= 0.0
    requires forall i :: i in items ==> i.relevance >= 0.0 && i.importance >= 0.0
    ensures forall i :: i in items ==> PolicyValue(items, Hybrid, weights)(i) >= 0.0
  {
    var w := WeightsOrDefault(weights);
    var recency := RecencyScores(items);
    NormalizedInUnit(items, ItemIdOf(), CreatedAt());
    forall i | i in items
      ensures PolicyValue(items, Hybrid, weights)(i) >= 0.0
    {
      ScoreNonNegative(i, if i.id in recency then recency[i.id] else 0.0, w);
    }
  }

  lemma ScoreNonNegative(item: ContextItem, recency: real, w: Weights)
    requires w.relevance >= 0.0 && w.recency >= 0.0 && w.importance >= 0.0
    requires item.relevance >= 0.0 && recency >= 0.0 && item.importance >= 0.0
    ensures HybridScore(item, recency, w) >= 0.0
  {
    MulMono(0.0, w.relevance, item.relevance);
    MulMono(0.0, w.recency, recency);
    MulMono(0.0, w.importance, item.importance);
  }

  // ---- Independence of the clock's unit and origin ----

  /** The same item with its creation time read through `g`. */
  function Retimed(g: real -> real): ContextItem -> ContextItem {
    (i: ContextItem) => i.(createdAt := g(i.createdAt))
  }

  /** Changing the clock's unit (a > 0) and origin changes no policy's selection. */
  lemma ClockIndependence(items: seq<ContextItem>, budget: int, policy: Policy, weights: Option<Weights>,
                          a: real, b: real)
    requires !policy.Other? && a > 0.0
    ensures var p := PolicyPack(items, budget, policy, weights);
      var f := Retimed(Affine(a, b));
      PolicyPack(Map(items, f), budget, policy, weights) == Packed(Map(p.selected, f), Map(p.discarded, f))
  {
    AffineKeeps(a, b);
    RetimedSelection(items, budget, policy, weights, Affine(a, b));
  }

  lemma RetimedSelection(items: seq<ContextItem>, budget: int, policy: Policy, weights: Option<Weights>,
                         g: real -> real)
    requires !policy.Other? && KeepsOrder(g) && KeepsRatios(g)
    ensures var p := PolicyPack(items, budget, policy, weights);
      PolicyPack(Map(items, Retimed(g)), budget, policy, weights)
        == Packed(Map(p.selected, Retimed(g)), Map(p.discarded, Retimed(g)))
  {
    NormalizedThrough(items, ItemIdOf(), CreatedAt(), Retimed(g), g);
    RetimedOrder(items, policy, weights, g);
    PackMap(PolicyOrder(items, policy, weights), Retimed(g), ItemCost(), ItemCost(), budget);
  }

  lemma RetimedOrder(items: seq<ContextItem>, policy: Policy, weights: Option<Weights>, g: real -> real)
    requires !policy.Other? && KeepsOrder(g)
    requires RecencyScores(Map(items, Retimed(g))) == RecencyScores(items)
    ensures PolicyOrder(Map(items, Retimed(g)), policy, weights) == Map(PolicyOrder(items, policy, weights), Retimed(g))
  {
    var f := Retimed(g);
    var (key, reverse) := PolicyKey(items, policy, weights);
    var (key', reverse') := PolicyKey(Map(items, f), policy, weights);
    var k, k' := if reverse then Negated(key) else key, if reverse then Negated(key') else key';
    forall x, y | x in items && y in items
      ensures k(x) <= k(y) <==> k'(f(x)) <= k'(f(y))
    {
      KeyRetimed(items, policy, weights, g, x, y);
      KeyRetimed(items, policy, weights, g, y, x);
    }
    StableSortMap(items, f, k, k');
  }

  lemma KeyRetimed(items: seq<ContextItem>, policy: Policy, weights: Option<Weights>, g: real -> real,
                   x: ContextItem, y: ContextItem)
    requires !policy.Other? && KeepsOrder(g)
    requires RecencyScores(Map(items, Retimed(g))) == RecencyScores(items)
    ensures var f := Retimed(g);
      var (key, reverse) := PolicyKey(items, policy, weights);
      var (key', reverse') := PolicyKey(Map(items, f), policy, weights);
      reverse == reverse' && (key(x) <= key(y) <==> key'(f(x)) <= key'(f(y)))
  {
    if policy.BudgetAware? || policy.Hybrid? {
      var value := PolicyValue(items, policy, weights);
      DensityRetimed(items, policy, weights, g, x);
      DensityRetimed(items, policy, weights, g, y);
    }
  }

  lemma DensityRetimed(items: seq<ContextItem>, policy: Policy, weights: Option<Weights>, g: real -> real,
                       x: ContextItem)
    ensures var value := PolicyValue(items, policy, weights);
      Density(ItemCost(), value)(Retimed(g)(x)) == Density(ItemCost(), value)(x)
  {
    var value := PolicyValue(items, policy, weights);
    assert value(Retimed(g)(x)) == value(x);
  }
}
