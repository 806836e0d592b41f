/**
 Merging the numeric contracts of several sources for one model. Lanes are
 compared as prices (base ratio times lane ratio) and turned back into ratios.
 */
module PriceMerge {
  import opened Names
  import opened PricingData

  datatype Strategy = Highest | Lowest | Average

  type Lanes = map<Field, real>

  // ---------- Aggregation of one lane ----------

  function Sum(v: seq<real>): real {
    if v == [] then 0.0 else Sum(v[..|v| - 1]) + v[|v| - 1]
  }

  function Greatest(v: seq<real>): real
    requires v != []
  {
    if |v| == 1 then v[0]
    else
      var g := Greatest(v[..|v| - 1]);
      if v[|v| - 1] > g then v[|v| - 1] else g
  }

  function Least(v: seq<real>): real
    requires v != []
  {
    if |v| == 1 then v[0]
    else
      var g := Least(v[..|v| - 1]);
      if v[|v| - 1] < g then v[|v| - 1] else g
  }

  function Aggregate(strategy: Strategy, v: seq<real>): real
    requires v != []
  {
    match strategy
    case Highest => Greatest(v)
    case Lowest => Least(v)
    case Average => Sum(v) / |v| as real
  }

  lemma {:induction false} GreatestLeast(v: seq<real>)
    requires v != []
    ensures Greatest(v) in v && Least(v) in v
    ensures forall x :: x in v ==> Least(v) <= x <= Greatest(v)
  {
    if |v| > 1 {
      GreatestLeast(v[..|v| - 1]);
      assert v == v[..|v| - 1] + [v[|v| - 1]];
    }
  }

  lemma OneLess(m: nat, n: nat, x: real)
    requires n == m + 1
    ensures m as real * x == n as real * x - x
  {
  }

  lemma {:induction false} SumBounds(v: seq<real>, lo: real, hi: real)
    requires forall x :: x in v ==> lo <= x <= hi
    ensures |v| as real * lo <= Sum(v) <= |v| as real * hi
  {
    if v != [] {
      var front := v[..|v| - 1];
      assert forall x :: x in front ==> x in v;
      SumBounds(front, lo, hi);
      assert v[|v| - 1] in v;
      OneLess(|front|, |v|, lo);
      OneLess(|front|, |v|, hi);
    }
  }

  lemma DivideBounds(total: real, n: real, lo: real, hi: real)
    requires n > 0.0 && n * lo <= total <= n * hi
    ensures lo <= total / n <= hi
    ensures total / n * n == total
  {
    var q := total / n;
    assert q * n == total;
    assert lo <= q by { assert (q - lo) * n >= 0.0; }
    assert q <= hi by { assert (hi - q) * n >= 0.0; }
  }

  lemma {:induction false} SumRemoveAt(v: seq<real>, k: nat)
    requires k < |v|
    ensures Sum(v) == Sum(RemoveAt(v, k)) + v[k]
  {
    if k == |v| - 1 {
      assert RemoveAt(v, k) == v[..k];
    } else {
      SumRemoveAt(v[..|v| - 1], k);
      var r := RemoveAt(v, k);
      assert r[..|r| - 1] == RemoveAt(v[..|v| - 1], k);
      assert r[|r| - 1] == v[|v| - 1];
    }
  }

  lemma {:induction false} SumPermutation(v: seq<real>, w: seq<real>)
    requires multiset(v) == multiset(w)
    ensures Sum(v) == Sum(w)
    decreases |v|
  {
    MultisetMember(v, w);
    if v != [] {
      assert v[0] in w;
      var k :| 0 <= k < |w| && w[k] == v[0];
      RemoveAtMultiset(v, 0);
      RemoveAtMultiset(w, k);
      SumRemoveAt(v, 0);
      SumRemoveAt(w, k);
      SumPermutation(RemoveAt(v, 0), RemoveAt(w, k));
    }
  }

  /** Whatever the strategy, the aggregate lies between the extremes; the average is the true mean. */
  lemma AggregateBounds(strategy: Strategy, v: seq<real>)
    requires v != []
    ensures Least(v) <= Aggregate(strategy, v) <= Greatest(v)
    ensures strategy.Average? ==> Aggregate(strategy, v) * |v| as real == Sum(v)
    ensures !strategy.Average? ==> Aggregate(strategy, v) in v
  {
    if strategy.Average? { MeanBounds(v); } else { GreatestLeast(v); }
  }

  lemma MeanBounds(v: seq<real>)
    requires v != []
    ensures Least(v) <= Sum(v) / |v| as real <= Greatest(v)
    ensures (Sum(v) / |v| as real) * |v| as real == Sum(v)
  {
    GreatestLeast(v);
    SumBounds(v, Least(v), Greatest(v));
    DivideBounds(Sum(v), |v| as real, Least(v), Greatest(v));
  }

  lemma AggregatePermutation(strategy: Strategy, v: seq<real>, w: seq<real>)
    requires v != [] && multiset(v) == multiset(w)
    ensures w != []
    ensures Aggregate(strategy, v) == Aggregate(strategy, w)
  {
    MultisetMember(v, w);
    GreatestLeast(v);
    GreatestLeast(w);
    SumPermutation(v, w);
  }

  method ComputeAggregate(strategy: Strategy, values: seq<real>) returns (result: real)
    requires values != []
    ensures result == Aggregate(strategy, values)
  {
    assert values[..1] == [values[0]];
    assert values[..|values|] == values;
    match strategy
    case Lowest =>
      result := values[0];
      for i := 1 to |values|
        invariant result == Least(values[..i])
      {
        assert values[..i + 1][..i] == values[..i];
        if values[i] < result { result := values[i]; }
      }
    case Average =>
      result := 0.0;
      for i := 0 to |values|
        invariant result == Sum(values[..i])
      {
        assert values[..i + 1][..i] == values[..i];
        result := result + values[i];
      }
      result := result / |values| as real;
    case Highest =>
      result := values[0];
      for i := 1 to |values|
        invariant result == Greatest(values[..i])
      {
        assert values[..i + 1][..i] == values[..i];
        if values[i] > result { result := values[i]; }
      }
  }

  // ---------- Contracts ----------

  function LaneFields(category: Category): seq<Field> {
    if category.Ratio? then RATIO_FIELDS else [ModelPrice]
  }

  predicate Numeric(c: Column, category: Category) {
    forall f :: f in LaneFields(category) && f in c ==> c[f].Num? && c[f].n >= 0.0
  }

  function LanesOf(c: Column, category: Category): Lanes {
    map f | f in c && f in LaneFields(category) && c[f].Num? :: c[f].n
  }

  /** A Go map read: the zero value when the lane is absent. */
  function Get(c: Lanes, f: Field): real {
    if f in c then c[f] else 0.0
  }

  /** What one unit in lane f actually costs under contract c. */
  function LanePrice(c: Lanes, f: Field): real {
    if f == ModelRatio || f == ModelPrice then Get(c, f)
    else if f == AudioCompletionRatio then Get(c, ModelRatio) * Get(c, AudioRatio) * Get(c, f)
    else Get(c, ModelRatio) * Get(c, f)
  }

  function LanePrices(contracts: seq<Lanes>, f: Field): (r: seq<real>)
    ensures |r| == |contracts|
  {
    Map(contracts, (c: Lanes) => LanePrice(c, f))
  }

  function Contracts(columns: seq<Column>, category: Category): (r: seq<Lanes>)
  {
    Map(Filter(columns, (c: Column) => CategoryOf(c) == category), (c: Column) => LanesOf(c, category))
  }

  /** Every source declares the same lanes, the two mandatory ones among them. */
  predicate Comparable(contracts: seq<Lanes>, category: Category) {
    forall c :: c in contracts ==>
      c.Keys == contracts[0].Keys && (category.Ratio? ==> ModelRatio in c && CompletionRatio in c)
  }

  /** The aggregated price of every lane. */
  function Prices(contracts: seq<Lanes>, strategy: Strategy): (r: map<Field, real>)
    requires contracts != []
    ensures forall f :: f in r
  {
    map f: Field | true :: Aggregate(strategy, LanePrices(contracts, f))
  }

  /** The ratio that charges the given lane prices. */
  function LaneRatio(price: map<Field, real>, f: Field): real
    requires forall g :: g in price
    requires price[ModelRatio] != 0.0
    requires f == AudioCompletionRatio ==> price[AudioRatio] / price[ModelRatio] != 0.0
  {
    if f == ModelRatio then price[ModelRatio]
    else if f == AudioCompletionRatio then price[f] / price[ModelRatio] / (price[AudioRatio] / price[ModelRatio])
    else price[f] / price[ModelRatio]
  }

  /** Turns aggregated prices back into ratios; fails where a needed divisor is zero. */
  function FromPrices(lanes: set<Field>, price: map<Field, real>): Option<Lanes>
    requires forall f :: f in price
  {
    if price[ModelRatio] == 0.0 ||
       (AudioCompletionRatio in lanes && (AudioRatio !in lanes || price[AudioRatio] / price[ModelRatio] == 0.0)) then None
    else Some(map f | f in lanes :: LaneRatio(price, f))
  }

  function MergeContracts(contracts: seq<Lanes>, category: Category, strategy: Strategy): Option<Lanes> {
    if contracts == [] || !Comparable(contracts, category) then None
    else if category.Ratio? then FromPrices(contracts[0].Keys, Prices(contracts, strategy))
    else Some(map[ModelPrice := Prices(contracts, strategy)[ModelPrice]])
  }

  predicate AllNumeric(columns: seq<Column>, category: Category) {
    forall c :: c in columns && CategoryOf(c) == category ==> Numeric(c, category)
  }

  /** What resolveComparableNumericPricing computes. */
  function Resolve(columns: seq<Column>, category: Category, strategy: Strategy): Option<Lanes> {
    if AllNumeric(columns, category) then MergeContracts(Contracts(columns, category), category, strategy) else None
  }

  // ---------- The merge in price space ----------

  lemma QuotientUnique(q: real, b: real, x: real)
    requires b != 0.0 && b * x == q
    ensures q / b == x
  {
  }

  lemma ChargesLane(p: real, b: real, r: real)
    requires b != 0.0 && r == p / b
    ensures b * r == p
  {
  }

  lemma ChargesAudioLane(p: real, b: real, a: real, r: real)
    requires b != 0.0 && a != 0.0 && r == p / b / a
    ensures b * a * r == p
  {
    var q := p / b;
    ChargesLane(p, b, q);
    ChargesLane(q, a, r);
    assert b * a * r == b * (a * r);
  }

  /** Converting to ratios loses nothing: the ratios charge the prices they came from. */
  lemma FromPricesCharges(lanes: set<Field>, price: map<Field, real>, f: Field)
    requires forall g :: g in price
    requires FromPrices(lanes, price).Some?
    requires f in lanes && ModelRatio in lanes && f != ModelPrice
    ensures LanePrice(FromPrices(lanes, price).value, f) == price[f]
  {
    if f == AudioCompletionRatio {
      FromPricesAudio(lanes, price);
    } else {
      FromPricesPlain(lanes, price, f);
    }
  }

  lemma FromPricesPlain(lanes: set<Field>, price: map<Field, real>, f: Field)
    requires forall g :: g in price
    requires FromPrices(lanes, price).Some? && f in lanes && ModelRatio in lanes && f != ModelPrice && f != AudioCompletionRatio
    ensures LanePrice(FromPrices(lanes, price).value, f) == price[f]
  {
    FromPricesLane(lanes, price, ModelRatio);
    FromPricesLane(lanes, price, f);
    if f != ModelRatio {
      RatioCharges(price, f);
      ChargedLane(FromPrices(lanes, price).value, f, price[f], LaneRatio(price, f));
    }
  }

  lemma FromPricesAudio(lanes: set<Field>, price: map<Field, real>)
    requires forall g :: g in price
    requires FromPrices(lanes, price).Some? && AudioCompletionRatio in lanes && ModelRatio in lanes
    ensures LanePrice(FromPrices(lanes, price).value, AudioCompletionRatio) == price[AudioCompletionRatio]
  {
    FromPricesLane(lanes, price, ModelRatio);
    FromPricesLane(lanes, price, AudioCompletionRatio);
    FromPricesLane(lanes, price, AudioRatio);
    AudioRatioCharges(price);
    ChargedAudio(FromPrices(lanes, price).value, price[AudioCompletionRatio], LaneRatio(price, AudioRatio), LaneRatio(price, AudioCompletionRatio));
  }

  lemma FromPricesLane(lanes: set<Field>, price: map<Field, real>, f: Field)
    requires forall g :: g in price
    requires FromPrices(lanes, price).Some? && f in lanes
    ensures price[ModelRatio] != 0.0
    ensures f == AudioCompletionRatio ==> AudioRatio in lanes && price[AudioRatio] / price[ModelRatio] != 0.0
    ensures Get(FromPrices(lanes, price).value, f) == LaneRatio(price, f)
  {
  }

  lemma ChargedLane(merged: Lanes, f: Field, p: real, ratio: real)
    requires f != ModelRatio && f != ModelPrice && f != AudioCompletionRatio
    requires Get(merged, f) == ratio && Get(merged, ModelRatio) * ratio == p
    ensures LanePrice(merged, f) == p
  {
  }

  lemma ChargedAudio(merged: Lanes, p: real, audio: real, ratio: real)
    requires Get(merged, AudioRatio) == audio && Get(merged, AudioCompletionRatio) == ratio
    requires Get(merged, ModelRatio) * audio * ratio == p
    ensures LanePrice(merged, AudioCompletionRatio) == p
  {
  }

  lemma RatioCharges(price: map<Field, real>, f: Field)
    requires forall g :: g in price
    requires price[ModelRatio] != 0.0 && f != ModelRatio && f != AudioCompletionRatio
    ensures price[ModelRatio] * LaneRatio(price, f) == price[f]
  {
    ChargesLane(price[f], price[ModelRatio], LaneRatio(price, f));
  }

  lemma AudioRatioCharges(price: map<Field, real>)
    requires forall g :: g in price
    requires price[ModelRatio] != 0.0 && price[AudioRatio] / price[ModelRatio] != 0.0
    ensures price[ModelRatio] * LaneRatio(price, AudioRatio) * LaneRatio(price, AudioCompletionRatio) == price[AudioCompletionRatio]
  {
    ChargesAudioLane(price[AudioCompletionRatio], price[ModelRatio], LaneRatio(price, AudioRatio), LaneRatio(price, AudioCompletionRatio));
  }

  ghost predicate Merges(columns: seq<Column>, category: Category, strategy: Strategy, merged: Lanes) {
    Resolve(columns, category, strategy) == Some(merged) && (category.Ratio? || category.Price?)
  }

  /**
   Price-space aggregation: the merged contract has exactly the lanes the
   sources declare, and in each of them it charges the chosen aggregate of
   what the sources charge.
   */
  lemma MergePrices(columns: seq<Column>, category: Category, strategy: Strategy, merged: Lanes, f: Field)
    requires Merges(columns, category, strategy, merged)
    ensures var contracts := Contracts(columns, category);
            && contracts != []
            && merged.Keys == contracts[0].Keys
            && (f in merged ==> LanePrice(merged, f) == Aggregate(strategy, LanePrices(contracts, f)))
  {
    var contracts := Contracts(columns, category);
    if category.Price? {
      PriceContracts(columns);
    } else {
      RatioContracts(columns);
      RatioContractsCharge(contracts, strategy, merged, f);
    }
  }

  lemma RatioContractsCharge(contracts: seq<Lanes>, strategy: Strategy, merged: Lanes, f: Field)
    requires MergeContracts(contracts, Ratio, strategy) == Some(merged)
    requires forall c :: c in contracts ==> ModelPrice !in c
    ensures contracts != [] && merged.Keys == contracts[0].Keys
    ensures f in merged ==> LanePrice(merged, f) == Prices(contracts, strategy)[f]
  {
    assert contracts[0] in contracts;
    if f in merged { FromPricesCharges(contracts[0].Keys, Prices(contracts, strategy), f); }
  }

  lemma RatioContracts(columns: seq<Column>)
    ensures forall c :: c in Contracts(columns, Ratio) ==> ModelPrice !in c
  {
  }

  lemma PriceContracts(columns: seq<Column>)
    requires AllNumeric(columns, Price)
    ensures forall c :: c in Contracts(columns, Price) ==> c.Keys == {ModelPrice}
  {
    var matching := Filter(columns, (c: Column) => CategoryOf(c) == Price);
    forall i | 0 <= i < |matching| ensures LanesOf(matching[i], Price).Keys == {ModelPrice} {
      assert matching[i] in matching;
      assert ModelPrice in LaneFields(Price) && ModelPrice in matching[i];
    }
  }

  /** "Highest" never undercuts a source in any lane, "lowest" never exceeds one, "average" stays between them. */
  lemma MergeNeverUndercuts(columns: seq<Column>, category: Category, strategy: Strategy, merged: Lanes, f: Field, i: nat)
    requires Merges(columns, category, strategy, merged) && f in merged
    requires i < |Contracts(columns, category)|
    ensures var prices := LanePrices(Contracts(columns, category), f);
            && (strategy.Highest? ==> LanePrice(merged, f) >= prices[i])
            && (strategy.Lowest? ==> LanePrice(merged, f) <= prices[i])
            && Least(prices) <= LanePrice(merged, f) <= Greatest(prices)
  {
    MergePrices(columns, category, strategy, merged, f);
    var prices := LanePrices(Contracts(columns, category), f);
    GreatestLeast(prices);
    AggregateBounds(strategy, prices);
    assert prices[i] in prices;
  }

  /** The merge does not depend on the order of the sources. */
  lemma MergeOrderIndependent(xs: seq<Column>, ys: seq<Column>, category: Category, strategy: Strategy)
    requires multiset(xs) == multiset(ys)
    ensures Resolve(xs, category, strategy) == Resolve(ys, category, strategy)
  {
    var mine := (c: Column) => CategoryOf(c) == category;
    var lanes := (c: Column) => LanesOf(c, category);
    MultisetMember(xs, ys);
    FilterPermutation(xs, ys, mine);
    MapPermutation(Filter(xs, mine), Filter(ys, mine), lanes);
    MergeContractsOrderIndependent(Contracts(xs, category), Contracts(ys, category), category, strategy);
  }

  lemma MergeContractsOrderIndependent(cx: seq<Lanes>, cy: seq<Lanes>, category: Category, strategy: Strategy)
    requires multiset(cx) == multiset(cy)
    ensures MergeContracts(cx, category, strategy) == MergeContracts(cy, category, strategy)
  {
    MultisetMember(cx, cy);
    if cx != [] {
      ComparableOrderIndependent(cx, cy, category);
      PricesOrderIndependent(cx, cy, strategy);
    }
  }

  lemma ComparableOrderIndependent(cx: seq<Lanes>, cy: seq<Lanes>, category: Category)
    requires cx != [] && cy != [] && forall c :: c in cx <==> c in cy
    ensures Comparable(cx, category) <==> Comparable(cy, category)
    ensures Comparable(cx, category) ==> cx[0].Keys == cy[0].Keys
  {
    assert cx[0] in cx && cy[0] in cy;
  }

  lemma PricesOrderIndependent(cx: seq<Lanes>, cy: seq<Lanes>, strategy: Strategy)
    requires multiset(cx) == multiset(cy) && cx != [] && cy != []
    ensures Prices(cx, strategy) == Prices(cy, strategy)
  {
    forall f ensures Prices(cx, strategy)[f] == Prices(cy, strategy)[f] {
      MapPermutation(cx, cy, (c: Lanes) => LanePrice(c, f));
      AggregatePermutation(strategy, LanePrices(cx, f), LanePrices(cy, f));
    }
  }

  /** When a lone ratio contract can be merged at all. */
  predicate Mergeable(lanes: Lanes) {
    && ModelRatio in lanes && CompletionRatio in lanes && lanes[ModelRatio] != 0.0
    && (AudioCompletionRatio in lanes ==> AudioRatio in lanes && lanes[AudioRatio] != 0.0)
  }

  predicate MergeableAs(lanes: Lanes, category: Category) {
    category.Ratio? ==> Mergeable(lanes)
  }

  /** A single source resolves to itself, or not at all; and exactly when is decidable from its lanes. */
  lemma MergeSingle(c: Column, category: Category, strategy: Strategy)
    requires CategoryOf(c) == category && (category.Ratio? || category.Price?)
    ensures var lanes := LanesOf(c, category);
            Resolve([c], category, strategy) == if Numeric(c, category) && MergeableAs(lanes, category) then Some(lanes) else None
  {
    var lanes := LanesOf(c, category);
    FilterOne(c, (d: Column) => CategoryOf(d) == category);
    assert Contracts([c], category) == [lanes];
    assert c in [c];
    if category.Ratio? {
      MergeOne(lanes, strategy);
    } else {
      if Numeric(c, category) { MergePrice(c, strategy); }
    }
  }

  lemma MergePrice(c: Column, strategy: Strategy)
    requires CategoryOf(c) == Price && Numeric(c, Price)
    ensures MergeContracts([LanesOf(c, Price)], Price, strategy) == Some(LanesOf(c, Price))
  {
    var lanes := LanesOf(c, Price);
    SinglePrices(lanes, strategy);
    assert lanes == map[ModelPrice := LanePrice(lanes, ModelPrice)];
    assert lanes in [lanes];
  }

  lemma MergeOne(lanes: Lanes, strategy: Strategy)
    requires forall f :: f in lanes ==> f in RATIO_FIELDS
    ensures MergeContracts([lanes], Ratio, strategy) == if Mergeable(lanes) then Some(lanes) else None
  {
    assert lanes in [lanes];
    if ModelRatio in lanes && CompletionRatio in lanes {
      SingleMerged(lanes, strategy);
    }
  }

  lemma SingleMerged(lanes: Lanes, strategy: Strategy)
    requires ModelRatio in lanes && CompletionRatio in lanes && forall f :: f in lanes ==> f in RATIO_FIELDS
    ensures FromPrices(lanes.Keys, Prices([lanes], strategy)) == if Mergeable(lanes) then Some(lanes) else None
  {
    SinglePrices(lanes, strategy);
    SingleFromPrices(lanes, Prices([lanes], strategy));
  }

  lemma SinglePrices(lanes: Lanes, strategy: Strategy)
    ensures forall f :: Prices([lanes], strategy)[f] == LanePrice(lanes, f)
  {
    forall f ensures Prices([lanes], strategy)[f] == LanePrice(lanes, f) {
      var v := LanePrices([lanes], f);
      assert v == [LanePrice(lanes, f)];
      assert v[..0] == [] && Sum(v) == v[0];
    }
  }

  lemma SingleFromPrices(lanes: Lanes, price: map<Field, real>)
    requires ModelRatio in lanes
    requires forall f :: f in lanes ==> f in RATIO_FIELDS
    requires forall f :: f in price && price[f] == LanePrice(lanes, f)
    ensures FromPrices(lanes.Keys, price) ==
            if lanes[ModelRatio] != 0.0 && (AudioCompletionRatio in lanes ==> AudioRatio in lanes && lanes[AudioRatio] != 0.0)
            then Some(lanes) else None
  {
    assert price[ModelRatio] == LanePrice(lanes, ModelRatio);
    if lanes[ModelRatio] != 0.0 {
      SingleAudio(lanes, price[AudioRatio]);
      if AudioCompletionRatio in lanes ==> AudioRatio in lanes && lanes[AudioRatio] != 0.0 {
        SingleRatios(lanes, price);
      }
    }
  }

  lemma SingleAudio(lanes: Lanes, p: real)
    requires ModelRatio in lanes && lanes[ModelRatio] != 0.0 && p == LanePrice(lanes, AudioRatio)
    ensures p / lanes[ModelRatio] == Get(lanes, AudioRatio)
  {
    QuotientUnique(p, lanes[ModelRatio], Get(lanes, AudioRatio));
  }

  lemma SingleRatios(lanes: Lanes, price: map<Field, real>)
    requires ModelRatio in lanes && lanes[ModelRatio] != 0.0 && ModelPrice !in lanes
    requires forall f :: f in price && price[f] == LanePrice(lanes, f)
    requires price[ModelRatio] == lanes[ModelRatio] && price[AudioRatio] / price[ModelRatio] == Get(lanes, AudioRatio)
    requires AudioCompletionRatio in lanes ==> AudioRatio in lanes && lanes[AudioRatio] != 0.0
    ensures FromPrices(lanes.Keys, price) == Some(lanes)
  {
    forall f | f in lanes ensures LaneRatio(price, f) == lanes[f] {
      assert price[f] == LanePrice(lanes, f);
      SingleRatio(lanes, price, f);
    }
    assert FromPrices(lanes.Keys, price).value == lanes;
  }

  lemma SingleRatio(lanes: Lanes, price: map<Field, real>, f: Field)
    requires forall g :: g in price
    requires ModelRatio in lanes && lanes[ModelRatio] != 0.0 && f in lanes && f != ModelPrice
    requires price[f] == LanePrice(lanes, f)
    requires price[ModelRatio] == lanes[ModelRatio] && price[AudioRatio] / price[ModelRatio] == Get(lanes, AudioRatio)
    requires f == AudioCompletionRatio ==> Get(lanes, AudioRatio) != 0.0
    ensures LaneRatio(price, f) == lanes[f]
  {
    if f == AudioCompletionRatio {
      AudioRatioUnique(price, lanes[ModelRatio], Get(lanes, AudioRatio), lanes[f]);
    } else if f != ModelRatio {
      RatioUnique(price, f, lanes[ModelRatio], lanes[f]);
    }
  }

  lemma RatioUnique(price: map<Field, real>, f: Field, base: real, x: real)
    requires forall g :: g in price
    requires f != ModelRatio && f != AudioCompletionRatio && price[ModelRatio] == base != 0.0 && price[f] == base * x
    ensures LaneRatio(price, f) == x
  {
    QuotientUnique(price[f], base, x);
  }

  lemma AudioRatioUnique(price: map<Field, real>, base: real, audio: real, x: real)
    requires forall g :: g in price
    requires price[ModelRatio] == base != 0.0 && price[AudioRatio] / base == audio != 0.0
    requires price[AudioCompletionRatio] == base * audio * x
    ensures LaneRatio(price, AudioCompletionRatio) == x
  {
    AudioQuotientUnique(price[AudioCompletionRatio], base, audio, x);
  }

  lemma AudioQuotientUnique(p: real, base: real, audio: real, x: real)
    requires base != 0.0 && audio != 0.0 && p == base * audio * x
    ensures p / base / audio == x
  {
    var y := audio * x;
    assert p == base * y;
    QuotientUnique(p, base, y);
    QuotientUnique(y, audio, x);
  }

  // ---------- The loops ----------

  method ParseContract(column: Column, category: Category) returns (r: Option<Lanes>)
    ensures r == if Numeric(column, category) then Some(LanesOf(column, category)) else None
  {
    r := ParseLanes(column, LaneFields(category));
  }

  function LanesIn(column: Column, fields: seq<Field>): Lanes {
    map f | f in column && f in fields && column[f].Num? :: column[f].n
  }

  method ParseLanes(column: Column, fields: seq<Field>) returns (r: Option<Lanes>)
    ensures r == if forall f :: f in fields && f in column ==> column[f].Num? && column[f].n >= 0.0
                 then Some(LanesIn(column, fields)) else None
  {
    var contract: Lanes := map[];
    for j := 0 to |fields|
      invariant forall f :: f in fields[..j] && f in column ==> column[f].Num? && column[f].n >= 0.0
      invariant contract == LanesIn(column, fields[..j])
    {
      var field := fields[j];
      assert fields[..j + 1] == fields[..j] + [field];
      if field in column {
        assert field in fields;
        if !column[field].Num? || column[field].n < 0.0 {
          return None;
        }
        contract := contract[field := column[field].n];
      }
    }
    assert fields[..|fields|] == fields;
    return Some(contract);
  }

  method CollectContracts(columns: seq<Column>, category: Category) returns (ok: bool, contracts: seq<Lanes>)
    ensures ok <==> AllNumeric(columns, category)
    ensures ok ==> contracts == Contracts(columns, category)
  {
    contracts := [];
    for i := 0 to |columns|
      invariant AllNumeric(columns[..i], category)
      invariant contracts == Contracts(columns[..i], category)
    {
      ContractsSnoc(columns[..i], columns[i], category);
      assert columns[..i + 1] == columns[..i] + [columns[i]];
      if CategoryOf(columns[i]) == category {
        var contract := ParseContract(columns[i], category);
        if contract.None? {
          return false, [];
        }
        contracts := contracts + [contract.value];
      }
    }
    assert columns[..|columns|] == columns;
    ok := true;
  }

  lemma ContractsSnoc(columns: seq<Column>, c: Column, category: Category)
    ensures Contracts(columns + [c], category) ==
            Contracts(columns, category) + (if CategoryOf(c) == category then [LanesOf(c, category)] else [])
  {
    var mine := (d: Column) => CategoryOf(d) == category;
    FilterSnoc(columns, c, mine);
  }

  method CountDeclaring(contracts: seq<Lanes>, field: Field) returns (present: nat)
    ensures present <= |contracts|
    ensures present == 0 <==> forall c :: c in contracts ==> field !in c
    ensures present == |contracts| <==> forall c :: c in contracts ==> field in c
  {
    present := 0;
    for k := 0 to |contracts|
      invariant present <= k
      invariant present == 0 <==> forall c :: c in contracts[..k] ==> field !in c
      invariant present == k <==> forall c :: c in contracts[..k] ==> field in c
    {
      assert contracts[..k + 1] == contracts[..k] + [contracts[k]];
      if field in contracts[k] { present := present + 1; }
    }
    assert contracts[..|contracts|] == contracts;
  }

  method CheckComparable(contracts: seq<Lanes>, category: Category) returns (ok: bool)
    requires contracts != []
    requires forall c, f :: c in contracts && f in c ==> f in LaneFields(category)
    ensures ok <==> Comparable(contracts, category)
  {
    var fields := LaneFields(category);
    for j := 0 to |fields|
      invariant forall f, c :: f in fields[..j] && c in contracts ==>
        (f in c <==> f in contracts[0]) && (category.Ratio? && (f == ModelRatio || f == CompletionRatio) ==> f in c)
    {
      var field := fields[j];
      assert fields[..j + 1] == fields[..j] + [field];
      assert contracts[0] in contracts;
      var present := CountDeclaring(contracts, field);
      if present != 0 && present != |contracts| {
        return false;
      }
      if category.Ratio? && (field == ModelRatio || field == CompletionRatio) && present != |contracts| {
        return false;
      }
    }
    assert fields[..|fields|] == fields;
    if category.Ratio? { assert fields[0] == ModelRatio && fields[1] == CompletionRatio; }
    forall c | c in contracts ensures c.Keys == contracts[0].Keys {
      assert contracts[0] in contracts;
      forall f ensures f in c <==> f in contracts[0] { }
    }
    ok := true;
  }

  /** The lane loop: the aggregated price of every lane. */
  method AggregateLanes(contracts: seq<Lanes>, strategy: Strategy) returns (price: map<Field, real>)
    requires contracts != []
    ensures price == Prices(contracts, strategy)
  {
    price := map[];
    for j := 0 to |FIELDS|
      invariant forall f :: f in price <==> f in FIELDS[..j]
      invariant forall f :: f in price ==> price[f] == Prices(contracts, strategy)[f]
    {
      assert FIELDS[..j + 1] == FIELDS[..j] + [FIELDS[j]];
      var value := ComputeAggregate(strategy, LanePrices(contracts, FIELDS[j]));
      price := price[FIELDS[j] := value];
    }
    assert FIELDS[..|FIELDS|] == FIELDS;
    forall f ensures f in price { FieldsComplete(f); }
  }

  /** resolveComparableNumericPricing */
  method ResolveComparable(columns: seq<Column>, category: Category, strategy: Strategy) returns (r: Option<Lanes>)
    ensures r == Resolve(columns, category, strategy)
  {
    var ok, contracts := CollectContracts(columns, category);
    if !ok || contracts == [] {
      return None;
    }
    var comparable := CheckComparable(contracts, category);
    if !comparable {
      return None;
    }
    var price := AggregateLanes(contracts, strategy);
    if !category.Ratio? {
      return Some(map[ModelPrice := price[ModelPrice]]);
    }
    r := FromPrices(contracts[0].Keys, price);
  }
}
