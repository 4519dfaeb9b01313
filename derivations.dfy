/**
 * The read-only side of the ledger: everything the dashboard derives from
 * the asset list. Every derivation works on the assets that are not soft
 * deleted; the grouping views put an asset with an empty investment
 * direction under the label "其他" ("other").
 */
module Derivations {
  import opened Types
  import opened Sorting

  /** The group label of an asset whose investment direction is empty. */
  const OTHER_LABEL: string := "其他"

  // ---------------------------------------------------------------------
  // Active assets and totals
  // ---------------------------------------------------------------------

  /** The assets that are not soft deleted, in their original order. */
  function ActiveAssets(assets: seq<Asset>): (r: seq<Asset>)
    ensures |r| <= |assets|
  {
    if assets == [] then
      []
    else
      var last := assets[|assets| - 1];
      ActiveAssets(assets[..|assets| - 1]) + (if last.status != Deleted then [last] else [])
  }

  /** The active assets are exactly the assets whose status is active. */
  lemma {:induction false} ActiveAssetsMembers(assets: seq<Asset>)
    ensures forall a :: a in ActiveAssets(assets) <==> a in assets && a.status == Active
  {
    if assets != [] {
      var n := |assets| - 1;
      ActiveAssetsMembers(assets[..n]);
      assert assets == assets[..n] + [assets[n]];
    }
  }

  /** The per-asset quantities that the dashboard adds up. */
  datatype Measure = Value | Cost | Target | Gain | Deviation

  function Amount(a: Asset, m: Measure): real {
    match m
    case Value => a.currentValue
    case Cost => a.costBasis
    case Target => a.targetAmount
    case Gain => a.currentValue - a.costBasis
    case Deviation => a.currentValue - a.targetAmount
  }

  /** The sum of one measure over a sequence of assets, accumulated left to right. */
  function Total(s: seq<Asset>, m: Measure): real {
    if s == [] then 0.0 else Total(s[..|s| - 1], m) + Amount(s[|s| - 1], m)
  }

  lemma {:induction false} TotalConcat(s: seq<Asset>, t: seq<Asset>, m: Measure)
    ensures Total(s + t, m) == Total(s, m) + Total(t, m)
  {
    if t == [] {
      assert s + t == s;
    } else {
      assert (s + t)[..|s + t| - 1] == s + t[..|t| - 1];
      TotalConcat(s, t[..|t| - 1], m);
    }
  }

  /** The derived measures are differences of the stored ones, also in total. */
  lemma {:induction false} TotalLinear(s: seq<Asset>)
    ensures Total(s, Gain) == Total(s, Value) - Total(s, Cost)
    ensures Total(s, Deviation) == Total(s, Value) - Total(s, Target)
  {
    if s != [] {
      TotalLinear(s[..|s| - 1]);
    }
  }

  // ---------------------------------------------------------------------
  // Portfolio statistics
  // ---------------------------------------------------------------------

  /** Gain as a percentage of cost; a cost that is zero or negative gives 0. */
  function GainPercentage(gain: real, cost: real): (r: real)
    ensures cost <= 0.0 ==> r == 0.0
    ensures cost > 0.0 ==> r * cost == gain * 100.0
    ensures cost > 0.0 ==> (r > 0.0 <==> gain > 0.0) && (r < 0.0 <==> gain < 0.0)
  {
    if cost > 0.0 then gain / cost * 100.0 else 0.0
  }

  /** The statistics of a set of active assets, as a specification. */
  function StatsOf(active: seq<Asset>): PortfolioStats {
    var value, cost := Total(active, Value), Total(active, Cost);
    PortfolioStats(value, cost, value - cost, GainPercentage(value - cost, cost), Total(active, Target))
  }

  /** The dashboard's statistics loop over the active assets. */
  method ComputeStats(activeAssets: seq<Asset>) returns (stats: PortfolioStats)
    ensures stats == StatsOf(activeAssets)
  {
    var totalValue, totalCost, targetTotal := 0.0, 0.0, 0.0;
    for i := 0 to |activeAssets|
      invariant totalValue == Total(activeAssets[..i], Value)
      invariant totalCost == Total(activeAssets[..i], Cost)
      invariant targetTotal == Total(activeAssets[..i], Target)
    {
      var asset := activeAssets[i];
      assert activeAssets[..i + 1][..i] == activeAssets[..i];
      totalValue := totalValue + asset.currentValue;
      totalCost := totalCost + asset.costBasis;
      targetTotal := targetTotal + asset.targetAmount;
    }
    assert activeAssets[..|activeAssets|] == activeAssets;
    var totalGain := totalValue - totalCost;
    var gainPercentage := if totalCost > 0.0 then (totalGain / totalCost) * 100.0 else 0.0;
    stats := PortfolioStats(totalValue, totalCost, totalGain, gainPercentage, targetTotal);
  }

  /** An empty portfolio has all-zero statistics. */
  lemma StatsOfEmpty()
    ensures StatsOf([]) == PortfolioStats(0.0, 0.0, 0.0, 0.0, 0.0)
  {
  }

  /** The total gain is the sum of the individual assets' gains. */
  lemma StatsGainIsSumOfGains(active: seq<Asset>)
    ensures StatsOf(active).totalGain == Total(active, Gain)
    ensures StatsOf(active).totalGain == StatsOf(active).totalValue - StatsOf(active).totalCost
  {
    TotalLinear(active);
  }

  /** A soft-deleted asset contributes nothing to the statistics. */
  lemma {:induction false} StatsIgnoreDeleted(assets: seq<Asset>, a: Asset)
    requires a.status == Deleted
    ensures ActiveAssets(assets + [a]) == ActiveAssets(assets)
    ensures StatsOf(ActiveAssets(assets + [a])) == StatsOf(ActiveAssets(assets))
  {
    assert (assets + [a])[..|assets + [a]| - 1] == assets;
  }

  /** Adding an active asset adds its amounts to every total. */
  lemma {:induction false} StatsAddActive(assets: seq<Asset>, a: Asset)
    requires a.status == Active
    ensures ActiveAssets(assets + [a]) == ActiveAssets(assets) + [a]
    ensures StatsOf(ActiveAssets(assets + [a])).totalValue == StatsOf(ActiveAssets(assets)).totalValue + a.currentValue
    ensures StatsOf(ActiveAssets(assets + [a])).totalCost == StatsOf(ActiveAssets(assets)).totalCost + a.costBasis
    ensures StatsOf(ActiveAssets(assets + [a])).targetTotal == StatsOf(ActiveAssets(assets)).targetTotal + a.targetAmount
  {
    assert (assets + [a])[..|assets + [a]| - 1] == assets;
    var active := ActiveAssets(assets);
    assert (active + [a])[..|active + [a]| - 1] == active;
  }

  // ---------------------------------------------------------------------
  // Grouping by investment direction
  // ---------------------------------------------------------------------

  /** The group an asset belongs to. */
  function Label(a: Asset): (k: string)
    ensures k != ""
    ensures a.investmentDirection != "" ==> k == a.investmentDirection
    ensures a.investmentDirection == "" ==> k == OTHER_LABEL
  {
    if a.investmentDirection == "" then OTHER_LABEL else a.investmentDirection
  }

  predicate Distinct<T(==)>(s: seq<T>) {
    forall i, j :: 0 <= i < j < |s| ==> s[i] != s[j]
  }

  /** The distinct group labels, in order of first appearance. */
  function Labels(s: seq<Asset>): (ks: seq<string>)
    ensures Distinct(ks)
  {
    if s == [] then
      []
    else
      var ks := Labels(s[..|s| - 1]);
      var last := s[|s| - 1];
      if Label(last) in ks then ks else ks + [Label(last)]
  }

  /** The labels are exactly the labels of the assets. */
  lemma {:induction false} LabelsMembers(s: seq<Asset>)
    ensures forall k :: k in Labels(s) <==> exists a :: a in s && Label(a) == k
  {
    if s != [] {
      var p, last := s[..|s| - 1], s[|s| - 1];
      LabelsMembers(p);
      assert s == p + [last];
      forall k | k in Labels(s) ensures exists a :: a in s && Label(a) == k {
        if k in Labels(p) {
          var a :| a in p && Label(a) == k;
          assert a in s;
        } else {
          assert Label(last) == k;
        }
      }
    }
  }

  /** The sum of one measure over the assets of one group. */
  function GroupTotal(s: seq<Asset>, group: string, m: Measure): real {
    if s == [] then
      0.0
    else
      GroupTotal(s[..|s| - 1], group, m) + (if Label(s[|s| - 1]) == group then Amount(s[|s| - 1], m) else 0.0)
  }

  /** The sum of the group totals of the given labels. */
  function GroupSums(ks: seq<string>, s: seq<Asset>, m: Measure): real {
    if ks == [] then 0.0 else GroupTotal(s, ks[0], m) + GroupSums(ks[1..], s, m)
  }

  /** One more asset: its label joins the labels if it is new. */
  lemma LabelsStep(p: seq<Asset>, a: Asset)
    ensures Labels(p + [a]) == if Label(a) in Labels(p) then Labels(p) else Labels(p) + [Label(a)]
  {
    assert (p + [a])[..|p + [a]| - 1] == p;
  }

  /** One more asset: its amount joins its own group's total only. */
  lemma GroupTotalStep(p: seq<Asset>, a: Asset, k: string, m: Measure)
    ensures GroupTotal(p + [a], k, m) == GroupTotal(p, k, m) + (if Label(a) == k then Amount(a, m) else 0.0)
  {
    assert (p + [a])[..|p + [a]| - 1] == p;
  }

  /** A label no asset carries has a zero total. */
  lemma {:induction false} GroupTotalAbsent(s: seq<Asset>, k: string, m: Measure)
    requires k !in Labels(s)
    ensures GroupTotal(s, k, m) == 0.0
  {
    if s != [] {
      var p := s[..|s| - 1];
      assert s == p + [s[|s| - 1]];
      assert k !in Labels(p);
      GroupTotalAbsent(p, k, m);
    }
  }

  /** A group's gain is its value minus its cost. */
  lemma {:induction false} GroupTotalGain(s: seq<Asset>, k: string)
    ensures GroupTotal(s, k, Gain) == GroupTotal(s, k, Value) - GroupTotal(s, k, Cost)
  {
    if s != [] {
      GroupTotalGain(s[..|s| - 1], k);
    }
  }

  lemma {:induction false} GroupSumsAppend(ks: seq<string>, k: string, s: seq<Asset>, m: Measure)
    ensures GroupSums(ks + [k], s, m) == GroupSums(ks, s, m) + GroupTotal(s, k, m)
  {
    if ks == [] {
      assert ks + [k] == [k];
    } else {
      assert (ks + [k])[1..] == ks[1..] + [k];
      GroupSumsAppend(ks[1..], k, s, m);
    }
  }

  /** One more asset adds its amount to the sums exactly when its label is among the labels summed. */
  lemma {:induction false} GroupSumsStep(ks: seq<string>, s: seq<Asset>, m: Measure)
    requires s != [] && Distinct(ks)
    ensures GroupSums(ks, s, m)
         == GroupSums(ks, s[..|s| - 1], m) + (if Label(s[|s| - 1]) in ks then Amount(s[|s| - 1], m) else 0.0)
  {
    if ks != [] {
      assert Distinct(ks[1..]);
      GroupSumsStep(ks[1..], s, m);
      assert Label(s[|s| - 1]) in ks <==> Label(s[|s| - 1]) == ks[0] || Label(s[|s| - 1]) in ks[1..];
      assert Label(s[|s| - 1]) == ks[0] ==> Label(s[|s| - 1]) !in ks[1..];
    }
  }

  /** Grouping neither drops nor double counts: the group totals add up to the overall total. */
  lemma {:induction false} GroupsPartitionTotal(s: seq<Asset>, m: Measure)
    ensures GroupSums(Labels(s), s, m) == Total(s, m)
  {
    if s != [] {
      var p, last := s[..|s| - 1], s[|s| - 1];
      GroupsPartitionTotal(p, m);
      var ks := Labels(p);
      GroupSumsStep(ks, s, m);
      if Label(last) !in ks {
        GroupSumsAppend(ks, Label(last), s, m);
        GroupTotalAbsent(p, Label(last), m);
      }
    }
  }

  // ---------------------------------------------------------------------
  // Allocation by direction
  // ---------------------------------------------------------------------

  /** One slice of the allocation chart: a group and its market value. */
  datatype DirectionRow = DirectionRow(name: string, value: real)

  function DirectionValue(r: DirectionRow): real { r.value }

  function DirectionName(r: DirectionRow): string { r.name }

  /** One row per given label, with the group's total market value. */
  function DirectionRowsFor(ks: seq<string>, s: seq<Asset>): (rows: seq<DirectionRow>)
    ensures |rows| == |ks|
    ensures forall j :: 0 <= j < |ks| ==> rows[j] == DirectionRow(ks[j], GroupTotal(s, ks[j], Value))
  {
    if ks == [] then [] else [DirectionRow(ks[0], GroupTotal(s, ks[0], Value))] + DirectionRowsFor(ks[1..], s)
  }

  lemma {:induction false} DirectionRowsSum(ks: seq<string>, s: seq<Asset>)
    ensures SumBy(DirectionRowsFor(ks, s), DirectionValue) == GroupSums(ks, s, Value)
    ensures MapSeq(DirectionRowsFor(ks, s), DirectionName) == ks
  {
    if ks != [] {
      DirectionRowsSum(ks[1..], s);
      assert DirectionRowsFor(ks, s)[1..] == DirectionRowsFor(ks[1..], s);
    }
  }

  /** `grouped` holds the market value of each group of `s`, and `keys` its labels in order of first appearance. */
  ghost predicate ValueTable(s: seq<Asset>, keys: seq<string>, grouped: map<string, real>) {
    && keys == Labels(s)
    && (forall k :: k in grouped <==> k in keys)
    && (forall k :: k in grouped ==> grouped[k] == GroupTotal(s, k, Value))
  }

  /** One iteration of the allocation loop keeps the table exact. */
  lemma ValueTableStep(p: seq<Asset>, a: Asset, keys: seq<string>, grouped: map<string, real>,
                       keys': seq<string>, grouped': map<string, real>)
    requires ValueTable(p, keys, grouped)
    requires keys' == if Label(a) in grouped then keys else keys + [Label(a)]
    requires grouped' == grouped[Label(a) := (if Label(a) in grouped then grouped[Label(a)] else 0.0) + a.currentValue]
    ensures ValueTable(p + [a], keys', grouped')
  {
    var dir := Label(a);
    LabelsStep(p, a);
    if dir !in grouped {
      GroupTotalAbsent(p, dir, Value);
    }
    forall k | k in grouped' ensures grouped'[k] == GroupTotal(p + [a], k, Value) {
      GroupTotalStep(p, a, k, Value);
    }
  }

  /** The allocation loop: per-label market value, keys in insertion order. */
  method GroupValues(activeAssets: seq<Asset>) returns (keys: seq<string>, grouped: map<string, real>)
    ensures keys == Labels(activeAssets)
    ensures forall k :: k in grouped <==> k in keys
    ensures forall k :: k in grouped ==> grouped[k] == GroupTotal(activeAssets, k, Value)
  {
    grouped, keys := map[], [];
    for i := 0 to |activeAssets|
      invariant ValueTable(activeAssets[..i], keys, grouped)
    {
      var a := activeAssets[i];
      var dir := if a.investmentDirection == "" then OTHER_LABEL else a.investmentDirection;
      ghost var start, startKeys := grouped, keys;
      var prev := if dir in grouped then grouped[dir] else 0.0;
      if dir !in grouped {
        keys := keys + [dir];
      }
      grouped := grouped[dir := prev + a.currentValue];
      ValueTableStep(activeAssets[..i], a, startKeys, start, keys, grouped);
      assert activeAssets[..i + 1] == activeAssets[..i] + [a];
    }
    assert activeAssets[..|activeAssets|] == activeAssets;
  }

  /** The allocation chart: per-group market value, largest first. */
  method DirectionData(activeAssets: seq<Asset>) returns (rows: seq<DirectionRow>)
    ensures SortedDesc(rows, DirectionValue)
    ensures multiset(rows) == multiset(DirectionRowsFor(Labels(activeAssets), activeAssets))
    ensures multiset(MapSeq(rows, DirectionName)) == multiset(Labels(activeAssets))
    ensures SumBy(rows, DirectionValue) == StatsOf(activeAssets).totalValue
    ensures forall r :: r in rows ==> r.value == GroupTotal(activeAssets, r.name, Value)
  {
    var keys, grouped := GroupValues(activeAssets);
    var unsorted := seq(|keys|, j requires 0 <= j < |keys| => DirectionRow(keys[j], grouped[keys[j]]));
    assert unsorted == DirectionRowsFor(keys, activeAssets);
    rows := SortDesc(unsorted, DirectionValue);
    DirectionRowsMeaning(activeAssets, rows);
  }

  /** What any ordering of the per-group allocation rows says about the portfolio. */
  lemma DirectionRowsMeaning(activeAssets: seq<Asset>, rows: seq<DirectionRow>)
    requires multiset(rows) == multiset(DirectionRowsFor(Labels(activeAssets), activeAssets))
    ensures multiset(MapSeq(rows, DirectionName)) == multiset(Labels(activeAssets))
    ensures SumBy(rows, DirectionValue) == StatsOf(activeAssets).totalValue
    ensures forall r :: r in rows ==> r.value == GroupTotal(activeAssets, r.name, Value)
  {
    var ks := Labels(activeAssets);
    var spec := DirectionRowsFor(ks, activeAssets);
    DirectionRowsSum(ks, activeAssets);
    GroupsPartitionTotal(activeAssets, Value);
    SumByPermutation(rows, spec, DirectionValue);
    MapSeqPermutation(rows, spec, DirectionName);
    DirectionRowsValues(activeAssets, rows);
  }

  lemma DirectionRowsValues(activeAssets: seq<Asset>, rows: seq<DirectionRow>)
    requires multiset(rows) == multiset(DirectionRowsFor(Labels(activeAssets), activeAssets))
    ensures forall r :: r in rows ==> r.value == GroupTotal(activeAssets, r.name, Value)
  {
    var spec := DirectionRowsFor(Labels(activeAssets), activeAssets);
    forall r | r in rows ensures r.value == GroupTotal(activeAssets, r.name, Value) {
      assert r in multiset(spec);
    }
  }

  // ---------------------------------------------------------------------
  // Sector performance
  // ---------------------------------------------------------------------

  /**
   * Rounding to two decimals as `parseFloat(x.toFixed(2))` does on the exact
   * value: to the nearest hundredth, halves away from zero.
   */
  function Round2(x: real): (r: real)
    ensures IsHundredths(r)
    ensures x >= 0.0 ==> -0.005 < r - x <= 0.005
    ensures x < 0.0 ==> -0.005 <= r - x < 0.005
    ensures x == 0.0 ==> r == 0.0
    ensures x >= 0.0 ==> r >= 0.0
    ensures x <= 0.0 ==> r <= 0.0
  {
    if x < 0.0 then
      var up := RoundHalfUp2(-x);
      HundredthsNegate(up);
      -up
    else
      RoundHalfUp2(x)
  }

  lemma HundredthsNegate(r: real)
    requires IsHundredths(r)
    ensures IsHundredths(-r)
  {
    var k := (r * 100.0).Floor;
    assert -r * 100.0 == (-k) as real;
  }

  /** `r` is a whole number of hundredths. */
  predicate IsHundredths(r: real) {
    (r * 100.0).Floor as real == r * 100.0
  }

  /** Rounding a non-negative value to the nearest hundredth, halves up. */
  function RoundHalfUp2(x: real): (r: real)
    requires x >= 0.0
    ensures IsHundredths(r)
    ensures r >= 0.0 && -0.005 < r - x <= 0.005
  {
    var hundredths := (x * 100.0 + 0.5).Floor;
    assert hundredths as real <= x * 100.0 + 0.5 < hundredths as real + 1.0;
    assert (hundredths as real / 100.0) * 100.0 == hundredths as real;
    hundredths as real / 100.0
  }

  /**
   * The rounding is the only whole number of hundredths in its window: for a
   * non-negative value, the hundredth above it by at most half a hundredth
   * and below it by less; for a negative value, the mirror image.
   */
  lemma Round2Unique(x: real, h: real)
    requires IsHundredths(h)
    requires x >= 0.0 ==> -0.005 < h - x <= 0.005
    requires x < 0.0 ==> -0.005 <= h - x < 0.005
    ensures h == Round2(x)
  {
    var r := Round2(x);
    var n, m := (h * 100.0).Floor, (r * 100.0).Floor;
    assert -0.01 < h - r < 0.01;
    assert n as real - m as real == (h - r) * 100.0;
    assert n == m;
  }

  /** Return on investment in percent, rounded; zero when the cost is not positive. */
  function Roi(cost: real, value: real): (r: real)
    ensures IsHundredths(r)
    ensures cost <= 0.0 ==> r == 0.0
    ensures cost > 0.0 ==> -0.005 <= r - (value - cost) / cost * 100.0 <= 0.005
  {
    Round2(if cost > 0.0 then (value - cost) / cost * 100.0 else 0.0)
  }

  /** One bar of the sector chart: a group, its rounded ROI and its gain. */
  datatype SectorRow = SectorRow(name: string, roi: real, gain: real)

  function SectorRoi(r: SectorRow): real { r.roi }

  function SectorGain(r: SectorRow): real { r.gain }

  function SectorName(r: SectorRow): string { r.name }

  /** The bar of a group from its accumulated cost and market value. */
  function SectorRowFrom(k: string, cv: CostValue): SectorRow {
    SectorRow(k, Roi(cv.cost, cv.val), cv.val - cv.cost)
  }

  function SectorRowOf(s: seq<Asset>, k: string): SectorRow {
    SectorRowFrom(k, CostValue(GroupTotal(s, k, Cost), GroupTotal(s, k, Value)))
  }

  lemma SectorRowFacts(s: seq<Asset>, k: string)
    ensures SectorRowOf(s, k).name == k
    ensures SectorRowOf(s, k).gain == GroupTotal(s, k, Value) - GroupTotal(s, k, Cost)
    ensures GroupTotal(s, k, Cost) <= 0.0 ==> SectorRowOf(s, k).roi == 0.0
  {
  }

  function SectorRowsFor(ks: seq<string>, s: seq<Asset>): (rows: seq<SectorRow>)
    ensures |rows| == |ks|
    ensures forall j :: 0 <= j < |ks| ==> rows[j] == SectorRowOf(s, ks[j])
  {
    if ks == [] then [] else [SectorRowOf(s, ks[0])] + SectorRowsFor(ks[1..], s)
  }

  lemma {:induction false} SectorRowsSum(ks: seq<string>, s: seq<Asset>)
    ensures SumBy(SectorRowsFor(ks, s), SectorGain) == GroupSums(ks, s, Gain)
    ensures MapSeq(SectorRowsFor(ks, s), SectorName) == ks
  {
    if ks != [] {
      SectorRowsSum(ks[1..], s);
      GroupTotalGain(s, ks[0]);
      assert SectorRowsFor(ks, s)[1..] == SectorRowsFor(ks[1..], s);
    }
  }

  /** Group totals of cost and market value, as the sector loop accumulates them. */
  datatype CostValue = CostValue(cost: real, val: real)

  /** `grouped` holds the cost and market value of each group of `s`, and `keys` its labels in order of first appearance. */
  ghost predicate CostValueTable(s: seq<Asset>, keys: seq<string>, grouped: map<string, CostValue>) {
    && keys == Labels(s)
    && (forall k :: k in grouped <==> k in keys)
    && (forall k :: k in grouped ==> grouped[k] == CostValue(GroupTotal(s, k, Cost), GroupTotal(s, k, Value)))
  }

  /** One iteration of the sector loop keeps the table exact. */
  lemma CostValueTableStep(p: seq<Asset>, a: Asset, keys: seq<string>, grouped: map<string, CostValue>,
                           keys': seq<string>, grouped': map<string, CostValue>)
    requires CostValueTable(p, keys, grouped)
    requires keys' == if Label(a) in grouped then keys else keys + [Label(a)]
    requires var cv := if Label(a) in grouped then grouped[Label(a)] else CostValue(0.0, 0.0);
             grouped' == grouped[Label(a) := CostValue(cv.cost + a.costBasis, cv.val + a.currentValue)]
    ensures CostValueTable(p + [a], keys', grouped')
  {
    var dir := Label(a);
    LabelsStep(p, a);
    if dir !in grouped {
      GroupTotalAbsent(p, dir, Cost);
      GroupTotalAbsent(p, dir, Value);
    }
    forall k | k in grouped' ensures grouped'[k] == CostValue(GroupTotal(p + [a], k, Cost), GroupTotal(p + [a], k, Value)) {
      GroupTotalStep(p, a, k, Cost);
      GroupTotalStep(p, a, k, Value);
    }
  }

  /** Writing a key twice is writing it once with the second value. */
  lemma OverwriteTwice<K, V>(m: map<K, V>, k: K, first: V, second: V)
    ensures m[k := first][k := second] == m[k := second]
  {
  }

  /** The sector loop: per-label cost and market value, keys in insertion order. */
  method GroupCostsAndValues(activeAssets: seq<Asset>) returns (keys: seq<string>, grouped: map<string, CostValue>)
    ensures keys == Labels(activeAssets)
    ensures forall k :: k in grouped <==> k in keys
    ensures forall k :: k in grouped ==>
              grouped[k] == CostValue(GroupTotal(activeAssets, k, Cost), GroupTotal(activeAssets, k, Value))
  {
    grouped, keys := map[], [];
    for i := 0 to |activeAssets|
      invariant CostValueTable(activeAssets[..i], keys, grouped)
    {
      var a := activeAssets[i];
      var dir := if a.investmentDirection == "" then OTHER_LABEL else a.investmentDirection;
      ghost var start, startKeys := grouped, keys;
      if dir !in grouped {
        grouped := grouped[dir := CostValue(0.0, 0.0)];
        keys := keys + [dir];
      }
      var cv := grouped[dir];
      var sums := CostValue(cv.cost + a.costBasis, cv.val + a.currentValue);
      if dir !in start {
        OverwriteTwice(start, dir, CostValue(0.0, 0.0), sums);
      }
      grouped := grouped[dir := sums];
      CostValueTableStep(activeAssets[..i], a, startKeys, start, keys, grouped);
      assert activeAssets[..i + 1] == activeAssets[..i] + [a];
    }
    assert activeAssets[..|activeAssets|] == activeAssets;
  }

  /** The sector chart: per-group gain and ROI, highest ROI first. */
  method SectorPerformanceData(activeAssets: seq<Asset>) returns (rows: seq<SectorRow>)
    ensures SortedDesc(rows, SectorRoi)
    ensures multiset(rows) == multiset(SectorRowsFor(Labels(activeAssets), activeAssets))
    ensures multiset(MapSeq(rows, SectorName)) == multiset(Labels(activeAssets))
    ensures SumBy(rows, SectorGain) == StatsOf(activeAssets).totalGain
    ensures forall r :: r in rows ==>
              && r.gain == GroupTotal(activeAssets, r.name, Value) - GroupTotal(activeAssets, r.name, Cost)
              && (GroupTotal(activeAssets, r.name, Cost) <= 0.0 ==> r.roi == 0.0)
  {
    var keys, grouped := GroupCostsAndValues(activeAssets);
    var unsorted := seq(|keys|, j requires 0 <= j < |keys| => SectorRowFrom(keys[j], grouped[keys[j]]));
    forall j | 0 <= j < |keys| ensures unsorted[j] == SectorRowOf(activeAssets, keys[j]) {
      assert grouped[keys[j]] == CostValue(GroupTotal(activeAssets, keys[j], Cost), GroupTotal(activeAssets, keys[j], Value));
    }
    assert unsorted == SectorRowsFor(keys, activeAssets);
    rows := SortDesc(unsorted, SectorRoi);
    SectorRowsMeaning(activeAssets, rows);
  }

  /** What any ordering of the per-group sector rows says about the portfolio. */
  lemma SectorRowsMeaning(activeAssets: seq<Asset>, rows: seq<SectorRow>)
    requires multiset(rows) == multiset(SectorRowsFor(Labels(activeAssets), activeAssets))
    ensures multiset(MapSeq(rows, SectorName)) == multiset(Labels(activeAssets))
    ensures SumBy(rows, SectorGain) == StatsOf(activeAssets).totalGain
    ensures forall r :: r in rows ==>
              && r.gain == GroupTotal(activeAssets, r.name, Value) - GroupTotal(activeAssets, r.name, Cost)
              && (GroupTotal(activeAssets, r.name, Cost) <= 0.0 ==> r.roi == 0.0)
  {
    var ks := Labels(activeAssets);
    var spec := SectorRowsFor(ks, activeAssets);
    SectorRowsSum(ks, activeAssets);
    GroupsPartitionTotal(activeAssets, Gain);
    StatsGainIsSumOfGains(activeAssets);
    SumByPermutation(rows, spec, SectorGain);
    MapSeqPermutation(rows, spec, SectorName);
    SectorRowsValues(activeAssets, rows);
  }

  lemma SectorRowsValues(activeAssets: seq<Asset>, rows: seq<SectorRow>)
    requires multiset(rows) == multiset(SectorRowsFor(Labels(activeAssets), activeAssets))
    ensures forall r :: r in rows ==>
              && r.gain == GroupTotal(activeAssets, r.name, Value) - GroupTotal(activeAssets, r.name, Cost)
              && (GroupTotal(activeAssets, r.name, Cost) <= 0.0 ==> r.roi == 0.0)
  {
    var ks := Labels(activeAssets);
    var spec := SectorRowsFor(ks, activeAssets);
    forall r | r in rows
      ensures r.gain == GroupTotal(activeAssets, r.name, Value) - GroupTotal(activeAssets, r.name, Cost)
      ensures GroupTotal(activeAssets, r.name, Cost) <= 0.0 ==> r.roi == 0.0
    {
      assert r in multiset(spec);
      var j :| 0 <= j < |spec| && spec[j] == r;
      SectorRowFacts(activeAssets, ks[j]);
    }
  }

  // ---------------------------------------------------------------------
  // Per-asset rankings
  // ---------------------------------------------------------------------

  /** A chart label: the full name if it has at most `width` characters, else its first `width` and "...". */
  function Abbreviate(name: string, width: nat): (shown: string)
    ensures |name| <= width ==> shown == name
    ensures |name| > width ==> |shown| == width + 3 && shown[..width] == name[..width] && shown[width..] == "..."
  {
    if |name| > width then name[..width] + "..." else name
  }

  /** A row of the target-deviation chart. */
  datatype DeviationRow = DeviationRow(name: string, fullName: string, actual: real, target: real, diff: real)

  function DeviationDiff(r: DeviationRow): real { r.diff }

  function DeviationRowOf(a: Asset): DeviationRow {
    DeviationRow(Abbreviate(a.name, 10), a.name, a.currentValue, a.targetAmount, a.currentValue - a.targetAmount)
  }

  /** Per-asset deviation from target, most overweight first. */
  function DeviationData(activeAssets: seq<Asset>): (rows: seq<DeviationRow>)
    ensures |rows| == |activeAssets|
    ensures SortedDesc(rows, DeviationDiff)
    ensures multiset(rows) == multiset(MapSeq(activeAssets, DeviationRowOf))
  {
    SortDesc(MapSeq(activeAssets, DeviationRowOf), DeviationDiff)
  }

  /** A row of the profit-leader chart. */
  datatype ProfitRow = ProfitRow(name: string, fullName: string, gain: real)

  function ProfitGain(r: ProfitRow): real { r.gain }

  function ProfitRowOf(a: Asset): ProfitRow {
    ProfitRow(Abbreviate(a.name, 8), a.name, a.currentValue - a.costBasis)
  }

  /** Per-asset gain, biggest first. */
  function ProfitLeaderData(activeAssets: seq<Asset>): (rows: seq<ProfitRow>)
    ensures |rows| == |activeAssets|
    ensures SortedDesc(rows, ProfitGain)
    ensures multiset(rows) == multiset(MapSeq(activeAssets, ProfitRowOf))
  {
    SortDesc(MapSeq(activeAssets, ProfitRowOf), ProfitGain)
  }

  /** Mapping assets to rows whose key is one of the measures preserves that measure's total. */
  lemma {:induction false} SumOfRows<R>(s: seq<Asset>, f: Asset -> R, key: R -> real, m: Measure)
    requires forall a :: key(f(a)) == Amount(a, m)
    ensures SumBy(MapSeq(s, f), key) == Total(s, m)
  {
    if s != [] {
      SumOfRows(s[1..], f, key, m);
      assert s == [s[0]] + s[1..];
      TotalConcat([s[0]], s[1..], m);
      assert [s[0]][..0] == [];
    }
  }

  /** Each deviation row is actual minus target, and the deviations add up to total value minus target total. */
  lemma DeviationDataMeaning(activeAssets: seq<Asset>)
    ensures forall r :: r in DeviationData(activeAssets) ==> r.diff == r.actual - r.target
    ensures SumBy(DeviationData(activeAssets), DeviationDiff)
         == StatsOf(activeAssets).totalValue - StatsOf(activeAssets).targetTotal
  {
    var rows, mapped := DeviationData(activeAssets), MapSeq(activeAssets, DeviationRowOf);
    forall r | r in rows ensures r.diff == r.actual - r.target {
      assert r in multiset(mapped);
      MapSeqPreimage(activeAssets, DeviationRowOf, r);
    }
    SumByPermutation(rows, mapped, DeviationDiff);
    SumOfRows(activeAssets, DeviationRowOf, DeviationDiff, Deviation);
    TotalLinear(activeAssets);
  }

  /** Each profit row is value minus cost of an active asset, and the gains add up to the portfolio's total gain. */
  lemma ProfitLeaderDataMeaning(activeAssets: seq<Asset>)
    ensures forall r :: r in ProfitLeaderData(activeAssets) ==>
              exists a :: a in activeAssets && r.fullName == a.name && r.gain == a.currentValue - a.costBasis
    ensures SumBy(ProfitLeaderData(activeAssets), ProfitGain) == StatsOf(activeAssets).totalGain
  {
    var rows, mapped := ProfitLeaderData(activeAssets), MapSeq(activeAssets, ProfitRowOf);
    forall r | r in rows
      ensures exists a :: a in activeAssets && r.fullName == a.name && r.gain == a.currentValue - a.costBasis
    {
      assert r in multiset(mapped);
      MapSeqPreimage(activeAssets, ProfitRowOf, r);
      var a :| a in activeAssets && ProfitRowOf(a) == r;
      assert r.fullName == a.name && r.gain == a.currentValue - a.costBasis;
    }
    SumByPermutation(rows, mapped, ProfitGain);
    SumOfRows(activeAssets, ProfitRowOf, ProfitGain, Gain);
    StatsGainIsSumOfGains(activeAssets);
  }
}
