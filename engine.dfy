/**
 * The prediction engine: three fixed piecewise-linear estimators ("trees")
 * of compressive strength, averaged into one forecast that is rounded and
 * clamped at zero.
 */
module Engine {
  import opened Wrappers
  import opened Text
  import opened Catalog

  /** The attributes used when a query matches no region. */
  const FallbackSoilBase: real := 13.0
  const FallbackProduction: int := 500000

  /** Tree 1, soil strength: the higher the soil baseline, the slower it degrades per percent. */
  function SoilTree(base: real, p: real): (t: real)
    ensures p >= 0.0 ==> base - 0.45 * p <= t <= base - 0.25 * p
    ensures p == 0.0 ==> t == base
  {
    if base > 17.0 then base - 0.25 * p
    else if base > 15.0 then base - 0.30 * p
    else base - 0.45 * p
  }

  /** The porosity penalty of tree 2, a step at 15 percent. */
  function PorosityPenalty(p: real): (k: real)
    ensures k == 0.5 || k == 2.0
    ensures k == 2.0 <==> p > 15.0
  {
    if p > 15.0 then 2.0 else 0.5
  }

  /** Tree 2, biomass quality: a base strength tiered by production, less a per-percent loss and the porosity penalty. */
  function BiomassTree(prod: int, p: real): (t: real)
    ensures p >= 0.0 ==> 11.0 - 0.42 * p <= t <= 15.5 - 0.28 * p
  {
    var penalty := PorosityPenalty(p);
    if prod > 1000000 then 16.0 - 0.28 * p - penalty
    else if prod > 500000 then 15.0 - 0.32 * p - penalty
    else if prod > 100000 then 14.0 - 0.35 * p - penalty
    else 13.0 - 0.42 * p - penalty
  }

  /** Tree 3, the national-standard reference line; it takes no region attribute. */
  function StandardTree(p: real): (t: real)
    ensures p >= 0.0 ==> t <= 15.0
    ensures p <= 40.0 ==> t >= 1.0
  {
    15.0 - 0.35 * p
  }

  /** The three estimates, in the order soil, biomass, standard. */
  datatype Trees = Trees(soil: real, biomass: real, standard: real)

  /** With no ash every tree starts from its own baseline, and ash never lifts a tree above it. */
  function Estimate(base: real, prod: int, p: real): (t: Trees)
    ensures p == 0.0 ==> t.soil == base && t.standard == 15.0
    ensures p >= 0.0 ==> t.soil <= base && t.biomass <= 15.5 && t.standard <= 15.0
  {
    Trees(SoilTree(base, p), BiomassTree(prod, p), StandardTree(p))
  }

  /** The unweighted mean of the three estimates. */
  function Mean(t: Trees): (m: real)
    ensures m <= t.soil || m <= t.biomass || m <= t.standard
    ensures m >= t.soil || m >= t.biomass || m >= t.standard
  {
    (t.soil + t.biomass + t.standard) / 3.0
  }

  /** `x` has no digits beyond the precision `1 / scale`. */
  predicate OnGrid(x: real, scale: nat) {
    (x * scale as real).Floor as real == x * scale as real
  }

  /** The integer nearest to `y`, a tie going away from zero. */
  function RoundHalfAway(y: real): (n: int)
    ensures -0.5 <= n as real - y <= 0.5
    ensures (y >= 0.0 ==> n >= 0) && (y <= 0.0 ==> n <= 0)
    ensures y >= 0.0 ==> n as real - y > -0.5
    ensures y <= 0.0 ==> n as real - y < 0.5
  {
    if y >= 0.0 then (y + 0.5).Floor else -((-y + 0.5).Floor)
  }

  lemma ScaleBack(n: int, x: real, scale: nat)
    requires scale > 0
    ensures OnGrid(n as real / scale as real, scale)
    ensures (n as real / scale as real - x) * scale as real == n as real - x * scale as real
  {
    var r := n as real / scale as real;
    assert r * scale as real == n as real;
    assert (n as real).Floor == n;
  }

  /**
   * `toFixed` read back as a number, on exact reals: the multiple of
   * `1 / scale` nearest to `x`, a tie going away from zero (FixedNearest).
   */
  function Fixed(x: real, scale: nat): (y: real)
    requires scale > 0
    ensures (x >= 0.0 ==> y >= 0.0) && (x <= 0.0 ==> y <= 0.0)
  {
    RoundHalfAway(x * scale as real) as real / scale as real
  }

  /**
   * The rounded value lies on the grid of multiples of `1 / scale`, within
   * half a step of `x`; at a tie, it is the neighbour farther from zero.
   */
  lemma FixedNearest(x: real, scale: nat)
    requires scale > 0
    ensures OnGrid(Fixed(x, scale), scale)
    ensures -1.0 <= 2.0 * (Fixed(x, scale) - x) * scale as real <= 1.0
    ensures x >= 0.0 ==> 2.0 * (Fixed(x, scale) - x) * scale as real > -1.0
    ensures x <= 0.0 ==> 2.0 * (Fixed(x, scale) - x) * scale as real < 1.0
  {
    ScaleBack(RoundHalfAway(x * scale as real), x, scale);
  }

  /** What one prediction publishes: the headline value, the three rounded trees and the matched region. */
  datatype Forecast = Forecast(value: real, trees: Trees, region: Option<Region>)

  /** The soil baseline and production the trees see: the matched region's, or the fallback. */
  function SoilBaseOf(region: Option<Region>): real {
    if region.Some? then region.value.soilBase else FallbackSoilBase
  }

  function ProductionOf(region: Option<Region>): int {
    if region.Some? then region.value.production else FallbackProduction
  }

  /** The exact tree values for a query and a percentage, before any rounding. */
  function RawTrees(query: Option<string>, pct: real): Trees {
    var region := Find(query);
    Estimate(SoilBaseOf(region), ProductionOf(region), pct)
  }

  function Max0(x: real): real {
    if x >= 0.0 then x else 0.0
  }

  /**
   * `simulateRandomForest`: the headline is the mean of the trees rounded to
   * two decimals and never below zero; each tree is rounded to one decimal;
   * the region is the lookup's result, absent when nothing matched.
   */
  function Predict(query: Option<string>, pct: real): (f: Forecast)
    ensures f.value >= 0.0 && OnGrid(f.value, 100)
    ensures -0.005 <= f.value - Max0(Mean(RawTrees(query, pct))) <= 0.005
    ensures Mean(RawTrees(query, pct)) <= 0.0 ==> f.value == 0.0
    ensures f.region == Find(query)
    ensures var raw := RawTrees(query, pct);
      && -0.05 <= f.trees.soil - raw.soil <= 0.05
      && -0.05 <= f.trees.biomass - raw.biomass <= 0.05
      && -0.05 <= f.trees.standard - raw.standard <= 0.05
    ensures OnGrid(f.trees.soil, 10) && OnGrid(f.trees.biomass, 10) && OnGrid(f.trees.standard, 10)
  {
    AssessRounding(Find(query), pct);
    Assess(Find(query), pct)
  }

  /** The forecast once the lookup is done, `region` being the matched record if any (AssessRounding). */
  function Assess(region: Option<Region>, pct: real): (f: Forecast)
    ensures f.value >= 0.0 && f.region == region
  {
    var t := Estimate(SoilBaseOf(region), ProductionOf(region), pct);
    var headline := Fixed(Mean(t), 100);

    Forecast(if headline >= 0.0 then headline else 0.0,
             Trees(Fixed(t.soil, 10), Fixed(t.biomass, 10), Fixed(t.standard, 10)),
             region)
  }

  /**
   * Every number a forecast publishes is the exact one rounded: the headline
   * to two decimals and never below zero, each tree to one decimal.
   */
  lemma AssessRounding(region: Option<Region>, pct: real)
    ensures var f, raw := Assess(region, pct), Estimate(SoilBaseOf(region), ProductionOf(region), pct);
      && f.value >= 0.0 && OnGrid(f.value, 100)
      && -0.005 <= f.value - Max0(Mean(raw)) <= 0.005
      && (Mean(raw) <= 0.0 ==> f.value == 0.0)
      && f.region == region
      && -0.05 <= f.trees.soil - raw.soil <= 0.05
      && -0.05 <= f.trees.biomass - raw.biomass <= 0.05
      && -0.05 <= f.trees.standard - raw.standard <= 0.05
      && OnGrid(f.trees.soil, 10) && OnGrid(f.trees.biomass, 10) && OnGrid(f.trees.standard, 10)
  {
    var t := Estimate(SoilBaseOf(region), ProductionOf(region), pct);
    FixedNearest(Mean(t), 100);
    FixedNearest(t.soil, 10);
    FixedNearest(t.biomass, 10);
    FixedNearest(t.standard, 10);
  }

  /** The marker size on the map grows with production: 30, 40 or 50 pixels. */
  function IconSize(production: int): (size: int)
    ensures size == 30 || size == 40 || size == 50
    ensures size == 50 <==> production > 1000000
    ensures size == 40 <==> 500000 < production <= 1000000
  {
    if production > 1000000 then 50 else if production > 500000 then 40 else 30
  }

  // ---- Tree 1 ----

  /** Tier boundaries of the soil tree: 17 belongs to the middle tier, 15 to the lowest. */
  lemma SoilTierBoundaries(p: real)
    ensures SoilTree(17.0, p) == 17.0 - 0.30 * p && SoilTree(15.0, p) == 15.0 - 0.45 * p
    ensures forall b :: b > 17.0 ==> SoilTree(b, p) == b - 0.25 * p
  {
  }

  /** Within its tier the soil tree is a straight line whose slope is its loss from 0 to 1 percent. */
  lemma SoilLinear(base: real, p1: real, p2: real)
    ensures SoilTree(base, p1) - SoilTree(base, p2) == (base - SoilTree(base, 1.0)) * (p2 - p1)
  {
  }

  /** More additive never raises the soil estimate. */
  lemma SoilNonIncreasing(base: real, p1: real, p2: real)
    requires p1 <= p2
    ensures SoilTree(base, p2) <= SoilTree(base, p1)
  {
  }

  /** At a non-negative percentage a stronger soil baseline never gives a weaker estimate, across tiers too. */
  lemma SoilNonDecreasingInBase(b1: real, b2: real, p: real)
    requires b1 <= b2 && p >= 0.0
    ensures SoilTree(b1, p) <= SoilTree(b2, p)
  {
  }

  // ---- Tree 2 ----

  /**
   * For a fixed production tier the biomass tree falls linearly, with slope
   * its loss from 0 to 1 percent, except that crossing 15 percent costs
   * exactly 1.5 more.
   */
  lemma BiomassPorosityStep(prod: int, p1: real, p2: real)
    requires p1 <= p2
    ensures var slope := BiomassTree(prod, 0.0) - BiomassTree(prod, 1.0);
      BiomassTree(prod, p1) - BiomassTree(prod, p2)
        == slope * (p2 - p1) + (if p1 <= 15.0 < p2 then 1.5 else 0.0)
  {
  }

  /** The jump at the threshold: from 15 to 16 percent the loss is 1.5 more than from 14 to 15. */
  lemma BiomassJumpAt15(prod: int)
    ensures (BiomassTree(prod, 15.0) - BiomassTree(prod, 16.0))
            - (BiomassTree(prod, 14.0) - BiomassTree(prod, 15.0)) == 1.5
  {
  }

  /** More additive never raises the biomass estimate. */
  lemma BiomassNonIncreasing(prod: int, p1: real, p2: real)
    requires p1 <= p2
    ensures BiomassTree(prod, p2) <= BiomassTree(prod, p1)
  {
  }

  /** At a non-negative percentage more production never gives a weaker biomass estimate. */
  lemma BiomassNonDecreasingInProduction(a: int, b: int, p: real)
    requires a <= b && p >= 0.0
    ensures BiomassTree(a, p) <= BiomassTree(b, p)
  {
  }

  // ---- Tree 3 and the forecast ----

  /** The standard tree is the same for every query. */
  lemma StandardIgnoresRegion(q1: Option<string>, q2: Option<string>, pct: real)
    ensures RawTrees(q1, pct).standard == RawTrees(q2, pct).standard == StandardTree(pct)
  {
  }

  /** An unmatched query is predicted from the fallback constants and reports no region. */
  lemma UnmatchedUsesFallback(query: Option<string>, pct: real)
    requires Find(query) == None
    ensures RawTrees(query, pct) == Estimate(13.0, 500000, pct)
    ensures Predict(query, pct).region == None
  {
  }

  lemma {:induction false} RoundHalfAwayMonotone(x: real, y: real)
    requires x <= y
    ensures RoundHalfAway(x) <= RoundHalfAway(y)
  {
    if x >= 0.0 {
      assert (x + 0.5).Floor <= (y + 0.5).Floor;
    } else if y < 0.0 {
      assert (-y + 0.5).Floor <= (-x + 0.5).Floor;
    }
  }

  lemma ScaleMonotone(x: real, y: real, s: real)
    requires x <= y && s > 0.0
    ensures x * s <= y * s && x / s <= y / s
  {
    assert (y - x) * s >= 0.0;
    assert y / s - x / s == (y - x) / s;
  }

  /** Rounding to tenths or hundredths keeps order. */
  lemma FixedMonotone(x: real, y: real, scale: nat)
    requires scale == 10 || scale == 100
    requires x <= y
    ensures Fixed(x, scale) <= Fixed(y, scale)
  {
    if scale == 10 {
      RoundHalfAwayMonotone(x * 10.0, y * 10.0);
    } else {
      RoundHalfAwayMonotone(x * 100.0, y * 100.0);
    }
  }

  /** Rounding a non-negative value whose scaled value plus a half lies in `[n, n + 1)` gives `n / scale`. */
  lemma FixedAt(x: real, scale: nat, n: int)
    requires scale > 0 && x >= 0.0
    requires n as real <= x * scale as real + 0.5 < n as real + 1.0
    ensures Fixed(x, scale) == n as real / scale as real
  {
    assert Fixed(x, scale) == RoundHalfAway(x * scale as real) as real / scale as real;
    var y := x * scale as real;
    assert y >= 0.0 by { ScaleMonotone(0.0, x, scale as real); }
    assert RoundHalfAway(y) == n;
  }

  /** For a fixed query, a higher percentage never raises the headline value. */
  lemma PredictNonIncreasing(query: Option<string>, p1: real, p2: real)
    requires p1 <= p2
    ensures Predict(query, p2).value <= Predict(query, p1).value
  {
    var region := Find(query);
    SoilNonIncreasing(SoilBaseOf(region), p1, p2);
    BiomassNonIncreasing(ProductionOf(region), p1, p2);
    FixedMonotone(Mean(RawTrees(query, p2)), Mean(RawTrees(query, p1)), 100);
  }

  /** Two queries with the same key give the same forecast. */
  lemma PredictByKey(q1: string, q2: string, pct: real)
    requires Normalize(q1) == Normalize(q2)
    ensures Predict(Some(q1), pct) == Predict(Some(q2), pct)
  {
  }

  /** Case is ignored: every letter of "INDRAMAYU" lower-cases to that of "Indramayu". */
  lemma IndramayuUpperKey()
    ensures Normalize("INDRAMAYU") == Normalize("Indramayu")
  {
    NormalizeIgnoresCase("INDRAMAYU", "Indramayu");
  }

  lemma IndramayuLowerKey()
    ensures Normalize("indramayu") == Normalize("Indramayu")
  {
    NormalizeIgnoresCase("indramayu", "Indramayu");
  }

  /** Surrounding spaces are ignored. */
  lemma IndramayuPaddedKey()
    ensures Normalize(" Indramayu ") == Normalize("Indramayu")
  {
    assert " Indramayu " == " " + "Indramayu" + " ";
    NormalizePadding(" ", "Indramayu", " ");
  }

  /** "indramayu", " Indramayu " and "INDRAMAYU" all select Indramayu and predict alike. */
  lemma IndramayuSpellings(pct: real)
    ensures Predict(Some("indramayu"), pct) == Predict(Some(" Indramayu "), pct)
            == Predict(Some("INDRAMAYU"), pct) == Predict(Some("Indramayu"), pct)
    ensures Predict(Some("Indramayu"), pct).region == Some(Regions[0])
  {
    IndramayuUpperKey();
    IndramayuLowerKey();
    IndramayuPaddedKey();
    PredictByKey("indramayu", "Indramayu", pct);
    PredictByKey(" Indramayu ", "Indramayu", pct);
    PredictByKey("INDRAMAYU", "Indramayu", pct);
    IndramayuFound();
  }

  lemma IndramayuFound()
    ensures Find(Some("Indramayu")) == Some(Regions[0])
  {
    FindByName(0);
  }

  lemma IndramayuTrees()
    ensures RawTrees(Some("Indramayu"), 5.0) == Trees(15.0, 14.1, 13.25)
  {
    IndramayuFound();
  }

  /** 14.1166... shows as 14.12; 13.25 is a tie and shows as 13.3. */
  lemma IndramayuRounding()
    ensures Fixed(847.0 / 60.0, 100) == 14.12
    ensures Fixed(15.0, 10) == 15.0 && Fixed(14.1, 10) == 14.1 && Fixed(13.25, 10) == 13.3
  {
    FixedAt(847.0 / 60.0, 100, 1412);
    FixedAt(15.0, 10, 150);
    FixedAt(14.1, 10, 141);
    FixedAt(13.25, 10, 133);
  }

  /** Indramayu (soil base 16.5, production 1,413,200) at 5 percent: trees 15.0, 14.1 and 13.25. */
  lemma IndramayuAt5()
    ensures Mean(RawTrees(Some("Indramayu"), 5.0)) == 847.0 / 60.0
    ensures Predict(Some("Indramayu"), 5.0) == Forecast(14.12, Trees(15.0, 14.1, 13.3), Some(Regions[0]))
  {
    IndramayuFound();
    IndramayuTrees();
    IndramayuRounding();
  }

  lemma KarawangFound()
    ensures Find(Some("Karawang")) == Some(Regions[1])
  {
    FindByName(1);
  }

  lemma KarawangTrees()
    ensures RawTrees(Some("Karawang"), 10.0) == Trees(15.3, 12.7, 11.5)
  {
    KarawangFound();
  }

  /** 13.1666... shows as 13.17; the trees are already on the one-decimal grid. */
  lemma KarawangRounding()
    ensures Fixed(79.0 / 6.0, 100) == 13.17
    ensures Fixed(15.3, 10) == 15.3 && Fixed(12.7, 10) == 12.7 && Fixed(11.5, 10) == 11.5
  {
    FixedAt(79.0 / 6.0, 100, 1317);
    FixedAt(15.3, 10, 153);
    FixedAt(12.7, 10, 127);
    FixedAt(11.5, 10, 115);
  }

  /** Karawang (soil base 17.8, production 1,098,400) at 10 percent: trees 15.3, 12.7 and 11.5. */
  lemma KarawangAt10()
    ensures Mean(RawTrees(Some("Karawang"), 10.0)) == 79.0 / 6.0
    ensures Predict(Some("Karawang"), 10.0) == Forecast(13.17, Trees(15.3, 12.7, 11.5), Some(Regions[1]))
  {
    KarawangFound();
    KarawangTrees();
    KarawangRounding();
  }

  /** The clamp is reachable inside the slider's range: Depok at 40 percent averages below zero. */
  lemma DepokAt40Clamped()
    ensures Mean(RawTrees(Some("Depok"), 40.0)) < 0.0
    ensures Predict(Some("Depok"), 40.0).value == 0.0
  {
    FindByName(19);
  }

  // ---- Marker size ----

  /** A larger production never gives a smaller marker. */
  lemma IconSizeMonotone(a: int, b: int)
    requires a <= b
    ensures IconSize(a) <= IconSize(b)
  {
  }

  /** A larger marker always stands for a strictly stronger biomass estimate. */
  lemma LargerIconStrongerBiomass(a: int, b: int, p: real)
    requires p >= 0.0 && IconSize(a) < IconSize(b)
    ensures BiomassTree(a, p) < BiomassTree(b, p)
  {
  }
}
