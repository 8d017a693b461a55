/**
 * The allocator: a risk score and a jurisdiction become target sleeves
 * (asset class, sub-class, weight). The band's targets are split by the
 * jurisdiction's equity and bond composition, each weight is rounded to
 * the allocation step, the weights are renormalised, the residual is put
 * on the largest non-cash sleeve, and the sleeves are sorted by weight,
 * largest first.
 *
 * Weights are exact reals: where the source's floats leave a rounding
 * residual after renormalising, the real-valued residual is zero.
 */
module Allocator {
  import opened Numeric
  import RiskPolicy
  import BackendConfig
  import Strings
  import Sorting

  // ---------------------------------------------------------------- rounding

  function Abs(x: real): real {
    if x < 0.0 then -x else x
  }

  /** Python's round() on a real: the nearest integer, a tie going to the even one. */
  function RoundHalfEven(q: real): (n: int)
    ensures Abs(q - n as real) <= 0.5
    ensures Abs(q - n as real) == 0.5 ==> n % 2 == 0
  {
    var f := q.Floor;
    var d := q - f as real;
    if d < 0.5 then f
    else if d > 0.5 then f + 1
    else if f % 2 == 0 then f
    else f + 1
  }

  /** The rounded value is a nearest integer: no integer is strictly closer. */
  lemma RoundIsNearest(q: real, m: int)
    ensures Abs(q - RoundHalfEven(q) as real) <= Abs(q - m as real)
  {
    var n := RoundHalfEven(q);
    if m < n {
      assert m as real <= n as real - 1.0;
    } else if m > n {
      assert m as real >= n as real + 1.0;
    }
  }

  /** Rounding never makes a non-negative value negative. */
  lemma RoundNonNegative(q: real)
    requires q >= 0.0
    ensures RoundHalfEven(q) >= 0
  {
  }

  /** round_to_step: round(x / step) * step. */
  function RoundToStep(x: real, step: real): (r: real)
    requires step != 0.0
  {
    RoundHalfEven(x / step) as real * step
  }

  lemma AbsMul(e: real, s: real)
    ensures Abs(e * s) == Abs(e) * Abs(s)
  {
    if e < 0.0 {
      assert e * s == -((-e) * s);
    }
    if s < 0.0 {
      assert Abs(e) * s == -(Abs(e) * (-s));
    }
  }

  lemma MulNonNegative(a: real, b: real)
    requires a >= 0.0 && b >= 0.0
    ensures a * b >= 0.0
  {
  }

  /** |e·s| <= |s| / 2 when |e| <= 1/2. */
  lemma HalfBound(e: real, s: real)
    requires Abs(e) <= 0.5
    ensures Abs(e * s) <= Abs(s) / 2.0
  {
    AbsMul(e, s);
    MulNonNegative(0.5 - Abs(e), Abs(s));
    assert (0.5 - Abs(e)) * Abs(s) == 0.5 * Abs(s) - Abs(e) * Abs(s);
  }

  /** The result is a whole number of steps, within half a step of x. */
  lemma RoundToStepNearest(x: real, step: real)
    requires step != 0.0
    ensures var r := RoundToStep(x, step);
            && (r / step).Floor as real == r / step
            && Abs(r - x) <= Abs(step) / 2.0
  {
    var q := x / step;
    var n := RoundHalfEven(q);
    var r := n as real * step;
    var d := n as real - q;
    assert RoundToStep(x, step) == r;
    assert r / step == n as real;
    assert (n as real).Floor == n;
    assert Abs(d) <= 0.5 by {
      assert Abs(d) == Abs(q - n as real);
    }
    HalfBound(d, step);
    assert r - x == d * step by {
      assert x == q * step;
      Distribute(step, n as real, -q);
    }
  }

  /** A non-negative value rounds to a non-negative one for a positive step. */
  lemma RoundToStepNonNegative(x: real, step: real)
    requires x >= 0.0 && step > 0.0
    ensures RoundToStep(x, step) >= 0.0
  {
    RoundNonNegative(x / step);
  }

  // ---------------------------------------------------------------- band targets

  /** The target dictionary: equity, bonds, cash and alts. */
  datatype Targets = Targets(equity: real, bonds: real, cash: real, alts: real)

  /**
   * build_band_targets: the band's targets; when they are more than 1e-9
   * away from summing to one, only cash absorbs the difference, floored at 0.
   */
  function BuildBandTargets(score: int): (t: Targets)
    ensures var b := RiskPolicy.BandForScore(score);
            && t.equity == b.equity && t.bonds == b.bonds && t.alts == b.alts
            && (Abs(b.Total() - 1.0) <= 0.000000001 ==> t.cash == b.cash)
            && (Abs(b.Total() - 1.0) > 0.000000001 ==> t.cash == if b.cash + 1.0 - b.Total() > 0.0 then b.cash + 1.0 - b.Total() else 0.0)
  {
    var b := RiskPolicy.BandForScore(score);
    var total := b.equity + b.bonds + b.cash + b.alts;
    if Abs(total - 1.0) > 0.000000001 then
      var corr := 1.0 - total;
      Targets(b.equity, b.bonds, if 0.0 >= b.cash + corr then 0.0 else b.cash + corr, b.alts)
    else Targets(b.equity, b.bonds, b.cash, b.alts)
  }

  /** Every band already sums to one, so the targets are the band's own, all positive. */
  lemma BandTargetsExact(score: int)
    ensures var b := RiskPolicy.BandForScore(score);
            BuildBandTargets(score) == Targets(b.equity, b.bonds, b.cash, b.alts)
    ensures var t := BuildBandTargets(score);
            t.equity + t.bonds + t.cash + t.alts == 1.0
            && t.equity > 0.0 && t.bonds > 0.0 && t.cash > 0.0 && t.alts > 0.0
  {
    RiskPolicy.TargetsSumToOne(score);
    RiskPolicy.Table();
  }

  // ---------------------------------------------------------------- sleeves

  datatype Sleeve = Sleeve(cls: string, subclass: string, weight: real)

  function Weight(s: Sleeve): real {
    s.weight
  }

  /** One sleeve per split entry, carrying that fraction of the target. */
  function SplitSleeves(cls: string, split: seq<(string, real)>, target: real): (r: seq<Sleeve>)
    ensures |r| == |split|
    ensures forall k :: 0 <= k < |split| ==> r[k] == Sleeve(cls, split[k].0, target * split[k].1)
  {
    seq(|split|, k requires 0 <= k < |split| => Sleeve(cls, split[k].0, target * split[k].1))
  }

  /** The sleeves before rounding: equity, then bonds, then REIT if alts > 0, then cash if cash > 0. */
  function BuiltFrom(t: Targets, equity: seq<(string, real)>, bonds: seq<(string, real)>): seq<Sleeve> {
    SplitSleeves("equity", equity, t.equity)
    + SplitSleeves("bonds", bonds, t.bonds)
    + (if t.alts > 0.0 then [Sleeve("alts", "REIT", t.alts)] else [])
    + (if t.cash > 0.0 then [Sleeve("cash", "CASH", t.cash)] else [])
  }

  /** The sleeves built for a jurisdiction's splits. */
  function Built(t: Targets, j: string): seq<Sleeve>
    requires j in BackendConfig.EquitySplit && j in BackendConfig.BondSplit
  {
    BuiltFrom(t, BackendConfig.EquitySplit[j], BackendConfig.BondSplit[j])
  }

  /** The (class, sub-class) of each sleeve, in order. */
  function Pairs(s: seq<Sleeve>): (r: seq<(string, string)>)
    ensures |r| == |s|
  {
    seq(|s|, i requires 0 <= i < |s| => (s[i].cls, s[i].subclass))
  }

  /** Each weight rounded to the allocation step. */
  function Rounded(s: seq<Sleeve>): (r: seq<Sleeve>)
    ensures Pairs(r) == Pairs(s)
  {
    seq(|s|, i requires 0 <= i < |s| => s[i].(weight := RoundToStep(s[i].weight, BackendConfig.AllocationRoundStep)))
  }

  /** Each weight divided by the total, or every weight 0 when the total is not positive. */
  function Scaled(s: seq<Sleeve>, total: real): (r: seq<Sleeve>)
    ensures Pairs(r) == Pairs(s)
  {
    seq(|s|, i requires 0 <= i < |s| => s[i].(weight := if total > 0.0 then s[i].weight / total else 0.0))
  }

  function Normalised(s: seq<Sleeve>): (r: seq<Sleeve>)
    ensures Pairs(r) == Pairs(s)
  {
    Scaled(s, Sorting.SumBy(s, Weight))
  }

  predicate NonCash(s: Sleeve) {
    s.cls != "cash"
  }

  /** The first position holding the largest weight among the sleeves satisfying `p`, if any does. */
  function FirstMaxWhere(s: seq<Sleeve>, p: Sleeve -> bool): (k: Option<nat>)
    ensures k.None? <==> forall i :: 0 <= i < |s| ==> !p(s[i])
    ensures k.Some? ==> k.value < |s| && p(s[k.value])
    ensures k.Some? ==> forall i :: 0 <= i < |s| && p(s[i]) ==> s[i].weight <= s[k.value].weight
    ensures k.Some? ==> forall i :: 0 <= i < k.value && p(s[i]) ==> s[i].weight < s[k.value].weight
  {
    if s == [] then None
    else
      var last := s[|s| - 1];
      var k := FirstMaxWhere(s[..|s| - 1], p);
      assert forall i :: 0 <= i < |s| - 1 ==> s[..|s| - 1][i] == s[i];
      if !p(last) then k
      else if k.None? || last.weight > s[k.value].weight then Some(|s| - 1)
      else k
  }

  /**
   * `max(non_cash or scaled, key=weight)`: the first heaviest non-cash
   * sleeve, or the first heaviest sleeve when all are cash.
   */
  function ResidualIndex(s: seq<Sleeve>): (k: nat)
    requires s != []
    ensures k < |s|
    ensures (exists i :: 0 <= i < |s| && NonCash(s[i])) ==>
              && NonCash(s[k])
              && (forall i :: 0 <= i < |s| && NonCash(s[i]) ==> s[i].weight <= s[k].weight)
              && (forall i :: 0 <= i < k && NonCash(s[i]) ==> s[i].weight < s[k].weight)
    ensures (forall i :: 0 <= i < |s| ==> !NonCash(s[i])) ==>
              && (forall i :: 0 <= i < |s| ==> s[i].weight <= s[k].weight)
              && (forall i :: 0 <= i < k ==> s[i].weight < s[k].weight)
  {
    match FirstMaxWhere(s, NonCash)
    case Some(k) => k
    case None => Sorting.FirstMaxIndex(s, Weight)
  }

  /** `s[k]["weight"] += delta` */
  function AddAt(s: seq<Sleeve>, k: nat, delta: real): (r: seq<Sleeve>)
    requires k < |s|
    ensures Pairs(r) == Pairs(s)
  {
    var r := s[k := s[k].(weight := s[k].weight + delta)];
    assert forall i :: 0 <= i < |s| ==> (r[i].cls, r[i].subclass) == (s[i].cls, s[i].subclass);
    r
  }

  /** `largest["weight"] += 1 - sum(weights)`: the residual goes to that one sleeve. */
  function WithResidual(s: seq<Sleeve>): (r: seq<Sleeve>)
    requires s != []
    ensures Pairs(r) == Pairs(s)
  {
    AddAt(s, ResidualIndex(s), 1.0 - Sorting.SumBy(s, Weight))
  }

  /** target_sleeves: KeyError for a jurisdiction other than US or CA (after upper-casing). */
  function Allocation(score: int, jurisdiction: string): (r: Result<seq<Sleeve>>)
  {
    var j := Strings.Upper(jurisdiction);
    if j !in BackendConfig.EquitySplit || j !in BackendConfig.BondSplit then Err("KeyError")
    else
      var built := Built(BuildBandTargets(score), j);
      if built == [] then Err("ValueError")
      else Ok(Sorting.SortByDescending(WithResidual(Normalised(Rounded(built))), Weight))
  }

  // ---------------------------------------------------------------- the method

  /** One of target_sleeves' loops: a sleeve per split entry, appended in order. */
  method AppendSplit(sleeves: seq<Sleeve>, cls: string, split: seq<(string, real)>, target: real)
    returns (r: seq<Sleeve>)
    ensures r == sleeves + SplitSleeves(cls, split, target)
  {
    r := sleeves;
    for k := 0 to |split|
      invariant r == sleeves + SplitSleeves(cls, split[..k], target)
    {
      r := r + [Sleeve(cls, split[k].0, target * split[k].1)];
      var longer, shorter := SplitSleeves(cls, split[..k + 1], target), SplitSleeves(cls, split[..k], target);
      forall i | 0 <= i <= k
        ensures longer[i] == (shorter + [Sleeve(cls, split[k].0, target * split[k].1)])[i]
      {
        if i < k {
          assert split[..k + 1][i] == split[..k][i];
        }
      }
      assert longer == shorter + [Sleeve(cls, split[k].0, target * split[k].1)];
    }
    assert split[..|split|] == split;
  }

  /** The residual step of target_sleeves, updating the chosen sleeve in place. */
  method PlaceResidual(scaled: seq<Sleeve>) returns (r: seq<Sleeve>)
    requires scaled != []
    ensures r == WithResidual(scaled)
  {
    var residual := 1.0 - Sorting.SumBy(scaled, Weight);
    var largest := ResidualIndex(scaled);
    r := scaled[largest := scaled[largest].(weight := scaled[largest].weight + residual)];
    assert r == AddAt(scaled, largest, residual);
  }

  /** target_sleeves, with its appending loops and its in-place residual update. */
  method TargetSleeves(score: int, jurisdiction: string) returns (r: Result<seq<Sleeve>>)
    ensures r == Allocation(score, jurisdiction)
  {
    var j := Strings.Upper(jurisdiction);
    var bands := BuildBandTargets(score);
    if j !in BackendConfig.EquitySplit || j !in BackendConfig.BondSplit {
      return Err("KeyError");
    }
    var sleeves := AppendSplit([], "equity", BackendConfig.EquitySplit[j], bands.equity);
    sleeves := AppendSplit(sleeves, "bonds", BackendConfig.BondSplit[j], bands.bonds);
    if bands.alts > 0.0 {
      sleeves := sleeves + [Sleeve("alts", "REIT", bands.alts)];
    }
    if bands.cash > 0.0 {
      sleeves := sleeves + [Sleeve("cash", "CASH", bands.cash)];
    }
    assert sleeves == Built(bands, j);
    if sleeves == [] {
      return Err("ValueError");
    }
    var scaled := PlaceResidual(Normalised(Rounded(sleeves)));
    r := Ok(Sorting.SortByDescending(scaled, Weight));
  }

  // ---------------------------------------------------------------- properties

  lemma {:induction false} SumConcat(a: seq<Sleeve>, b: seq<Sleeve>)
    ensures Sorting.SumBy(a + b, Weight) == Sorting.SumBy(a, Weight) + Sorting.SumBy(b, Weight)
  {
    if a != [] {
      SumConcat(a[1..], b);
      assert (a + b)[0] == a[0] && (a + b)[1..] == a[1..] + b;
    } else {
      assert a + b == b;
    }
  }

  lemma {:induction false} SumUpdate(s: seq<Sleeve>, k: nat, x: Sleeve)
    requires k < |s|
    ensures Sorting.SumBy(s[k := x], Weight) == Sorting.SumBy(s, Weight) - s[k].weight + x.weight
  {
    if k > 0 {
      SumUpdate(s[1..], k - 1, x);
      assert s[k := x][1..] == s[1..][k - 1 := x];
    } else {
      assert s[k := x][1..] == s[1..];
    }
  }

  lemma DivAdd(a: real, b: real, d: real)
    requires d != 0.0
    ensures a / d + b / d == (a + b) / d
  {
  }

  lemma {:induction false} ScaledSum(s: seq<Sleeve>, d: real)
    requires d > 0.0
    ensures Sorting.SumBy(Scaled(s, d), Weight) == Sorting.SumBy(s, Weight) / d
  {
    if s != [] {
      ScaledSum(s[1..], d);
      assert Scaled(s, d)[1..] == Scaled(s[1..], d);
      DivAdd(s[0].weight, Sorting.SumBy(s[1..], Weight), d);
    }
  }

  lemma SplitSleevesTail(cls: string, split: seq<(string, real)>, target: real)
    requires split != []
    ensures SplitSleeves(cls, split, target)[1..] == SplitSleeves(cls, split[1..], target)
  {
    var all, rest := SplitSleeves(cls, split, target), SplitSleeves(cls, split[1..], target);
    forall i | 0 <= i < |rest| ensures all[1..][i] == rest[i] {
      assert split[1..][i] == split[i + 1];
    }
  }

  lemma Distribute(t: real, a: real, b: real)
    ensures t * (a + b) == t * a + t * b
  {
  }

  lemma {:induction false} SplitSleevesSum(cls: string, split: seq<(string, real)>, target: real)
    ensures Sorting.SumBy(SplitSleeves(cls, split, target), Weight) == target * BackendConfig.Fractions(split)
  {
    if split != [] {
      SplitSleevesSum(cls, split[1..], target);
      SplitSleevesTail(cls, split, target);
      Distribute(target, split[0].1, BackendConfig.Fractions(split[1..]));
    }
  }

  /** A sum of non-negative weights is at least each of them. */
  lemma {:induction false} SumAtLeast(s: seq<Sleeve>, i: nat)
    requires i < |s| && forall k :: 0 <= k < |s| ==> s[k].weight >= 0.0
    ensures Sorting.SumBy(s, Weight) >= s[i].weight
  {
    if i > 0 {
      SumAtLeast(s[1..], i - 1);
    } else if |s| > 1 {
      SumAtLeast(s[1..], 0);
    }
  }

  /** Positive fractions of a positive target give positive weights. */
  lemma SplitSleevesPositive(cls: string, split: seq<(string, real)>, target: real)
    requires BackendConfig.Whole(split) && target > 0.0
    ensures forall k :: 0 <= k < |split| ==> SplitSleeves(cls, split, target)[k].weight > 0.0
  {
    forall k | 0 <= k < |split| ensures target * split[k].1 > 0.0 {
      assert split[k].1 > 0.0;
    }
  }

  /**
   * For positive targets summing to one and whole splits, the built sleeves
   * are the equity sub-sleeves, the bond sub-sleeves, REIT and cash, in that
   * order, with positive weights summing to one.
   */
  lemma BuiltFromWhole(t: Targets, eq: seq<(string, real)>, bd: seq<(string, real)>)
    requires BackendConfig.Whole(eq) && BackendConfig.Whole(bd)
    requires t.equity > 0.0 && t.bonds > 0.0 && t.cash > 0.0 && t.alts > 0.0
    requires t.equity + t.bonds + t.cash + t.alts == 1.0
    ensures var built := BuiltFrom(t, eq, bd);
            && built == SplitSleeves("equity", eq, t.equity) + SplitSleeves("bonds", bd, t.bonds)
                        + [Sleeve("alts", "REIT", t.alts), Sleeve("cash", "CASH", t.cash)]
            && |built| == |eq| + |bd| + 2
            && built[0] == Sleeve("equity", eq[0].0, t.equity * eq[0].1)
            && (forall k :: 0 <= k < |built| ==> built[k].weight > 0.0)
            && Sorting.SumBy(built, Weight) == 1.0
  {
    var es, bs := SplitSleeves("equity", eq, t.equity), SplitSleeves("bonds", bd, t.bonds);
    var tail := [Sleeve("alts", "REIT", t.alts), Sleeve("cash", "CASH", t.cash)];
    var built := es + bs + tail;
    SplitSleevesPositive("equity", eq, t.equity);
    SplitSleevesPositive("bonds", bd, t.bonds);
    forall k | 0 <= k < |built| ensures built[k].weight > 0.0 {
      if k < |es| {
        assert built[k] == es[k];
      } else if k < |es| + |bs| {
        assert built[k] == bs[k - |es|];
      }
    }
    BuiltFromSum(t, eq, bd);
  }

  lemma BuiltFromSum(t: Targets, eq: seq<(string, real)>, bd: seq<(string, real)>)
    requires BackendConfig.Whole(eq) && BackendConfig.Whole(bd) && t.cash > 0.0 && t.alts > 0.0
    ensures Sorting.SumBy(BuiltFrom(t, eq, bd), Weight) == t.equity + t.bonds + t.alts + t.cash
  {
    var es, bs := SplitSleeves("equity", eq, t.equity), SplitSleeves("bonds", bd, t.bonds);
    var tail := [Sleeve("alts", "REIT", t.alts), Sleeve("cash", "CASH", t.cash)];
    SplitSleevesSum("equity", eq, t.equity);
    SplitSleevesSum("bonds", bd, t.bonds);
    assert BuiltFrom(t, eq, bd) == es + bs + tail;
    SumConcat(es, bs);
    SumConcat(es + bs, tail);
    assert Sorting.SumBy(es, Weight) == t.equity;
    assert Sorting.SumBy(bs, Weight) == t.bonds;
    assert Sorting.SumBy(tail[1..], Weight) == t.cash by {
      assert tail[1..] == [Sleeve("cash", "CASH", t.cash)];
      assert tail[1..][1..] == [];
    }
    assert Sorting.SumBy(tail, Weight) == t.alts + t.cash;
  }

  /** Every score's targets meet BuiltFromWhole's conditions, with at least 0.2 in equity. */
  lemma TargetsPositive(score: int)
    ensures var t := BuildBandTargets(score);
            && t.equity >= 0.2 && t.bonds > 0.0 && t.cash > 0.0 && t.alts > 0.0
            && t.equity + t.bonds + t.cash + t.alts == 1.0
  {
    BandTargetsExact(score);
    RiskPolicy.Table();
    RiskPolicy.TargetsOrdered();
  }

  /** Both jurisdictions' splits are whole, and the first equity fraction is at least 0.2. */
  lemma SplitsWhole(j: string)
    requires j in {"US", "CA"}
    ensures j in BackendConfig.EquitySplit && j in BackendConfig.BondSplit
    ensures BackendConfig.Whole(BackendConfig.EquitySplit[j]) && BackendConfig.Whole(BackendConfig.BondSplit[j])
    ensures BackendConfig.EquitySplit[j][0].1 >= 0.2
  {
    BackendConfig.SplitsAreWhole();
  }

  /** The rounded sleeves are non-negative and their total is positive. */
  lemma RoundedSleeves(s: seq<Sleeve>)
    requires s != [] && s[0].weight >= 0.04 && forall k :: 0 <= k < |s| ==> s[k].weight >= 0.0
    ensures var r := Rounded(s);
            && (forall k :: 0 <= k < |r| ==> r[k].weight >= 0.0)
            && Sorting.SumBy(r, Weight) > 0.0
  {
    var r := Rounded(s);
    forall k | 0 <= k < |r| ensures r[k].weight >= 0.0 {
      RoundToStepNonNegative(s[k].weight, BackendConfig.AllocationRoundStep);
    }
    RoundToStepNearest(s[0].weight, BackendConfig.AllocationRoundStep);
    SumAtLeast(r, 0);
  }

  /** With a positive total the normalised weights sum to one, so the residual step changes nothing. */
  lemma ResidualVanishes(rounded: seq<Sleeve>)
    requires rounded != [] && Sorting.SumBy(rounded, Weight) > 0.0
    ensures var scaled := Scaled(rounded, Sorting.SumBy(rounded, Weight));
            Sorting.SumBy(scaled, Weight) == 1.0 && WithResidual(Normalised(rounded)) == scaled
  {
    var total := Sorting.SumBy(rounded, Weight);
    var scaled := Scaled(rounded, total);
    ScaledSum(rounded, total);
    assert Normalised(rounded) == scaled;
    assert Sorting.SumBy(scaled, Weight) == total / total == 1.0;
    var k := ResidualIndex(scaled);
    assert WithResidual(scaled) == AddAt(scaled, k, 0.0);
    AddZero(scaled, k);
  }

  /**
   * Whatever the weights, the residual step makes them sum to one by
   * changing exactly one sleeve: the first heaviest non-cash one (ResidualIndex).
   */
  lemma ResidualPlacement(s: seq<Sleeve>)
    requires s != []
    ensures var k := ResidualIndex(s);
            var r := WithResidual(s);
            && Sorting.SumBy(r, Weight) == 1.0
            && |r| == |s|
            && (forall i :: 0 <= i < |s| && i != k ==> r[i] == s[i])
            && r[k] == s[k].(weight := s[k].weight + 1.0 - Sorting.SumBy(s, Weight))
  {
    var k := ResidualIndex(s);
    SumUpdate(s, k, s[k].(weight := s[k].weight + (1.0 - Sorting.SumBy(s, Weight))));
  }

  lemma AddZero(s: seq<Sleeve>, k: nat)
    requires k < |s|
    ensures AddAt(s, k, 0.0) == s
  {
    assert s[k].(weight := s[k].weight + 0.0) == s[k];
  }

  /** A permutation of non-negative weights is non-negative. */
  lemma PermutedNonNegative(r: seq<Sleeve>, s: seq<Sleeve>)
    requires multiset(r) == multiset(s) && forall k :: 0 <= k < |s| ==> s[k].weight >= 0.0
    ensures forall k :: 0 <= k < |r| ==> r[k].weight >= 0.0
  {
    forall i | 0 <= i < |r| ensures r[i].weight >= 0.0 {
      assert r[i] in multiset(s);
      var m :| 0 <= m < |s| && s[m] == r[i];
    }
  }

  /**
   * The steps after building, on any sleeves with non-negative weights
   * whose first is at least 0.04: the rounded total is positive, so the
   * residual vanishes and the sleeves that go to the sort are the rounded
   * ones divided by their total, non-negative and summing to one.
   */
  lemma RoundedPipeline(built: seq<Sleeve>)
    requires built != [] && built[0].weight >= 0.04
    requires forall k :: 0 <= k < |built| ==> built[k].weight >= 0.0
    ensures var rounded := Rounded(built);
            var total := Sorting.SumBy(rounded, Weight);
            var scaled := Scaled(rounded, total);
            && total > 0.0
            && WithResidual(Normalised(rounded)) == scaled
            && Pairs(scaled) == Pairs(built)
            && Sorting.SumBy(scaled, Weight) == 1.0
            && forall k :: 0 <= k < |scaled| ==> scaled[k].weight >= 0.0
  {
    RoundedSleeves(built);
    var rounded := Rounded(built);
    var total := Sorting.SumBy(rounded, Weight);
    ResidualVanishes(rounded);
    var scaled := Scaled(rounded, total);
    forall k | 0 <= k < |scaled| ensures scaled[k].weight >= 0.0 {
      QuotientNonNegative(rounded[k].weight, total);
    }
  }

  lemma QuotientNonNegative(a: real, b: real)
    requires a >= 0.0 && b > 0.0
    ensures a / b >= 0.0
  {
  }

  /** target_sleeves succeeds exactly for the jurisdictions US and CA, in any letter case. */
  lemma AllocationDefined(score: int, jurisdiction: string)
    ensures Allocation(score, jurisdiction).Ok? <==> Strings.Upper(jurisdiction) in {"US", "CA"}
  {
    BackendConfig.SplitsAreWhole();
    var j := Strings.Upper(jurisdiction);
    if j in {"US", "CA"} {
      SplitsWhole(j);
      TargetsPositive(score);
      BuiltFromWhole(BuildBandTargets(score), BackendConfig.EquitySplit[j], BackendConfig.BondSplit[j]);
    }
  }

  /**
   * What target_sleeves returns: one sleeve per equity and bond sub-sleeve,
   * REIT and cash (a permutation of the built ones, so each built
   * (class, sub-class) pair once and no other), sorted largest first and
   * stably, each weight its rounded weight divided by the rounded total
   * (in exact arithmetic the residual is zero), non-negative, summing to one.
   */
  lemma AllocationWeights(score: int, jurisdiction: string)
    requires Allocation(score, jurisdiction).Ok?
    ensures var j := Strings.Upper(jurisdiction);
            && j in BackendConfig.EquitySplit && j in BackendConfig.BondSplit
            && var built := Built(BuildBandTargets(score), j);
               var rounded := Rounded(built);
               var total := Sorting.SumBy(rounded, Weight);
               var r := Allocation(score, jurisdiction).value;
               && |built| == |BackendConfig.EquitySplit[j]| + |BackendConfig.BondSplit[j]| + 2
               && total > 0.0
               && Sorting.Descending(r, Weight)
               && (forall w :: Sorting.WithKey(r, Weight, w) == Sorting.WithKey(Scaled(rounded, total), Weight, w))
               && multiset(r) == multiset(Scaled(rounded, total))
               && Pairs(Scaled(rounded, total)) == Pairs(built)
               && Sorting.SumBy(r, Weight) == 1.0
               && forall k :: 0 <= k < |r| ==> r[k].weight >= 0.0
  {
    var j := Strings.Upper(jurisdiction);
    AllocationDefined(score, jurisdiction);
    BuiltSleeves(score, j);
    var built := Built(BuildBandTargets(score), j);
    assert Allocation(score, jurisdiction).value == Sorting.SortByDescending(WithResidual(Normalised(Rounded(built))), Weight);
    SortedPipeline(built);
  }

  /** For US and CA the built sleeves meet SortedPipeline's conditions. */
  lemma BuiltSleeves(score: int, j: string)
    requires j in {"US", "CA"}
    ensures j in BackendConfig.EquitySplit && j in BackendConfig.BondSplit
    ensures var built := Built(BuildBandTargets(score), j);
            && |built| == |BackendConfig.EquitySplit[j]| + |BackendConfig.BondSplit[j]| + 2
            && built != [] && built[0].weight >= 0.04
            && forall k :: 0 <= k < |built| ==> built[k].weight >= 0.0
  {
    SplitsWhole(j);
    TargetsPositive(score);
    var t := BuildBandTargets(score);
    var eq := BackendConfig.EquitySplit[j];
    BuiltFromWhole(t, eq, BackendConfig.BondSplit[j]);
    assert Built(t, j)[0].weight == t.equity * eq[0].1;
    MulAtLeast(t.equity, eq[0].1, 0.2);
  }

  lemma MulAtLeast(a: real, b: real, c: real)
    requires a >= c && b >= c && c >= 0.0
    ensures a * b >= c * c
  {
    assert a * b - c * c == (a - c) * b + c * (b - c);
    MulNonNegative(a - c, b);
    MulNonNegative(c, b - c);
  }

  /** The sort at the end of the pipeline keeps RoundedPipeline's facts and orders the sleeves largest first. */
  lemma SortedPipeline(built: seq<Sleeve>)
    requires built != [] && built[0].weight >= 0.04
    requires forall k :: 0 <= k < |built| ==> built[k].weight >= 0.0
    ensures var rounded := Rounded(built);
            var total := Sorting.SumBy(rounded, Weight);
            var scaled := Scaled(rounded, total);
            var r := Sorting.SortByDescending(WithResidual(Normalised(rounded)), Weight);
            && total > 0.0
            && Sorting.Descending(r, Weight)
            && (forall w :: Sorting.WithKey(r, Weight, w) == Sorting.WithKey(scaled, Weight, w))
            && multiset(r) == multiset(scaled)
            && Pairs(scaled) == Pairs(built)
            && Sorting.SumBy(r, Weight) == 1.0
            && forall k :: 0 <= k < |r| ==> r[k].weight >= 0.0
  {
    RoundedPipeline(built);
    var rounded := Rounded(built);
    var scaled := Scaled(rounded, Sorting.SumBy(rounded, Weight));
    PermutedNonNegative(Sorting.SortByDescending(scaled, Weight), scaled);
  }
}
