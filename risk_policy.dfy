/**
 * The risk policy: six frozen risk bands over the 1-10 risk score, each
 * with deterministic equity, bond, cash and alternatives targets, and the
 * first-match lookup of a score's band.
 */
module RiskPolicy {

  /** A frozen record; `score_range` is Python's `range(lo, hi)`, so `hi` is excluded. */
  datatype RiskBand = RiskBand(
    title: string, description: string, lo: int, hi: int,
    equity: real, bonds: real, cash: real, alts: real)
  {
    /** `score in b.score_range` */
    predicate Contains(score: int) {
      lo <= score < hi
    }

    function Total(): real {
      equity + bonds + cash + alts
    }
  }

  const RiskBands: seq<RiskBand> := [
    RiskBand("Very Conservative", "Capital preservation first; minimal volatility.",
             1, 3, 0.20, 0.70, 0.08, 0.02),
    RiskBand("Conservative", "Income-oriented with limited drawdowns.",
             3, 4, 0.30, 0.60, 0.07, 0.03),
    RiskBand("Moderately Conservative", "Balanced tilt to bonds; controlled equity risk.",
             4, 6, 0.45, 0.47, 0.05, 0.03),
    RiskBand("Moderate", "Balanced growth & income; diversified risk.",
             6, 7, 0.60, 0.33, 0.04, 0.03),
    RiskBand("Moderately Aggressive", "Growth-tilted with meaningful drawdown risk.",
             7, 9, 0.75, 0.20, 0.03, 0.02),
    RiskBand("Aggressive", "Maximize long-run growth; high volatility acceptable.",
             9, 11, 0.90, 0.07, 0.02, 0.01)
  ]

  /** The numeric part of the table, one lemma away from the literal. */
  lemma Table()
    ensures |RiskBands| == 6
    ensures RiskBands[0].lo == 1 && RiskBands[0].hi == 3 && RiskBands[1].lo == 3 && RiskBands[1].hi == 4
    ensures RiskBands[2].lo == 4 && RiskBands[2].hi == 6 && RiskBands[3].lo == 6 && RiskBands[3].hi == 7
    ensures RiskBands[4].lo == 7 && RiskBands[4].hi == 9 && RiskBands[5].lo == 9 && RiskBands[5].hi == 11
    ensures forall k :: 0 <= k < 6 ==> RiskBands[k].Total() == 1.0
    ensures RiskBands[0].equity == 0.20 && RiskBands[1].equity == 0.30 && RiskBands[2].equity == 0.45
    ensures RiskBands[3].equity == 0.60 && RiskBands[4].equity == 0.75 && RiskBands[5].equity == 0.90
    ensures RiskBands[0].bonds == 0.70 && RiskBands[1].bonds == 0.60 && RiskBands[2].bonds == 0.47
    ensures RiskBands[3].bonds == 0.33 && RiskBands[4].bonds == 0.20 && RiskBands[5].bonds == 0.07
    ensures forall k :: 0 <= k < 6 ==> RiskBands[k].cash > 0.0 && RiskBands[k].alts > 0.0
  {
  }

  /** The position of the first band containing the score, or the table's length when none does. */
  function FirstContaining(bands: seq<RiskBand>, score: int): (k: nat)
    ensures k <= |bands|
    ensures k < |bands| ==> bands[k].Contains(score)
    ensures forall i :: 0 <= i < k ==> !bands[i].Contains(score)
  {
    if bands == [] then 0
    else if bands[0].Contains(score) then 0
    else 1 + FirstContaining(bands[1..], score)
  }

  /** band_for_score: the first band whose range holds the score, else the last (Aggressive). */
  function BandForScore(score: int): (b: RiskBand)
    ensures b in RiskBands
  {
    var k := FirstContaining(RiskBands, score);
    if k < |RiskBands| then RiskBands[k] else RiskBands[|RiskBands| - 1]
  }

  /** Some band's range holds the score. */
  predicate Covered(score: int) {
    exists k :: 0 <= k < |RiskBands| && RiskBands[k].Contains(score)
  }

  /** The ranges are pairwise disjoint and together are exactly 1..10. */
  lemma BandsPartition()
    ensures forall i, j :: 0 <= i < j < |RiskBands| ==> RiskBands[i].hi <= RiskBands[j].lo
    ensures forall score :: 1 <= score <= 10 <==> Covered(score)
  {
    Table();
    forall score | 1 <= score <= 10
      ensures Covered(score)
    {
      var k := if score < 3 then 0 else if score < 4 then 1 else if score < 6 then 2
               else if score < 7 then 3 else if score < 9 then 4 else 5;
      assert RiskBands[k].Contains(score);
    }
  }

  /**
   * A score in 1..10 gets the band containing it; every other score,
   * including 0 and negative ones, gets the last band.
   */
  lemma BandForScoreCases(score: int)
    ensures 1 <= score <= 10 ==> BandForScore(score).Contains(score)
    ensures !(1 <= score <= 10) ==> BandForScore(score) == RiskBands[5]
  {
    Table();
    BandsPartition();
    var k := FirstContaining(RiskBands, score);
    if 1 <= score <= 10 {
      assert Covered(score);
      var j :| 0 <= j < |RiskBands| && RiskBands[j].Contains(score);
      assert k <= j;
    } else if k < |RiskBands| {
      assert Covered(score);
      assert false;
    }
  }

  /** Every band's four targets sum to one. */
  lemma TargetsSumToOne(score: int)
    ensures BandForScore(score).Total() == 1.0
  {
    Table();
  }

  /** In table order the equity target strictly rises and the bond target strictly falls. */
  lemma TargetsOrdered()
    ensures forall i, j :: 0 <= i < j < |RiskBands| ==>
              RiskBands[i].equity < RiskBands[j].equity && RiskBands[i].bonds > RiskBands[j].bonds
  {
    Table();
  }

  /** So over 1..10 a higher score never lowers the equity target nor raises the bond target. */
  lemma EquityMonotone(s1: int, s2: int)
    requires 1 <= s1 <= s2 <= 10
    ensures BandForScore(s1).equity <= BandForScore(s2).equity
    ensures BandForScore(s1).bonds >= BandForScore(s2).bonds
  {
    Table();
    BandsPartition();
    BandForScoreCases(s1);
    BandForScoreCases(s2);
    TargetsOrdered();
    var i := FirstContaining(RiskBands, s1);
    var j := FirstContaining(RiskBands, s2);
    if j < i {
      assert false;
    }
  }
}
