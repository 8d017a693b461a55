/**
 * Allocation configuration: the per-jurisdiction composition of the
 * equity and bond sleeves (in dictionary order) and the rounding step.
 */
module BackendConfig {

  const DefaultJurisdiction: string := "CA"

  const UsEquity: seq<(string, real)> := [("US", 0.65), ("IntlDev", 0.25), ("EM", 0.10)]
  const CaEquity: seq<(string, real)> := [("Canada", 0.20), ("US", 0.50), ("IntlDev", 0.25), ("EM", 0.05)]
  const UsBonds: seq<(string, real)> := [("CoreIG", 0.80), ("LongDur", 0.10), ("TIPS", 0.10)]
  const CaBonds: seq<(string, real)> := [("CoreIG", 0.90), ("LongDur", 0.10)]

  /** EQUITY_SPLIT: sub-sleeve and its fraction of the equity target. */
  const EquitySplit: map<string, seq<(string, real)>> := map["US" := UsEquity, "CA" := CaEquity]

  /** BOND_SPLIT: sub-sleeve and its fraction of the bond target. */
  const BondSplit: map<string, seq<(string, real)>> := map["US" := UsBonds, "CA" := CaBonds]

  /** ALLOCATION_ROUND_STEP: half a percent. */
  const AllocationRoundStep: real := 0.005

  function Fractions(split: seq<(string, real)>): real {
    if split == [] then 0.0 else split[0].1 + Fractions(split[1..])
  }

  /** Positive fractions summing to one. */
  predicate Whole(split: seq<(string, real)>) {
    split != [] && Fractions(split) == 1.0
    && forall k :: 0 <= k < |split| ==> split[k].1 > 0.0
  }

  lemma EquityWhole()
    ensures Whole(UsEquity) && Whole(CaEquity)
  {
    var us, ca := UsEquity, CaEquity;
    assert Fractions(us[2..]) == 0.10 + Fractions(us[3..]);
    assert Fractions(us[1..]) == 0.25 + Fractions(us[2..]);
    assert Fractions(us) == 0.65 + Fractions(us[1..]);
    assert Fractions(ca[3..]) == 0.05 + Fractions(ca[4..]);
    assert Fractions(ca[2..]) == 0.25 + Fractions(ca[3..]);
    assert Fractions(ca[1..]) == 0.50 + Fractions(ca[2..]);
    assert Fractions(ca) == 0.20 + Fractions(ca[1..]);
  }

  lemma BondsWhole()
    ensures Whole(UsBonds) && Whole(CaBonds)
  {
    var us, ca := UsBonds, CaBonds;
    assert Fractions(us[2..]) == 0.10 + Fractions(us[3..]);
    assert Fractions(us[1..]) == 0.10 + Fractions(us[2..]);
    assert Fractions(us) == 0.80 + Fractions(us[1..]);
    assert Fractions(ca[1..]) == 0.10 + Fractions(ca[2..]);
    assert Fractions(ca) == 0.90 + Fractions(ca[1..]);
  }

  /**
   * Both tables know exactly US and CA, every split has positive fractions
   * summing to one, and the first equity sleeve gets at least a fifth.
   */
  lemma SplitsAreWhole()
    ensures EquitySplit.Keys == BondSplit.Keys == {"US", "CA"}
    ensures forall j :: j in EquitySplit ==> Whole(EquitySplit[j])
    ensures forall j :: j in BondSplit ==> Whole(BondSplit[j])
    ensures forall j :: j in EquitySplit ==> EquitySplit[j] != [] && EquitySplit[j][0].1 >= 0.2
  {
    EquityWhole();
    BondsWhole();
  }
}
