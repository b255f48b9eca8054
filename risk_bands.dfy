/**
  The five-tier risk policy that both services implement, stated as a table
  rather than as an if/elif chain: a score's tier is the number of cut points
  it has reached, and each tier's code, label, rate adjustment and decision
  are read from that position.
*/
module RiskBands {

  /** Cut points between tiers, ascending; a score equal to a cut point belongs to the higher tier. */
  const THRESHOLDS: seq<real> := [0.3, 0.5, 0.65, 0.8]

  const CODES: string := "ABCDE"
  const LABELS: seq<string> := ["Low Risk", "Medium-Low Risk", "Medium Risk", "Medium-High Risk", "High Risk"]
  /** Percentage points added to the base interest rate. */
  const RATE_ADJUSTMENTS: seq<real> := [0.0, 1.0, 2.0, 3.5, 5.0]
  const DECISIONS: seq<string> := ["AUTO_APPROVE", "APPROVE", "MANUAL_REVIEW", "MANUAL_REVIEW_REQUIRED", "DECLINE"]

  /** Number of cut points in `cuts` that the score `s` has reached. */
  function CountReached(cuts: seq<real>, s: real): (k: nat)
    ensures k <= |cuts|
  {
    if cuts == [] then 0
    else (if cuts[0] <= s then 1 else 0) + CountReached(cuts[1..], s)
  }

  /** Position of the tier that the score falls in, 0 (A) to 4 (E). */
  function BandIndex(s: real): (k: nat)
    ensures k < |CODES|
  {
    CountReached(THRESHOLDS, s)
  }

  /** A higher score never reaches fewer cut points. */
  lemma {:induction false} CountReachedMonotone(cuts: seq<real>, s1: real, s2: real)
    requires s1 <= s2
    ensures CountReached(cuts, s1) <= CountReached(cuts, s2)
  {
    if cuts != [] {
      CountReachedMonotone(cuts[1..], s1, s2);
    }
  }

  /** The tier is exactly the half-open interval between consecutive cut points. */
  lemma BandIndexIntervals(s: real)
    ensures BandIndex(s) == 0 <==> s < 0.3
    ensures BandIndex(s) == 1 <==> 0.3 <= s < 0.5
    ensures BandIndex(s) == 2 <==> 0.5 <= s < 0.65
    ensures BandIndex(s) == 3 <==> 0.65 <= s < 0.8
    ensures BandIndex(s) == 4 <==> 0.8 <= s
  {
    var t0 := THRESHOLDS;
    var t1, t2, t3, t4 := t0[1..], t0[2..], t0[3..], t0[4..];
    assert t1[1..] == t2 && t2[1..] == t3 && t3[1..] == t4 && t4 == [];
    var c3 := if 0.8 <= s then 1 else 0;
    var c2 := (if 0.65 <= s then 1 else 0) + c3;
    var c1 := (if 0.5 <= s then 1 else 0) + c2;
    assert CountReached(t3, s) == c3;
    assert CountReached(t2, s) == c2;
    assert CountReached(t1, s) == c1;
    assert BandIndex(s) == (if 0.3 <= s then 1 else 0) + c1;
  }

  /** Tier codes, rate adjustments and decisions are paired position by position. */
  function DecisionFor(code: char): (d: string)
    ensures code in CODES ==> exists k :: 0 <= k < |CODES| && CODES[k] == code && d == DECISIONS[k]
  {
    match code
    case 'A' => assert CODES[0] == 'A'; DECISIONS[0]
    case 'B' => assert CODES[1] == 'B'; DECISIONS[1]
    case 'C' => assert CODES[2] == 'C'; DECISIONS[2]
    case 'D' => assert CODES[3] == 'D'; DECISIONS[3]
    case _ => assert CODES[4] == 'E'; DECISIONS[4]
  }

  /** Along the table, codes move to later letters and rate adjustments grow. */
  lemma TableAscending(i: nat, j: nat)
    requires i <= j < |CODES|
    ensures CODES[i] <= CODES[j]
    ensures RATE_ADJUSTMENTS[i] <= RATE_ADJUSTMENTS[j]
    ensures 0.0 <= RATE_ADJUSTMENTS[i] <= 5.0
  {
  }
}
