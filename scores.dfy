/** The four score bands shared by the consent screen's compliance label and the policy
    analyzer's score label and colour. */
module Scores {
  datatype Band = Poor | Fair | Good | Excellent

  function Rank(b: Band): nat {
    match b
    case Poor => 0
    case Fair => 1
    case Good => 2
    case Excellent => 3
  }

  /** At least 85 is excellent, at least 70 good, at least 50 fair, anything else poor. */
  function BandOf(score: int): (b: Band)
    ensures b == Excellent <==> score >= 85
    ensures b == Good <==> 70 <= score < 85
    ensures b == Fair <==> 50 <= score < 70
    ensures b == Poor <==> score < 50
  {
    if score >= 85 then Excellent
    else if score >= 70 then Good
    else if score >= 50 then Fair
    else Poor
  }

  function Label(b: Band): string {
    match b
    case Excellent => "Excellent"
    case Good => "Good"
    case Fair => "Fair"
    case Poor => "Poor"
  }

  /** A higher score never gets a lower band. */
  lemma BandMonotone(lo: int, hi: int)
    requires lo <= hi
    ensures Rank(BandOf(lo)) <= Rank(BandOf(hi))
  {
  }

  /** The labels of distinct bands differ. */
  lemma LabelInjective(a: Band, b: Band)
    requires Label(a) == Label(b)
    ensures a == b
  {
  }
}
