/** The three-bucket flood risk classifier (determine_risk_level). */
module Risk {
  import opened Common

  datatype Tier = NotAvailable | Low | Medium | High

  /** Upper bound (inclusive) of the Low tier. */
  const LowCeiling: real := 0.8
  /** Upper bound (inclusive) of the Medium tier. */
  const MediumCeiling: real := 1.2

  /** The label shown on the risk badge. */
  function Label(t: Tier): string {
    match t
    case NotAvailable => "N/A"
    case Low => "Low"
    case Medium => "Medium"
    case High => "High"
  }

  /** The badge's background colour. */
  function Colour(t: Tier): string {
    match t
    case NotAvailable => "#f7f7f7"
    case Low => "#4CAF50"
    case Medium => "#FFC107"
    case High => "#F44336"
  }

  /** Classifies a discharge-to-baseline ratio; an absent ratio has no tier. */
  function Classify(ratio: Option<real>): (t: Tier)
    ensures t == NotAvailable <==> ratio.None?
    ensures t == Low <==> ratio.Some? && ratio.value <= 0.8
    ensures t == Medium <==> ratio.Some? && 0.8 < ratio.value <= 1.2
    ensures t == High <==> ratio.Some? && 1.2 < ratio.value
  {
    if ratio.None? then NotAvailable
    else if ratio.value <= LowCeiling then Low
    else if ratio.value <= MediumCeiling then Medium
    else High
  }

  /** The (label, colour) pair the source returns. */
  function DetermineRiskLevel(ratio: Option<real>): (r: (string, string))
    ensures ratio.None? ==> r == ("N/A", "#f7f7f7")
    ensures ratio.Some? && ratio.value <= 0.8 ==> r == ("Low", "#4CAF50")
    ensures ratio.Some? && 0.8 < ratio.value <= 1.2 ==> r == ("Medium", "#FFC107")
    ensures ratio.Some? && 1.2 < ratio.value ==> r == ("High", "#F44336")
  {
    var t := Classify(ratio);
    (Label(t), Colour(t))
  }

  /** Position of a tier in the order Low < Medium < High. */
  function Rank(t: Tier): nat {
    match t
    case NotAvailable => 0
    case Low => 1
    case Medium => 2
    case High => 3
  }

  /** Number of tier ceilings a present ratio exceeds: an independent
      reading of the classifier as "how many thresholds lie strictly below". */
  function CeilingsExceeded(x: real): nat {
    (if LowCeiling < x then 1 else 0) + (if MediumCeiling < x then 1 else 0)
  }

  /** The classifier picks, for every present ratio, one more than the number
      of ceilings it exceeds. */
  lemma ClassifyCountsCeilings(x: real)
    ensures Rank(Classify(Some(x))) == 1 + CeilingsExceeded(x)
  {
  }

  /** Larger ratios never give a lower tier. */
  lemma ClassifyMonotone(x: real, y: real)
    requires x <= y
    ensures Rank(Classify(Some(x))) <= Rank(Classify(Some(y)))
  {
  }

  /** The boundaries belong to the lower tier. */
  lemma ClassifyBoundaries()
    ensures Classify(Some(0.8)) == Low
    ensures Classify(Some(1.2)) == Medium
    ensures Classify(Some(1.2000001)) == High
  {
  }

  /** The displayed pair identifies the tier: no two tiers share a label or a colour. */
  lemma DisplayIdentifiesTier(t: Tier, u: Tier)
    requires Label(t) == Label(u) || Colour(t) == Colour(u)
    ensures t == u
  {
  }
}
