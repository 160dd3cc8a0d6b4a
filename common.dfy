/** Values shared by every part of the dashboard model. */
module Common {

  datatype Option<+T> = None | Some(value: T)

  /** Python truthiness of an optional float as `if baseline:` reads it:
      `None` and `0.0` are false, every other number is true. */
  predicate Truthy(b: Option<real>)
    ensures Truthy(b) <==> b.Some? && (b.value < 0.0 || 0.0 < b.value)
  {
    b.Some? && b.value != 0.0
  }

  /** A calendar date, counted in days. */
  type Date = int

  /** One row of a discharge table: a date and the day's maximum river discharge. */
  datatype Observation = Observation(date: Date, dischargeMax: real)

  /** The `date` column of a discharge table. */
  function Dates(series: seq<Observation>): (r: seq<Date>)
    ensures |r| == |series|
    ensures forall i :: 0 <= i < |series| ==> r[i] == series[i].date
  {
    seq(|series|, i requires 0 <= i < |series| => series[i].date)
  }

  /** The `discharge_max` column of a discharge table. */
  function Discharges(series: seq<Observation>): (r: seq<real>)
    ensures |r| == |series|
    ensures forall i :: 0 <= i < |series| ==> r[i] == series[i].dischargeMax
  {
    seq(|series|, i requires 0 <= i < |series| => series[i].dischargeMax)
  }

  /** The position of the first element that satisfies `p`, as pandas'
      `df[mask].iloc[0]` picks it; `None` when no element does. */
  function FirstIndex<T>(s: seq<T>, p: T -> bool): (k: Option<nat>)
    ensures k.Some? ==> k.value < |s| && p(s[k.value])
    ensures k.Some? ==> forall j :: 0 <= j < k.value ==> !p(s[j])
    ensures k.None? <==> forall j :: 0 <= j < |s| ==> !p(s[j])
    decreases |s|
  {
    if |s| == 0 then None
    else if p(s[0]) then Some(0)
    else match FirstIndex(s[1..], p)
      case None => None
      case Some(k) => Some(k + 1)
  }
}
