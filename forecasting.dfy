/**
 * The forecast table and the lookup of the target day in it. The fitted
 * model's predictions are opaque here: one `Estimate` per forecast step.
 * The table is indexed by a daily date range that starts the day after the
 * last observed day, and the target row is found by its date.
 */
module Forecasting {
  import opened Wrappers

  /** One forecast row: the point forecast and the two interval limits. */
  datatype Estimate = Estimate(forecast: real, lower: real, upper: real)

  /**
   * The number of forecast steps the driver asks for: the days from the last
   * observed day to the target, plus one.
   */
  function Steps(target: int, last: int): (steps: int)
    ensures last + steps == target + 1
  {
    (target - last) + 1
  }

  /** A daily date range: `periods` consecutive days starting at `start`. */
  function DateRange(start: int, periods: nat): (ix: seq<int>)
    ensures |ix| == periods
    ensures forall i :: 0 <= i < periods ==> ix[i] == start + i
    decreases periods
  {
    if periods == 0 then [] else [start] + DateRange(start + 1, periods - 1)
  }

  /** The forecast index: `steps` days, the first one just after the last observed day. */
  function ForecastIndex(last: int, steps: nat): (ix: seq<int>)
    ensures |ix| == steps
  {
    DateRange(last + 1, steps)
  }

  /** Label lookup in an index: the first position holding `target`, if any. */
  function Locate(ix: seq<int>, target: int): (p: Option<nat>)
    ensures p.Some? ==> p.value < |ix| && ix[p.value] == target
                        && forall j :: 0 <= j < p.value ==> ix[j] != target
    ensures p.None? <==> target !in ix
  {
    if ix == [] then None
    else if ix[0] == target then Some(0)
    else match Locate(ix[1..], target)
      case None => None
      case Some(j) => Some(j + 1)
  }

  /**
   * The row of the forecast table dated `target`, or None where the lookup
   * raises a key error.
   */
  function SelectTarget(rows: seq<Estimate>, last: int, target: int): (r: Option<Estimate>)
    ensures r.Some? ==> r.value in rows
  {
    match Locate(ForecastIndex(last, |rows|), target)
    case None => None
    case Some(i) => Some(rows[i])
  }

  // ---------------------------------------------------------------------
  // Lemmas

  /** The index has one entry per step, dated consecutively from the day after `last`. */
  lemma ForecastIndexShape(last: int, steps: nat)
    ensures |ForecastIndex(last, steps)| == steps
    ensures steps > 0 ==> ForecastIndex(last, steps)[0] == last + 1
    ensures forall i :: 0 <= i < steps - 1 ==>
      ForecastIndex(last, steps)[i + 1] == ForecastIndex(last, steps)[i] + 1
  {
  }

  /** A day is found in a date range exactly when it falls inside it, at its offset from the start. */
  lemma {:induction false} LocateInRange(start: int, periods: nat, target: int)
    ensures Locate(DateRange(start, periods), target)
         == if start <= target < start + periods then Some(target - start) else None
  {
    var ix := DateRange(start, periods);
    if start <= target < start + periods {
      assert ix[target - start] == target;
    }
  }

  /**
   * With the step count the driver uses and at least one step, the target
   * date is in the forecast index if and only if it is strictly after the
   * last observed day; it then sits at position target - last - 1, the
   * next-to-last row.
   */
  lemma TargetFound(target: int, last: int)
    requires Steps(target, last) >= 1
    ensures var p := Locate(ForecastIndex(last, Steps(target, last)), target);
      && (p.Some? <==> target > last)
      && (p.Some? ==> p.value == target - last - 1 == Steps(target, last) - 2)
  {
    LocateInRange(last + 1, Steps(target, last), target);
  }

  /**
   * The selected row is the forecast for the target's own step: row k of the
   * table is the estimate for day last + 1 + k.
   */
  lemma SelectTargetRow(rows: seq<Estimate>, last: int, target: int)
    ensures SelectTarget(rows, last, target)
         == if last < target <= last + |rows| then Some(rows[target - last - 1]) else None
  {
    LocateInRange(last + 1, |rows|, target);
  }
}
