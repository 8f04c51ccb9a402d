/**
 * The per-channel driver: for every channel of a fixed list, in order,
 * aggregate the daily series, fit the model, work out the number of forecast
 * steps that reaches the target day, take the target's row of the forecast
 * table and score it.
 *
 * The statistical model is a collaborator given as a value: whether fitting
 * a series succeeds, and the estimate it produces for each forecast step.
 * The driver has no error handling of its own, so the first failing channel
 * ends the run: the reports of the channels before it stand, and no later
 * channel is processed.
 */
module Pipeline {
  import opened Wrappers
  import opened DailySeries
  import opened Forecasting
  import opened Confidence

  /** The (p, d, q) order of the autoregressive integrated moving-average model. */
  datatype Order = Order(p: nat, d: nat, q: nat)

  /** The order the driver fits with. */
  const DefaultOrder: Order := Order(5, 1, 0)

  /** The significance level of the forecast intervals (a 90% interval). */
  const Alpha: real := 0.10

  /** The channels the driver forecasts, in this order. */
  const DefaultChannels: seq<string> := ["Online", "In-Store", "Mobile"]

  /**
   * The fitting and forecasting library, as an opaque collaborator:
   * `fits(s, o)` says whether fitting order `o` to series `s` succeeds, and
   * `predict(s, o, alpha, h)` is the estimate for the h-th day after the
   * series ends (h = 1 is the day after its last day).
   */
  datatype Arima = Arima(fits: (Series, Order) -> bool, predict: (Series, Order, real, nat) -> Estimate)

  /** Why a channel could not be forecast. */
  datatype Failure =
    | FitFailed           // the model fit raised
    | EmptySeries         // the channel has no record, so the series has no last day
    | HorizonNotPositive  // fewer than one forecast step was requested
    | TargetNotInForecast // the target date is not a label of the forecast table

  datatype Report = Report(channel: string, estimate: Estimate, confidence: real)

  datatype ChannelFailure = ChannelFailure(channel: string, failure: Failure)

  /** The forecast table for `steps` days after the series ends, one row per step. */
  function ForecastRows(arima: Arima, series: Series, steps: nat): (rows: seq<Estimate>)
    ensures |rows| == steps
  {
    seq(steps, i requires 0 <= i < steps => arima.predict(series, DefaultOrder, Alpha, i + 1))
  }

  /** One channel's forecast for the target day, or the first step that fails. */
  function PredictChannel(records: seq<Record>, channel: string, target: int, arima: Arima): Result<Report, Failure>
  {
    var series := Aggregate(records, channel);
    if !arima.fits(series, DefaultOrder) then Err(FitFailed)
    else if series.values == [] then Err(EmptySeries)
    else
      var last := LastDay(series);
      var steps := Steps(target, last);
      if steps < 1 then Err(HorizonNotPositive)
      else match SelectTarget(ForecastRows(arima, series, steps), last, target)
        case None => Err(TargetNotInForecast)
        case Some(e) => Ok(Report(channel, e, ConfidenceOf(e)))
  }

  /**
   * The driver loop. Each channel that succeeds adds its report, in list
   * order; the first channel that fails stops the run and is returned with
   * its reason.
   */
  method PredictAll(records: seq<Record>, channels: seq<string>, target: int, arima: Arima)
    returns (reports: seq<Report>, failure: Option<ChannelFailure>)
    ensures |reports| <= |channels|
    ensures forall i :: 0 <= i < |reports| ==>
      PredictChannel(records, channels[i], target, arima) == Ok(reports[i])
    ensures failure.None? <==> |reports| == |channels|
    ensures failure.Some? ==>
      && failure.value.channel == channels[|reports|]
      && PredictChannel(records, channels[|reports|], target, arima) == Err(failure.value.failure)
  {
    reports, failure := [], None;
    for k := 0 to |channels|
      invariant |reports| == k
      invariant forall i :: 0 <= i < k ==>
        PredictChannel(records, channels[i], target, arima) == Ok(reports[i])
    {
      var channel := channels[k];
      var series := Aggregate(records, channel);
      if !arima.fits(series, DefaultOrder) {
        assert PredictChannel(records, channel, target, arima) == Err(FitFailed);
        failure := Some(ChannelFailure(channel, FitFailed));
        return;
      }
      if series.values == [] {
        assert PredictChannel(records, channel, target, arima) == Err(EmptySeries);
        failure := Some(ChannelFailure(channel, EmptySeries));
        return;
      }
      var last := LastDay(series);
      var totalDays := Steps(target, last);
      if totalDays < 1 {
        assert PredictChannel(records, channel, target, arima) == Err(HorizonNotPositive);
        failure := Some(ChannelFailure(channel, HorizonNotPositive));
        return;
      }
      var row := SelectTarget(ForecastRows(arima, series, totalDays), last, target);
      if row.None? {
        assert PredictChannel(records, channel, target, arima) == Err(TargetNotInForecast);
        failure := Some(ChannelFailure(channel, TargetNotInForecast));
        return;
      }
      var confidence := ConfidenceOf(row.value);
      assert PredictChannel(records, channel, target, arima) == Ok(Report(channel, row.value, confidence));
      reports := reports + [Report(channel, row.value, confidence)];
    }
  }

  /** The driver as the script runs it: the fixed channel list, in its order. */
  method PredictDefault(records: seq<Record>, target: int, arima: Arima)
    returns (reports: seq<Report>, failure: Option<ChannelFailure>)
    ensures |reports| <= 3
    ensures forall i :: 0 <= i < |reports| ==>
      PredictChannel(records, DefaultChannels[i], target, arima) == Ok(reports[i])
    ensures failure.None? <==> |reports| == 3
    ensures failure.Some? ==>
      && failure.value.channel == DefaultChannels[|reports|]
      && PredictChannel(records, DefaultChannels[|reports|], target, arima) == Err(failure.value.failure)
  {
    reports, failure := PredictAll(records, DefaultChannels, target, arima);
  }

  // ---------------------------------------------------------------------
  // Lemmas

  /**
   * How one channel ends, by case: a failed fit, an empty series, a target
   * before the last observed day (no forecast step), a target on the last
   * day (one step, dated the day after, so no row for it), or a target after
   * it, which yields the model's estimate for step target - last and its score.
   */
  lemma PredictChannelOutcome(records: seq<Record>, channel: string, target: int, arima: Arima)
    ensures var s := Aggregate(records, channel);
      var r := PredictChannel(records, channel, target, arima);
      && (!arima.fits(s, DefaultOrder) ==> r == Err(FitFailed))
      && (arima.fits(s, DefaultOrder) && s.values == [] ==> r == Err(EmptySeries))
      && (arima.fits(s, DefaultOrder) && s.values != [] ==>
            && (target < LastDay(s) ==> r == Err(HorizonNotPositive))
            && (target == LastDay(s) ==> r == Err(TargetNotInForecast))
            && (target > LastDay(s) ==>
                  var e := arima.predict(s, DefaultOrder, Alpha, target - LastDay(s));
                  r == Ok(Report(channel, e, ConfidenceOf(e)))))
  {
    var s := Aggregate(records, channel);
    if arima.fits(s, DefaultOrder) && s.values != [] && target >= LastDay(s) {
      var last := LastDay(s);
      var steps := Steps(target, last);
      var rows := ForecastRows(arima, s, steps);
      SelectTargetRow(rows, last, target);
    }
  }

  /**
   * In terms of the records: a channel gets a forecast exactly when the fit
   * succeeds, the channel has at least one record and every one of its
   * records is dated before the target day.
   */
  lemma PredictChannelSucceeds(records: seq<Record>, channel: string, target: int, arima: Arima)
    ensures PredictChannel(records, channel, target, arima).Ok? <==>
      && arima.fits(Aggregate(records, channel), DefaultOrder)
      && (exists r :: r in records && r.channel == channel)
      && (forall r :: r in records && r.channel == channel ==> r.day < target)
  {
    PredictChannelOutcome(records, channel, target, arima);
    AggregateEmpty(records, channel);
    if exists r :: r in records && r.channel == channel {
      AggregateSpan(records, channel);
    }
  }

  /** A successful report carries a confidence between 0 and 100 and the channel it was asked for. */
  lemma ReportWellFormed(records: seq<Record>, channel: string, target: int, arima: Arima)
    requires PredictChannel(records, channel, target, arima).Ok?
    ensures var rep := PredictChannel(records, channel, target, arima).value;
      rep.channel == channel && 0.0 <= rep.confidence <= 100.0
  {
    PredictChannelOutcome(records, channel, target, arima);
  }

  /** Records of other channels do not change a channel's outcome. */
  lemma ChannelsIndependent(records: seq<Record>, r: Record, channel: string, target: int, arima: Arima)
    requires r.channel != channel
    ensures PredictChannel(records + [r], channel, target, arima) == PredictChannel(records, channel, target, arima)
  {
    OtherChannelIgnored(records, r, channel);
  }

  /** Only the channel's own records matter: dropping all records of other channels leaves its outcome unchanged. */
  lemma OnlyOwnRecordsMatter(records: seq<Record>, channel: string, target: int, arima: Arima)
    ensures PredictChannel(Filter(records, channel), channel, target, arima) == PredictChannel(records, channel, target, arima)
  {
    OthersIgnored(records, channel);
  }
}
