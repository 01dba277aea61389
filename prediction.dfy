/**
 * The next-day spending forecast (predictExpense): fewer than 15 records give
 * the mean amount; otherwise the records are totalled per day, and with at
 * least 30 distinct days the last 30 daily totals, min-max normalised with the
 * scaler constants, are given to the forecasting model once, and its output
 * is mapped back to an amount, without clamping.
 */
module Prediction {
  import opened Wrappers
  import opened Expenses
  import opened KeyOrder
  import opened Aggregation

  /** Below this many records the mean amount is reported. */
  const MinRecords: nat := 15
  /** The window length, and the least number of distinct days for a forecast. */
  const WindowDays: nat := 30

  /** What the pipeline shows: the fallback mean, "insufficient history", a forecast, or a failure with its message. */
  datatype Outcome =
    | Fallback(avg: real)
    | Insufficient
    | Predicted(value: real)
    | Failed(message: string)

  /**
   * The forecasting model, given the packed window. Loading the model file
   * and running the interpreter either give the single output value or throw,
   * and an exception's message becomes `Err`.
   */
  type Forecaster = seq<real> -> Result<real, string>

  function Normalise(x: real, min: real, scale: real): real
    requires scale != 0.0
  {
    (x - min) / scale
  }

  function Denormalise(y: real, min: real, scale: real): real {
    y * scale + min
  }

  /** De-normalising undoes normalising, and the other way round. */
  lemma NormaliseRoundTrip(x: real, y: real, min: real, scale: real)
    requires scale != 0.0
    ensures Denormalise(Normalise(x, min, scale), min, scale) == x
    ensures Normalise(Denormalise(y, min, scale), min, scale) == y
  {
  }

  /** The keys of the last 30 days, ascending. */
  function LastDays(sorted: seq<string>): seq<string>
    requires |sorted| >= WindowDays
  {
    sorted[|sorted| - WindowDays..]
  }

  /** The reference window: the normalised total of each day in `days`, in order. */
  function NormalisedTotals(es: seq<Expense>, dayKey: int -> string, days: seq<string>, min: real, scale: real): seq<real>
    requires scale != 0.0
  {
    seq(|days|, i requires 0 <= i < |days| => Normalise(DaySum(es, dayKey, days[i]), min, scale))
  }

  /** One call of the model on window `w`; its output is de-normalised as it is, with no clamping. */
  function ModelOutcome(w: seq<real>, min: real, scale: real, forecast: Forecaster): Outcome {
    match forecast(w)
    case Ok(out) => Predicted(Denormalise(out, min, scale))
    case Err(msg) => Failed(msg)
  }

  /**
   * The forecasting step of predictExpense: a fresh 30-slot buffer receives,
   * slot by slot, the normalised totals of the last 30 sorted day keys, the
   * model runs once on it and its output is de-normalised. That is the
   * model's outcome on the reference window of the last 30 sorted days.
   */
  method ForecastNextDay(
    es: seq<Expense>, dayKey: int -> string, daily: map<string, real>, sorted: seq<string>,
    min: real, scale: real, forecast: Forecaster)
    returns (o: Outcome)
    requires scale != 0.0 && |sorted| >= WindowDays
    requires forall i :: 0 <= i < |sorted| ==> sorted[i] in daily
    requires forall key :: key in daily ==> daily[key] == DaySum(es, dayKey, key)
    ensures o == ModelOutcome(NormalisedTotals(es, dayKey, LastDays(sorted), min, scale), min, scale, forecast)
  {
    var input := new real[WindowDays];
    var base := |sorted| - WindowDays;
    for i := 0 to WindowDays
      invariant forall j :: 0 <= j < i ==> input[j] == Normalise(DaySum(es, dayKey, sorted[base + j]), min, scale)
    {
      input[i] := Normalise(daily[sorted[base + i]], min, scale);
    }
    assert input[..] == NormalisedTotals(es, dayKey, LastDays(sorted), min, scale);
    var result := forecast(input[..]);
    match result {
      case Ok(out) =>
        o := Predicted(out * scale + min);
      case Err(msg) =>
        o := Failed(msg);
    }
  }

  /**
   * The scale is divided by only on the forecasting path, so a zero scale
   * (a failed asset read) is admitted whenever one of the short cuts applies.
   */
  predicate ScaleUsable(es: seq<Expense>, dayKey: int -> string, scale: real) {
    scale != 0.0 || |es| < MinRecords || |DayKeys(es, dayKey)| < WindowDays
  }

  /** The whole pipeline as one value; the model is called only in the last case. */
  ghost function PredictOutcome(es: seq<Expense>, dayKey: int -> string, min: real, scale: real, forecast: Forecaster): Outcome
    requires ScaleUsable(es, dayKey, scale)
  {
    if |es| < MinRecords then Fallback(MeanAmount(es))
    else
      var sorted := Ascending(DayKeys(es, dayKey));
      if |sorted| < WindowDays then Insufficient
      else
        ModelOutcome(NormalisedTotals(es, dayKey, LastDays(sorted), min, scale), min, scale, forecast)
  }

  /**
   * predictExpense after `getAllExpenses()`: `es` is the fetched list,
   * `dayKey` stands for formatting a timestamp as "yyyy-MM-dd", `min` and
   * `scale` for the two scaler constants read from the assets, `forecast`
   * for loading and running the model.
   */
  method PredictExpense(es: seq<Expense>, dayKey: int -> string, min: real, scale: real, forecast: Forecaster)
    returns (o: Outcome)
    requires ScaleUsable(es, dayKey, scale)
    ensures o == PredictOutcome(es, dayKey, min, scale, forecast)
  {
    if |es| < MinRecords {
      var avg := Mean(es);
      return Fallback(avg);
    }
    var daily := AggregateDaily(es, dayKey);
    var sorted := SortKeys(daily.Keys);
    if |sorted| < WindowDays {
      InsufficientExactly(es, dayKey, min, scale, forecast);
      return Insufficient;
    }
    forall i | 0 <= i < |sorted|
      ensures sorted[i] in daily
    {
      assert sorted[i] in sorted;
    }
    o := ForecastNextDay(es, dayKey, daily, sorted, min, scale, forecast);
  }

  /** Fewer than 15 records: the mean amount (0 for none), whatever the model, the day keys or the scaler. */
  lemma FewRecordsFallback(es: seq<Expense>, dayKey: int -> string, min: real, scale: real, forecast: Forecaster)
    requires |es| < MinRecords
    ensures PredictOutcome(es, dayKey, min, scale, forecast) == Fallback(MeanAmount(es))
    ensures |es| == 0 ==> MeanAmount(es) == 0.0
    ensures |es| > 0 ==> MeanAmount(es) * |es| as real == TotalAmount(es)
  {
  }

  /** "Insufficient history" exactly when there are 15 or more records on fewer than 30 distinct days. */
  lemma InsufficientExactly(es: seq<Expense>, dayKey: int -> string, min: real, scale: real, forecast: Forecaster)
    requires ScaleUsable(es, dayKey, scale)
    ensures PredictOutcome(es, dayKey, min, scale, forecast) == Insufficient
        <==> |es| >= MinRecords && |DayKeys(es, dayKey)| < WindowDays
  {
  }

  /** Without a full window the model is never consulted: any two models give the same outcome. */
  lemma ModelNotConsulted(es: seq<Expense>, dayKey: int -> string, min: real, scale: real, f: Forecaster, g: Forecaster)
    requires |es| < MinRecords || |DayKeys(es, dayKey)| < WindowDays
    ensures PredictOutcome(es, dayKey, min, scale, f) == PredictOutcome(es, dayKey, min, scale, g)
    ensures PredictOutcome(es, dayKey, min, scale, f).Fallback? || PredictOutcome(es, dayKey, min, scale, f).Insufficient?
  {
  }

  /**
   * Without a full window the scaler is never consulted either: a zero scale
   * from a failed asset read gives the same outcome as any other.
   */
  lemma ScalerNotConsulted(es: seq<Expense>, dayKey: int -> string, min: real, scale: real, min': real, scale': real, forecast: Forecaster)
    requires |es| < MinRecords || |DayKeys(es, dayKey)| < WindowDays
    ensures PredictOutcome(es, dayKey, min, scale, forecast) == PredictOutcome(es, dayKey, min', scale', forecast)
    ensures PredictOutcome(es, dayKey, min, 0.0, forecast)
        == if |es| < MinRecords then Fallback(MeanAmount(es)) else Insufficient
  {
  }

  /**
   * The days of the forecasting case: 30 distinct days that occur in the
   * records, ascending, and every other day that occurs is older than all of
   * them (older days are dropped, none is skipped).
   */
  lemma LastDaysAreLatest(es: seq<Expense>, dayKey: int -> string)
    requires |DayKeys(es, dayKey)| >= WindowDays
    ensures var days := LastDays(Ascending(DayKeys(es, dayKey)));
      && |days| == WindowDays
      && StrictlyIncreasing(days)
      && (forall i :: 0 <= i < WindowDays ==> days[i] in DayKeys(es, dayKey))
      && (forall k :: k in DayKeys(es, dayKey) && k !in days ==> Less(k, days[0]))
  {
  }

  /** With a full window, the model is called on it once, and its output is de-normalised as it is (a negative result stays negative). */
  lemma ForecastCase(es: seq<Expense>, dayKey: int -> string, min: real, scale: real, forecast: Forecaster)
    requires scale != 0.0 && |es| >= MinRecords && |DayKeys(es, dayKey)| >= WindowDays
    ensures var w := NormalisedTotals(es, dayKey, LastDays(Ascending(DayKeys(es, dayKey))), min, scale);
      PredictOutcome(es, dayKey, min, scale, forecast)
        == match forecast(w)
           case Ok(out) => Predicted(out * scale + min)
           case Err(msg) => Failed(msg)
  {
  }

  /** A scripted model that always answers `o` yields exactly `o * scale + min`, e.g. 0.5 with min 0 and scale 100 gives 50. */
  lemma ScriptedModel(es: seq<Expense>, dayKey: int -> string, min: real, scale: real, o: real)
    requires scale != 0.0 && |es| >= MinRecords && |DayKeys(es, dayKey)| >= WindowDays
    ensures PredictOutcome(es, dayKey, min, scale, _ => Ok(o)) == Predicted(o * scale + min)
    ensures min == 0.0 && scale == 100.0 && o == 0.5 ==> PredictOutcome(es, dayKey, min, scale, _ => Ok(o)) == Predicted(50.0)
  {
  }

  /** The outcome does not depend on the order in which the records were fetched. */
  lemma OrderIndependent(a: seq<Expense>, b: seq<Expense>, dayKey: int -> string, min: real, scale: real, forecast: Forecaster)
    requires multiset(a) == multiset(b) && ScaleUsable(a, dayKey, scale)
    ensures |a| == |b| && DayKeys(a, dayKey) == DayKeys(b, dayKey)
    ensures PredictOutcome(a, dayKey, min, scale, forecast) == PredictOutcome(b, dayKey, min, scale, forecast)
  {
    assert |a| == |multiset(a)| == |multiset(b)| == |b|;
    MeanPermutation(a, b);
    DailyMapPermutation(a, b, dayKey);
    if |a| >= MinRecords && |DayKeys(a, dayKey)| >= WindowDays {
      var days := LastDays(Ascending(DayKeys(a, dayKey)));
      forall i | 0 <= i < |days|
        ensures DaySum(a, dayKey, days[i]) == DaySum(b, dayKey, days[i])
      {
        SumOfPermutation(a, b, Contribution(dayKey, days[i]));
      }
      assert NormalisedTotals(a, dayKey, days, min, scale) == NormalisedTotals(b, dayKey, days, min, scale);
    }
  }
}
