/**
 * The weather predictor: a linear temperature trend with a time-of-day offset,
 * damped by exponential smoothing, and a weather label that is either "clear"
 * (at night) or the most frequent label seen so far.
 *
 * Temperatures are real numbers; floating-point rounding is not modelled.
 */
module Weather {
  import opened Substring

  /** The exceptions the predictor can raise. */
  datatype Error =
    | InvalidTimeOfDay   // ValueError("Invalid time of day")
    | NoWeatherHistory   // ValueError from max() over an empty set of labels
    | NothingToSmooth    // IndexError from reading element 0 of an empty array

  datatype Result<T> = Ok(value: T) | Err(error: Error)

  /** The four times of day, in their daily cycle. */
  const Times: seq<string> := ["morning", "afternoon", "evening", "night"]

  /** The smoothing factor used for every temperature forecast. */
  const Alpha: real := 0.3

  /** The fixed table of (weight, description) pairs from which each weather step draws one entry. */
  const TrendTable: seq<(real, string)> := [
    (0.2, "Gradual increase in temperature."),
    (-0.1, "Slight decrease in temperature."),
    (0.05, "Stable temperature with minor fluctuations."),
    (0.3, "Steady increase followed by rain."),
    (-0.2, "Gradual cooling and possible clouds."),
    (0.1, "Slight increase and sunny weather."),
    (0.15, "Increase with humidity rising."),
    (-0.25, "Cooler with chances of frost."),
    (0.0, "Stable weather without significant changes."),
    (-0.05, "Slight cooling with intermittent clouds.")
  ]

  // ---------------------------------------------------------------------------
  // The three times of day before a given one

  /**
   * The three times of day that precede `timeOfDay`, nearest first: entry `j`
   * is the time `j + 1` steps back in the cycle morning, afternoon, evening, night.
   * Any other string is rejected.
   */
  function LastThreeTimes(timeOfDay: string): (r: Result<seq<string>>)
    ensures r.Err? <==> timeOfDay !in Times
    ensures r.Err? ==> r.error == InvalidTimeOfDay
    ensures forall k :: 0 <= k < |Times| && Times[k] == timeOfDay ==>
      r == Ok([StepsBack(k, 1), StepsBack(k, 2), StepsBack(k, 3)])
  {
    if timeOfDay == "morning" then Ok(["night", "evening", "afternoon"])
    else if timeOfDay == "afternoon" then Ok(["morning", "night", "evening"])
    else if timeOfDay == "evening" then Ok(["afternoon", "morning", "night"])
    else if timeOfDay == "night" then Ok(["evening", "afternoon", "morning"])
    else Err(InvalidTimeOfDay)
  }

  /** The time of day `steps` places before `Times[k]` in the daily cycle. */
  function StepsBack(k: nat, steps: nat): string
    requires k < |Times| && steps <= |Times|
  {
    Times[(k + |Times| - steps) % |Times|]
  }

  /** For a valid time of day the answer lists each of the other three times exactly once, and never the time itself. */
  lemma LastThreeTimesAreTheOthers(timeOfDay: string)
    requires timeOfDay in Times
    ensures LastThreeTimes(timeOfDay).Ok?
    ensures var others := LastThreeTimes(timeOfDay).value;
      timeOfDay !in others &&
      (forall t :: t in others ==> t in Times) &&
      (forall t :: t in Times && t != timeOfDay ==> multiset(others)[t] == 1)
  {
  }

  /**
   * Each substring test of a weather step is guarded by one time of day, and
   * under that guard it looks for "night": entry 0 for morning, entry 1 for
   * afternoon, entry 2 for evening.
   */
  lemma LastThreeTimesTestNight(timeOfDay: string)
    requires timeOfDay in Times
    ensures var others := LastThreeTimes(timeOfDay).value;
      (timeOfDay == "morning" ==> others[0] == "night") &&
      (timeOfDay == "afternoon" ==> others[1] == "night") &&
      (timeOfDay == "evening" ==> others[2] == "night")
  {
  }

  // ---------------------------------------------------------------------------
  // Exponential smoothing

  /** Element `t` of the exponential smoothing of `data` with factor `alpha`. */
  function SmoothedAt(data: seq<real>, alpha: real, t: nat): real
    requires t < |data|
  {
    if t == 0 then data[0]
    else alpha * data[t] + (1.0 - alpha) * SmoothedAt(data, alpha, t - 1)
  }

  /** The exponential smoothing of `data` with factor `alpha`. */
  function Smoothed(data: seq<real>, alpha: real): seq<real>
  {
    seq(|data|, t requires 0 <= t < |data| => SmoothedAt(data, alpha, t))
  }

  /** For a factor between 0 and 1, a smoothed element stays within any bounds that enclose the data up to it. */
  lemma {:induction false} SmoothedWithinBounds(data: seq<real>, alpha: real, t: nat, lo: real, hi: real)
    requires 0.0 <= alpha <= 1.0
    requires t < |data|
    requires forall j :: 0 <= j <= t ==> lo <= data[j] <= hi
    ensures lo <= SmoothedAt(data, alpha, t) <= hi
  {
    if t > 0 {
      SmoothedWithinBounds(data, alpha, t - 1, lo, hi);
      var prev := SmoothedAt(data, alpha, t - 1);
      ConvexCombinationBounds(alpha, data[t], prev, lo, hi);
    }
  }

  /** A weighted average of two values within [lo, hi] stays within [lo, hi]. */
  lemma ConvexCombinationBounds(alpha: real, x: real, y: real, lo: real, hi: real)
    requires 0.0 <= alpha <= 1.0
    requires lo <= x <= hi && lo <= y <= hi
    ensures lo <= alpha * x + (1.0 - alpha) * y <= hi
  {
    var beta := 1.0 - alpha;
    NonNegativeProduct(alpha, x - lo);
    NonNegativeProduct(beta, y - lo);
    NonNegativeProduct(alpha, hi - x);
    NonNegativeProduct(beta, hi - y);
    assert alpha * x + beta * y - lo == alpha * (x - lo) + beta * (y - lo);
    assert hi - (alpha * x + beta * y) == alpha * (hi - x) + beta * (hi - y);
  }

  lemma NonNegativeProduct(a: real, b: real)
    requires a >= 0.0 && b >= 0.0
    ensures a * b >= 0.0
  {
  }

  /** Smoothing leaves a constant sequence unchanged, whatever the factor. */
  lemma SmoothedConstant(data: seq<real>, alpha: real)
    requires forall j :: 0 <= j < |data| ==> data[j] == data[0]
    ensures Smoothed(data, alpha) == data
  {
    forall t | 0 <= t < |data|
      ensures SmoothedAt(data, alpha, t) == data[t]
    {
      SmoothedAtConstant(data, alpha, t);
    }
  }

  lemma {:induction false} SmoothedAtConstant(data: seq<real>, alpha: real, t: nat)
    requires t < |data|
    requires forall j :: 0 <= j < |data| ==> data[j] == data[0]
    ensures SmoothedAt(data, alpha, t) == data[0]
  {
    if t > 0 {
      SmoothedAtConstant(data, alpha, t - 1);
    }
  }

  /** A smoothed element depends only on the data up to it. */
  lemma {:induction false} SmoothedAtPrefix(data: seq<real>, alpha: real, t: nat, n: nat)
    requires t < n <= |data|
    ensures SmoothedAt(data[..n], alpha, t) == SmoothedAt(data, alpha, t)
  {
    if t > 0 {
      SmoothedAtPrefix(data, alpha, t - 1, n);
    }
  }

  // ---------------------------------------------------------------------------
  // Temperature forecast

  function Sum(s: seq<real>): real
  {
    if s == [] then 0.0 else Sum(s[..|s| - 1]) + s[|s| - 1]
  }

  /** The arithmetic mean of a non-empty sequence. */
  function Mean(s: seq<real>): real
    requires |s| > 0
  {
    Sum(s) / |s| as real
  }

  /** The change per step: the difference of the two baseline means, spread over the length of the earlier baseline. */
  function TrendPerStep(prevTemps: seq<real>, currentTemps: seq<real>): real
    requires |prevTemps| > 0 && |currentTemps| > 0
  {
    (Mean(currentTemps) - Mean(prevTemps)) / |prevTemps| as real
  }

  /** The fixed adjustment for a time of day; any other string gets none. */
  function Offset(timeOfDay: string): real
  {
    if timeOfDay == "morning" then -2.0
    else if timeOfDay == "afternoon" then 2.0
    else if timeOfDay == "evening" then -1.0
    else if timeOfDay == "night" then -3.0
    else 0.0
  }

  /** The unsmoothed prediction for step `i` (0-based): the current mean moved `i + 1` trend steps, plus the offset. */
  function RawAt(prevTemps: seq<real>, currentTemps: seq<real>, timeOfDay: string, i: nat): real
    requires |prevTemps| > 0 && |currentTemps| > 0
  {
    Mean(currentTemps) + TrendPerStep(prevTemps, currentTemps) * (i + 1) as real + Offset(timeOfDay)
  }

  /** The first `n` unsmoothed predictions. */
  function RawForecast(prevTemps: seq<real>, currentTemps: seq<real>, n: nat, timeOfDay: string): seq<real>
    requires |prevTemps| > 0 && |currentTemps| > 0
  {
    seq(n, i requires 0 <= i => RawAt(prevTemps, currentTemps, timeOfDay, i))
  }

  /**
   * The temperature forecast for `numDays` steps: the raw predictions smoothed
   * with factor Alpha. No steps at all leaves nothing to smooth, which is an error.
   */
  function TemperatureForecast(prevTemps: seq<real>, currentTemps: seq<real>, numDays: int, timeOfDay: string): Result<seq<real>>
    requires |prevTemps| > 0 && |currentTemps| > 0
  {
    if numDays <= 0 then Err(NothingToSmooth)
    else Ok(Smoothed(RawForecast(prevTemps, currentTemps, numDays, timeOfDay), Alpha))
  }

  /**
   * A forecast of at least one step has exactly that many values, the first is
   * the raw prediction itself, and every later one is the smoothing recurrence
   * applied to the raw prediction for its step.
   */
  lemma ForecastShape(prevTemps: seq<real>, currentTemps: seq<real>, numDays: int, timeOfDay: string)
    requires |prevTemps| > 0 && |currentTemps| > 0
    ensures var r := TemperatureForecast(prevTemps, currentTemps, numDays, timeOfDay);
      (r.Err? <==> numDays <= 0) &&
      (r.Err? ==> r.error == NothingToSmooth) &&
      (r.Ok? ==>
        |r.value| == numDays &&
        r.value[0] == Mean(currentTemps) + TrendPerStep(prevTemps, currentTemps) + Offset(timeOfDay) &&
        (forall t :: 1 <= t < numDays ==>
          r.value[t] == Alpha * RawAt(prevTemps, currentTemps, timeOfDay, t) + (1.0 - Alpha) * r.value[t - 1]))
  {
  }

  /**
   * Smoothing makes the forecast lag behind the linear trend: step `t` lies
   * between the raw prediction for the first step and the raw prediction for
   * step `t`, on the side the trend points to.
   */
  lemma ForecastBetweenFirstAndRaw(prevTemps: seq<real>, currentTemps: seq<real>, numDays: int, timeOfDay: string, t: nat)
    requires |prevTemps| > 0 && |currentTemps| > 0
    requires t < numDays
    ensures var r := TemperatureForecast(prevTemps, currentTemps, numDays, timeOfDay).value;
      var first := RawAt(prevTemps, currentTemps, timeOfDay, 0);
      var last := RawAt(prevTemps, currentTemps, timeOfDay, t);
      (TrendPerStep(prevTemps, currentTemps) >= 0.0 ==> first <= r[t] <= last) &&
      (TrendPerStep(prevTemps, currentTemps) <= 0.0 ==> last <= r[t] <= first)
  {
    var raw := RawForecast(prevTemps, currentTemps, numDays, timeOfDay);
    var first := RawAt(prevTemps, currentTemps, timeOfDay, 0);
    var last := RawAt(prevTemps, currentTemps, timeOfDay, t);
    var trend := TrendPerStep(prevTemps, currentTemps);
    if trend >= 0.0 {
      forall j | 0 <= j <= t ensures first <= raw[j] <= last {
        RawMonotone(prevTemps, currentTemps, timeOfDay, 0, j);
        RawMonotone(prevTemps, currentTemps, timeOfDay, j, t);
      }
      SmoothedWithinBounds(raw, Alpha, t, first, last);
    }
    if trend <= 0.0 {
      forall j | 0 <= j <= t ensures last <= raw[j] <= first {
        RawMonotone(prevTemps, currentTemps, timeOfDay, 0, j);
        RawMonotone(prevTemps, currentTemps, timeOfDay, j, t);
      }
      SmoothedWithinBounds(raw, Alpha, t, last, first);
    }
  }

  /** The raw predictions move monotonically in the direction of the trend. */
  lemma RawMonotone(prevTemps: seq<real>, currentTemps: seq<real>, timeOfDay: string, i: nat, j: nat)
    requires |prevTemps| > 0 && |currentTemps| > 0
    requires i <= j
    ensures var trend := TrendPerStep(prevTemps, currentTemps);
      (trend >= 0.0 ==> RawAt(prevTemps, currentTemps, timeOfDay, i) <= RawAt(prevTemps, currentTemps, timeOfDay, j)) &&
      (trend <= 0.0 ==> RawAt(prevTemps, currentTemps, timeOfDay, j) <= RawAt(prevTemps, currentTemps, timeOfDay, i))
  {
    var trend := TrendPerStep(prevTemps, currentTemps);
    var d := (j - i) as real;
    assert trend * (j + 1) as real == trend * (i + 1) as real + trend * d;
    if trend >= 0.0 {
      assert trend * d >= 0.0;
    }
    if trend <= 0.0 {
      assert trend * d <= 0.0;
    }
  }

  /** The forecast for a shorter horizon is the start of the forecast for a longer one. */
  lemma ForecastExtends(prevTemps: seq<real>, currentTemps: seq<real>, timeOfDay: string, n: int, m: int)
    requires |prevTemps| > 0 && |currentTemps| > 0
    requires 1 <= n <= m
    ensures var short := TemperatureForecast(prevTemps, currentTemps, n, timeOfDay).value;
      short == TemperatureForecast(prevTemps, currentTemps, m, timeOfDay).value[..n]
  {
    var rawShort := RawForecast(prevTemps, currentTemps, n, timeOfDay);
    var rawLong := RawForecast(prevTemps, currentTemps, m, timeOfDay);
    assert rawShort == rawLong[..n];
    forall t | 0 <= t < n
      ensures SmoothedAt(rawShort, Alpha, t) == SmoothedAt(rawLong, Alpha, t)
    {
      SmoothedAtPrefix(rawLong, Alpha, t, n);
    }
  }

  /** When both baselines have the same mean there is no trend, and every step is the current mean plus the offset. */
  lemma ForecastWithoutTrend(prevTemps: seq<real>, currentTemps: seq<real>, numDays: int, timeOfDay: string)
    requires |prevTemps| > 0 && |currentTemps| > 0
    requires Mean(prevTemps) == Mean(currentTemps)
    requires numDays >= 1
    ensures TemperatureForecast(prevTemps, currentTemps, numDays, timeOfDay)
      == Ok(seq(numDays, _ => Mean(currentTemps) + Offset(timeOfDay)))
  {
    var raw := RawForecast(prevTemps, currentTemps, numDays, timeOfDay);
    assert TrendPerStep(prevTemps, currentTemps) == 0.0;
    assert forall j :: 0 <= j < |raw| ==> raw[j] == Mean(currentTemps) + Offset(timeOfDay);
    SmoothedConstant(raw, Alpha);
    assert raw == seq(numDays, _ => Mean(currentTemps) + Offset(timeOfDay));
  }

  /** Baselines [25, 26, 27] and [28, 29, 30], one step, at night: the forecast is [27]. */
  lemma ForecastExample()
    ensures TemperatureForecast([25.0, 26.0, 27.0], [28.0, 29.0, 30.0], 1, "night") == Ok([27.0])
  {
    var prev, curr := [25.0, 26.0, 27.0], [28.0, 29.0, 30.0];
    assert Sum(prev) == 78.0 by {
      assert prev[..2] == [25.0, 26.0] && prev[..2][..1] == [25.0] && [25.0][..0] == [];
    }
    assert Sum(curr) == 87.0 by {
      assert curr[..2] == [28.0, 29.0] && curr[..2][..1] == [28.0] && [28.0][..0] == [];
    }
    assert Mean(prev) == 26.0 && Mean(curr) == 29.0;
    assert TrendPerStep(prev, curr) == 1.0;
    assert RawAt(prev, curr, "night", 0) == 27.0;
    var raw := RawForecast(prev, curr, 1, "night");
    assert raw == [27.0];
    assert Smoothed(raw, Alpha) == [27.0];
  }

  // ---------------------------------------------------------------------------
  // Weather labels

  /** `w` is a label of `labels` that occurs at least as often as any other. */
  predicate IsMostFrequent(labels: seq<string>, w: string)
  {
    w in labels && forall x :: x in labels ==> multiset(labels)[x] <= multiset(labels)[w]
  }

  /** Every non-empty list of labels has a most frequent label. */
  lemma {:induction false} MostFrequentExists(labels: seq<string>)
    requires |labels| > 0
    ensures exists w :: IsMostFrequent(labels, w)
  {
    var last := labels[|labels| - 1];
    var init := labels[..|labels| - 1];
    assert labels == init + [last];
    if init == [] {
      assert IsMostFrequent(labels, last);
    } else {
      MostFrequentExists(init);
      var w :| IsMostFrequent(init, w);
      var m := multiset(labels);
      assert m == multiset(init) + multiset{last};
      if m[last] > m[w] {
        assert IsMostFrequent(labels, last);
      } else {
        assert IsMostFrequent(labels, w);
      }
    }
  }

  /** No description in the trend table contains the word "night". */
  lemma NightInNoTrend(k: nat)
    requires k < |TrendTable|
    ensures !Occurs("night", TrendTable[k].1)
  {
    if k == 0 {
      NightNotInTrend0();
    } else if k == 1 {
      NightNotInTrend1();
    } else if k == 2 {
      NightNotInTrend2();
    } else if k == 3 {
      NightNotInTrend3();
    } else if k == 4 {
      NightNotInTrend4();
    } else if k == 5 {
      NightNotInTrend5();
    } else if k == 6 {
      NightNotInTrend6();
    } else if k == 7 {
      NightNotInTrend7();
    } else if k == 8 {
      NightNotInTrend8();
    } else {
      NightNotInTrend9();
    }
  }

  // One lemma per table entry: proved together, the refutations interfere and cost far more.

  lemma NightNotInTrend0()
    ensures !Occurs("night", TrendTable[0].1)
  {
    NotOccursWithoutLead("night", TrendTable[0].1);
  }

  lemma NightNotInTrend1()
    ensures !Occurs("night", TrendTable[1].1)
  {
    NotOccursWithoutLead("night", TrendTable[1].1);
  }

  lemma NightNotInTrend2()
    ensures !Occurs("night", TrendTable[2].1)
  {
    NotOccursWithoutLead("night", TrendTable[2].1);
  }

  lemma NightNotInTrend3()
    ensures !Occurs("night", TrendTable[3].1)
  {
    NotOccursWithoutLead("night", TrendTable[3].1);
  }

  lemma NightNotInTrend4()
    ensures !Occurs("night", TrendTable[4].1)
  {
    NotOccursWithoutLead("night", TrendTable[4].1);
  }

  lemma NightNotInTrend5()
    ensures !Occurs("night", TrendTable[5].1)
  {
    NotOccursWithoutLead("night", TrendTable[5].1);
  }

  lemma NightNotInTrend6()
    ensures !Occurs("night", TrendTable[6].1)
  {
    NotOccursWithoutLead("night", TrendTable[6].1);
  }

  lemma NightNotInTrend7()
    ensures !Occurs("night", TrendTable[7].1)
  {
    NotOccursWithoutLead("night", TrendTable[7].1);
  }

  lemma NightNotInTrend8()
    ensures !Occurs("night", TrendTable[8].1)
  {
    NotOccursWithoutLead("night", TrendTable[8].1);
  }

  lemma NightNotInTrend9()
    ensures !Occurs("night", TrendTable[9].1)
  {
    NotOccursWithoutLead("night", TrendTable[9].1);
  }

  /**
   * The possible outcomes of a weather forecast of `numDays` steps from the
   * combined label history: an unknown time of day is rejected first; no steps
   * give no labels; at night every label is "clear"; otherwise an empty history
   * is an error and every label is a most frequent one of the history.
   */
  ghost predicate IsWeatherForecast(history: seq<string>, numDays: int, timeOfDay: string, r: Result<seq<string>>)
  {
    if timeOfDay !in Times then r == Err(InvalidTimeOfDay)
    else if numDays <= 0 then r == Ok([])
    else if timeOfDay == "night" then r == Ok(seq(numDays, _ => "clear"))
    else if history == [] then r == Err(NoWeatherHistory)
    else r.Ok? && |r.value| == numDays && forall k :: 0 <= k < numDays ==> IsMostFrequent(history, r.value[k])
  }

  /** Every request has an outcome: the weather relation is total. */
  lemma WeatherForecastExists(history: seq<string>, numDays: int, timeOfDay: string)
    ensures exists r :: IsWeatherForecast(history, numDays, timeOfDay, r)
  {
    if timeOfDay !in Times {
      assert IsWeatherForecast(history, numDays, timeOfDay, Err(InvalidTimeOfDay));
    } else if numDays <= 0 {
      assert IsWeatherForecast(history, numDays, timeOfDay, Ok([]));
    } else if timeOfDay == "night" {
      assert IsWeatherForecast(history, numDays, timeOfDay, Ok(seq(numDays, _ => "clear")));
    } else if history == [] {
      assert IsWeatherForecast(history, numDays, timeOfDay, Err(NoWeatherHistory));
    } else {
      MostFrequentExists(history);
      var w :| IsMostFrequent(history, w);
      assert IsWeatherForecast(history, numDays, timeOfDay, Ok(seq(numDays, _ => w)));
    }
  }

  // ---------------------------------------------------------------------------
  // Combined prediction

  /**
   * The possible outcomes of a combined prediction: the temperature forecast
   * runs first and its error wins; otherwise the outcome is the weather
   * forecast's error, or both forecasts paired.
   */
  ghost predicate IsPrediction(prevTemps: seq<real>, currentTemps: seq<real>, history: seq<string>,
                               numDays: int, timeOfDay: string, r: Result<(seq<real>, seq<string>)>)
    requires |prevTemps| > 0 && |currentTemps| > 0
  {
    var temps := TemperatureForecast(prevTemps, currentTemps, numDays, timeOfDay);
    if temps.Err? then r == Err(temps.error)
    else
      (r.Err? ==> IsWeatherForecast(history, numDays, timeOfDay, Err(r.error))) &&
      (r.Ok? ==> r.value.0 == temps.value && IsWeatherForecast(history, numDays, timeOfDay, Ok(r.value.1)))
  }

  /**
   * An unknown time of day gets a temperature forecast (with no offset), yet the
   * combined prediction is rejected, because the weather half refuses it.
   */
  lemma PredictRejectsUnknownTime(prevTemps: seq<real>, currentTemps: seq<real>, history: seq<string>,
                                  numDays: int, timeOfDay: string, r: Result<(seq<real>, seq<string>)>)
    requires |prevTemps| > 0 && |currentTemps| > 0
    requires timeOfDay !in Times && numDays >= 1
    requires IsPrediction(prevTemps, currentTemps, history, numDays, timeOfDay, r)
    ensures TemperatureForecast(prevTemps, currentTemps, numDays, timeOfDay).Ok? && Offset(timeOfDay) == 0.0
    ensures r == Err(InvalidTimeOfDay)
  {
  }

  /** With no steps to predict the temperature half fails first, whatever the time of day. */
  lemma PredictNothingFails(prevTemps: seq<real>, currentTemps: seq<real>, history: seq<string>,
                            numDays: int, timeOfDay: string, r: Result<(seq<real>, seq<string>)>)
    requires |prevTemps| > 0 && |currentTemps| > 0
    requires numDays <= 0
    requires IsPrediction(prevTemps, currentTemps, history, numDays, timeOfDay, r)
    ensures r == Err(NothingToSmooth)
  {
  }

  // ---------------------------------------------------------------------------
  // The predictor object

  /** A predictor over two temperature baselines and two weather-label histories, none of which changes after construction. */
  class WeatherModel {
    const prevTemps: seq<real>
    const currentTemps: seq<real>
    const prevWeather: seq<string>
    const currentWeather: seq<string>
    const trends: seq<(real, string)> := TrendTable

    constructor (prevTemps: seq<real>, currentTemps: seq<real>, prevWeather: seq<string>, currentWeather: seq<string>)
      ensures this.prevTemps == prevTemps && this.currentTemps == currentTemps
      ensures this.prevWeather == prevWeather && this.currentWeather == currentWeather
    {
      this.prevTemps := prevTemps;
      this.currentTemps := currentTemps;
      this.prevWeather := prevWeather;
      this.currentWeather := currentWeather;
    }

    /** Fills a new array with the exponential smoothing of `data`; an empty array has no first element to start from. */
    method ExponentialSmoothing(data: array<real>, alpha: real) returns (r: Result<array<real>>)
      ensures r.Err? <==> data.Length == 0
      ensures r.Err? ==> r.error == NothingToSmooth
      ensures r.Ok? ==> fresh(r.value) && r.value[..] == Smoothed(data[..], alpha)
    {
      // Every element is written below before it is read, so the zeros of the source need not be modelled.
      var smoothed := new real[data.Length];
      if data.Length == 0 {
        return Err(NothingToSmooth);
      }
      smoothed[0] := data[0];
      var t := 1;
      while t < data.Length
        invariant 1 <= t <= data.Length
        invariant forall k :: 0 <= k < t ==> smoothed[k] == SmoothedAt(data[..], alpha, k)
      {
        smoothed[t] := alpha * data[t] + (1.0 - alpha) * smoothed[t - 1];
        t := t + 1;
      }
      assert smoothed[..] == Smoothed(data[..], alpha);
      return Ok(smoothed);
    }

    /** Predicts `numDays` temperatures for the given time of day. */
    method PredictTemperature(numDays: int, timeOfDay: string) returns (r: Result<seq<real>>)
      requires |prevTemps| > 0 && |currentTemps| > 0
      ensures r == TemperatureForecast(prevTemps, currentTemps, numDays, timeOfDay)
    {
      var pastAvg := Mean(prevTemps);
      var currAvg := Mean(currentTemps);
      var trend := (currAvg - pastAvg) / |prevTemps| as real;

      var predictions: seq<real> := [];
      var i := 0;
      while i < numDays
        invariant 0 <= i && (numDays >= 0 ==> i <= numDays) && (numDays < 0 ==> i == 0)
        invariant |predictions| == i
        invariant forall k :: 0 <= k < i ==> predictions[k] == RawAt(prevTemps, currentTemps, timeOfDay, k)
      {
        var nextTemp := currAvg + trend * (i + 1) as real;
        if timeOfDay == "morning" {
          nextTemp := nextTemp - 2.0;
        } else if timeOfDay == "afternoon" {
          nextTemp := nextTemp + 2.0;
        } else if timeOfDay == "evening" {
          nextTemp := nextTemp - 1.0;
        } else if timeOfDay == "night" {
          nextTemp := nextTemp - 3.0;
        }
        predictions := predictions + [nextTemp];
        i := i + 1;
      }
      var data := new real[|predictions|](k requires 0 <= k < |predictions| => predictions[k]);
      assert data[..] == predictions;
      var smoothed := ExponentialSmoothing(data, Alpha);
      if smoothed.Err? {
        return Err(smoothed.error);
      }
      assert predictions == RawForecast(prevTemps, currentTemps, numDays, timeOfDay);
      return Ok(smoothed.value[..]);
    }

    /**
     * Predicts `numDays` weather labels for the given time of day. Each step
     * draws an entry of the trend table at random and tests its description for
     * the preceding times of day before falling back to "clear" at night or to a
     * most frequent label of the history.
     */
    method PredictWeatherType(numDays: int, timeOfDay: string) returns (r: Result<seq<string>>)
      ensures IsWeatherForecast(prevWeather + currentWeather, numDays, timeOfDay, r)
    {
      var lastTimes := LastThreeTimes(timeOfDay);
      if lastTimes.Err? {
        return Err(lastTimes.error);
      }
      LastThreeTimesTestNight(timeOfDay);
      var combined := prevWeather + currentWeather;
      var predicted: seq<string> := [];

      var i := 0;
      while i < numDays
        invariant 0 <= i && (numDays >= 0 ==> i <= numDays) && (numDays < 0 ==> i == 0)
        invariant |predicted| == i
        invariant timeOfDay == "night" ==> forall k :: 0 <= k < i ==> predicted[k] == "clear"
        invariant timeOfDay != "night" ==> forall k :: 0 <= k < i ==> IsMostFrequent(combined, predicted[k])
      {
        var trendIdx :| 0 <= trendIdx < |trends|;
        var (_, description) := trends[trendIdx];
        NightInNoTrend(trendIdx);

        var next: string;
        if Occurs(lastTimes.value[0], description) && timeOfDay == "morning" {
          next := "foggy";
        } else if Occurs(lastTimes.value[1], description) && timeOfDay == "afternoon" {
          next := "sunny";
        } else if Occurs(lastTimes.value[2], description) && timeOfDay == "evening" {
          next := "cloudy";
        } else if timeOfDay == "night" {
          next := "clear";
        } else {
          if combined == [] {
            return Err(NoWeatherHistory);
          }
          MostFrequentExists(combined);
          next :| IsMostFrequent(combined, next);
        }
        predicted := predicted + [next];
        i := i + 1;
      }
      if numDays > 0 && timeOfDay == "night" {
        assert predicted == seq(numDays, _ => "clear");
      } else if numDays > 0 {
        assert predicted[0] in combined;
      }
      return Ok(predicted);
    }

    /** Predicts temperatures and weather labels for `numDays` steps, temperatures first. */
    method Predict(numDays: int, timeOfDay: string) returns (r: Result<(seq<real>, seq<string>)>)
      requires |prevTemps| > 0 && |currentTemps| > 0
      ensures IsPrediction(prevTemps, currentTemps, prevWeather + currentWeather, numDays, timeOfDay, r)
    {
      var temps := PredictTemperature(numDays, timeOfDay);
      if temps.Err? {
        return Err(temps.error);
      }
      var weather := PredictWeatherType(numDays, timeOfDay);
      if weather.Err? {
        return Err(weather.error);
      }
      return Ok((temps.value, weather.value));
    }
  }
}
