# Weather predictor, modelled in Dafny

This project models the `WeatherModel` class of the Weather Prediction Application
(`modules/weatherModel.py`). The class holds two temperature baselines (previous and
current readings) and two histories of weather labels, and predicts a horizon of
`numDays` steps for a time of day:

- **Temperatures**: the mean of the current baseline, moved `i + 1` steps along a
  linear trend, plus a fixed offset for the time of day (morning −2, afternoon +2,
  evening −1, night −3, anything else 0). The trend is the difference of the two
  baseline means divided by the length of the previous baseline. The resulting
  sequence is then exponentially smoothed with factor 0.3.
- **Weather labels**: each step draws a random entry of a fixed ten-entry trend
  table and tests its description for the names of the preceding times of day. It
  then falls back to "clear" at night, or to a most frequent label of the combined
  history.
- **Both together**: `predict` runs the temperature half first, then the weather half.

The model is in two modules:

- `substring.dfy` (module `Substring`) gives Python's `w in s` on strings. It also
  proves that a word whose first three characters never appear together does not
  occur in a text.
- `weather.dfy` (module `Weather`) holds the rest:
  - the error kinds the Python code raises, as a `Result` datatype;
  - the specification functions (`LastThreeTimes`, `SmoothedAt`/`Smoothed`,
    `Mean`, `TrendPerStep`, `Offset`, `RawAt`/`RawForecast`,
    `TemperatureForecast`, and the relations `IsWeatherForecast` and
    `IsPrediction`), with the lemmas about them;
  - the class `WeatherModel`. Its fields never change after construction, so they
    are `const`. Its methods keep the source's loops:
    - `ExponentialSmoothing` fills a new array in place;
    - `PredictTemperature` and `PredictWeatherType` build their lists one step at a
      time;
    - each method is proved against the matching specification function or relation.

What the proofs establish about the weather rule:

- Each of the three substring tests at `modules/weatherModel.py:71-76` is guarded by
  one time of day. Under its own guard, each test looks for "night": index 0 of the
  preceding times for morning, index 1 for afternoon and index 2 for evening
  (`LastThreeTimesTestNight`). The other times of day fail the guard, so what those
  substring tests find never matters.
- No description in the trend table contains that word (`NightInNoTrend`).
- So the "foggy", "sunny" and "cloudy" branches can never be taken. The random draw
  has no effect. Apart from tie-breaking, the outcome is fixed: "clear" at night,
  and otherwise a most frequent label. The method models those branches literally,
  and its postcondition `IsWeatherForecast` contains none of them.

Behaviour of the source worth noting:

- `predict_temperature` does not reject an unknown time of day; it applies no
  offset. Only the weather half, and so `predict`, raises `ValueError`
  (`PredictRejectsUnknownTime`).
- Construction does not check that the two temperature lists have equal length.
  That check lives in the user interface (`main.py:100-103`). The model needs only
  non-empty baselines and holds for unequal lengths as well.
- Ties between most frequent labels are broken in Python's set iteration order,
  which depends on string hashing. The model allows any most frequent label.
- With no steps to predict (`numDays <= 0`), the temperature half raises
  `IndexError`: smoothing reads element 0 of an empty array. That error comes
  before any time-of-day check (`PredictNothingFails`). For a valid time of day,
  the weather half alone would return an empty list.

## Model

| member | source | states |
|---|---|---|
| `Weather.LastThreeTimes` | modules/weatherModel.py:22-32 | an error exactly for strings outside morning/afternoon/evening/night; for `Times[k]` the answer is the times 1, 2 and 3 steps back in the daily cycle, nearest first |
| `Weather.LastThreeTimesAreTheOthers` | modules/weatherModel.py:22-30 | for a valid time of day the answer never contains it and lists each of the other three times exactly once |
| `Weather.LastThreeTimesTestNight` | modules/weatherModel.py:71-76 | the entry tested for morning (index 0), afternoon (index 1) and evening (index 2) is in every case "night" |
| `Weather.SmoothedWithinBounds` | modules/weatherModel.py:37-38 | with a factor in [0, 1], smoothed element t lies within any bounds that enclose data[0..t], in particular between their minimum and maximum |
| `Weather.SmoothedConstant` | modules/weatherModel.py:34-39 | smoothing returns a constant sequence unchanged, for any factor |
| `Weather.SmoothedAtPrefix` | modules/weatherModel.py:37-38 | smoothed element t depends only on data[0..t] |
| `Weather.ForecastShape` | modules/weatherModel.py:41-59 | the temperature forecast is an IndexError exactly when numDays <= 0; otherwise it has numDays values, the first is mean(current) + trend + offset, and each later one is 0.3 · raw step + 0.7 · previous value |
| `Weather.RawMonotone` | modules/weatherModel.py:47-57 | the unsmoothed predictions rise with a non-negative trend and fall with a non-positive one |
| `Weather.ForecastBetweenFirstAndRaw` | modules/weatherModel.py:47-58 | forecast step t lies between the raw prediction for the first step and the raw prediction for step t, so smoothing lags behind the trend |
| `Weather.ForecastExtends` | modules/weatherModel.py:46-58 | the forecast for n steps is the first n values of the forecast for any longer horizon |
| `Weather.ForecastWithoutTrend` | modules/weatherModel.py:42-48 | when both baselines have the same mean, every forecast value is mean(current) + offset |
| `Weather.ForecastExample` | modules/weatherModel.py:95-96 | baselines [25, 26, 27] and [28, 29, 30], one step, at night: the forecast is [27] |
| `Weather.MostFrequentExists` | modules/weatherModel.py:80 | every non-empty label list has a label whose count is maximal |
| `Substring.NotOccursWithoutLead` | modules/weatherModel.py:71-76 | a word whose first three characters never appear consecutively in a text is not a substring of it |
| `Weather.NightInNoTrend` | modules/weatherModel.py:10-19 | no description in the trend table contains "night" |
| `Weather.WeatherForecastExists` | modules/weatherModel.py:61-82 | the weather relation gives every request an outcome: an error, an empty list, n times "clear", or n most frequent labels |
| `Weather.PredictRejectsUnknownTime` | modules/weatherModel.py:84-87 | for an unknown time of day and numDays >= 1, the temperature forecast succeeds with no offset, yet `predict` yields the ValueError |
| `Weather.PredictNothingFails` | modules/weatherModel.py:84-87 | for numDays <= 0, `predict` yields the IndexError of the temperature half, whatever the time of day |
| `Weather.WeatherModel.constructor` | modules/weatherModel.py:4-20 | stores the two temperature baselines and the two label histories unchanged |
| `Weather.WeatherModel.ExponentialSmoothing` | modules/weatherModel.py:34-39 | an empty array is an IndexError; otherwise a new array whose contents are the exponential smoothing of the input |
| `Weather.WeatherModel.PredictTemperature` | modules/weatherModel.py:41-59 | the result equals `TemperatureForecast` of the baselines, horizon and time of day |
| `Weather.WeatherModel.PredictWeatherType` | modules/weatherModel.py:61-82 | whatever trend entries are drawn, the result satisfies `IsWeatherForecast`: ValueError for an unknown time of day; [] for numDays <= 0; at night numDays times "clear"; otherwise a ValueError for an empty history, or numDays labels that are each most frequent in prev + current |
| `Weather.WeatherModel.Predict` | modules/weatherModel.py:84-87 | the result satisfies `IsPrediction`: the temperature error if any, else the weather error, else both forecasts paired |

## Left out

- `display_predictions` and the example run under `__main__` (`modules/weatherModel.py:89-105`) are console input and output.
- Everything in `main.py`: this covers the widgets, styling, progress animation
  and `time.sleep` delays. It also covers the parsing of comma-separated integers.
  The model takes temperatures as real numbers.
- Floating-point arithmetic: temperatures, means, the trend and the smoothing factor are exact reals, so IEEE-754 rounding is not covered.
- `Weather.WeatherModel.PredictTemperature`: requires both temperature baselines
  to be non-empty. For an empty baseline numpy returns NaN rather than raising, and
  the model has no NaN. The user interface cannot pass an empty list, because
  `int('')` fails first.
- `Weather.WeatherModel.Predict`: requires non-empty temperature baselines, for the same reason.
- `Weather.WeatherModel.PredictWeatherType`: does not state that every step of
  one call picks the same label among tied most frequent labels. The source breaks
  ties by set iteration order, which the model does not fix, so it allows any most
  frequent label at each step.
- The random draw `np.random.choice` (`modules/weatherModel.py:68`) is modelled as an unconstrained choice of a table index; the drawn weight is unused, as in the source.
- `Weather.WeatherModel.ExponentialSmoothing`: does not model the zero-filled
  array from `np.zeros_like`, because every element is overwritten before it is
  read. It also does not model the truncation that `zeros_like` would apply to
  an integer array. The source only passes a float array.
- The temperature forecast is returned as a sequence, not a numpy array.
