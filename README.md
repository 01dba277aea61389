# Expense tracker: CSV escaping and next-day forecast, modelled in Dafny

The app records expenses and exports them to CSV. It also predicts the next
day's spending with a pre-trained sequence model. Two pieces of its main
screen (`MainActivity`) carry logic worth stating. This project models both
and proves their properties.

* **CSV field escaping** (`escapeCsvField`). Some fields contain a comma, a
  double quote or a line feed. Such a field is put in double quotes, and each
  double quote inside it is doubled. This follows rules 6 and 7 of section 2
  of RFC 4180. Any other field is returned unchanged, and a null field
  becomes the empty string. A carriage return on its own does not cause
  quoting. The model keeps exactly this trigger set (`Csv.NeedsQuoting`). `Csv.DecodeField` is a reader for the written field:
  it removes the outer quotes and collapses `""`. The escaper is proved
  against this reader.
* **The forecast pipeline** (`predictExpense`). Its input is the list of
  fetched records.
  * With fewer than 15 records, the result is the mean amount, or 0 when
    there are no records.
  * Otherwise the amounts are summed per day key in a map (`HashMap.merge`),
    and the distinct keys are sorted in ascending order.
  * With fewer than 30 distinct days, the result is "insufficient history".
  * Otherwise the last 30 days are normalised as `(sum - min) / scale` into a
    30-slot array. The model runs once on that array. Its output becomes
    `out * scale + min`, with no clamping.
  * An exception from loading or running the model gives "prediction failed"
    with the exception's message.

Modules:

* `Wrappers` holds `Option`, which stands for a nullable reference, and
  `Result`, which stands for a call that may throw.
* `Expenses` holds the stored record.
* `Csv` holds the escaper.
* `KeyOrder` holds `String.compareTo` on day keys and the key sort.
* `Aggregation` holds the mean and the per-day totals.
* `Prediction` holds the pipeline.

The imperative steps of the source are methods with loops.

* `Aggregation.Mean` is the `total += e.amount` loop.
* `Aggregation.AggregateDaily` is the `merge` loop over a `map<string, real>`.
* `KeyOrder.SortKeys` is the sort.
* `Prediction.ForecastNextDay` fills an `array<real>` slot by slot, using the
  index `sorted.size() - 30 + i`.

Each of these methods is proved against a reference definition. `TotalAmount`
and `MeanAmount` define the sum and the mean. `DayKeys`, `DaySum` and
`DailyMap` define the per-day totals. `Ascending` is the unique ascending
arrangement of the keys. `NormalisedTotals` is the window, taken directly over
the records. `Prediction.PredictOutcome` states the whole pipeline as one
value, and `Prediction.PredictExpense` is proved to compute it.

Some collaborators are outside the model and become parameters:

* The forecasting model is a function `seq<real> -> Result<real, string>`.
  Its error case stands for the load and inference exceptions.
* Day-key formatting is a function `dayKey: int -> string`.
* The two scaler constants are the parameters `min` and `scale`.

## Model

| member | source | states |
|---|---|---|
| `Csv.EscapeCsvField` | app/src/main/java/com/example/bish/MainActivity.java:485-492 | a null field is written as the empty string, and a field is written unchanged exactly when it holds no comma, double quote or line feed |
| `Csv.DoubleQuotes` | app/src/main/java/com/example/bish/MainActivity.java:489 | the replacement of `"` by `""` adds exactly one character per double quote, and the result holds a double quote exactly when the input does |
| `Csv.EscapeNull` | app/src/main/java/com/example/bish/MainActivity.java:486 | a null field is written as the empty string |
| `Csv.EscapePlain` | app/src/main/java/com/example/bish/MainActivity.java:488-491 | a field with no comma, double quote or line feed is returned unchanged |
| `Csv.EscapeQuoted` | app/src/main/java/com/example/bish/MainActivity.java:488-489 | a field with a comma, double quote or line feed is written with a leading and a trailing quote; its length is the field length plus 2 plus the number of quotes; its body has every quote paired; collapsing the body gives back the field |
| `Csv.EscapeWellFormed` | app/src/main/java/com/example/bish/MainActivity.java:485-492 | every output is either free of comma, double quote and line feed, or a quoted field whose body has only doubled quotes |
| `Csv.EscapeRoundTrip` | app/src/main/java/com/example/bish/MainActivity.java:485-492 | reading the output back with `DecodeField` gives the original field for every non-null field, and the empty string for null |
| `Csv.DoubledIsPaired` | app/src/main/java/com/example/bish/MainActivity.java:489 | after doubling, every double quote is part of a `""` pair |
| `Csv.CollapseDoubled` | app/src/main/java/com/example/bish/MainActivity.java:489 | collapsing `""` undoes the doubling |
| `Csv.DoubleCollapsed` | app/src/main/java/com/example/bish/MainActivity.java:489 | on a body with only paired quotes, doubling undoes the collapsing, so the two are inverse bijections |
| `KeyOrder.Less` | app/src/main/java/com/example/bish/MainActivity.java:93 | the `String.compareTo` order used by the sort; a proper prefix is smaller than the longer key |
| `KeyOrder.LessTransitive` | app/src/main/java/com/example/bish/MainActivity.java:93 | the `String.compareTo` order used by the sort is transitive |
| `KeyOrder.LessTotal` | app/src/main/java/com/example/bish/MainActivity.java:93 | of two different keys, one is smaller under `String.compareTo` |
| `KeyOrder.Ascending` | app/src/main/java/com/example/bish/MainActivity.java:92-93 | the key list after sorting is strictly ascending, holds exactly the map's keys, and has one entry per key |
| `KeyOrder.SortedUnique` | app/src/main/java/com/example/bish/MainActivity.java:93 | two strictly ascending lists with the same elements are equal, so the sorted list does not depend on the `keySet` iteration order or on the sorting algorithm |
| `KeyOrder.SortKeys` | app/src/main/java/com/example/bish/MainActivity.java:92-93 | copying the key set into a list and sorting it yields the strictly ascending list of exactly those keys, which is `Ascending` of the keys |
| `Aggregation.Mean` | app/src/main/java/com/example/bish/MainActivity.java:75-77 | the summing loop and the division give the mean amount: 0 for no records, and otherwise a value whose product with the record count is the total |
| `Aggregation.AggregateDaily` | app/src/main/java/com/example/bish/MainActivity.java:86-91 | the map filled by `merge` has exactly the records' day keys as its keys, and each key holds the sum of the amounts of its records |
| `Aggregation.SumOfPermutation` | app/src/main/java/com/example/bish/MainActivity.java:76 | a sum over the records does not depend on their order |
| `Aggregation.DailyMapPermutation` | app/src/main/java/com/example/bish/MainActivity.java:86-91 | the day map and its key set are the same for every reordering of the records; the store returns them date-descending (ExpenseDao.java, `getAllExpenses`) |
| `Aggregation.MeanPermutation` | app/src/main/java/com/example/bish/MainActivity.java:75-77 | the fallback mean is the same for every reordering of the records |
| `Prediction.NormaliseRoundTrip` | app/src/main/java/com/example/bish/MainActivity.java:105-119 | de-normalising `out * scale + min` inverts normalising `(x - min) / scale`, in both directions, for every nonzero `scale` |
| `Prediction.ForecastNextDay` | app/src/main/java/com/example/bish/MainActivity.java:100-121 | the 30-slot array is filled with, in slot `i`, the normalised total of day `sorted[size - 30 + i]`; the model runs once on it; the result is that model outcome on the reference window of the last 30 sorted days |
| `Prediction.PredictExpense` | app/src/main/java/com/example/bish/MainActivity.java:71-128 | the pipeline's outcome is the one `PredictOutcome` defines for every record list, day-key function, scaler and model; a zero `scale` is admitted with fewer than 15 records or fewer than 30 days |
| `Prediction.FewRecordsFallback` | app/src/main/java/com/example/bish/MainActivity.java:74-81 | with fewer than 15 records the outcome is the mean amount: 0 for no records, and otherwise a value whose product with the count is the total |
| `Prediction.InsufficientExactly` | app/src/main/java/com/example/bish/MainActivity.java:92-96 | the outcome is "insufficient history" exactly when there are at least 15 records but fewer than 30 distinct day keys |
| `Prediction.ModelNotConsulted` | app/src/main/java/com/example/bish/MainActivity.java:74-96 | in both short-cut cases the outcome is the fallback or "insufficient history", and it is the same for any two models |
| `Prediction.ScalerNotConsulted` | app/src/main/java/com/example/bish/MainActivity.java:74-96 | in both short-cut cases the outcome does not depend on `min` or `scale`; a zero `scale` gives the mean or "insufficient history" |
| `Prediction.LastDaysAreLatest` | app/src/main/java/com/example/bish/MainActivity.java:103-104 | the window covers 30 distinct days that occur in the records, in ascending order; every other day that occurs is older than all of them |
| `Prediction.ForecastCase` | app/src/main/java/com/example/bish/MainActivity.java:113-125 | with at least 15 records and 30 days, a model output `out` gives the prediction `out * scale + min`, unclamped and possibly negative; a model exception gives "prediction failed" with its message |
| `Prediction.ScriptedModel` | app/src/main/java/com/example/bish/MainActivity.java:119 | a model that always answers `o` yields exactly `o * scale + min`; with `min` 0, `scale` 100 and `o` 0.5 that is 50 |
| `Prediction.OrderIndependent` | app/src/main/java/com/example/bish/MainActivity.java:73-106 | the record count, the day keys and the whole outcome are the same for every reordering of the fetched records |

## Left out

- Floating point is not modelled. Amounts, the scaler constants, the window and the model output are reals. The `(float)` cast at line 105 and the float arithmetic of the de-normalisation at line 119 are not modelled either. With doubles, the per-day sums and the mean can round differently when the records come in another order. The order-independence lemmas hold for exact arithmetic only.
- `String.format("%.2f")` and the UI message texts are not modelled (lines 79, 95, 120, 125). The outcome is the `Prediction.Outcome` datatype, not a formatted string.
- TensorFlow Lite is a parameter of the model. This covers model loading, the native-order `ByteBuffer` packing and `Interpreter.run` (lines 109-116, 140-147). The forecaster gets the 30 values as a sequence.
- `readFloatFromAsset` (lines 131-138) is asset I/O, and `min` and `scale` are parameters instead. When an asset cannot be read, that method returns `0f`. The pipeline then carries on and does not report a failure (lines 134-137). A failed scale read gives 0. The model covers a zero scale in the two short-cut branches, where the constants are not used (`Prediction.ScalerNotConsulted`); on the forecasting branch it is excluded, see the next line.
- Prediction.PredictExpense: requires `scale != 0` when there are at least 15 records on at least 30 distinct days (`Prediction.ScaleUsable`). There the source divides by `scale` (line 105). In Java, dividing by a zero `scale` gives an infinity or NaN and not an exception, and reals cannot express that. The same condition is on `Prediction.PredictOutcome`, `Prediction.InsufficientExactly` and `Prediction.OrderIndependent`; `Prediction.ForecastNextDay`, `Prediction.NormaliseRoundTrip`, `Prediction.ForecastCase` and `Prediction.ScriptedModel` are only about the forecasting branch and require `scale != 0` outright.
- `SimpleDateFormat("yyyy-MM-dd")` in the default time zone and locale (lines 87-89) is the parameter `dayKey: int -> string`.
- KeyOrder.Less: compares characters by Unicode scalar value. Java's `compareTo` compares UTF-16 code units. The two orders differ only for characters outside the Basic Multilingual Plane. Such characters do not appear in a formatted date.
- KeyOrder.SortKeys: takes the least remaining key at each step. It is not in-place TimSort. `KeyOrder.SortedUnique` shows that the resulting list is the same.
- CSV export is not modelled: file writing, the URI stream, directory creation, row formatting and the header (lines 438-483, 506-540). Only `escapeCsvField` is modelled.
- Dialogs, spinners, pickers, list adapters and toasts are not modelled (lines 157-436).
- Concurrency is not modelled: the single-thread executor, the ad-hoc threads and `runOnUiThread` (lines 47, 72, 121). The pipeline is modelled as one sequential call.
- The Room database is not modelled: the singleton in `AppDatabase.java` and the generated DAO. The only DAO fact used is that records arrive in some order, which `Prediction.OrderIndependent` covers. Insert and delete are storage operations, so "a deleted record is excluded" is a property of the store, not of this pipeline.
- `Expense.java` becomes the datatype `Expenses.Expense`, with nullable strings as `Option`. It has no properties of its own.
