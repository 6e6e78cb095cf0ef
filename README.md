# VariableArray: a verified model of the sensor-array orchestration

This project models `VariableArray` from the EnviroDIY ModularSensors library
(`src/VariableArray.h`). A variable array holds a fixed count and a list of
variable handles. Each variable points to its parent sensor. The array

- decides which variable is *canonical* for its physical sensor. A sensor is
  identified by its (name, location) pair. The canonical variable is the last
  one in the list with that pair;
- counts sensors;
- sets up every variable's parent sensor under a retry budget, then sets up
  every variable;
- puts sensors to sleep, wakes them and updates them, once per canonical
  variable;
- renders every variable's value text as one `", "`-separated row.

The model is imperative, like the source. `Arrays.VariableArray` is a class
with the source's two fields. `variableCount` is a `uint8` newtype, because
the field is a `uint8_t`. `variableList` is a sequence of handles. Each loop
of the source is a `while`/`for` loop proved against a specification
function:

- `Dedup.IsCanonical` and `Dedup.CanonicalBelow` specify canonicity;
- `SetupSpec.RetryLoop`, `SetupSpec.SensorPass` and `SetupSpec.SetupRun`
  specify `setupSensors`;
- `Csv.Join` specifies the row.

The lemmas beside those functions state what the source promises.

Sensors and variables are abstract values. A `Sensor` has a name and a
location. A `Variable` has a parent sensor and a value string. The sensor's
and the variable's own `setup()`, and the sensor's `sleep()`, `wake()` and
`update()`, are external calls. Each operation takes an oracle
`nat -> bool`: the k-th external call the operation makes, counting from 0,
returns `oracle(k)`. Each operation returns the source's boolean result and
the trace of calls it made, in order. A trace entry `Call(op, i)` means that
`op` went through the variable at position `i`: to its parent sensor, or to
the variable itself for `VariableSetup`. So every contract can say which
calls happen, in what order, and what is returned.

Behaviour kept as written in the source:

- The retry counter `setupTries` is shared by the whole first pass and is
  never reset. At most five sensor setups fail in total. After the fifth
  failure, no later variable calls `setup()` on its parent. Each later
  variable is still recorded as failed, because `sensorSuccess` keeps its
  last value, which is false (`SetupSpec.SharedRetryBudget`,
  `SetupSpec.ExhaustedBudgetSkipsRest`).
- Sensor setup is not deduplicated. Every variable calls its parent's
  `setup()` (`SetupSpec.NoDeduplication`).
- `getSensorCount` starts counting at 1, so it returns one more than the
  number of distinct sensors.
- `updateAllSensors` returns only the result of the last canonical
  variable's update (`Scenarios.UpdateFailureMasked`).

Two comments in the source need reading against the code. The model
follows the code in both:

- The comment at src/VariableArray.h:60 speaks of five attempts to reach
  the sensor, which reads as a budget per sensor. The counter `setupTries`, however,
  is declared once at src/VariableArray.h:53, before the loop over the
  variables, and is never reset. The five tries are therefore shared by the
  whole array. Once they are spent, no further sensor setup is attempted
  (`Scenarios.BudgetSpentByFirstSensor`).
- The comment at src/VariableArray.h:63-68 says that setup runs for every
  variable, repeats included, so a sensor shared by several variables is set
  up several times. Three variables on two sensors give three sensor-setup
  calls (`Scenarios.SharedSensorSetup`). Sleep, wake and update, by
  contrast, reach each physical sensor only once
  (`Scenarios.SharedSensorSleep`).

## Model

| member | source | states |
|---|---|---|
| `Arrays.VariableArray.constructor` | src/VariableArray.h:20-22 | a new array holds no variables until `init` is called |
| `Arrays.VariableArray.Init` | src/VariableArray.h:22-29 | stores the list, and stores the count truncated to eight bits (count mod 256), as the `uint8_t` field does |
| `Arrays.VariableArray.GetVariableCount` | src/VariableArray.h:33 | the stored count always lies in 0..255 |
| `Scenarios.CountTruncated` | src/VariableArray.h:27 | a count of 257 is stored and read back as 1 |
| `Arrays.VariableArray.IsLastVarFromSensor` | src/VariableArray.h:185-218 | returns true iff no later variable within the count has a parent with equal name and equal location; the scan stops at the first match |
| `Dedup.CanonicalBelow` | src/VariableArray.h:40-43 | the canonical indices below k, strictly increasing, each below k; an index is in it iff it is below k and canonical |
| `Dedup.LastIsCanonical` | src/VariableArray.h:191 | in a non-empty array the last index is canonical and is the last canonical index |
| `Dedup.CanonicalCountBelow` | src/VariableArray.h:40-43 | the canonical indices below k are as many as the sensors seen below k that do not occur again from k on |
| `Dedup.CanonicalCountIsDistinctSensors` | src/VariableArray.h:36-45 | there are exactly as many canonical indices as distinct (name, location) pairs |
| `Dedup.LastOccurrenceIsCanonical` | src/VariableArray.h:185-199 | every variable's sensor is also the sensor of some canonical index at or after it |
| `Dedup.OneCanonicalPerSensor` | src/VariableArray.h:185-199 | each distinct (name, location) pair has exactly one canonical index |
| `Dedup.OncePerPhysicalSensor` | src/VariableArray.h:99-103 | calls made once per canonical index are as many as the distinct sensors; each sensor is reached by exactly one call |
| `Arrays.VariableArray.GetSensorCount` | src/VariableArray.h:36-45 | returns 1 + the number of canonical indices, which is 1 + the number of distinct (name, location) pairs; an empty array gives 1 |
| `SetupSpec.RetryLoop` | src/VariableArray.h:61-73 | one variable's retry loop, resumable from any of its iterations: no call once the shared counter has reached 5; otherwise it ends on success exactly when the counter stays below 5; the calls it makes are the failures spent plus one for a success |
| `SetupSpec.RetryStopsAtFirstSuccess` | src/VariableArray.h:69-72 | every call of one retry loop except the last failed, and the last succeeded iff the loop ends with sensorSuccess set |
| `SetupSpec.SensorPass` | src/VariableArray.h:51-81 | after any number of variables the shared counter is at most 5, and when it is 5 sensorSuccess is false |
| `SetupSpec.SharedRetryBudget` | src/VariableArray.h:53-73 | the counter equals the number of failed sensor setups of the whole first pass, and so at most 5 of them fail |
| `SetupSpec.CallsOfOneVariable` | src/VariableArray.h:58-81 | variable i's setup calls all go to its parent and come after those of earlier variables; there are no more than the budget left; all but the last fail; while budget remains there is at least one, and the last succeeds iff i is recorded as set up |
| `SetupSpec.ExhaustedBudgetSkipsRest` | src/VariableArray.h:52-80 | once the counter reaches 5, no later variable makes a setup call and every later variable is recorded as failed |
| `SetupSpec.SensorPassSuccess` | src/VariableArray.h:74-80 | after the first loop, `success` is true iff every recorded sensorSuccess is true |
| `SetupSpec.SetupResult` | src/VariableArray.h:83-90 | the first pass's calls are followed by exactly one setup per variable, in order; the result is true iff every recorded sensorSuccess and every variable setup is true |
| `SetupSpec.NoDeduplication` | src/VariableArray.h:58-69 | when no setup fails, the first pass calls the parent of every variable exactly once, in index order, shared sensors included, and spends no tries |
| `Arrays.VariableArray.SetupOneSensor` | src/VariableArray.h:61-73 | the inner retry loop yields the counter, sensorSuccess and calls that `RetryLoop` gives |
| `Arrays.VariableArray.SetupSensors` | src/VariableArray.h:49-92 | returns the result and makes the calls of `SetupRun`, so the setup lemmas above describe it |
| `Arrays.VariableArray.CallEachSensor` | src/VariableArray.h:95-118 | calls the operation once per canonical index, in increasing order; the result is the AND of every result, with no call skipped after a failure |
| `Arrays.VariableArray.SensorsSleep` | src/VariableArray.h:95-105 | calls sleep once per canonical index, in order, that is once per distinct sensor; returns the AND of all results (true when there are none) |
| `Arrays.VariableArray.SensorsWake` | src/VariableArray.h:108-118 | calls wake once per canonical index, in order, that is once per distinct sensor; returns the AND of all results (true when there are none) |
| `Arrays.VariableArray.UpdateAllSensors` | src/VariableArray.h:121-144 | calls update once per canonical index, in order; returns true for an empty array, and otherwise the result of the last call, which goes through the last variable |
| `Arrays.VariableArray.GenerateSensorDataCSV` | src/VariableArray.h:167-181 | returns the value texts of all variables, in array order and duplicates included, joined by `", "` |
| `Csv.JoinSnoc` | src/VariableArray.h:173-177 | appending a field to a non-empty row appends one separator and the field |
| `Csv.SplitJoin` | src/VariableArray.h:167-181 | cutting the row at every `", "` gives back the values in order when no value holds a comma: one column per variable, with no leading or trailing separator |
| `Scenarios.RowIsRepeatable` | src/VariableArray.h:167-181 | two calls in a row give identical rows |
| `Scenarios.SharedSensorSetup` | src/VariableArray.h:58-86 | three variables on two sensors, with every call succeeding: three sensor setups, then three variable setups, and the result is true |
| `Scenarios.SharedSensorCanonical` | src/VariableArray.h:185-199 | in that array only the second and third variables are canonical |
| `Scenarios.SharedSensorSleep` | src/VariableArray.h:36-45 | in that array the sensor count is 3, and sleep reaches the shared sensor once, through its last variable |
| `Scenarios.SharedSensorRow` | src/VariableArray.h:167-181 | in that array the row is `v1, v2, v3` |
| `Scenarios.RetryFifthTry` | src/VariableArray.h:61-73 | four failures followed by a success leave 4 tries spent and the sensor set up, after five calls |
| `Scenarios.RetryExhausted` | src/VariableArray.h:61-73 | five failures spend the whole budget and leave the sensor failed |
| `Scenarios.FifthTryRun` | src/VariableArray.h:49-92 | setup of one variable whose sensor succeeds on the fifth try succeeds |
| `Scenarios.FifthTrySucceeds` | src/VariableArray.h:49-92 | the same run through the class |
| `Scenarios.BudgetSpentRun` | src/VariableArray.h:49-92 | when the first of two sensors fails five times, the second variable makes no sensor setup call, both variables are still set up, and the result is false |
| `Scenarios.BudgetSpentByFirstSensor` | src/VariableArray.h:49-92 | the same run through the class |
| `Scenarios.UpdateFailureMasked` | src/VariableArray.h:121-144 | two distinct sensors whose first update fails and second succeeds: the result is true |

## Left out

- `src/LoggerBase.h` is not part of this model. It holds only declarations: the clock and interval scheduler, processor sleep and wake, the SD-card logging and the logging cycle. Their bodies are in a file that is not available. They also depend on a real-time clock, interrupts, volatile flags, file I/O and floating-point interval minutes.
- `printSensorData` (src/VariableArray.h:147-164) only writes to a stream.
- All `Serial` debug output, including the `getDreamHost()` call in the setup failure message, is left out.
- The internals of `Sensor` and `Variable` (`SensorBase.h`, `VariableBase.h`) are not part of this model. Their `setup`, `sleep`, `wake` and `update` results come from the oracle. `update()` would refresh the variables' values; the model does not change value strings, so a row always shows the values the handles were given. Sensor status is not modelled.
- Handles are values, not pointers. Two variables whose parents have equal name and location cannot be told apart by parent object. The trace therefore names the variable through which a sensor is reached, and so tells which parent object each call goes to.
- The list is the caller's array of pointers. The model requires (`Valid`) that it holds at least the stored number of entries. The source indexes past its end otherwise, which has no defined meaning to model.
- The row is built with Arduino `String +=` (src/VariableArray.h:173, 176), which can fail silently and leave the string short when the heap is exhausted. The model's `string` is unbounded, so it does not capture a truncated row.
