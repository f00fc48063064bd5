# IoT queue management: a Dafny model of the routing core

This project models the parts of the IoT queue management system that decide
things: which line a newcomer joins, what a line holds after an arrival or a
departure, and how service rates, wait estimates and recommendations follow
from the line contents. It is written in Dafny and proves properties about
that model.

## Modules

- `LineRouter` (`queue_manager.dfy`): the per-person router of
  `shared/cpp/QueueManager.cpp`.
  - A class over `seq<seq<Person>>`: each line is first-in first-out, with an optional per-line capacity.
  - The three selection strategies, plus the `default` branch.
  - Stamping the head of a line as exited when it arrives there.
  - The running statistics, the per-line throughput trackers, wait estimates, the placeholder people of `setLineCount`, and the one-hour history with its upload outcome.
- `SessionThroughput`, `ClampedThroughput`, `WindowThroughput`: the three
  `ThroughputTracker` variants, as classes over an injected steady clock in
  milliseconds.
  - Session rate, unbounded.
  - Session rate clamped to [0.1, 5.0].
  - Sliding window with exponential smoothing.
- `SessionPerson`, `EpochPerson`: the two `Person` variants.
  - Each is a value datatype with a write-once exit stamp.
  - The first counts seconds since a process-wide start, held by the class `SimulationClock`.
  - The second counts epoch milliseconds.
- `Esp32QueueManager`: the ESP32 count-only manager.
  - A map from line number to count, plus the ordered set of `(count, lineNumber)` entries whose front is the next line.
- `QueueStructures`: the fixed-size C records.
  - A 16-slot sensor table in an `array`, with upsert and shift-down removal.
  - The queue record: its line `array`, its total, and the recommended-line flag.
- `FirebaseStructureBuilder`, `FirebasePeopleStructureBuilder`: the
  recommended-line scan, the aggregate record, the people summary and the
  store paths.
- `CloudFunctions`: `computeRecommended` and the two transaction bodies of
  `functions/src/index.ts`.
  - A JavaScript object is modelled as the sequence of its properties in enumeration order.
- `UnifiedSimulator`, `FarthestSimulator`: the per-strategy dispatch of the
  unified simulator and the farthest-from-entrance rule.
- `NumericText`, `Sequences`, `Wrappers`: decimal text of integers,
  JavaScript `parseInt`, C++ truncating division, subsequences, and `Option`.

Constants declared in headers that are not part of this model are abstract constants:
- `MAX_LINES` and `DEFAULT_THROUGHPUT` of the router;
- `MIN_SERVICES_FOR_RELIABLE_DATA` and `MIN_SERVICES_FOR_CALCULATION`;
- `MAX_WINDOW_SIZE` and `WINDOW_TIME_SECONDS`;
- the default rate of the two later tracker snapshots.

Each abstract constant is taken to lie in the range its use needs:
- the router's `DEFAULT_THROUGHPUT` is positive, because the wait estimates divide by it;
- `MAX_WINDOW_SIZE` is positive;
- `WINDOW_TIME_SECONDS` is non-negative;
- the router's `MAX_LINES` and the window tracker's `MIN_SERVICES_FOR_CALCULATION` are non-negative.

Clocks are parameters:
- `wallMs` is the wall clock in milliseconds;
- `steadyMs` is the steady clock of the trackers;
- `nowSeconds` is `time(nullptr)`.

The model follows the code in these respects:
- wait estimates are people over throughput;
- there are three strategies, plus the `default` branch;
- the history is pruned before each append.

These headers describe another snapshot, and the model follows the `.cpp` bodies instead:
- `shared/cpp/QueueManager.h`;
- the three-field `AggregatedData`;
- the field names of `PeopleSummary`.

`enqueueAuto` of the router is called by the unified simulator but is not
defined in `shared/cpp/QueueManager.cpp`; it is modelled as `enqueue` with the
adaptive rule the simulator itself uses (fewest people below 30 completions,
shortest wait from then on).

## Model

| member | source | states |
|---|---|---|
| SessionPerson.NewPerson | shared/cpp/Person.cpp:8-15 | a new person keeps the given expected wait and line, enters at the clock reading, has exit stamp 0 and number 0, has not exited and has waited 0 |
| SessionPerson.Person.RecordExit | shared/cpp/Person.cpp:27-33 | the exit stamp is written only when it is 0; every other field stays |
| SessionPerson.RecordExitOnce | shared/cpp/Person.cpp:27-33 | after a non-zero stamp the person has exited and any later stamping is a no-op |
| SessionPerson.ExitSentinelCollision | shared/cpp/Person.cpp:54-60 | a stamp taken at reading 0 leaves the person "not exited" with wait 0, and a later call stamps again |
| SessionPerson.ActualWaitTimeSpan | shared/cpp/Person.cpp:17-25 | for an exited person, entering time plus actual wait is exactly the exit time |
| SessionPerson.Person.SetPersonId | shared/cpp/Person.cpp:49-52 | only the person number changes, to the given one |
| SessionPerson.GetIdInjective | shared/cpp/Person.cpp:35-40 | two people have the same "person_N" identifier exactly when they have the same number |
| SessionPerson.ClockReading | shared/cpp/Person.cpp:54-68 | 0 while the start is unset; otherwise the elapsed milliseconds divided by 1000, truncated toward zero (bounds for both signs) |
| SessionPerson.ClockReadingSettles | shared/cpp/Person.cpp:54-68 | a reading that sets the start gives the same value as every later reading of the same instant, and setting is idempotent |
| SessionPerson.SimulationClock.constructor | shared/cpp/Person.cpp:5-6 | the process starts with the start time unset (0) |
| SessionPerson.SimulationClock.SetSimulationStartTime | shared/cpp/Person.cpp:42-47 | the start becomes the wall clock |
| SessionPerson.SimulationClock.GetCurrentTimestamp | shared/cpp/Person.cpp:54-68 | returns the clock reading and sets an unset start to the wall clock |
| SessionPerson.SimulationClock.CreatePerson | shared/cpp/Person.cpp:8-15 | the constructor reads the clock once and yields the new person at that reading |
| SessionPerson.SimulationClock.StampExit | shared/cpp/Person.cpp:27-33 | an already stamped person is returned unchanged without reading the clock; otherwise it is stamped with the reading |
| EpochPerson.NewPerson | shared/cpp/queueManagment/Person.cpp:5-11 | a new person enters at the epoch clock and has not exited, with wait 0 |
| EpochPerson.Person.RecordExit | shared/cpp/queueManagment/Person.cpp:23-29 | the exit stamp is written only when it is 0; every other field stays |
| EpochPerson.RecordExitOnce | shared/cpp/queueManagment/Person.cpp:23-29 | after a non-zero stamp, later stamping changes nothing |
| EpochPerson.ActualWaitTimeMillis | shared/cpp/queueManagment/Person.cpp:13-21 | the wait in seconds times 1000 is the stamped span in milliseconds |
| EpochPerson.GetIdCollision | shared/cpp/queueManagment/Person.cpp:31-36 | two identifiers coincide exactly when the people entered in the same millisecond |
| SessionThroughput.SessionRate | shared/cpp/ThroughputTracker.cpp:26-29 | the rate is positive and rate times elapsed milliseconds is 1000 times the count |
| SessionThroughput.ThroughputTracker.constructor | shared/cpp/ThroughputTracker.cpp:4-11 | count 0, the default rate 0.1, no service recorded, both times at the start; the rate is positive |
| SessionThroughput.ThroughputTracker.RecordServiceCompletion | shared/cpp/ThroughputTracker.cpp:13-30 | the count grows by exactly one and the service flag is set; the rate becomes the session rate only when time has elapsed, else it stays; it stays positive; reliable data once reliable stays reliable |
| SessionThroughput.ThroughputTracker.Reset | shared/cpp/ThroughputTracker.cpp:51-58 | count 0, the default rate, no service recorded, both times at the new start |
| ClampedThroughput.Clamp | shared/queueManagment/ThroughputTracker.cpp:33-34 | the result lies in [0.1, 5.0]; it is the input inside the bounds and the nearer bound outside |
| ClampedThroughput.ClampIdempotentMonotone | shared/queueManagment/ThroughputTracker.cpp:33-34 | clamping twice is clamping once, and clamping keeps the order of rates |
| ClampedThroughput.ThroughputTracker.constructor | shared/queueManagment/ThroughputTracker.cpp:4-11 | count 0, the default rate, no service recorded |
| ClampedThroughput.ThroughputTracker.RecordServiceCompletion | shared/queueManagment/ThroughputTracker.cpp:13-37 | the count grows by one; the rate is recomputed and clamped only with enough completions and elapsed time, else it stays; a changed rate lies in [0.1, 5.0] |
| ClampedThroughput.ThroughputTracker.Reset | shared/queueManagment/ThroughputTracker.cpp:58-65 | count 0, the default rate, no service recorded |
| WindowThroughput.WindowMillis | shared/cpp/queueManagment/ThroughputTracker.cpp:31 | the window age in milliseconds is the whole seconds of the window, never more than the window |
| WindowThroughput.KeepRecent | shared/cpp/queueManagment/ThroughputTracker.cpp:31-38 | the kept entries are no more than the input and none is older than the cutoff |
| WindowThroughput.KeepRecentSpec | shared/cpp/queueManagment/ThroughputTracker.cpp:31-38 | the kept entries are a subsequence (order kept) containing every entry at or after the cutoff; nothing is dropped when nothing is old |
| WindowThroughput.KeepRecentCounts | shared/cpp/queueManagment/ThroughputTracker.cpp:31-38 | each stamp at or after the cutoff is kept as many times as the window holds it, and no older stamp is kept, so the window size counts every equal stamp |
| WindowThroughput.Capped | shared/cpp/queueManagment/ThroughputTracker.cpp:26-28 | a window over the limit loses exactly its oldest entry, otherwise it stays |
| WindowThroughput.KeepNewest | shared/cpp/queueManagment/ThroughputTracker.cpp:23-38 | the newest completion survives the age filter and stays last |
| WindowThroughput.WindowRate | shared/cpp/queueManagment/ThroughputTracker.cpp:50-52 | n times span n - 1 intervals: rate times span is 1000 times (n - 1) |
| WindowThroughput.Smoothed | shared/cpp/queueManagment/ThroughputTracker.cpp:54-57 | the smoothed rate lies between the old rate and the window rate |
| WindowThroughput.SmoothedGap | shared/cpp/queueManagment/ThroughputTracker.cpp:54-57 | each smoothing closes 30% of the gap to the window rate |
| WindowThroughput.ThroughputTracker.constructor | shared/cpp/queueManagment/ThroughputTracker.cpp:4-12 | count 0, default rate, empty window |
| WindowThroughput.ThroughputTracker.RecordServiceCompletion | shared/cpp/queueManagment/ThroughputTracker.cpp:14-71 | the count grows by one; the new window is the old one plus now, capped and age-filtered, still bounded; it ends with now and holds nothing older than the window; the rate is smoothed toward the window rate with enough recent entries and a positive span, falls back to the session rate with enough completions, else stays |
| WindowThroughput.ThroughputTracker.Reset | shared/cpp/queueManagment/ThroughputTracker.cpp:92-100 | count 0, default rate, empty window |
| QueueStructures.CopyBounded | shared/cpp/QueueStructures.cpp:60-72 | at most size - 1 characters survive; a short text is kept whole, a long one is cut to its prefix |
| QueueStructures.FirstNamed | shared/cpp/QueueStructures.cpp:12-18 | the position of the first slot with the name, no earlier slot having it; the count when none has |
| QueueStructures.LongSensorNameNeverMatches | shared/cpp/QueueStructures.cpp:12-21 | a name longer than 31 characters is stored cut short, so it never matches its own slot again |
| QueueStructures.QueueSensorData.constructor | shared/cpp/QueueStructures.h:43 | 16 slots and count 0 |
| QueueStructures.QueueSensorData.AddSensor | shared/cpp/QueueStructures.cpp:6-26 | fails exactly when full or the name is null (even if present), changing nothing; a present name has value and timestamp overwritten in place; a new name fills the next slot and the count grows by one; no other slot changes |
| QueueStructures.QueueSensorData.GetSensorValue | shared/cpp/QueueStructures.cpp:28-37 | the value of the first slot with the name, 0 when none has it or the name is null |
| QueueStructures.ShiftedOut | shared/cpp/QueueStructures.cpp:44-48 | after deleting slot k of the first n, the first n - 1 slots are the old ones without slot k in order, and the rest is unchanged |
| QueueStructures.QueueSensorData.RemoveSensor | shared/cpp/QueueStructures.cpp:39-53 | succeeds exactly when a slot has the name; deletes the first such slot, shifting the later ones down, order kept, and the count drops by one; a null or absent name changes nothing |
| QueueStructures.QueueSensorData.ShiftDown | shared/cpp/QueueStructures.cpp:45-47 | the shift loop leaves exactly the `ShiftedOut` slots |
| QueueStructures.QueueSensorData.Clear | shared/cpp/QueueStructures.cpp:55-57 | the count is 0 and the table is the same |
| QueueStructures.SumCountsOnlyCounts | shared/cpp/QueueStructures.cpp:130-135 | the total depends on the counts alone, so resetting flags keeps it |
| QueueStructures.FewestLineUnique | shared/cpp/QueueStructures.cpp:116-122 | at most one line is the lowest-numbered line with the fewest people |
| QueueStructures.QueueData.constructor | shared/cpp/QueueStructures.h:66-67 | totals and counts 0, recommended line -1, ten zeroed lines |
| QueueStructures.QueueData.SetId | shared/cpp/QueueStructures.cpp:60-65 | a non-null id is kept to at most 63 characters; null changes nothing; no other field changes |
| QueueStructures.QueueData.SetName | shared/cpp/QueueStructures.cpp:67-72 | a non-null name is kept to at most 63 characters; null changes nothing; no other field changes |
| QueueStructures.QueueData.UpdateTimestamp | shared/cpp/QueueStructures.cpp:74-77 | the stamp is whole seconds in milliseconds; no other field changes |
| QueueStructures.QueueData.GetLineCount | shared/cpp/QueueStructures.cpp:94-100 | -1 outside 1..min(numberOfLines, 10), otherwise the line's count |
| QueueStructures.QueueData.UpdateTotalPeople | shared/cpp/QueueStructures.cpp:130-135 | the total is the sum of the active lines' counts; nothing else changes |
| QueueStructures.QueueData.CalculateRecommendedLine | shared/cpp/QueueStructures.cpp:102-128 | -1 and no flag touched without lines; otherwise the lowest-numbered line with the fewest people, the only active line flagged; a negative line count gives line 1 with no flag touched |
| QueueStructures.QueueData.Resummarise | shared/cpp/QueueStructures.cpp:88-89 | after the recount the total is the sum and exactly the fewest-people line is flagged; counts stay, and the lines past `numberOfLines` are untouched |
| QueueStructures.QueueData.SetLineCount | shared/cpp/QueueStructures.cpp:79-92 | fails exactly outside 1..min(numberOfLines, 10), changing nothing; otherwise the line gets its number and max(0, count), the other lines keep their counts, the lines past `numberOfLines` are untouched, the total and the single recommendation agree with the counts, and the record is stamped |
| QueueStructures.QueueData.StoreNext | shared/cpp/QueueStructures.cpp:235-237 | one step stores line i + 1 and keeps the earlier stored lines and the later lines' counts |
| QueueStructures.QueueData.SetLinesFromArray | shared/cpp/QueueStructures.cpp:231-238 | a null array changes nothing; lines 1..min(arraySize, numberOfLines) take their numbers and clamped counts in order, the others keep theirs, the lines past `numberOfLines` are untouched, and the summary agrees with the counts |
| Esp32QueueManager.EntriesUpdate | ESP32/Queue/QueueManager.cpp:114-123 | erasing a line's entry and reinserting it with the new count gives the ordered set of the updated map |
| Esp32QueueManager.CountSumUpdate | ESP32/Queue/QueueManager.cpp:120-122 | changing one count moves the sum by the difference |
| Esp32QueueManager.CountSumUnaffected | ESP32/Queue/QueueManager.cpp:120-122 | a change to a line past the summed ones leaves the sum |
| Esp32QueueManager.CountSumOfZeros | ESP32/Queue/QueueManager.cpp:126-138 | all-zero counts sum to 0 |
| Esp32QueueManager.LeastLine | ESP32/Queue/QueueManager.h:45-52 | the set front is one of lines 1..n |
| Esp32QueueManager.LeastLineIsLeast | ESP32/Queue/QueueManager.h:45-52 | the front precedes every other line by (count, lineNumber) |
| Esp32QueueManager.LeastLineUnique | ESP32/Queue/QueueManager.h:45-52 | a line that precedes every other is the front, so the front is the fewest-people line with ties to the lowest number |
| Esp32QueueManager.QueueManager.constructor | ESP32/Queue/QueueManager.cpp:4-11 | lines 1..N each with count 0, total 0, the set holding every line |
| Esp32QueueManager.QueueManager.GetLineCount | ESP32/Queue/QueueManager.cpp:100-106 | -1 exactly for an unknown line, otherwise its count |
| Esp32QueueManager.QueueManager.Front | ESP32/Queue/QueueManager.cpp:22-23 | the entry chosen from the set precedes every other entry and is the `LeastLine` entry |
| Esp32QueueManager.QueueManager.GetNextLineNumber | ESP32/Queue/QueueManager.cpp:89-94 | -1 without lines, otherwise the fewest-people line with ties to the lowest number |
| Esp32QueueManager.QueueManager.Recount | ESP32/Queue/QueueManager.cpp:114-123 | one count changes, the total moves by the difference, and the set and the sum invariant are kept |
| Esp32QueueManager.QueueManager.Enqueue | ESP32/Queue/QueueManager.cpp:13-30 | succeeds exactly when not full and some line exists; then only the front line gains one and the total grows by one; failure changes nothing |
| Esp32QueueManager.QueueManager.Dequeue | ESP32/Queue/QueueManager.cpp:32-49 | succeeds exactly for a known line with a non-zero count; then only that line loses one and so does the total; failure changes nothing |
| Esp32QueueManager.QueueManager.EnqueueOnLine | ESP32/Queue/QueueManager.cpp:51-72 | succeeds exactly when not full and the line is known; then only that line and the total gain one; failure changes nothing |
| Esp32QueueManager.QueueManager.SetLineCount | ESP32/Queue/QueueManager.cpp:108-124 | an unknown line changes nothing; otherwise the line stores max(0, count) and the total moves by the difference |
| Esp32QueueManager.QueueManager.Reset | ESP32/Queue/QueueManager.cpp:126-138 | every line 0, the same lines, total 0 |
| FarthestSimulator.GetFarthestFromEntranceLine | simulations/QueueSimulatorFarthest.cpp:36-69 | -1 exactly when every line is full, and never a full line; the highest-numbered open line with people when one exists, else the highest-numbered open line |
| FirebaseStructureBuilder.LineDataPathsDistinct | shared/cpp/FirebaseStructureBuilder.cpp:29-37 | "queues/lineN" paths are equal exactly for equal line numbers and never equal "currentBest" |
| FirebaseStructureBuilder.CalculateAverageWaitTime | shared/cpp/FirebaseStructureBuilder.cpp:73-76 | with positive throughput, wait times throughput is the occupancy; otherwise 0; never negative for a non-negative occupancy |
| FirebaseStructureBuilder.RecommendedScan | shared/cpp/FirebaseStructureBuilder.cpp:46-68 | the recommendation after any prefix of the scan indexes the snapshot array |
| FirebaseStructureBuilder.RecommendedScanPicksSnapshot | shared/cpp/FirebaseStructureBuilder.cpp:46-68 | the result is line 1 with the first score, or the number and score of some scanned snapshot |
| FirebaseStructureBuilder.RecommendedScanScore | shared/cpp/FirebaseStructureBuilder.cpp:55-67 | on numbered snapshots the carried score is the recommended line's own score |
| FirebaseStructureBuilder.ConsiderSeparated | shared/cpp/FirebaseStructureBuilder.cpp:55-67 | a candidate at least 0.5 away wins exactly when its score is lower |
| FirebaseStructureBuilder.RecommendedScanSeparated | shared/cpp/FirebaseStructureBuilder.cpp:39-71 | when all scores are at least 0.5 apart, the result has the least score |
| FirebaseStructureBuilder.RecommendedScanTied | shared/cpp/FirebaseStructureBuilder.cpp:39-71 | when all scores are equal, the result is the lowest-numbered line with the fewest people |
| FirebaseStructureBuilder.CalculateRecommendedLine | shared/cpp/FirebaseStructureBuilder.cpp:39-71 | 0 without lines, otherwise the result of the scan |
| FirebaseStructureBuilder.CreateAggregatedData | shared/cpp/FirebaseStructureBuilder.cpp:89-111 | (total, n, 0, 0.0, 0) without lines; otherwise the recommendation with the wait and occupancy of the first snapshot carrying its number (0 when none does), which on numbered snapshots is the recommended line's own |
| FirebasePeopleStructureBuilder.ToPersonData | shared/cpp/FirebasePeopleStructureBuilder.h:29-35 | the record copies the identifier, both stamps, the line, the expected and the actual wait of the person |
| FirebasePeopleStructureBuilder.HasExitedField | shared/cpp/FirebasePeopleStructureBuilder.cpp:16 | the field text is "true" or "false" |
| FirebasePeopleStructureBuilder.HasExitedFieldAgrees | shared/cpp/FirebasePeopleStructureBuilder.cpp:16 | the record says "true" exactly when the person has exited |
| FirebasePeopleStructureBuilder.PersonPathsDistinct | shared/cpp/FirebasePeopleStructureBuilder.cpp:35-43 | "people/" paths are equal exactly for equal identifiers and never equal "overallStats" |
| FirebasePeopleStructureBuilder.CountExited | shared/cpp/FirebasePeopleStructureBuilder.cpp:57-60 | no more people have exited than there are |
| FirebasePeopleStructureBuilder.CreatePeopleSummary | shared/cpp/FirebasePeopleStructureBuilder.cpp:45-72 | total is the number of people, completed the number exited, active the rest, so they add up; the expected average is over everyone and the actual average over the exited only, each 0 when its count is 0 |
| CloudFunctions.Get | functions/src/index.ts:60 | `undefined` exactly when no property has the key, else some property's value under that key |
| CloudFunctions.Put | functions/src/index.ts:57-60 | a write keeps the size or adds one property |
| CloudFunctions.PutGet | functions/src/index.ts:57-60 | a written key reads back the value, every other key reads as before, and keys stay distinct |
| CloudFunctions.Readings | functions/src/index.ts:14-17 | one reading per property in order: the parsed key and the counted value |
| CloudFunctions.ScanIsLeast | functions/src/index.ts:11-23 | the loop finds nothing exactly when no property is a candidate; otherwise a candidate's reading no worse by (count, line) than any candidate's |
| CloudFunctions.NoWorseAntisymmetric | functions/src/index.ts:19 | two readings each no worse than the other are equal, so the choice does not depend on enumeration order |
| CloudFunctions.ScanOrderFree | functions/src/index.ts:14-23 | two reading sequences holding the same readings give the same recommended line |
| CloudFunctions.RecommendationOrderFree | functions/src/index.ts:14-23 | reordering the properties of an object keeps its recommended line |
| CloudFunctions.SumValuesOrderFree | functions/src/index.ts:14-16 | reordering the properties of an object keeps its total |
| CloudFunctions.ComputeRecommended | functions/src/index.ts:10-25 | the total is the sum of all values whatever their keys, and the recommendation is the scan's |
| CloudFunctions.RecommendationIsLeast | functions/src/index.ts:10-25 | null exactly when no key parses as a line with a count at most MAX_SAFE_INTEGER; otherwise such a property with the least (count, line) |
| CloudFunctions.Incremented | functions/src/index.ts:60 | a missing value becomes 1, a number grows by one, `true` becomes 2 and `false` becomes 1 |
| CloudFunctions.BoolCountsAsZero | functions/src/index.ts:15 | a boolean count reads as 0 in the total and the scan, while `true` increments to 2 |
| CloudFunctions.TextIncrementAppends | functions/src/index.ts:60 | a count held as text "5" becomes "51", read back as 51 |
| CloudFunctions.AutoTransactionTouchesOneLine | functions/src/index.ts:52-63 | a missing object is {'1': 0}; with no recommendation line 1 is set to 1, otherwise the recommended line's property is incremented; no other property changes and keys stay distinct |
| CloudFunctions.RecommendedKeyReadsBack | functions/src/index.ts:59-60 | the key written for the recommended line parses back to that line |
| CloudFunctions.OnLineTransactionTouchesOneLine | functions/src/index.ts:91-96 | only the given line's property is incremented, from 0 when missing |
| CloudFunctions.SumValuesPut | functions/src/index.ts:14-16 | a write replaces the old value's share of the total by the new one's |
| CloudFunctions.OnLineTransactionAddsOne | functions/src/index.ts:91-96 | with numeric counts the transaction adds exactly one to the total |
| CloudFunctions.EnqueueAuto | functions/src/index.ts:47-78 | aborted exactly when not committed; otherwise the transaction's object with the total and recommendation recomputed from it |
| CloudFunctions.EnqueueOnLine | functions/src/index.ts:81-111 | rejected exactly when the argument does not parse as a positive integer; aborted exactly when valid but not committed; otherwise the transaction's object with the total and recommendation recomputed from it |
| NumericText.ParseInt | functions/src/index.ts:17 | `parseInt(s, 10)` is `NaN` exactly when no digit follows the leading white space and the sign |
| NumericText.ParseIntAnyRadix | functions/src/index.ts:83 | `parseInt(s)` reads as `parseInt(s, 10)` without a `0x` prefix, and is `NaN` after one exactly when no hexadecimal digit follows |
| NumericText.ParseIntToString | functions/src/index.ts:17 | `parseInt(String(n), 10)` is n for every integer |
| NumericText.ParseIntAnyRadixToString | functions/src/index.ts:83 | `parseInt(String(n))` is n for every integer |
| NumericText.ParseIntAnyRadixReadsHex | functions/src/index.ts:83 | without a radix, "0x1A" reads as 26, while with radix 10 it reads as 0 |
| NumericText.IntToStringInjective | shared/cpp/Person.cpp:35-40 | distinct integers have distinct decimal texts |
| NumericText.TruncDiv | shared/cpp/Person.cpp:67 | C++ division by a positive divisor: the remainder lies strictly between -b and b and has the sign of the dividend |
| LineRouter.SumSizesUpdate | shared/cpp/QueueManager.cpp:292-304 | replacing one line moves the total by the size difference |
| LineRouter.SumSizesOfEmptyLines | shared/cpp/QueueManager.cpp:307-314 | all-empty lines total 0 |
| LineRouter.Flatten | shared/cpp/QueueManager.cpp:601-614 | the flattened list has as many people as the lines hold |
| LineRouter.FlattenContains | shared/cpp/QueueManager.cpp:601-614 | every person of every line appears in the flattened list |
| LineRouter.WaitEstimate | shared/cpp/QueueManager.cpp:366-374 | never negative, and estimate times rate is the number of people |
| LineRouter.PruneHistory | shared/cpp/QueueManager.cpp:657-672 | the kept entries are a subsequence of the history (order kept); every entry that did not enter before the cutoff is kept as many times as the history holds it, and no earlier one is kept |
| LineRouter.PruneHistoryIdempotent | shared/cpp/QueueManager.cpp:657-672 | pruning twice with one cutoff is pruning once |
| LineRouter.HistoryUnitMismatch | shared/cpp/QueueManager.cpp:659-668 | seconds-since-start stamps against a milliseconds cutoff: once every stamp is below the cutoff, an append leaves only the newest person |
| LineRouter.Admit | shared/cpp/QueueManager.cpp:75-93 | the line grows by the newcomer at its tail, stamped exactly when the line was empty |
| LineRouter.Depart | shared/cpp/QueueManager.cpp:115-130 | the line loses its head and the next person becomes head, stamped |
| LineRouter.DummyLine | shared/cpp/QueueManager.cpp:295-302 | `count` unstamped people of the line, the k-th estimated with k people ahead |
| LineRouter.LinesShapedUpdate | shared/cpp/QueueManager.cpp:75-76 | replacing one line by a well-shaped one keeps every line well shaped |
| LineRouter.AdmitKeepsShape | shared/cpp/QueueManager.cpp:86-93 | after an admission only the head can carry an exit stamp |
| LineRouter.DepartKeepsShape | shared/cpp/QueueManager.cpp:118-129 | after a departure only the head can carry an exit stamp |
| LineRouter.DummyLineShape | shared/cpp/QueueManager.cpp:297-302 | placeholders carry their line's number and are unstamped |
| LineRouter.JoinTail | shared/cpp/QueueManager.cpp:75-93 | the new line is the admission at one clock reading, and the realised wait that of the stamp when alone |
| LineRouter.PopTail | shared/cpp/QueueManager.cpp:115-130 | the new line is the departure at one clock reading, and the realised wait that of the new head's stamp |
| LineRouter.BuildPlaceholders | shared/cpp/QueueManager.cpp:296-302 | the loop builds exactly the placeholder line at one clock reading |
| LineRouter.QueueManager.NewTrackers | shared/cpp/QueueManager.cpp:20 | count fresh, distinct trackers with no completions |
| LineRouter.QueueManager.constructor | shared/cpp/QueueManager.cpp:18-32 | the line count is capped to 0..MAX_LINES; empty lines, default rates, one tracker per requested line, zero statistics, no selection, empty history |
| LineRouter.QueueManager.LineRate | shared/cpp/QueueManager.cpp:361-364 | positive, and the default rate when the tracker has no reliable data |
| LineRouter.QueueManager.GetEstimatedWaitTime | shared/cpp/QueueManager.cpp:352-375 | 999 for an invalid line; otherwise people over the line's rate, 0 for an empty line |
| LineRouter.QueueManager.GetEstimatedWaitTimeForNewPerson | shared/cpp/QueueManager.cpp:377-400 | equals `getEstimatedWaitTime`, never negative for a valid line |
| LineRouter.QueueManager.NextLineUnique | shared/cpp/QueueManager.cpp:195-267 | for each strategy at most one line meets the selection rule |
| LineRouter.QueueManager.GetNextLineNumber | shared/cpp/QueueManager.cpp:195-267 | -1 without lines or with every line full; otherwise an open line chosen by the strategy's rule, the default branch as shortest wait |
| LineRouter.QueueManager.ShortestWaitLine | shared/cpp/QueueManager.cpp:210-227 | the lowest-numbered open line with the least estimate, also the default branch's answer |
| LineRouter.QueueManager.FewestPeopleLine | shared/cpp/QueueManager.cpp:229-246 | the lowest-numbered open line with the fewest people |
| LineRouter.QueueManager.FarthestOpenLine | shared/cpp/QueueManager.cpp:248-262 | the highest-numbered open line |
| LineRouter.QueueManager.GetLineCount | shared/cpp/QueueManager.cpp:274-282 | -1 exactly for an invalid line, else its size |
| LineRouter.QueueManager.JoinLine | shared/cpp/QueueManager.cpp:75-93 | the line becomes the admission; the total grows by one; a lone newcomer counts as completed with its wait added |
| LineRouter.QueueManager.AdmitOn | shared/cpp/QueueManager.cpp:70-93 | the whole admission state change, with the remembered selection set |
| LineRouter.QueueManager.Enqueue | shared/cpp/QueueManager.cpp:53-99 | succeeds exactly when some line is open, changing nothing otherwise; the person goes to the strategy's line, which is remembered, and the statistics and history follow |
| LineRouter.QueueManager.EnqueueOnLine | shared/cpp/QueueManager.cpp:141-183 | succeeds exactly for a valid, not full line, changing nothing otherwise; the same admission, the remembered selection unchanged |
| LineRouter.QueueManager.EnqueueAuto | simulations/UnifiedQueueSimulator.cpp:96-102 | an `enqueue` with the adaptive strategy for the completions so far |
| LineRouter.QueueManager.Dequeue | shared/cpp/QueueManager.cpp:101-139 | succeeds exactly for a valid non-empty line, changing nothing otherwise; the head leaves, the new head is stamped and counted, the total drops by one and the line's tracker records exactly one service |
| LineRouter.QueueManager.PopHead | shared/cpp/QueueManager.cpp:114-130 | the line part of `dequeue` |
| LineRouter.QueueManager.SetLineCount | shared/cpp/QueueManager.cpp:284-305 | an invalid line changes nothing; otherwise the line becomes max(0, count) placeholders at the line's rate, the total follows, and statistics and history stay |
| LineRouter.QueueManager.Reset | shared/cpp/QueueManager.cpp:307-314 | every line empty, total 0; the statistics, history, rates, trackers and selection stay |
| LineRouter.QueueManager.UpdateTotalPeople | shared/cpp/QueueManager.cpp:321-328 | the total is the sum of the line sizes and nothing else changes |
| LineRouter.QueueManager.UpdateLineThroughput | shared/cpp/QueueManager.cpp:330-340 | a valid line's stored rate becomes the clamped rate; otherwise nothing changes |
| LineRouter.QueueManager.GetLineThroughput | shared/cpp/QueueManager.cpp:342-350 | the default for an invalid line; always the default or inside [0.1, 5.0] |
| LineRouter.QueueManager.GetAllPeople | shared/cpp/QueueManager.cpp:601-614 | everyone, line 1 first and each line front to back, as many as the total |
| LineRouter.QueueManager.GetPeopleInLine | shared/cpp/QueueManager.cpp:616-632 | a copy of the line, empty for an invalid line |
| LineRouter.QueueManager.GetCumulativePeopleSummary | shared/cpp/QueueManager.cpp:634-645 | active is the current total; each average times its count is its sum, and 0 when the count is 0 |
| LineRouter.QueueManager.AddPersonToHistory | shared/cpp/QueueManager.cpp:648-655 | the history is pruned, then the person appended; nothing else changes |
| LineRouter.QueueManager.CleanOldHistoryEntries | shared/cpp/QueueManager.cpp:657-672 | the history is pruned against the wall clock minus an hour; nothing else changes |
| LineRouter.QueueManager.UpdateAllAndCleanHistory | shared/cpp/QueueManager.cpp:741-785 | an empty pruned history is success without upload; after an upload the history is empty and the result is the state write's; after a failed upload the pruned history is kept and the result is failure |
| LineRouter.AdaptiveStrategy | simulations/UnifiedQueueSimulator.cpp:96-102 | shortest wait exactly from 30 completions on, fewest people exactly below 30 |
| UnifiedSimulator.SuffixesDistinct | simulations/UnifiedQueueSimulator.cpp:41-52 | different strategy types get different prefixes |
| UnifiedSimulator.RouterStrategy | simulations/UnifiedQueueSimulator.cpp:92-106 | the fixed types keep their strategy; the adaptive type switches to shortest wait exactly at 30 completions |
| UnifiedSimulator.StrategySimulator.constructor | simulations/UnifiedQueueSimulator.cpp:38-58 | a router with the type's prefix, capacity 50 and empty statistics |
| UnifiedSimulator.StrategySimulator.ProcessArrival | simulations/UnifiedQueueSimulator.cpp:60-70 | succeeds exactly when a line is open, admitting on the line the type's strategy selects |
| UnifiedSimulator.StrategySimulator.ProcessService | simulations/UnifiedQueueSimulator.cpp:72-78 | serves exactly when the line count is positive (an invalid line reports -1), changing nothing otherwise |
| UnifiedSimulator.StrategySimulator.GetNextLineNumber | simulations/UnifiedQueueSimulator.cpp:92-106 | the router's choice for the type's current strategy |
| UnifiedSimulator.StrategySimulator.GetCurrentStrategyDescription | simulations/UnifiedQueueSimulator.cpp:113-119 | the adaptive type names the strategy in use by the same threshold; the others return their name |

## Left out

- HTTP and Firebase transport are not modelled. This covers both `SimpleHttpClient.cpp` variants and all `FirebaseClient` variants. They are network I/O.
- The router's `writeToFirebase`, `clearCloudData` and `writeHistoryToFirebase` are not modelled either; they are cloud writes. Their outcomes enter `UpdateAllAndCleanHistory` as the booleans `historyUploaded` and `stateWritten`. The router ignores the other calls' results.
- The router constructor's Firebase client and its `appName` argument are left out; they only enable cloud writes.
- JSON text is not generated. This covers `generateLineDataJson`, `generateAggregatedDataJson`, the `generatePersonDataJson` fields other than `hasExited`, and `generatePeopleSummaryJson`.
- The time-stamp formatters are not produced. That is fixed-precision number formatting, local time and a +3h offset.
- `std::chrono`, `time()`, `getSessionTimeSeconds` and the epoch `getCurrentTimestamp` of `shared/cpp/queueManagment/Person.cpp` are clocks. The model takes their readings as parameters.
- Doubles are Dafny reals, with no rounding. The `numeric_limits<double>::max()` and `numeric_limits<int>::max()` seeds of `getNextLineNumber` are modelled as "no best line yet". A valid line's estimate and size are always below them.
- JavaScript numbers are modelled as integers. Stored values are numbers, strings or booleans; objects and arrays stored as a line's count are not modelled.
- JavaScript property enumeration order is a parameter: the sequence of properties. `CloudFunctions.Put` appends a new key, while JavaScript enumerates array-index keys first, in ascending order. Neither the total nor the recommendation depends on the order (`RecommendationOrderFree`, `SumValuesOrderFree`).
- The Cloud Functions trigger `onLineCountWrite`, the transaction commit and retry machinery, `admin` calls and the `queueId || 'queueA'` default are not modelled. Whether a transaction committed is a parameter.
- The `extern "C"` wrappers of `QueueStructures.cpp` are left out, except `queue_data_set_lines_from_array`. They only check for null and forward the call.
- The simulation drivers are not modelled: `simulate` loops, random arrivals and services, threads, atomics, mutexes, signal handlers and the plotting script. That is concurrency and randomness around the core.
- The driver loop of `simulations/QueueSimulatorFarthest.cpp` is not part of this model. Only its selection rule is modelled, and it reads the manager through two snapshots.
- The simulator's pass-through getters (`getLineCount`, `getTotalSize`, `getEstimatedWaitTime`, `getName`) are left out. They return the router's values unchanged.
- The router's simple getters (`size`, `isEmpty`, `getNumberOfLines`, `isValidLineNumber`, `getPeopleFromLastHour`) are functions without contracts of their own. The contracts of the members that use them cover them.
- The trackers' getters and `hasReliableData` are functions without contracts of their own, for the same reason.
- `QueueData::isValid` is a function without a contract of its own, for the same reason.
- The ESP32 manager's getters (`Esp32QueueManager.QueueManager.Size`, `IsEmpty`, `IsFull`, `GetNumberOfLines`) are functions without contracts of their own. The contracts of `Enqueue` and `EnqueueOnLine` state when `isFull` refuses an arrival.
- The `Person` getters (`ActualWaitTime`, `GetId`, `HasExited` in `SessionPerson` and `EpochPerson`) are functions without contracts of their own. `ActualWaitTimeSpan`, `ActualWaitTimeMillis`, `GetIdInjective`, `GetIdCollision` and `RecordExitOnce` state what they mean.
- The store paths (`FirebaseStructureBuilder.GetLineDataPath`, `GetAggregatedDataPath`, `FirebasePeopleStructureBuilder.GetPersonDataPath`, `GetPeopleSummaryPath`) are functions without contracts of their own. `LineDataPathsDistinct` and `PersonPathsDistinct` state what they mean.
- `FirebaseStructureBuilder.Consider` is the scan step, without a contract of its own. `ConsiderSeparated` and the `RecommendedScan` lemmas state what it does.
- The Cloud Functions helpers `ValueOf`, `TextValue`, `SumValues`, `Candidate`, `Step`, `Scan`, `AutoTransaction` and `OnLineTransaction` are functions without contracts of their own. The lemmas on them state what they mean: `ScanIsLeast`, `RecommendationIsLeast`, `SumValuesPut`, `BoolCountsAsZero`, `AutoTransactionTouchesOneLine`, `OnLineTransactionTouchesOneLine` and `OnLineTransactionAddsOne`.
- `NumericText.IntToString` is a function without a contract of its own. `ParseIntToString` and `IntToStringInjective` state what it means.
- `EpochPerson` has no clock class: its `getCurrentTimestamp` is the epoch clock itself, passed as `nowMs`.
- `ESP32/Queue/QueueManager.cpp` is modelled by value. The line nodes that its map and its ordered set share become a map of counts plus a set of entries. Aliasing of those nodes is not modelled.
- `Esp32QueueManager.QueueManager.Reset` zeroes lines 1..N in number order rather than in `unordered_map` order; the final state is the same.
- `LineRouter.QueueManager.constructor` requires `numberOfLines >= 0`. The tracker vector is sized from the requested count before it is capped, and a negative size makes that construction fail.
- `QueueStructures.QueueData` methods require `numberOfLines <= 10`. A larger count makes the source index past its ten-line array.
- `QueueStructures.QueueData.SetLinesFromArray` requires the array to hold `arraySize` counts. The source reads that many without checking.
- `FirebaseStructureBuilder.CalculateRecommendedLine` and `FirebaseStructureBuilder.CreateAggregatedData` require the first `numberOfLines` snapshots to carry line numbers in 1..|allLines|. The source reads `allLines[recommendedLine - 1]`, which is outside the array for any other number.
- `LineRouter.JoinTail`, `LineRouter.QueueManager.AdmitOn` and its callers (`Enqueue`, `EnqueueOnLine`, `EnqueueAuto`, `UnifiedSimulator.StrategySimulator.ProcessArrival`) merge the clock reads of one admission into a single `wallMs`. The source reads the clock separately in the `Person` constructor, in `cleanOldHistoryEntries` and in `recordExit`. So the model gives a lone newcomer a realised wait of 0 and leaves `totalActualWaitTime` unchanged, whereas in the source the two reads can fall on either side of a second boundary, giving a wait of 1 s.
- `LineRouter.BuildPlaceholders` and `LineRouter.QueueManager.SetLineCount` stamp every placeholder with one `wallMs`. The source constructs each placeholder `Person` with its own clock read.
- Fixed-width integer arithmetic is modelled as unbounded. This covers C++ `int`, `size_t` and `long long`, for example `m_totalPeople`, the completion counters, `QueueData::totalPeople` summed over ten counts, and the millisecond stamps. Overflow is not modelled.
- `NumericText.ParseInt` skips the ECMAScript white space and line terminators by a fixed list of code points. That list is the category Zs set of one Unicode version.
- `LineRouter.QueueManager.SetLineCount`: each placeholder's estimate is stated from the line as built so far. That is the value `getEstimatedWaitTime` returns inside the loop.
- `LineRouter.QueueManager.EnqueueAuto` follows the adaptive rule of the simulator. `enqueueAuto` is not defined in `shared/cpp/QueueManager.cpp`.
- `MIN_SERVICES_FOR_RELIABLE_DATA` is declared in no header of this snapshot, so it is an abstract constant. So are the constants of the two later tracker snapshots and the router's `MAX_LINES` and `DEFAULT_THROUGHPUT`.
