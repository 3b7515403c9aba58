# FCFS scheduler and sensor-reading analysis, modelled in Dafny

This project models two small Python programs.

**First-come-first-served CPU scheduler** (`Task-3/fcfs_scheduler.py`), module `Fcfs`:

- A `Process` keeps its identifier, arrival time and burst time. It also has four fields that `run` fills in: start, completion, turnaround and waiting time.
- A `Scheduler` keeps the list of added processes and a Gantt chart of `(pid, start, completion)` slots.
- `run` first stably sorts the processes by arrival time. Then it walks a clock from 0: the CPU idles until the next process arrives, runs that process to completion, records the four derived fields, and appends a slot to the chart.
- `show_results` prints one table row per process, then returns the mean turnaround time and the mean waiting time.

The model keeps that imperative shape:

- `Process` and `Scheduler` are classes whose fields the methods update in place.
- `Run` sorts, then hands over to `Dispatch`, which has the clock loop. `Record` writes the four fields of one process.
- `SortByArrival` is an insertion sort proved to be a stable sort.
- Every method is proved against pure specifications. `IsStableSortOf` is the specification of the stable sort. `Schedule` is the reference timeline. `Sum` and `Average` give the means.
- The facts the program relies on are lemmas about those specifications:
  - appending the slots: the start is the later of the clock and the arrival, and the completion is the start plus the burst;
  - no job waits negatively;
  - the intervals do not overlap;
  - a closed form of each start time;
  - the stable sort is unique and idempotent, so a second `run` does not reorder the processes.

**Sensor-reading analysis** (`Task-4/analyze_sensor_readings.py`, lines 15-45), module `SensorReadings`. It covers:

- grouping the readings per sensor;
- the set of sensors with a stress reading above 13.0;
- the sorted list of distinct timestamps;
- the most recent reading of each sensor, chosen by the string comparison `>`, so the first reading wins a tie;
- the tuple of those readings in dictionary order.

The grouping and the latest-reading steps are loops in the source, so they are methods here. The set and the list built from comprehensions are functions. Python's string order is modelled in module `LexOrder`, where the lemmas prove it is a strict total order.

Module `FcfsScenarios` proves, from the methods' contracts alone, the outcome of the sample workload in the scheduler's `__main__` block and of a few edge cases.

Behaviour worth noting:

- **Input validation.** The code accepts any integer arrival and burst time, and so does the model. Only `IntervalsOrdered` needs non-negative bursts.
- **Reporting before `run`.** The table row of `show_results` formats `start_time` and `completion_time` with a width. For a process that was never dispatched they are `None`, and Python raises TypeError. The model returns `Failure(NotScheduled)` there.
- **Averages of an empty scheduler.** The code divides by `len(self.processes)`, which raises ZeroDivisionError on an empty scheduler. The model returns `Failure(NoProcesses)` there.

## Model

| member | source | states |
|---|---|---|
| Fcfs.Process.constructor | Task-3/fcfs_scheduler.py:6-14 | identifier, arrival and burst are stored; start and completion are unset (`None`); waiting and turnaround are 0 |
| Fcfs.Scheduler.constructor | Task-3/fcfs_scheduler.py:21-23 | a new scheduler has no processes and an empty Gantt chart |
| Fcfs.Scheduler.AddProcess | Task-3/fcfs_scheduler.py:25-26 | the process is appended at the end of the list; the chart is unchanged |
| Fcfs.SortByArrival | Task-3/fcfs_scheduler.py:30 | the result is sorted by arrival time, keeps the input's relative order within each arrival time (stable), and is a permutation of the input |
| Fcfs.StableSortIsPermutation | Task-3/fcfs_scheduler.py:30 | any stable sort of a list by arrival time is a permutation of it |
| Fcfs.StableSortUnique | Task-3/fcfs_scheduler.py:30 | two lists sorted by arrival with the same per-arrival-time subsequences are equal, so the result of `list.sort` is fully determined |
| Fcfs.SortIdempotent | Task-3/fcfs_scheduler.py:30 | stably sorting a list already sorted by arrival leaves it unchanged |
| Fcfs.InsertKeepsStable | Task-3/fcfs_scheduler.py:30 | inserting a new element after every element with an arrival at or before its own keeps the list a stable sort of the input extended by that element |
| Fcfs.InsertKeepsSorted | Task-3/fcfs_scheduler.py:30 | inserting an element after every element arriving at or before it and before every later one keeps a list sorted by arrival |
| Fcfs.InsertKeepsGroup | Task-3/fcfs_scheduler.py:30 | such an insertion appends the element to the end of its own arrival-time group and leaves every other group as it was |
| Fcfs.SameLead | Task-3/fcfs_scheduler.py:30 | two non-empty lists sorted by arrival with the same per-arrival-time groups start with the same element |
| Fcfs.ArrivingAtConcat | Task-3/fcfs_scheduler.py:30 | the processes arriving at a given time in a concatenation are those of the first part followed by those of the second |
| Fcfs.CountInGroup | Task-3/fcfs_scheduler.py:30 | every occurrence of a process lies in the group of its own arrival time |
| Fcfs.Scheduler.Run | Task-3/fcfs_scheduler.py:28-40 | sorting and then dispatching: the processes become the stable sort of the old list (a permutation of it); the chart becomes the old chart followed by one slot per process of the reference timeline from clock 0, in sorted order; every process object gets the start, completion, turnaround and waiting time of its slot (the last one, if the same object was added twice) |
| Fcfs.Scheduler.Dispatch | Task-3/fcfs_scheduler.py:31-40 | the clock loop over the list in its current order leaves the list unchanged, appends the reference timeline from clock 0 to the chart, and gives every last occurrence of a process the fields of its slot |
| Fcfs.Record | Task-3/fcfs_scheduler.py:35-39 | one loop step's writes: the process gets its slot's start and completion, turnaround = completion − arrival and waiting = turnaround − burst; processes whose last occurrence comes earlier keep their fields |
| Fcfs.Schedule | Task-3/fcfs_scheduler.py:31-40 | the reference timeline of the clock loop: one slot per process, in list order; its meaning is given by the lemmas below |
| Fcfs.ScheduleStep | Task-3/fcfs_scheduler.py:31-40 | slot k starts at the later of the clock left by the previous slots and the process's arrival; it completes a burst later, and the clock moves to that completion |
| Fcfs.ScheduleBounds | Task-3/fcfs_scheduler.py:33-39 | each slot carries its process's pid; starts no earlier than the arrival; completes start + burst later; waiting (turnaround − burst) equals start − arrival and is non-negative; the first slot starts at max(clock, arrival); each slot starts no earlier than the previous one completes |
| Fcfs.IdleOnlyUntilArrival | Task-3/fcfs_scheduler.py:33-35 | a slot that does not start exactly when the previous one completes starts at its process's arrival (the CPU only idles waiting for an arrival) |
| Fcfs.IntervalsOrdered | Task-3/fcfs_scheduler.py:31-40 | with non-negative bursts, an earlier slot completes no later than any later slot starts, and starts are non-decreasing (intervals do not overlap) |
| Fcfs.StartLowerBounds | Task-3/fcfs_scheduler.py:31-37 | slot k starts no earlier than the initial clock plus all earlier bursts, and no earlier than any earlier process's arrival plus the bursts from that one up to k |
| Fcfs.TotalBurstSnoc | Task-3/fcfs_scheduler.py:36 | the total burst of a stretch of the list is that of the stretch without its last process plus that process's burst |
| Fcfs.StartAttained | Task-3/fcfs_scheduler.py:31-37 | slot k's start equals one of those bounds (the initial clock plus all earlier bursts, or some earlier-or-same process's arrival plus the bursts from it up to k), so with StartLowerBounds the start is the maximum of them: a closed form independent of the step rule |
| Fcfs.DispatchedAreScheduled | Task-3/fcfs_scheduler.py:36-39 | if every last occurrence got the fields of its slot, every process in the list has a start and completion, turnaround = completion − arrival, and waiting = turnaround − burst ≥ 0 |
| Fcfs.RunTwice | Task-3/fcfs_scheduler.py:28-40 | running the scheduler twice leaves the order of the first run and appends the same timeline twice to the chart |
| Fcfs.Turnarounds | Task-3/fcfs_scheduler.py:47 | the list of turnaround times, one per process, in list order |
| Fcfs.Waitings | Task-3/fcfs_scheduler.py:48 | the list of waiting times, one per process, in list order |
| Fcfs.Average | Task-3/fcfs_scheduler.py:47-48 | the mean of a non-empty list: mean × length = sum |
| Fcfs.SumNonNegative | Task-3/fcfs_scheduler.py:47-48 | a sum of non-negative values is non-negative |
| Fcfs.SumDifference | Task-3/fcfs_scheduler.py:47-48 | the sum of pointwise differences is the difference of the sums |
| Fcfs.AverageNonNegative | Task-3/fcfs_scheduler.py:47-48 | the mean of non-negative values is non-negative |
| Fcfs.AverageDifference | Task-3/fcfs_scheduler.py:47-48 | the mean of pointwise differences is the difference of the means |
| Fcfs.ReportedWaitingIsTurnaroundLessBurst | Task-3/fcfs_scheduler.py:47-48 | once waiting = turnaround − burst holds for every process, the mean waiting time is the mean turnaround time less the mean burst, and it is non-negative |
| Fcfs.Scheduler.ShowResults | Task-3/fcfs_scheduler.py:42-51 | fails with `NotScheduled` exactly when some process lacks a start or completion time (the TypeError of the table row); fails with `NoProcesses` exactly when there are no processes (the division by zero); succeeds exactly when neither holds, and then returns the mean turnaround and mean waiting time (`Average` of the processes' fields): each mean × count = the sum of those fields |
| FcfsScenarios.SampleTimeline | Task-3/fcfs_scheduler.py:70-75 | the sample workload P1(0,5), P2(2,3), P3(4,1), P4(6,2) is already in arrival order, and its timeline is P1 0–5, P2 5–8, P3 8–9, P4 9–11 |
| FcfsScenarios.NewSampleScheduler | Task-3/fcfs_scheduler.py:70-74 | the sample scheduler holds P1(0,5), P2(2,3), P3(4,1), P4(6,2) in that order, all new objects, and an empty chart |
| FcfsScenarios.RunSampleWorkload | Task-3/fcfs_scheduler.py:70-75 | after `run` the sample list keeps its order, the chart is P1 0–5, P2 5–8, P3 8–9, P4 9–11, and each process carries the fields of its slot |
| FcfsScenarios.SampleFields | Task-3/fcfs_scheduler.py:47-48 | with those fields the waiting times are 0, 3, 4 and 3, the sums are 21 and 10, and the means are 5.25 and 2.5 |
| FcfsScenarios.SampleMeans | Task-3/fcfs_scheduler.py:47-48 | four values summing to 21 (to 10) have mean 5.25 (2.5) |
| FcfsScenarios.SwapIsStableSort | Task-3/fcfs_scheduler.py:30 | two processes with decreasing arrival times are stably sorted by swapping them |
| FcfsScenarios.SampleSums | Task-3/fcfs_scheduler.py:47-48 | for the sample workload, the turnaround times sum to 21 and the waiting times to 10 (means 5.25 and 2.5) |
| LexOrder.Irreflexive | Task-4/analyze_sensor_readings.py:42 | no string sorts before itself |
| LexOrder.Asymmetric | Task-4/analyze_sensor_readings.py:42 | string order is asymmetric |
| LexOrder.Transitive | Task-4/analyze_sensor_readings.py:42 | string order is transitive |
| LexOrder.Trichotomy | Task-4/analyze_sensor_readings.py:42 | any two strings are equal or ordered one way or the other |
| SensorReadings.GroupBySensor | Task-4/analyze_sensor_readings.py:15-18 | the grouping maps each sensor seen to the list of its samples (the entry without its id) in input order, and has no other keys |
| SensorReadings.GroupsSnoc | Task-4/analyze_sensor_readings.py:16-18 | one more reading appends its sample to its own sensor's group (creating it if absent) and leaves the other groups alone |
| SensorReadings.SamplesOfSnoc | Task-4/analyze_sensor_readings.py:16-18 | a sensor's samples after one more reading are those before, followed by the new sample if the reading is of that sensor |
| SensorReadings.SamplesOfAbsent | Task-4/analyze_sensor_readings.py:15-18 | a sensor that never appears has no samples |
| SensorReadings.ReadingInItsGroup | Task-4/analyze_sensor_readings.py:16-18 | every reading's sample is in its own sensor's group, at the position given by the number of earlier readings of that sensor |
| SensorReadings.SamplesOfConcat | Task-4/analyze_sensor_readings.py:16-18 | the samples of a sensor in a concatenation are those of the first part followed by those of the second |
| SensorReadings.GroupSizesSum | Task-4/analyze_sensor_readings.py:15-18 | the group sizes add up to the number of readings (each reading lands in exactly one group) |
| SensorReadings.HighStressSensors | Task-4/analyze_sensor_readings.py:21 | a sensor is in the set iff some reading of it has stress strictly above 13.0; the set holds only sensors that appear |
| SensorReadings.SampleHighStress | Task-4/analyze_sensor_readings.py:5-21 | on the sample data only S2 qualifies; S1's reading of exactly 13.0 does not |
| SensorReadings.InsertSorted | Task-4/analyze_sensor_readings.py:36 | inserting into a strictly increasing list of strings keeps it strictly increasing and adds exactly the new string |
| SensorReadings.SortedTimestamps | Task-4/analyze_sensor_readings.py:36 | the timestamp list is strictly increasing in string order and holds exactly the timestamps of the readings |
| SensorReadings.StrictlyIncreasingUnique | Task-4/analyze_sensor_readings.py:36 | two strictly increasing lists with the same elements are equal, so `sorted` of the set is fully determined |
| SensorReadings.SortedTimestampsCount | Task-4/analyze_sensor_readings.py:36 | the list has one entry per distinct timestamp (no duplicates) |
| SensorReadings.DistinctCardinality | Task-4/analyze_sensor_readings.py:36 | a list without repeats has as many elements as its set |
| SensorReadings.FirstAppearance | Task-4/analyze_sensor_readings.py:39-43 | the dictionary's key order holds exactly the sensors seen, each once |
| SensorReadings.FirstAppearanceOrder | Task-4/analyze_sensor_readings.py:39-43 | the keys are in order of first appearance: of any two keys, the earlier one has a reading before the later one's first reading |
| SensorReadings.FirstAppearanceStep | Task-4/analyze_sensor_readings.py:40-43 | one more reading keeps the order of the keys so far, and a new sensor's key goes after all of them |
| SensorReadings.AppearsBeforeNew | Task-4/analyze_sensor_readings.py:42-43 | a sensor already seen has a reading before the first reading of a sensor that shows up now |
| SensorReadings.FirstAppearanceCount | Task-4/analyze_sensor_readings.py:39-43 | the key order has one entry per distinct sensor |
| SensorReadings.LatestReadings | Task-4/analyze_sensor_readings.py:39-43 | the keys are exactly the sensors seen, in first-appearance order; each sensor's value is the sample of its reading with the greatest timestamp, and of the first such reading on a tie |
| SensorReadings.Select | Task-4/analyze_sensor_readings.py:41-43 | one pass of the loop body, on the next reading: the key order and the latest-so-far state move on to include that reading |
| SensorReadings.LatestSoFarStep | Task-4/analyze_sensor_readings.py:40-43 | one iteration of the loop (replace the entry when the sensor is new or the timestamp is strictly greater, otherwise keep it) preserves the loop's latest-so-far invariant |
| SensorReadings.ReplaceStep | Task-4/analyze_sensor_readings.py:42-43 | when the new reading is its sensor's latest, storing it keeps every sensor's entry the latest so far |
| SensorReadings.KeepStep | Task-4/analyze_sensor_readings.py:42-43 | when the stored reading stays its sensor's latest, keeping the dictionary unchanged keeps every entry the latest so far |
| SensorReadings.FirstOfSensor | Task-4/analyze_sensor_readings.py:42-43 | a sensor's first reading is its latest so far |
| SensorReadings.NewLatest | Task-4/analyze_sensor_readings.py:42-43 | a reading with a strictly greater timestamp than the current latest becomes the latest |
| SensorReadings.KeepLatest | Task-4/analyze_sensor_readings.py:42-43 | a reading whose timestamp is not greater leaves the latest unchanged, ties included |
| SensorReadings.OtherSensorKeepsLatest | Task-4/analyze_sensor_readings.py:40-43 | a reading of another sensor does not change a sensor's latest |
| SensorReadings.LatestAtUnique | Task-4/analyze_sensor_readings.py:39-43 | the reading chosen for a sensor is unique |
| SensorReadings.MostRecentTupleOfData | Task-4/analyze_sensor_readings.py:45 | for the dictionary `LatestReadings` builds, the tuple has one entry per distinct sensor, and entry i is the sample of the latest reading of the i-th sensor to appear |
| SensorReadings.TupleEntriesAreLatest | Task-4/analyze_sensor_readings.py:45 | when every stored value is its sensor's latest sample, so is every entry of the tuple, key by key |
| SensorReadings.MostRecentReadings | Task-4/analyze_sensor_readings.py:39-45 | the whole step: `most_recent_tuple` has one entry per distinct sensor, in first-appearance order, each the sample of that sensor's latest reading (the first one on a timestamp tie) |

## Left out

- `FCFS_Scheduler.plot_gantt_chart` (lines 53-65) is not modelled: it only draws with matplotlib.
- The text that `show_results` prints (lines 43-46, 49-50) is not modelled: it is console output. The returned pair is modelled, and so is the one way the table rows fail: a process without a start or completion time gives `Failure(NotScheduled)`.
- `Process.__repr__` is not modelled: it only formats the process for printing.
- `Process.remaining_time` is not modelled: no FCFS code reads it after construction.
- Python's integers are unbounded, like Dafny's. The averages are modelled as exact `real` quotients, not as floating point.
- Fcfs.IntervalsOrdered: it requires non-negative bursts. With a negative burst, which the source does not reject, a slot can end before it starts, and the intervals can overlap.
- Fcfs.Scheduler.Run: when an object was added twice, its fields are stated only for its last occurrence. That occurrence is the one that writes them last.
- Per-sensor statistics (lines 24-33) are not modelled. They are floating-point max, min, mean and `round`, which need float semantics the model does not carry.
- The printing and pretty-printing (lines 47 onward) are not modelled.
- Sensor values are `real`, not Python floats. The threshold comparison `stress > 13.0` is exact.
- The strings in sensor readings are compared by code point, as Python does. There is no date parsing: the source compares timestamps as plain strings too.
- SensorReadings.GroupBySensor: it returns a map, so the insertion order of the `defaultdict` keys is not carried. For the latest-reading dictionary, that order is modelled explicitly by `FirstAppearance`.
- The other programs of the repository (the remaining task folders) are not part of this model.
