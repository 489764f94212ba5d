# experiment-scripts: trace statistics and experiment generation, in Dafny

This project models three parts of the experiment-scripts repository. The
repository generates mixed-criticality real-time experiments and parses the
traces they leave behind.

- **Trace parsing (parse/sched.py).** sched_trace files are sequences of
  24-byte little-endian records with seven kinds of record. `make_iterator`
  reads one file. It skips unknown tags and records of job 1.
  `read_data` merges the files by time through a small insertion buffer
  and gives each record to its kind's `process` method. Those methods drive
  three `TimeTracker`s per task: blocking, deadline misses and execution.
  `extract_sched_data` turns the trackers into per-level metrics. A
  `LeveledArray` collects them under names such as `B-miss-ratio`.
- **Cache colouring (gen/color.py).** These are the block, random and "evil"
  schemes. Each gives every task a map from cache colour to pages.
- **Experiment generation (gen/mc_generators.py).** This covers worst-fit
  partitioning, the share-based scales and utilization caps, the kernel
  configuration options, the page count of a working set, and the ids and
  colours `_customize` assigns.

Modules follow the source:

- `Layout`: field lists, `field_bytes`, `register_record`.
- `Records`: the record datatype and its byte codec.
- `TraceReader`: `make_iterator`.
- `Merge`: `add_record` and the merge order.
- `Durations`: `TimeTracker`.
- `Tasks`: `TaskData`, `process`, `read_data`.
- `Aggregate`: `LeveledArray`, `extract_sched_data`.
- `Coloring`: the colouring schemes.
- `GenTasks` and `McGen`: the generator.

Where the source updates state in place, the model does the same:

- `TimeTracker`, `TaskData`, the `task_dict` defaultdict (`TaskDict`),
  `LeveledArray`, the generated tasks (`GenTask`) and the experiment
  parameters are classes.
- The loops of `field_bytes`, `register_record`, `make_iterator`,
  `add_record`, `read_data`, worst fit and the colouring schemes are
  methods with loop invariants.

Each method is proved against a function on values: `Store`/`Start`,
`Effect`/`Dispatch`, `TraceRecords`, `AddNext`/`MergeFrom`, `AddEntries`,
`BlockScheme`, `EvilMap`, `Choices`. The properties of those functions are
proved as lemmas.

Python 2 semantics are written out:

- `/` on integers is floor division (`PyDiv`).
- `chr` raises past 255.
- A defaultdict lookup creates the entry.
- `xs.index(min(xs))` is the first minimum.
- Slices clamp.
- Every exception that can be reached is a `Result`/`Option` error: ZeroDivisionError, IndexError, ValueError and the `Exception`s of the colouring schemes and `__get_wss_pages`.

Three defects of the source are modelled both as written and corrected
(see Findings). The operations that contain them take a `Policy`:

- `AsWritten` follows the code line by line.
- `Corrected` applies the evident repair.

Every other statement is the same under both. The ordering and mean
properties are proved for `Corrected`. Under `AsWritten`, the lemmas give
the counterexamples.

Two behaviours worth knowing, both proved:

- On the block and execution trackers, a `start_time` directly followed
  by its `store_time` records nothing. `start_time` is called there without
  `time`, so it sets `begin` to the latched record's time. The `store_time`
  that follows measures from that same record, so `dur` is 0
  (`Durations.PairedStartStoreRecordsNothing`). A second store with no start
  before it does record a duration. This happens when a Block record is
  lost: Block at 10, Resume at 20, Block at 25, Resume at 30, Resume at 40
  record 10 (`Durations.UnpairedStoreRecords`).
- A task whose miss tracker had no store record makes
  `extract_sched_data` raise ZeroDivisionError at parse/sched.py:322. So
  does a task kept in the statistics with no matching store at
  parse/sched.py:329 (`Aggregate.TaskEntriesRaises`). For example, after one
  Param, one Release and one Completion record of a task, the code gives
  `matches == 0` and `disjoints == 0`.

## Model

| member | source | states |
|---|---|---|
| Common.PyDiv | parse/sched.py:334 | Python 2 integer `/` is floor division: `q*b <= a < q*b + b` for a positive divisor, the mirror image for a negative one |
| Common.Decimal | parse/sched.py:135 | `"%d" % n` is a non-empty string of decimal digits |
| Layout.BitsToBytes | parse/sched.py:101-103 | the result is the fewest whole bytes holding `bits`: `8r >= bits` and `8r < bits + 8` |
| Layout.FieldBytes | parse/sched.py:105-124 | the loop returns the intended packed size (typed bytes plus every bitfield run rounded up to bytes) plus, as written, the bit count of a trailing bitfield run |
| Layout.PlainFieldBytes | parse/sched.py:105-124 | on a field list without bitfields `field_bytes` is the sum of the `sizeof`s |
| Layout.PackedCoversFields | parse/sched.py:111-123 | the corrected size has room for every typed byte and every bitfield bit |
| Layout.FieldBytesTrailingBitfield | parse/sched.py:123-124 | a list holding one 3-bit field needs 1 byte; `field_bytes` returns 4 |
| Layout.Padding | parse/sched.py:134-135 | `n` padding fields, none a bitfield |
| Layout.PaddingSnoc | parse/sched.py:134-135 | each turn of the padding loop appends the field `extra<d>` of type `c_char` |
| Layout.PaddingSize | parse/sched.py:134-135 | padding fields take one byte each |
| Layout.RegisterRecord | parse/sched.py:126-141 | the registry gains, under `id`, header + payload + `max(0, 24 - field_bytes(header) - field_bytes(payload))` padding fields; for a payload without bitfields of at most 16 bytes the result has exactly 24 bytes |
| Layout.HeaderSize | parse/sched.py:205-206 | the common header (`type` u8, `cpu` u8, `pid` u16, `job` u32) is 8 bytes with no bitfield |
| Layout.PayloadSize | parse/sched.py:215-261 | every payload has no bitfield, and its size plus its padding count (1 Param, 0 Release/Completion, 8 otherwise) is 16 |
| Layout.LayoutSize | parse/sched.py:126-141 | every registered kind is exactly RECORD_SIZE = 24 bytes with no bitfield |
| Layout.PadForTag | parse/sched.py:128-135 | the padding `register_record` computes is 1 for Param, 0 for Release and Completion, 8 for Block, Resume, SwitchTo and SwitchAway |
| Layout.RegisterKind | parse/sched.py:126-141 | registering a kind stores exactly its 24-byte layout under its tag and leaves other tags alone |
| Layout.RegisterAll | parse/sched.py:268-274 | after the seven calls the registry is defined exactly on ids {2,3,5,6,7,8,9}, each with its kind's layout |
| Records.TagOf | parse/sched.py:268-274 | every record kind has a registered id |
| Records.LeValue | parse/sched.py:138-140 | the little-endian value of `n` bytes is below `256^n` |
| Records.LeRoundTrip | parse/sched.py:138-140 | reading back the `n` little-endian bytes of a value below `256^n` gives the value |
| Records.LeBytesOfValue | parse/sched.py:138-140 | writing back a decoded value gives the same bytes |
| Records.DecodeFields | parse/sched.py:138-140 | a packed (`_pack_ = 1`) structure decodes to one value per field |
| Records.EncodeFields | parse/sched.py:138-140 | the encoding of a structure is as long as its fields' sizes |
| Records.FieldsRoundTrip | parse/sched.py:138-140 | decoding encoded field values that fit their widths gives them back |
| Records.FieldsReencode | parse/sched.py:138-140 | encoding decoded values gives back the bytes the fields cover |
| Records.DecodedFits | parse/sched.py:138-140 | every decoded value fits its field's width |
| Records.SignedByte | parse/sched.py:156 | `unpack_from('b')` yields -128..127, non-negative exactly when the byte is below 128 |
| Records.Encode | parse/sched.py:98 | every record occupies RECORD_SIZE bytes |
| Records.DecodeEncode | parse/sched.py:153-165 | a well-formed record decodes from its 24 bytes to itself |
| Records.DecodedKind | parse/sched.py:156-163 | a slot that decodes has a non-negative tag byte, and the record's `type` field equals it |
| Records.EncodeDecode | parse/sched.py:153-165 | every decoded record is well formed, and re-encoding gives the slot's bytes up to the padding |
| TraceReader.SlotRecords | parse/sched.py:153-171 | one slot contributes at most one record |
| TraceReader.MakeIterator | parse/sched.py:143-171 | the read loop yields exactly `TraceRecords(file)`, which is empty for an empty file |
| TraceReader.ReadSlot | parse/sched.py:152-171 | one turn of the loop consumes one slot and keeps the yielded records plus those still to come unchanged |
| TraceReader.DecodeSlot | parse/sched.py:155-171 | a slot yields its record unless the tag is unregistered or the job is 1 |
| TraceReader.TraceRecordsValid | parse/sched.py:160-171 | every yielded record is well formed and never of job 1 |
| TraceReader.TraceRecordsAppend | parse/sched.py:152-153 | a file is read slot by slot: whole slots followed by more bytes yield their records first |
| TraceReader.ReadEncodedTrace | parse/sched.py:143-171 | the trace of well-formed records yields them all, in file order, except those of job 1 |
| TraceReader.UnregisteredSlotSkipped | parse/sched.py:160-161 | a slot with an unregistered signed tag yields nothing, and reading goes on |
| Merge.FirstLater | parse/sched.py:187-190 | the scan stops at the first buffered record strictly later than the new one; all before it are no later |
| Merge.AddNextMeasure | parse/sched.py:180-191 | `add_record` moves one record from the iterator to the buffer, or nothing from an exhausted iterator |
| Merge.AddNextSources | parse/sched.py:180-191 | every buffered record names an existing iterator |
| Merge.AddRecord | parse/sched.py:180-191 | the enumerate loop and `buff.insert(i, ...)` compute `AddNext`, whose insertion index is as written: before the first strictly later record, else at `len(buff)-1` |
| Merge.InsertContents | parse/sched.py:191 | insertion adds exactly the new record to the buffer's multiset and its iterator to the buffer's sources |
| Merge.AddNextContents | parse/sched.py:180-191 | no record is lost or duplicated; only iterator `k` advances; an exhausted iterator adds nothing |
| Merge.InsertOnePerSource | parse/sched.py:191 | inserting a record of an iterator with none buffered keeps one record per iterator |
| Merge.FillOnePerSource | parse/sched.py:193-195 | after the initial loop the buffer holds at most one record per file |
| Merge.PopOnePerSource | parse/sched.py:197-200 | each turn of the main loop keeps at most one record per file |
| Merge.PopStep | parse/sched.py:197-200 | a turn keeps every unexhausted iterator represented in the buffer and loses no record |
| Merge.FillMultiset | parse/sched.py:193-195 | the initial loop moves each file's first record to the buffer and loses none |
| Merge.FlattenEmpty | parse/sched.py:197 | once the buffer is empty every iterator is exhausted |
| Merge.MergeFromMultiset | parse/sched.py:197-201 | the main loop processes buffered and unread records, each exactly once |
| Merge.MergedOrderPermutation | parse/sched.py:173-201 | under either policy the processing order is a permutation of all records of all files |
| Merge.MergeFromStep | parse/sched.py:197-201 | one turn emits the buffer head and strictly shrinks buffered plus unread records, so the loop ends |
| Merge.MergedOrderSingle | parse/sched.py:173-201 | with one file the records are processed in file order |
| Merge.InsertSorted | parse/sched.py:187-191 | inserting after the no-later records and before the rest keeps the buffer sorted |
| Merge.InsertAsWrittenSortedIff | parse/sched.py:187-191 | as written, insertion into a sorted buffer keeps it sorted if and only if the buffer is empty or its last record is no earlier than the new one |
| Merge.InsertAsWrittenMisplaces | parse/sched.py:187-191 | as written, a record later than every buffered one lands before the last |
| Merge.InsertCorrectedSorted | parse/sched.py:187-191 | corrected (append when no record is later), insertion keeps a sorted buffer sorted |
| Merge.AddNextOrdered | parse/sched.py:180-191 | corrected, `add_record` keeps the buffer sorted and no pending record later than what its file still holds |
| Merge.MergeFromSorted | parse/sched.py:197-201 | corrected, the main loop emits records in time order |
| Merge.MergedOrderSorted | parse/sched.py:173-201 | corrected, sorted files merge into a sorted order holding every record exactly once |
| Merge.MergeCounterexample | parse/sched.py:187-191 | two files with records at times 5 and 10: as written 10 is processed first; corrected, 5 is |
| Durations.StoreCounts | parse/sched.py:44-52 | a job mismatch only counts a disjoint; a match latches the record and counts a match exactly when a record was already latched |
| Durations.StoreSample | parse/sched.py:46-61 | a duration is recorded exactly when the job matches and `dur > 0`; then `num` rises by one, `max` becomes `max(max, dur)`, `begin` and `next_job` reset to 0; otherwise `num`, `max`, `avg`, `begin` and `next_job` stay |
| Durations.StartEffects | parse/sched.py:65-73 | `start_time` sets `next_job`; it moves `begin` only when a record is latched, to `time` if truthy, else to the latched record's time; nothing else changes |
| Durations.PairedStartStoreRecordsNothing | parse/sched.py:44-73 | a `start_time` without `time` directly followed by its `store_time` never records a duration, whether or not a record is latched |
| Durations.UnpairedStoreRecords | parse/sched.py:44-73 | on a blocks tracker, Block 10, Resume 20, Block 25, Resume 30, Resume 40 record one duration, 10: the match at 30 measures 0 and keeps `begin` at 20 |
| Durations.NewTrackerInv | parse/sched.py:29-42 | a new tracker is consistent |
| Durations.AvgUpdateBounds | parse/sched.py:55-58 | under either policy the updated average stays between 0 and the new maximum |
| Durations.StorePreservesInv | parse/sched.py:44-63 | `store_time` keeps `num <= matches` and `0 <= avg <= max` |
| Durations.StartPreservesInv | parse/sched.py:65-73 | `start_time` keeps the tracker consistent |
| Durations.SampleAvgAsWritten | parse/sched.py:56-58 | as written, the "average" of the recorded durations is the last one divided by their count |
| Durations.SampleAvgCorrected | parse/sched.py:56-58 | corrected, the average times the count is the sum of the recorded durations |
| Durations.AvgCounterexample | parse/sched.py:56 | durations 4 then 2 average 1.0 as written and 3.0 corrected |
| Durations.StoreSummarizes | parse/sched.py:54-58 | each `store_time` keeps `avg` equal to the average of the recorded durations, extended by `dur` when one is recorded |
| Durations.TimeTracker.constructor | parse/sched.py:29-42 | all counters 0, nothing latched, `join_job` stored |
| Durations.TimeTracker.StoreTime | parse/sched.py:44-63 | the fields become `Store` of the old state |
| Durations.TimeTracker.StartTime | parse/sched.py:65-73 | the fields become `Start` of the old state |
| Tasks.LevelLetter | parse/sched.py:220 | `chr(97 + level)` succeeds exactly for levels up to 158, with code `97 + level` |
| Tasks.StepLocal | parse/sched.py:219-264 | a record changes only its own pid's entry, creating it when missing; it raises exactly for a Param record with level above 158 |
| Tasks.StepJobs | parse/sched.py:219-264 | only a Release adds a job, only a Param sets parameters, only a Completion adds a load |
| Tasks.NewTaskInv | parse/sched.py:286-288 | the defaultdict's fresh TaskData has consistent trackers |
| Tasks.StepPreservesInv | parse/sched.py:219-264 | processing a record keeps every task's trackers consistent |
| Tasks.DispatchPreservesInv | parse/sched.py:197-201 | so does processing any sequence of records |
| Tasks.StepLevels | parse/sched.py:219-223 | every level letter stored has a code from 97 to 255 |
| Tasks.DispatchLevels | parse/sched.py:197-201 | so after any sequence of records |
| Tasks.DispatchStops | parse/sched.py:197-201 | after an exception no later record is processed |
| Tasks.Streams | parse/sched.py:193-194 | one record stream per file, each what `make_iterator` yields |
| Tasks.TaskData.constructor | parse/sched.py:286-288 | `TaskData(None, 1, [], TimeTracker(), TimeTracker(), TimeTracker(True))` with three distinct trackers |
| Tasks.TaskData.Process | parse/sched.py:219-264 | for a record that does not raise, each kind's `process` body turns the task's state into `Effect` of it (the raising Param case is `TaskDict.Process`) |
| Tasks.TaskDict.constructor | parse/sched.py:286-288 | the dictionary starts empty |
| Tasks.TaskDict.Get | parse/sched.py:286-288 | `task_dict[pid]` returns the entry, creating a fresh TaskData when it is missing; no other entry changes |
| Tasks.TaskDict.Create | parse/sched.py:286-288 | a missing entry is added as a fresh TaskData and the other entries stay |
| Tasks.TaskDict.Process | parse/sched.py:219-264 | `record.process(task_dict)` raises exactly as `Step` does, touching nothing; otherwise the dictionary becomes `Step` of the old one |
| Tasks.TaskDict.Apply | parse/sched.py:219-264 | a record that does not raise replaces its pid's entry with `Effect` of the old or fresh entry |
| Tasks.StartAll | parse/sched.py:193-195 | one generator per file, then one `add_record` per file in order, as `FillFrom` |
| Tasks.ReadData | parse/sched.py:173-201 | the dictionary ends as processing every record of every file in merged order makes it, stopping at the first exception |
| Tasks.Drain | parse/sched.py:197-201 | the main loop processes exactly `MergeFrom` of the buffer and iterators |
| Tasks.Turn | parse/sched.py:198-201 | one pop, refill and `process`, with at most one record per file kept in the buffer |
| Aggregate.Capitalize | parse/sched.py:92 | `str.capitalize`: same length, first character upper case, the rest lower case |
| Aggregate.ResultNameExample | parse/sched.py:92 | level "b" and "miss-ratio" give "B-miss-ratio"; an empty level gives the bare name |
| Aggregate.ResultNameInjective | parse/sched.py:92 | for one-letter levels, two lists get the same name if and only if they have the same level and metric |
| Aggregate.AddSampleEffect | parse/sched.py:80-83 | `add` appends the values to one list, creating it when missing, and changes no other list |
| Aggregate.AddEntriesSnoc | parse/sched.py:80-83 | adds apply in order |
| Aggregate.TaskEntriesRaises | parse/sched.py:322-334 | the task loop raises ZeroDivisionError exactly for a task with params and no store records, or one kept with no match or period 0 |
| Aggregate.TaskEntriesShape | parse/sched.py:314-341 | tasks without params add nothing; record-loss comes first; a task with loss strictly above the threshold adds nothing else; a kept task adds all six metrics plus LOAD exactly for level 'b'; all at the task's level |
| Aggregate.TardEntriesBounds | parse/sched.py:329-335 | with consistent trackers the miss ratio is in [0, 1] and the average tardiness is at most `max / period` |
| Aggregate.TaskEntriesBounds | parse/sched.py:322-335 | for a kept task the record loss and miss ratio lie in [0, 1] and average tardiness is at most `max / period` |
| Aggregate.CollectLevels | parse/sched.py:314-341 | every level the statistics record is a single level letter |
| Aggregate.LeveledArray.constructor | parse/sched.py:77-78 | no lists |
| Aggregate.LeveledArray.Add | parse/sched.py:80-83 | the lists become `AddSample` of the old ones |
| Aggregate.LeveledArray.WriteMeasurements | parse/sched.py:85-93 | `result` gains exactly one name per (metric, level) list, keeps its other entries, and with letter levels each name holds its list |
| Aggregate.LeveledArray.WrittenAll | parse/sched.py:85-93 | once every list is visited the result is complete |
| Aggregate.LeveledArray.WriteOne | parse/sched.py:92-93 | one list is written under its name without overwriting another list's |
| Aggregate.NamesOfPairs | parse/sched.py:86-92 | the names written are the names of the lists visited |
| Aggregate.AddEntriesAppend | parse/sched.py:323-341 | adds in sequence compose |
| Aggregate.AddTask | parse/sched.py:315-341 | one task's statements add exactly `TaskEntries` or raise its error |
| Aggregate.AddTardiness | parse/sched.py:329-335 | raises ZeroDivisionError exactly for no match or period 0; otherwise adds the three tardiness entries |
| Aggregate.AddBlocking | parse/sched.py:337-341 | adds the two blocking entries in milliseconds, and LOAD for level 'b' |
| Aggregate.IteratesVisitsAll | parse/sched.py:314 | an order of distinct keys, as many as the entries of `task_dict`, visits every task exactly once |
| Aggregate.ExtractSchedData | parse/sched.py:310-343 | over an order that visits every task once, an exception in the task loop is returned with `result` untouched; otherwise `result` holds the lists the loop collected, under letter levels |
| Coloring.CeilDiv | gen/color.py:32 | `int(ceil(float(a)/b))` is the least `q` with `a <= q*b` |
| Coloring.ColorSumUpdate | gen/color.py:69 | setting one colour changes the page total by the difference |
| Coloring.ColorSumFull | gen/color.py:64-67 | when every colour is full the total is `colors * ways` |
| Coloring.BlockSizes | gen/color.py:29-36 | way first: `ppc = min(ways, pages)`, `cpt = ceil(pages/ppc)`; colour first: roles swapped; ZeroDivisionError exactly when no page is needed or the dimension filled first is 0 |
| Coloring.BlockMap | gen/color.py:41-44 | a CPU's map uses colours of the cache only, each set to `pages_per_color` |
| Coloring.BlockMapKeys | gen/color.py:42-44 | the colours of a CPU's map are `(start + j) mod colors` for `j < colors_per_task` |
| Coloring.BlockMapSum | gen/color.py:42-46 | a block holds `min(cpt, colors) * ppc` pages, the cursor wrapping at the last colour |
| Coloring.BlockShort | gen/color.py:46-47 | a block holds fewer than `pages_needed` pages exactly when there are more colours per task than colours |
| Coloring.BlockSchemeFails | gen/color.py:29-47 | "Failed to block color cpu" is raised exactly when there is a CPU, the cache is non-empty, pages go way first, and they exceed `ways * colors`; colour first never fails |
| Coloring.BlockSchemeMaps | gen/color.py:38-50 | on success each CPU's map covers the pages needed with `pages_per_color` in each colour, and colour `j` of the `k`-th CPU is `(k*cpt + j) mod colors` |
| Coloring.BlockColor | gen/color.py:22-50 | on an exception no task's colours change; otherwise every task gets its CPU's block, the same map for all tasks of a CPU |
| Coloring.ColorCpus | gen/color.py:38-50 | the CPU loop raises ZeroDivisionError without colours and "Failed to block color" when a block is short, and otherwise paints every task with its CPU's map |
| Coloring.CpuBlock | gen/color.py:41-47 | one CPU's block and the cursor after it, or the exception for it |
| Coloring.PaintedAll | gen/color.py:49-50 | after all CPUs every task carries its CPU's map |
| Coloring.PaintCpu | gen/color.py:49-50 | the `k`-th CPU's tasks get its map; the tasks of later CPUs keep theirs |
| Coloring.AssignGroup | gen/color.py:49-50 | every task of the group gets the map |
| Coloring.NextBlock | gen/color.py:41-44 | the inner loop builds `BlockMap(curr, cpt)` and leaves the cursor at `(curr + cpt) mod colors`; `% 0` raises |
| Coloring.GroupByCpu | gen/color.py:25-27 | every task is in its CPU's group and groups hold only tasks of that CPU |
| Coloring.RandomColor | gen/color.py:52-69 | raises "Too many pages" exactly when `pages_needed >= ways * colors`, touching nothing; otherwise each task's map has counts from 1 to `ways` in cache colours summing to `pages_needed` |
| Coloring.Scatter | gen/color.py:60-69 | for any sequence of colour choices that are not yet full, the page loop ends with such a map |
| Coloring.EvilPrefixSum | gen/color.py:77-81 | every colour before the last holds `ways` pages |
| Coloring.EvilMapShape | gen/color.py:74-81 | colours `0..k-1` with `k = ceil(pages/ways)`; all but the last hold `ways`, the last 1 to `ways`, summing to `pages_needed` |
| Coloring.EvilColor | gen/color.py:72-84 | every task gets the same evil map |
| Coloring.EvilFill | gen/color.py:74-81 | the while loop builds `EvilMap` |
| McGen.ArgMin | gen/mc_generators.py:112 | `utils.index(min(utils))`: a minimum, with every earlier entry strictly larger |
| McGen.Choices | gen/mc_generators.py:111-112 | every choice is one of the CPUs |
| McGen.WorstFitStep | gen/mc_generators.py:111-115 | the `i`-th task's CPU is the first minimum of the loads the earlier tasks left |
| McGen.WorstFitChoice | gen/mc_generators.py:111-115 | the chosen CPU has the least load, and every lower-indexed CPU has strictly more |
| McGen.WorstFitBalanced | gen/mc_generators.py:108-115 | with utilizations in `[0, hi]` no two CPUs' loads differ by more than `hi` |
| McGen.LoadsConserve | gen/mc_generators.py:115 | the CPUs' loads add up to the utilization placed |
| McGen.IdsIncrease | gen/mc_generators.py:113-116 | later tasks on a CPU get larger level-A ids |
| McGen.IdsCover | gen/mc_generators.py:113-116 | the ids on a CPU are `0 .. count-1`, each taken by a task placed there |
| McGen.PartitionWorstFit | gen/mc_generators.py:102-119 | one CPU fewer with a release master; ValueError when there is no CPU and a task; otherwise each task's cpu is its worst-fit choice + 1 (so in `1..cpus'`) and its `lvla_id` the count already there |
| McGen.Partition | gen/mc_generators.py:108-119 | the loop places every task by worst fit with its per-CPU id |
| McGen.PlaceAll | gen/mc_generators.py:109-119 | `utils[c]` is the load and `tasks[c]` the task count on `c` after each step |
| McGen.PlaceTask | gen/mc_generators.py:112-119 | one task is placed and the arrays updated |
| McGen.Adjust | gen/mc_generators.py:121-131 | fewer than four levels drop the last share, fewer than three also the first and lower the level; IndexError on an empty list |
| McGen.AdjustShares | gen/mc_generators.py:121-131 | the pops on the copied list compute `Adjust`, the caller's shares unchanged |
| McGen.SliceTo | gen/mc_generators.py:135 | Python `xs[:k]`, negative `k` counting from the end |
| McGen.Index | gen/mc_generators.py:135 | Python `xs[i]`: IndexError out of range, negative `i` from the end |
| McGen.ScaleBounds | gen/mc_generators.py:137-139 | for non-negative shares the scale lies in `[0, 1]` |
| McGen.ScaleLast | gen/mc_generators.py:137-139 | the scale of the last used level is 1 |
| McGen.LevelCScaleIsOne | gen/mc_generators.py:121-139 | with four shares and two or three levels, level C's scale is 1 |
| McGen.ScaleMonotone | gen/mc_generators.py:137-139 | scales do not decrease with the level |
| McGen.MaxUtilBounds | gen/mc_generators.py:133-135 | the maximum utilization lies in `[0, cpus]` |
| McGen.ExpParams.ConfigOptions | gen/mc_generators.py:205-214 | PLUGIN_MC always; MERGE_TIMERS, PLUGIN_MC_REDIRECT, PLUGIN_MC_LINUX_SLACK_STEALING exactly with their flags; all "y"; redirect forces the release master |
| McGen.ScaleListSound | gen/mc_generators.py:216-219 | every scale entry names a level with tasks and holds its scale |
| McGen.ScaleListComplete | gen/mc_generators.py:216-219 | every level with tasks has a scale entry |
| McGen.ScaleListError | gen/mc_generators.py:216-219 | a failing list fails on a level with tasks |
| McGen.Scales | gen/mc_generators.py:216-219 | the loop builds `ScaleList` or returns its first exception |
| McGen.WssPagesSpec | gen/mc_generators.py:352-362 | accepted exactly when `0 < page_size <= wss < (ways*colors + 1) * page_size`; below a page raises "too small", page size 0 raises ZeroDivisionError, any other refusal is "too large"; the result is `wss // page_size`, between 1 and `ways * colors` |
| McGen.AssignIds | gen/mc_generators.py:397-403 | the tasks get ids `0..n-1` in `all_tasks` order and the same rounded working set |
| McGen.InAllTasks | gen/mc_generators.py:398-400 | every task of every level is in `all_tasks` |
| McGen.LevelsDisjoint | gen/mc_generators.py:398-400 | with no task listed twice, levels B and C share no task |
| McGen.OffsetOf | gen/mc_generators.py:398-400 | each level's tasks sit contiguously in `all_tasks` |
| McGen.EvilLevels | gen/mc_generators.py:409-417 | unmanaged: both levels get the same evil map |
| McGen.ManagedLevels | gen/mc_generators.py:412-417 | managed: level B is block coloured way first, then level C randomly; an exception in the first skips the second |
| McGen.BlockBesides | gen/mc_generators.py:414-416 | block colouring of level B leaves level C alone |
| McGen.ScatterBesides | gen/mc_generators.py:413-417 | random colouring of level C leaves level B alone |
| McGen.Customize | gen/mc_generators.py:392-417 | a refused working set raises before anything changes; otherwise ids `0..n-1` and `real_wss` on every task, then the colouring of the chosen type with its exceptions |

## Left out

- File and process I/O are left out: `os.path.getsize`, `open`, `os.listdir`, filename matching, the `st_show` subprocess, and the `__all_dicts` cache of `create_task_dict`. The model reads trace files as byte sequences and begins with the dictionary `read_data` receives.
- TraceReader.TraceRecords: a trailing slot shorter than 24 bytes ends the file. The source unpacks its tag and, when the tag is registered, copies 24 bytes from the shorter buffer, which reads memory outside it. That case is not modelled.
- ctypes `LittleEndianStructure`, `memmove` and `struct.unpack_from` are replaced by an explicit little-endian decoder over the registered field list.
- Integer widths of decoded fields are bounded by their layout (`Fits`). Arithmetic on them (`when + period`) is on unbounded integers, as in Python.
- Floating point is exact `real`. This covers `float(load) / NSEC_PER_USEC`, the loss and miss ratios, the tardiness and averages, and `__get_scale` / `__get_max_util`. Rounding is not modelled.
- `Measurement(name).from_array(values)` comes from a module not shown. The result maps each name to its sample list instead of a summary.
- `log_once` is a no-op. `conf.MAX_RECORD_LOSS` is the parameter `maxLoss`.
- Dictionary iteration orders are parameters: `task_dict.itervalues()` (any order holding each task once, `Aggregate.Iterates`), `vals.iteritems()` (any order, since the names are distinct), `cpus.iteritems()` and `task_system.iteritems()`.
- Coloring.BlockColor: the task groups of `cpus` come from a `defaultdict(list)` over the given tasks. Callers pass the CPU order and the fact that each CPU of it has a task.
- Shared maps are values. `BlockColorScheme` and `EvilColorScheme` give every task of a group the same dictionary object, and the model gives them equal maps. Later aliasing through that shared object is not modelled.
- Coloring.EvilColor requires `ways > 0` or no pages needed. Otherwise the source's `while pages_needed > 0` loop never ends. `_customize` only calls it with at least one page and a non-empty cache.
- Coloring.RandomColor: each `randint` retry loop is one nondeterministic choice of a colour that is not full. The distribution and retry count are not modelled.
- McGen.PartitionWorstFit, AssignIds: the source iterates over Python lists of task objects. The model requires those lists to hold no object twice (`Distinct`), which the generator's fresh task lists satisfy.
- Task generation is not modelled: `_create_dist`, `_create_taskset`, periods, `budget`/`wcet` and the `self.tasksets` cache of `_get_tasks`. Neither are `__get_loops`, `__make_csv`, `_write_schedule`, `_write_params` and the Cheetah templates. Each task's utilization is the field `util`.
- McGen.WssPages models only the integer branch of `__get_wss_pages`. The float branch (`wss <= 1.0` as a fraction of the cache) is left out.
- `extract_scaling_data` is not modelled: it is unreachable after its early `return`.
- parse_exps.py, gen/edf_generators.py, gen/__init__.py, plot/style.py, run/proc_entry.py and `get_cache_info` are not part of this model.

## Findings

| source | as written | input that shows it | evidently intended | confidence | as-written member | corrected member |
|---|---|---|---|---|---|---|
| parse/sched.py:187-191 | when no buffered record is later, `i` stays at the last index and the record is inserted before the last buffered one | two files holding one Block record each, at times 5 and 10: 10 is processed before 5 | append at the end, so the merge is in time order ("Ordered insertion") | high; not executed | Merge.MergeCounterexample, Merge.InsertAsWrittenSortedIff | Merge.InsertCorrectedSorted, Merge.MergedOrderSorted |
| parse/sched.py:56 | `float(self.num / (self.num + 1))` divides integers in Python 2 and is 0, so `avg` is the last duration divided by the count | durations 4 then 2 give `avg == 1.0` | a running mean, 3.0 | high; not executed | Durations.SampleAvgAsWritten, Durations.AvgCounterexample | Durations.SampleAvgCorrected |
| parse/sched.py:123-124 | `field_bytes` returns `fbytes + fbits`, adding the trailing bitfield run's bit count to a byte count | one 3-bit field: 4 bytes instead of 1 | return `fbytes` once the run is rounded up | medium (no registered layout has bitfields); not executed | Layout.FieldBytesTrailingBitfield, Layout.FieldBytes | Layout.PackedCoversFields |
