# Hierarchical workload engine of the database energy benchmarker

This project models the core of a benchmark driver that compares PostgreSQL
(a JSONB column) with MongoDB under read-heavy and write-heavy workloads, on
documents nested to a chosen depth. It covers three parts:

- **Document generator** (`DataGenerator`). `generate_nested_data` builds
  `count` single-child chains of depth `depth`. Every level above the leaf
  holds a lorem word in `field` and a one-element `children` array. The leaf
  holds `read_target` and a 16-character alphanumeric `write_target`. The
  documents at even indices carry the sentinel `"read_target"`.
  `generate_fixed_size_word` appends alphanumeric chunks of at most 32
  characters. JSON values are the datatype `Json.Value`. The generator's
  objects list their members in the order the code inserts them. Every
  contract about them looks members up by key, so none depends on whether
  serde_json is built with sorted maps or with `preserve_order`.
- **Query translators** (`Postgres`, `MongoDB`). The PostgreSQL side builds
  the `children,0,` path arrays, the containment document for `@>`, and the
  SQL text of the read and the update. The MongoDB side builds the dotted
  paths, the update filter, the `$set` update, the two-stage aggregation
  pipeline and the index keys.
- **Ratio scheduler and measurement window** (`Workload`, and `run_queries`
  in each backend). `run_read_heavy` and `run_write_heavy` are nested loops
  over a testbed. The testbed (`Workload.Testbed`) records every client call
  and every start and stop of the power monitor in a trace. It also counts
  the calls. A failure oracle `fails(k)` decides whether the `k`-th call
  returns an error. Each run method is proved equal to a specification
  function (`ReadHeavy`, `WriteHeavy`, `Queries`). Lemmas about those
  functions give the exact operation counts, the order of operations and
  the state of the window on every exit path. The harness (`Harness`)
  supplies the measurement names, the fixed 1000/200 operation counts, and
  the idle baseline.

Randomness is an input. The generator takes `word(doc, level)` for lorem
words and `sample(doc, k, n)` for the `k`-th alphanumeric chunk of `n`
characters. These are constrained only by length and alphabet
(`IsAlphanumericSampler`). Elapsed times are an input too (`elapsed`).

Behaviour of the code worth knowing:

- `depth == 0` is not rejected before I/O. PostgreSQL computes `depth - 1`
  on `u8` and `depth as usize - 1`. MongoDB computes `depth as usize - 1` in
  `create_read_path`, which runs before anything else, even when there is no
  client and the index is asked for. The model treats these as overflow
  panics (`Outcome.Panic(SubtractOverflow)`), as a build with overflow
  checks does.
- A zero divisor is not rejected with an error either. PostgreSQL divides
  before its loops and panics (`Panic(DivisionByZero)`). MongoDB divides
  inside the outer loop, so zero rounds never divide: its run returns `Ok`
  having issued no call.
- The remainder of `num_reads / num_writes` is dropped
  (`Workload.ScheduleCounts`).
- An error from a read or a write returns through `?` with the power
  monitor still running and its window still open. Only a run that returns
  `Ok` closes the window.
- The update value is drawn once per run, before the loops. Every write of a
  run stores the same 16 characters.
- `generate_fixed_size_word` never draws more than it needs. Its final
  truncation never shortens the word.
- MongoDB's update filter compares the read path with `"read-target"`, with
  a hyphen. The generator writes the sentinel `"read_target"`, so the filter
  never equals the `$match` of the read pipeline on a targetable document
  (`MongoDB.MatchAndFilter`). This is reproduced as written.
- MongoDB's read path has no `.0.` segments, but its write path does. Read
  step by step through members and array indices (`Json.Navigate`), the
  write path reaches the leaf and the read path, below depth 1, does not. The
  read path relies on MongoDB's implicit traversal of array elements
  (`MongoDB.PathsAgainstDocuments`).

## Model

| member | source | states |
|---|---|---|
| `DataGenerator.GenerateFixedSizeWord` | src/benchmark/data_generator.rs:66-82 | The loop keeps `|result| <= byte_size`, since each chunk is `min(remaining, 32)`. The result equals the chunk concatenation `FixedSizeWord`, has exactly `byte_size` characters and is all alphanumeric. The truncation never shortens it. |
| `DataGenerator.FixedSizeWord` | src/benchmark/data_generator.rs:66-81 | Drawn from an alphanumeric sampler, the concatenated chunks have exactly the requested length, in letters and digits only. |
| `DataGenerator.GenerateNestedData` | src/benchmark/data_generator.rs:28-38 | The result is a JSON array of exactly `count` documents. Document `i` is built by `build_level(1, depth, i % 2 == 0)`. |
| `DataGenerator.BuildLevel` | src/benchmark/data_generator.rs:40-63 | A level at or above the leaf has two members and one below it (depth 0) has one. The leaf holds `read_target` and then `write_target`, the same order sorted or as inserted. Every other level holds its own word as `field`, found by key. |
| `DataGenerator.BuildLevelIsChain` | src/benchmark/data_generator.rs:40-63 | For `current <= max`, every level above the leaf has a `field` word and a `children` array of exactly one element. The leaf sits `max - current` levels down and holds exactly `read_target` and a 16-character alphanumeric `write_target`. |
| `DataGenerator.BuildLevelLeaf` | src/benchmark/data_generator.rs:43-53 | Walking `children`, `0` down the chain reaches a leaf. Its `read_target` is the sentinel when asked for, and otherwise the word drawn for that level. Its `write_target` is the drawn fixed-size word. |
| `DataGenerator.DepthZeroDocuments` | src/benchmark/data_generator.rs:54-62 | With depth 0 (`max < current`), every document is an object with a `field` only, and no `children` and no leaf. |
| `DataGenerator.DocumentShape` | src/benchmark/data_generator.rs:28-53 | For depth at least 1, every generated document is a chain of exactly `depth` levels. Its leaf's read target is the sentinel for even indices and the drawn word for odd ones. Its write target has 16 characters. |
| `DataGenerator.TargetableAtLeast` | src/benchmark/data_generator.rs:31-33 | For any word source, every even-indexed document is targetable, so at least `ceil(count / 2)` documents are. |
| `DataGenerator.TargetableCount` | src/benchmark/data_generator.rs:31-33 | If the word source never draws the sentinel at the leaf, document `i` is targetable if and only if `i` is even, so exactly `ceil(count / 2)` documents are targetable. |
| `Workload.InterleaveCounts` | src/databases/postgres.rs:181-187 | `outer` rounds of `inner` majors and one minor issue `outer * inner` majors and `outer` minors. |
| `Workload.InterleaveAt` | src/databases/postgres.rs:204-210 | Round `q` is its `inner` majors followed by exactly one minor, so every minor follows its own batch. |
| `Workload.InterleavePrefix` | src/databases/postgres.rs:181-187 | A run stopped after `i` rounds has issued a prefix of the full schedule. |
| `Workload.IssueSpec` | src/databases/postgres.rs:183-186 | Issuing with `?`: the calls issued are a prefix of the schedule. The run succeeds if and only if every call does, and then it issued them all. Otherwise the last call issued is the first that failed, and all calls before it succeeded. |
| `Workload.ScheduleCounts` | src/databases/postgres.rs:177-211 | A read-heavy schedule issues `num_writes * (num_reads / num_writes) = num_reads - num_reads % num_writes` reads and `num_writes` writes. A write-heavy schedule is the mirror image. Nothing else is issued. |
| `Workload.WindowedSpec` | src/databases/postgres.rs:107-115 | The window opens first. It is still open afterwards if and only if the run did not return `Ok`. The last event closes the window if and only if it did. Every call is counted. |
| `Workload.MeasuredShape` | src/databases/mongodb.rs:85-101 | After the index calls, the window opens immediately. It is left open if and only if the measured run did not return `Ok`. |
| `Workload.Testbed.Send` | src/databases/postgres.rs:183 | One client call is recorded and counted. It fails exactly when the failure oracle says so. The monitor is unchanged. |
| `Workload.Testbed.StartPowerMonitoring` | src/metrics/pcm.rs:9-30 | A window is open, and its opening is recorded under its file name. |
| `Workload.Testbed.StopPowerMonitoring` | src/metrics/pcm.rs:4-7 | No window is open, and the window's closing is recorded. |
| `Workload.Testbed.SendRepeatedly` | src/databases/postgres.rs:182-184 | The inner loop issues `n` equal calls, up to and including the first that fails. The trace and the call count grow by exactly the calls `Issue` says. |
| `Workload.Testbed.RunRound` | src/databases/postgres.rs:181-187 | One round is `inner` calls of the majority operation and then one of the minority, stopping at the first failure. |
| `Workload.Testbed.RunInterleaved` | src/databases/postgres.rs:204-210 | The nested loops leave the trace and the call count as `Issue` applied to `Interleave(outer, inner, major, minor)` says, and return whether every call succeeded. |
| `Postgres.ReadPath` | src/databases/postgres.rs:239-241 | The read path is `11 * depth` characters long and ends with `read_target`. |
| `Postgres.WritePath` | src/databases/postgres.rs:242-244 | The write path is one character longer than the read path, ends with `write_target`, and agrees with the read path before the leaf field. |
| `Postgres.PathSegments` | src/databases/postgres.rs:239-244 | The read and the write path are `depth - 1` steps of `children,0` and then the leaf field, joined with commas. Split at the commas, each has `2 * depth - 1` segments, and they differ only in the last one. |
| `Postgres.PathsAddressLeaf` | src/databases/postgres.rs:239-244 | In every generated document of the same depth, the read path leads to the leaf's read target (the sentinel for even documents). The write path leads to the 16-character write target. |
| `Postgres.Containment` | src/databases/postgres.rs:227-238 | Following `children`, `0` for `depth - 1` levels in the containment document leads to `{"read_target": "read_target"}`. |
| `Postgres.CreateContainmentJson` | src/databases/postgres.rs:227-238 | The cursor loop builds `depth - 1` nested one-element `children` arrays around `{"read_target": "read_target"}`. |
| `Postgres.ContainmentShape` | src/databases/postgres.rs:227-238 | The containment document has the path shape of a targetable document. The read path leads in it to the sentinel. A document agrees with it at the leaf if and only if it is targetable. |
| `Postgres.SqlText` | src/databases/postgres.rs:143-167 | The index statement begins with `CREATE INDEX`, the read with `SELECT` and the write with `UPDATE`. |
| `Postgres.ReadStatementMeaning` | src/databases/postgres.rs:143-151 | The read's text ends with the containment test on the containment document. Its path, split at the commas, leads in that document to the sentinel. |
| `Postgres.WriteStatementMeaning` | src/databases/postgres.rs:153-167 | The update's text ends with the same containment test. It carries the stored value right after a prefix fixed by the depth. |
| `Postgres.SelectFiltersRows` | src/databases/postgres.rs:143-151 | The read query's text ends with the containment test on the containment document. |
| `Postgres.UpdateCarriesValue` | src/databases/postgres.rs:153-167 | The update text ends with the same containment test. It carries the stored value right after a prefix that depends only on the path. Among values of one length, equal texts mean equal values. |
| `Postgres.ReadHeavy` | src/databases/postgres.rs:169-190 | The read-heavy run panics exactly when there are no writes or no statements were prepared (depth 0), and then issues nothing. An error follows an issued call. A run that returns `Ok` issued its whole schedule. |
| `Postgres.WriteHeavy` | src/databases/postgres.rs:192-212 | The write-heavy run panics exactly when there are no reads or no statements were prepared (depth 0), and then issues nothing. An error follows an issued call. A run that returns `Ok` issued its whole schedule. |
| `Postgres.PreparedOnce` | src/databases/postgres.rs:177-179 | A run prepares one write holding one 16-character alphanumeric value, used by every write of the run. The read differs from the write. |
| `Postgres.BranchSpec` | src/databases/postgres.rs:108-114 | The branch is read-heavy if and only if `num_reads > num_writes`. It panics before any call exactly on a zero divisor or depth 0, and a zero divisor comes first. Otherwise it issues its schedule as `Issue` does. |
| `Postgres.QueriesWindow` | src/databases/postgres.rs:100-117 | Without a client, `run_queries` does nothing and returns `Ok`. A failing index creation returns before the window opens. Otherwise the window opens right after the index and stays open exactly when the branch fails or panics. |
| `Postgres.QueriesOk` | src/databases/postgres.rs:100-117 | A connected run that returns `Ok` has issued the optional index call. It then opened the window, issued the whole schedule and closed the window, in that order. |
| `Postgres.RunReadHeavy` | src/databases/postgres.rs:169-190 | The read-heavy loops leave the testbed as `ReadHeavy` says. The monitor is untouched. |
| `Postgres.RunWriteHeavy` | src/databases/postgres.rs:192-212 | The write-heavy loops leave the testbed as `WriteHeavy` says. The monitor is untouched. |
| `Postgres.RunBranch` | src/databases/postgres.rs:108-114 | The branch `num_reads > num_writes` chooses leaves the testbed as `Branch` says. |
| `Postgres.Measure` | src/databases/postgres.rs:107-115 | The window opens, the branch runs, and the window closes only when the branch returned `Ok`. The calls are counted and the monitor is left as the events say. |
| `Postgres.RunQueries` | src/databases/postgres.rs:91-118 | `run_queries` records the events of `Queries`, counts its calls, and leaves the monitor as those events say. |
| `MongoDB.ReadPath` | src/databases/mongodb.rs:129-131 | The read path is `9 * (depth - 1) + 11` characters long and ends with `read_target`. |
| `MongoDB.WritePath` | src/databases/mongodb.rs:133-135 | The write path is `11 * (depth - 1) + 12` characters long, ends with `write_target`, and from depth 2 on is longer than the read path. |
| `MongoDB.PathSegments` | src/databases/mongodb.rs:129-135 | Split at the dots, the read path is `depth - 1` segments `children` and then `read_target`, with no `0`. The write path is `children`, `0` by turns and then `write_target`, with `2 * depth - 1` segments. |
| `MongoDB.PathsAgainstDocuments` | src/databases/mongodb.rs:129-135 | Read step by step, the write path leads to every generated document's 16-character write target. The read path leads to the leaf only at depth 1. |
| `MongoDB.MatchAndFilter` | src/databases/mongodb.rs:137-140 | The update filter (`ReadFilter`) tests the pipeline's path. Against `"read-target"`, it is not the match a targetable generated document satisfies. |
| `MongoDB.UpdateSetsWriteTarget` | src/databases/mongodb.rs:142-151 | The update is one `$set` of one field to the drawn value. Split at the dots, that field leads in every generated document to its 16-character write target. |
| `MongoDB.PipelineProjectsMatchedPath` | src/databases/mongodb.rs:159-174 | The pipeline (`ReadPipeline`) has two stages: `$match` of the read path against the sentinel, then `$project` dropping `_id` and keeping `value` taken from that same path. The index keys (`IndexKeys`) are on that path. |
| `MongoDB.BatchSize` | src/databases/mongodb.rs:186 | `num_doc as u32` keeps the low 32 bits and leaves smaller counts unchanged. |
| `MongoDB.ReadHeavy` | src/databases/mongodb.rs:176-202 | The read-heavy run panics exactly when no statements were prepared (depth 0). It issues nothing then or when there are no writes. An error follows an issued call. A run that returns `Ok` issued its whole schedule, or nothing for zero writes. |
| `MongoDB.WriteHeavy` | src/databases/mongodb.rs:204-231 | The write-heavy run panics exactly when no statements were prepared (depth 0). It issues nothing then or when there are no reads. An error follows an issued call. A run that returns `Ok` issued its whole schedule, or nothing for zero reads. |
| `MongoDB.PreparedOnce` | src/databases/mongodb.rs:185-188 | A run prepares one update holding one 16-character alphanumeric value, used by every update of the run. The read is a two-stage aggregation, different from the update. |
| `MongoDB.BranchSpec` | src/databases/mongodb.rs:94-100 | The branch panics before any call exactly when depth is 0. With a zero divisor it returns `Ok` having issued nothing. Otherwise it issues its schedule as `Issue` does. |
| `MongoDB.QueriesWindow` | src/databases/mongodb.rs:85-104 | Asking for the index at depth 0 panics, with or without a client. Without a client nothing else happens. A failing index creation returns before the window. Otherwise the window opens after the index and stays open exactly when the branch fails. |
| `MongoDB.QueriesOk` | src/databases/mongodb.rs:85-104 | A connected run that returns `Ok` has issued the optional index call. It then opened the window, issued the whole schedule (nothing for a zero divisor) and closed the window. |
| `MongoDB.IndexRun` | src/databases/mongodb.rs:115-127 | Index creation panics exactly at depth 0. It issues a call exactly when there is a client and the depth is at least 1, and that call is the index on the read path. It fails exactly when that call does. |
| `MongoDB.CreateIndexOn` | src/databases/mongodb.rs:115-127 | `create_index` panics at depth 0 before looking at the client. Without a client it issues nothing. Otherwise it issues one index creation on the read path. |
| `MongoDB.RunReadHeavy` | src/databases/mongodb.rs:176-202 | The read-heavy loops leave the testbed as `ReadHeavy` says. |
| `MongoDB.RunWriteHeavy` | src/databases/mongodb.rs:204-231 | The write-heavy loops leave the testbed as `WriteHeavy` says. |
| `MongoDB.RunBranch` | src/databases/mongodb.rs:94-100 | The branch `num_reads > num_writes` chooses leaves the testbed as `Branch` says. |
| `MongoDB.Measure` | src/databases/mongodb.rs:93-101 | The window opens, the branch runs, and the window closes only when the branch returned `Ok`. |
| `MongoDB.RunQueries` | src/databases/mongodb.rs:76-105 | `run_queries` records the events of `Queries`, counts its calls, and leaves the monitor as those events say. |
| `Harness.MeasurementName` | src/benchmark/harness.rs:16-22 | A measurement name starts with `{name}_{kind}_depth_` and is a `.csv` file's. |
| `Harness.ParseMeasurementNameRoundTrip` | src/benchmark/harness.rs:16-22 | A measurement name `{name}_{kind}_depth_{depth}_epoch_{epoch}[_with_index].csv` reads back as its backend, shape, depth, epoch and index flag. |
| `Harness.MeasurementNameInjective` | src/benchmark/harness.rs:42-48 | Different (backend, shape, depth, epoch, index) combinations write different CSV files. |
| `Harness.IdleName` | src/benchmark/harness.rs:63 | The idle baseline's name starts with `Control Test C1 epoch ` and is a `.csv` file's. |
| `Harness.IdleNameRoundTrip` | src/benchmark/harness.rs:63 | `Control Test C1 epoch {epoch}.csv` reads back as its epoch and is never a workload measurement's name. |
| `Harness.FixedCounts` | src/benchmark/harness.rs:24-28 | 1000/200 takes the read-heavy branch and 200/1000 the write-heavy one, both with ratio 5. The schedule holds exactly the requested reads and writes, 1200 calls in all. |
| `Harness.Benchmark` | src/benchmark/harness.rs:9-59 | A duration, the elapsed time, is returned if and only if `run_queries` returned `Ok`. Without a client nothing is issued, and a duration is still returned unless MongoDB asks for the index at depth 0. |
| `Harness.BenchmarkOk` | src/benchmark/harness.rs:50-58 | For a run with a client, a duration is returned if and only if `run_queries` returned `Ok`. Then the depth was at least 1, and the window held the full schedule: exactly the fixed numbers of reads and writes. |
| `Harness.RunQueries` | src/benchmark/harness.rs:28-29 | Dispatching to the chosen backend's `run_queries` leaves the testbed as `Queries` says. |
| `Harness.RunReadHeavy` | src/benchmark/harness.rs:9-33 | `run_read_heavy` leaves the trace, the call count and the monitor, and returns the outcome and duration, as `Benchmark` says for the read-heavy shape. |
| `Harness.RunWriteHeavy` | src/benchmark/harness.rs:35-59 | `run_write_heavy` does the same for the write-heavy shape, call count included. |
| `Harness.MeasureIdleEnergyConsumption` | src/benchmark/harness.rs:61-70 | The idle baseline opens its epoch's window and closes it with no call in between. The monitor ends stopped. |

## Left out

- Backend I/O is not modelled: `connect`, `disconnect`, `clean_database`,
  `insert_test_data`, `create_table`, the locked client handle and the
  background connection task. These are network calls and concurrency. Each
  client call is an abstract event whose success is an input.
- The semantics of SQL, JSONB and BSON are not modelled: whether a query
  matches rows, and MongoDB's implicit array traversal. Queries are modelled
  as text or JSON terms.
- A MongoDB read is one `aggregate` call with its cursor drained. The model
  does not separate a failing `aggregate` from a failing `try_collect`.
- `generate_and_save_data`, `load_test_data` and the fixture files are not
  modelled (file system).
- `main.rs`, the binary entry point and the module re-exports are
  orchestration only and are not modelled.
- The power monitor process (`pcm`, its arguments, the directory creation,
  `kill` and `wait`) is modelled only as an open/closed flag and a
  recorded file name. The flag says whether the most recently opened window
  is still open. A window left open by an error is never closed: its `Child`
  is dropped without `kill`, so that `pcm` process keeps running after a
  later window closes. The model does not track such leaked processes.
- The `expect` panics of the power monitor are not modelled: a failure to
  spawn `pcm` in `start_power_monitoring` (src/metrics/pcm.rs:26) and a
  failure to kill it in `stop_power_monitoring` (src/metrics/pcm.rs:5).
  Starting and stopping the monitor always succeed in the model.
- Timing (`Instant`, the 1800-second sleep) is not modelled. Elapsed times
  are inputs.
- True randomness (`Word().fake`, `Alphanumeric`, `thread_rng`) is replaced
  by oracle inputs constrained only by length and alphabet.
- `DataGenerator.TargetableCount`: also requires that the word source never
  draws the sentinel at the leaf level. The code does not guarantee this:
  a non-targetable document whose word happens to be `read_target` is
  targetable. Only the converse and the exact count need this;
  `DataGenerator.TargetableAtLeast` states the rest without it.
- Overflow is modelled with checks on. A release build wraps `depth - 1`
  and `depth as usize - 1` instead of panicking there. The wrapped
  `usize::MAX` then makes `str::repeat` in the path builders
  (src/databases/postgres.rs:239-244, src/databases/mongodb.rs:129-135)
  panic with a capacity overflow. So depth 0 panics in release builds too,
  only later and with another message. The model records every such panic
  as `SubtractOverflow` at the first subtraction.
- `Json.Render` writes strings without escaping. Every string the benchmark
  renders is made of letters, digits and underscores.
