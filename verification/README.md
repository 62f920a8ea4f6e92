# A verified model of the Oracle-to-PostgreSQL migration engine

The program copies Oracle tables into PostgreSQL. It plans tasks, hands them to a pool of workers, copies each task's
rows through a two-goroutine pipeline, and keeps a job row per task so that an interrupted run can be resumed. This
project models the parts in which that can go wrong and proves what they promise.

- **Runs, crashes and resumes.** `JobStore` is the table of job rows. `Protocol` is the run as a state machine in which
  every write to the store or the target is one step and the process may stop between any two. `RunInvariant` proves
  over all runs that completed jobs mean exactly-once contents, relation by relation. `ResumeLimits` shows where that
  ends, with the exact condition each time. `Resume` is the resume as methods on a store and a database, and
  `DataWorker` what a worker does for one job, with its retries; each of their writes is tied to a step.
- **Copying and concurrency.** `CopyPipeline` is `CopyData`, reader and writer interleaved over bounded channels;
  `WorkerPool` is the pool with its per-table semaphores. Both are proved safe, free of deadlock and terminating.
  `CopySteps` shows that any run of the pipeline is a sequence of commits of the protocol, at the end of which the copy
  can finish or break there.
- **Planning.** `ForeignKeys` and `TopoSort` order the tables; `Pruning` and `PartitionBounds` select partitions and
  bound them; `MergeChunks` merges row-id ranges; `Planner`, `Splicing`, `Placeholders` and `PlanResolution` build the
  plan and replace its placeholders; `Interleave` and `RoundRobin` spread the tasks; `PlanCoverage` and `PlanShapes`
  prove which row is read by which task and which tasks can share a relation, and `UnsafeOrder` is a plan in which a
  row is read twice.
- **Keys and listings.** `Keys` and `TaskJobs` are the strings that tie tasks to job rows; `Pagination` is the paged
  read; `ChunkProgress` is the aggregation of chunk events and chunk jobs.
- **Text.** `Naming` and `NamingLaws` are the case conversion of identifiers. `DecodeText` is the conversion of DECODE
  calls on text; `DecodeScan`, `DecodeTree`, `DecodePrint`, `DecodeCuts` and `DecodeConversion` show when, on printed
  expressions, it is a rewriting of trees, and `DecodeMeaning` when that keeps their value; `DecodeExample` has
  calls that come apart or stay.
- **End to end.** `EndToEnd` composes the plan with the run: each selected source row arrives exactly once.

`Collections` and `Schema` hold what the others share. `dafny verify dfyconfig.toml` checks everything.

## Premises

What the model takes from outside the code, as parameters or as premises of the theorems:

- A failed begin, COPY or commit leaves no rows in the target. A truncate succeeds or the process stops, and so do the
  store updates of a resume.
- A run is resumed with the plan it was started with, in recreate or truncate mode, by one process at a time.
- The workers may take up the jobs of a run in any order and interleaving: each schedule of the pool is one of the
  protocol's.
- Different tables and partitions are different PostgreSQL relations. The program names a partition's relation by the
  table and the partition with an underscore between them, in converted case (`internal/postgres/writer.go:642-650`), so
  that table A with partition B_C and table A_B with partition C would be one relation.
- `ORA_HASH(r, n - 1)` lies in 0 to n - 1. The row-id ranges of DBMS_PARALLEL_EXECUTE ascend, cover each row of the
  table, or of the partition, once, and have different numbers. Row ids identify the rows of a table.
- Partition keys of one table are all numbers or all texts that are no numbers; their texts are already trimmed where
  `Pruning` compares them, and `PartitionBounds` says how they are read.
- Names have no colon where a theorem says so, and no partition is called "chunk".
- The text transformers work on ASCII text. The keyword set of the case conversion is a parameter, so that the results
  hold for every keyword set.

## Where the code differs from its documentation

The model follows the code.

- The user documentation promises `min(workers × 2, numRows / batchSize)` chunks (`README.md:140`); the code allows four
  times the workers, and at least eight (`internal/migration/plan.go:527-550`).
- The comment on `convertDECODEOnce` says it finds the innermost call; it finds the first one in the text
  (`internal/plsql/convert.go:582-587`).
- `topoSortTables` announces Kahn's algorithm and is a depth-first search (`internal/migration/plan.go:339-370`).
- `ConstraintOrder` is the reverse of all sorted tables, the skipped ones included, and not of `DDLOrder`
  (`internal/migration/plan.go:268-272`).
- The positions of chunkable tables are recorded before partition placeholders are expanded and used afterwards; see
  `PlanCoverage.PlanIsExactly`.
- A resume never redoes the DDL phase and does not notice missing job rows; see `ResumeLimits`.
- The pool returns nil when it is cancelled before a task fails; see `WorkerPool.CancelledPoolReportsNothing`.

## Model

| member | source | states |
|---|---|---|
| RunInvariant.ExactlyOnce | internal/migration/engine.go:586-878 | Over every run of any plan from any target, with crashes and resumes anywhere: once the stored jobs of a relation without sub-chunks that have rows are completed, it holds exactly the rows their tasks select, with multiplicity, whatever becomes of other relations; it holds all that the plan wants if and only if no task lacks a job and has rows |
| RunInvariant.StepKeeps | internal/migration/engine.go:645-745 | Every one of the twenty steps, in any plan, keeps the invariant that ties job states, the data phase and the contents of the relations together |
| RunInvariant.RunKeeps | internal/migration/engine.go:252-326 | The invariant holds after every run of any plan |
| RunInvariant.RowCounts | internal/jobstore/store.go:229-235 | In every run of any plan a completed job reports as many rows as its task selects |
| ResumeLimits.ExactUnlessSubChunks | internal/migration/engine.go:1219-1221 | A relation ends exactly right in all runs of a plan if and only if no sub-chunk of it selects a row, because the reset recognises only the chunks of whole tables |
| ResumeLimits.SubChunkRun | internal/migration/engine.go:673-675 | Any plan with a sub-chunk that selects a row has, from any target, a run that crashes once, is resumed, completes all jobs and leaves that relation wrong |
| ResumeLimits.ExactWithoutDdlExactly | internal/migration/engine.go:252-326 | Since a resume leaves out the DDL phase, a relation with jobs but no completed DDL ends exactly right in all runs if and only if it was empty before and no sub-chunk of it selects a row |
| ResumeLimits.MissingJobsRun | internal/migration/engine.go:328-350 | A crash while jobs are being created leaves a run in which all stored jobs complete and a task is never copied |
| JobStore.Store.CreateJob | internal/jobstore/store.go:170-184 | A pending job is appended with the next id unless the table and partition have one, and then nothing changes |
| JobStore.Store.UpdateState | internal/jobstore/store.go:215-220 | The one row changes its state, and nothing else does |
| JobStore.Store.GetPendingJobs | internal/jobstore/store.go:186-199 | Exactly the pending and retrying jobs, in id order |
| JobStore.Store.MarkFailedAsRetrying | internal/jobstore/store.go:253-261 | Exactly the failed and running jobs become retrying at once, the others stay, and their number is returned |
| Resume.ChunkTables | internal/migration/engine.go:1212-1230 | The tables with chunk jobs, each with all its chunk jobs in order and whether one of them is to be retried |
| Resume.ResetChunks | internal/migration/engine.go:1246-1251 | Sets the chunks of one table one by one, each write a step of the machine |
| Resume.ResetFailedChunkedTables | internal/migration/engine.go:1204-1254 | Empties exactly the tables of which a chunk is to be retried and sets exactly their chunks to retrying, by steps of the machine only |
| Resume.Resume | internal/migration/engine.go:252-326 | From any reachable stop in any plan the resume takes only steps of the machine, so that the invariant holds wherever it stops, and lists exactly the jobs to work on |
| DataWorker.RunTask | internal/migration/engine.go:645-878 | By steps of the machine only, so that the invariant holds wherever it stops: up to four attempts, one for a chunk, until one succeeds or the program is found cancelled. The job's row has one more attempt and is completed with the task's number of rows if the last attempt succeeded, failed if not, and running if that write was lost; success means all rows of the task are committed, and no other row changes |
| CopySteps.CopyRefines | internal/postgres/writer.go:393-565 | Every run of the copy pipeline, under any scheduling, is a sequence of commits of the protocol, after which finishing is enabled if it reports success and breaking otherwise |
| CopyPipeline.StepKeeps | internal/postgres/writer.go:382-412 | Each step of reader or writer keeps: committed rows, batch in hand, queued batches and the reader's batch are the transformed rows read so far; channels are closed once and used as promised |
| CopyPipeline.StepProgresses | internal/postgres/writer.go:393-480 | Each step but cancelling lowers a measure, with at most four attempts at a batch |
| CopyPipeline.NoDeadlock | internal/postgres/writer.go:297-301 | In every reachable state that is not final the reader or the writer can step |
| CopyPipeline.CopyDataIsExact | internal/postgres/writer.go:485-565 | What the target gains is the first rows of the input in order, cell by cell as they are but for empty texts and raw values, which are NULL; a nil error means all of them, with their number as the row count, and any error has one of the named causes; channels are closed and used once, with at most two batches queued, or four if unlogged |
| CopyPipeline.GivesUpAfterFour | internal/postgres/writer.go:404-480 | The writer gives up exactly when four attempts at one batch have failed |
| CopyPipeline.BatchesAreCut | internal/postgres/writer.go:517-535 | A batch is sent as soon as it reaches the limit of rows or of bytes, and a smaller one only at the end |
| CopyPipeline.CopyDataTerminates | internal/postgres/writer.go:307-598 | No run takes more than a fixed number of steps, and a run that can go no further has returned |
| CopyPipeline.CopyData | internal/postgres/writer.go:307-598 | The first connection in up to four attempts, then the two loops under any scheduling, end in a final state with a justified outcome and the input's rows or the first of them in the target, cell by cell |
| WorkerPool.StepKeeps | internal/migration/worker.go:49-110 | Each step keeps tasks with one worker at most, calls counted, and tokens equal to the workers inside |
| WorkerPool.StepProgresses | internal/migration/worker.go:34-115 | Each step but cancelling lowers a measure |
| WorkerPool.SemaphoreFreesUp | internal/migration/engine.go:634-641 | A worker that waits for a full semaphore implies another that holds a token and can go on |
| WorkerPool.NoDeadlock | internal/migration/worker.go:34-115 | In every reachable state that is not final some worker can step |
| WorkerPool.PoolIsSafe | internal/migration/engine.go:618-641 | In every interleaving no task is called twice, at most the given number of workers are busy, and at most MaxParallel of them in a limited table |
| WorkerPool.PoolTerminates | internal/migration/worker.go:34-115 | Every run is bounded |
| WorkerPool.PoolIsComplete | internal/migration/worker.go:88-101 | Without cancellation every task is called exactly once despite failures, all tokens are given back, and the result is the error of the failure that was settled first, or nil if and only if none failed |
| WorkerPool.FirstErrorIs | internal/migration/worker.go:96-98 | In every run, cancelled or not, the error is that of the first failure settled without a cancellation, and never changes |
| WorkerPool.BreaksCircuit | internal/migration/worker.go:49-71 | After five or more failures in a row a worker cools down before it calls the task function, and only then; after a cancellation it does neither |
| WorkerPool.CancelledPoolReportsNothing | internal/migration/worker.go:81-86 | A cancelled pool may have called no task and returns nil |
| ForeignKeys.AcyclicMeansSorted | internal/migration/plan.go:323-324 | Without cycles no foreign key among a table's constraints leads to a table behind it |
| ForeignKeys.RefsExactly | internal/migration/plan.go:332-336 | The references of a table are those of its foreign keys, and of no other constraints |
| TopoSort.Sorter.Visit | internal/migration/plan.go:344-366 | A visit keeps the sorted prefix consistent and finishes the table or leaves it to a visit that is going on |
| TopoSort.TopoSortTables | internal/migration/plan.go:325-373 | On any graph: a permutation of the tables in which a foreign key among the constraints of a table leads to one behind it only if foreign keys lead back from there |
| Splicing.SpliceBackwards | internal/migration/plan.go:595-645 | Replacing placeholder ranges from the back computes the simultaneous substitution |
| Splicing.BackStep | internal/migration/plan.go:659-757 | One replacement takes the substitution of the later ranges to that of one range more |
| Placeholders.FirstPhase | internal/migration/plan.go:653-757 | The first phase puts every partition expansion in the place of its own placeholders |
| Placeholders.InStepIsIdeal | internal/migration/plan.go:589-645 | If no table that grew stands before a chunked one, the stale positions still give each table its own expansion |
| Placeholders.OutOfStepDoubles | internal/migration/plan.go:639-644 | Otherwise some chunked table keeps its placeholder beside its chunks |
| MergeChunks.MergeChunks | internal/migration/plan.go:562-585 | The loop returns the spans of consecutive groups |
| MergeChunks.GroupsAreEven | internal/migration/plan.go:567-573 | Group sizes differ by at most one |
| MergeChunks.MergedAscend | internal/migration/plan.go:562-585 | Merging more than the wanted number gives exactly that many ranges, numbered from 0, ascending and disjoint |
| MergeChunks.MergedCover | internal/migration/plan.go:562-585 | A row id covered by one range is covered by exactly one merged range |
| MergeChunks.MergedPartition | internal/migration/plan.go:575-580 | Merging the ranges of one partition stays within it |
| Pruning.PrunePartitionsByRange | internal/migration/plan.go:415-436 | The loop returns the overlapping partitions in order |
| Pruning.SelectedExactly | internal/migration/plan.go:441-459 | A partition is selected if and only if some key that Oracle routes there lies in the range |
| Pruning.SelectionIsContiguous | internal/migration/plan.go:406-414 | The selected partitions are consecutive |
| Pruning.KeyOrder | internal/migration/plan.go:490-512 | Within one class of keys the comparison is a strict weak order |
| Pruning.BeforeExactly | internal/migration/plan.go:490-512 | Numbers come before larger numbers, and other keys before texts that go on behind them or have the larger character at the first difference |
| Pruning.RoutedOnce | internal/migration/plan.go:406-414 | Every key below the last high value belongs to exactly one partition, and no other key to any |
| PartitionBounds.ScanDate | internal/migration/engine.go:1174-1179 | The scan finds the first position at which the characters can be a date and that is not at the very end |
| PartitionBounds.ReadHighValue | internal/migration/engine.go:1166-1183 | A bound is MAXVALUE, or the first date in quotes, or else the text without blanks around it |
| PartitionBounds.ReadExtractedValue | internal/migration/plan.go:465-482 | A boundary is empty for MAXVALUE in any case of letters, or the first date, or else the text without the blanks and quotes at both ends |
| PartitionBounds.BoundaryAgreesExactly | internal/migration/engine.go:1166-1183 | The bound for PostgreSQL and the boundary for pruning agree if and only if MAXVALUE is written in capitals |
| PartitionBounds.BuildPartitionBounds | internal/migration/engine.go:1110-1141 | The bounds of a range-partitioned table, each from the high value before it to its own |
| PartitionBounds.PruneByHighValues | internal/migration/plan.go:415-436 | Pruning from the HIGH_VALUE texts selects the partitions whose values overlap the range |
| PartitionBounds.BoundsRoute | internal/migration/engine.go:1126-1134 | PostgreSQL's bounds route every key to the partition that Oracle routes it to |
| PartitionBounds.BoundsTile | internal/migration/engine.go:1110-1141 | The bounds cover exactly the keys below the last high value |
| PartitionBounds.BoundsDisjoint | internal/migration/engine.go:1110-1141 | No key lies within two bounds |
| Planner.PartitionChunkCount | internal/migration/plan.go:527-550 | Chunked exactly above ten batches, at least one chunk, and at most eight or four times the workers |
| Planner.ChunkCountIsFull | internal/migration/plan.go:527-550 | Above ten batches, each chunk has at least a batch of rows, and there are as many as that and the limits allow |
| Planner.ResolvePartitions | internal/migration/plan.go:379-404 | In order, with names in the filter exactly the partitions with these names; without, and with a range, exactly those that some key of the range is routed to; without both, all |
| Planner.PlanPartitions | internal/migration/plan.go:89-186 | The tasks and the request planned for a partitioned table |
| Planner.PlanWhole | internal/migration/plan.go:186-266 | The tasks and the request planned for a table without partitions |
| Planner.PartitionsCutExactly | internal/migration/plan.go:89-186 | A partitioned table is cut if and only if a partition that is asked for has more than ten batches: by hash at once, or by row ids later, as the strategy says |
| Planner.TableCutExactly | internal/migration/plan.go:186-266 | A table without partitions is cut if and only if it has more than ten batches or a chunk size is given, as the strategy says |
| PlanResolution.ComputePartitionedChunks | internal/oracle/chunker.go:53-69 | Groups the chunks by partition, each group in order and none lost |
| PlanResolution.MigrationPlan.AddTable | internal/migration/plan.go:80-266 | Appends a table's tasks and records where its placeholders are |
| PlanResolution.MigrationPlan.ResolvePartitionChunks | internal/migration/plan.go:653-757 | All partition placeholders are replaced at once by their expansions |
| PlanResolution.MigrationPlan.ResolveChunks | internal/migration/plan.go:589-645 | The recorded positions are replaced by the chunk tasks of the tables that are worth it |
| PlanResolution.PartitionIsCutByRowId | internal/migration/plan.go:653-757 | Where Oracle offers row-id chunks of a partition it is cut by these, into as many as there are or the limit allows |
| PlanResolution.TableIsCutByRowId | internal/migration/plan.go:589-645 | So is a table without partitions |
| PlanResolution.ExpansionIsBounded | internal/migration/plan.go:589-645 | A table is cut into at most 256 chunks, each for a whole chunk of known rows, and by hash into as many as that allows |
| PlanResolution.Resolve | internal/migration/plan.go:766-852 | Both phases together give the outcome that the segments describe |
| PlanResolution.BuildPlan | internal/migration/plan.go:57-275 | Tables in the order of their foreign keys, DDL order as its sub-sequence of exactly the tables whose mode is not skip, constraint order as its reverse, and the tasks of all tables |
| PlanCoverage.HashOnce | internal/oracle/chunker.go:152-182 | Hash buckets read each row in scope exactly once |
| PlanCoverage.MergedOnce | internal/migration/plan.go:695-735 | Merged row-id ranges read each row in scope exactly once |
| PlanCoverage.IdealIsExact | internal/migration/plan.go:80-266 | With each placeholder replaced by its own expansion every selected row is read once and no other row at all |
| PlanCoverage.PlanIsExactly | internal/migration/plan.go:589-852 | The resolved plan reads every selected row exactly once and no other row, if and only if no partitioned table that gets more tasks stands before a table that is cut into chunks |
| PlanCoverage.SafeOrderIsExact | internal/migration/plan.go:589-852 | In a safe order the plan is exact even for tables without rows |
| PlanCoverage.DoubledRow | internal/migration/plan.go:639-644 | Out of order some row is read twice |
| UnsafeOrder.OrderCanBeUnsafe | internal/migration/plan.go:639-644 | A source, a configuration and two tables that meet all premises and whose order is not safe |
| UnsafeOrder.RowReadTwice | internal/migration/plan.go:639-644 | The resolved plan reads the one row of its second table more than once |
| PlanShapes.IdealIds | internal/migration/plan.go:80-266 | No two planned tasks are the same, and only chunks share a relation |
| Interleave.GroupTasks | internal/migration/plan.go:293-306 | The buckets in the order of their keys, each with its tasks in order |
| Interleave.BucketExactly | internal/migration/plan.go:293-306 | Tasks of the same table and partition share a bucket, and with colon-free table names no others do |
| Interleave.KeysByAppearance | internal/migration/plan.go:293-306 | The keys are in the order in which their first tasks appear |
| Interleave.PlacesKeepOrder | internal/migration/plan.go:282-321 | The tasks of each table or partition keep their order |
| Interleave.InterleaveTasksByTable | internal/migration/plan.go:282-321 | The loop terminates with the round-by-round list |
| Interleave.BucketOfRounds | internal/migration/plan.go:308-319 | After n rounds the first n tasks of each bucket are out, in order |
| Interleave.InterleavedIsPermutation | internal/migration/plan.go:282-321 | A permutation that keeps the order within each bucket |
| RoundRobin.ServeRound | internal/migration/plan.go:311-317 | One pass takes the next task of each bucket that still has one |
| RoundRobin.RoundInOrder | internal/migration/plan.go:311-317 | A round goes through the buckets in order and takes one task of each that still has one |
| EndToEnd.PlanMigration | internal/migration/engine.go:95-144 | Building, resolving and interleaving in sequence give the planned order over sorted tables |
| EndToEnd.PlanHasShape | internal/migration/engine.go:386-413 | The planned tasks have the shape that the run's theorems ask for |
| EndToEnd.PlanGetsItsRows | internal/migration/engine.go:386-413 | Every planned task gets a job row of its own |
| EndToEnd.WantedIsSelected | internal/migration/plan.go:589-852 | The plan wants each selected row once in the relation it belongs to, and nothing else |
| EndToEnd.MigrationIsExact | internal/migration/engine.go:80-250 | Over every run of the planned migration a relation with completed jobs and DDL, and no sub-chunk that has rows, holds each selected source row that belongs there exactly once, and nothing else, whatever is sub-chunked elsewhere |
| Keys.ResettableExactly | internal/migration/engine.go:1219-1221 | The reset recognises exactly the chunks of whole tables, and the sub-chunks of a partition called "chunk" |
| Keys.KeysMeet | internal/migration/engine.go:603-616 | A task's key is what is built from its job row if and only if its partition's name is not empty |
| Keys.TaskKeyInjective | internal/migration/engine.go:1273-1282 | With colon-free names different tasks have different keys |
| Keys.DecimalRoundTrip | internal/migration/engine.go:1265 | The decimal number in a key reads back as itself |
| Keys.StripExactly | pkg/api/handlers.go:2013-2022 | The partition's name is recovered from a job's key unless the job is a sub-chunk of a partition whose name ends in "chunk" |
| Keys.ChunkPartitionExactly | pkg/api/handlers.go:2007-2009 | Exactly the keys of chunks are taken for chunks |
| TaskJobs.RowTellsTask | internal/migration/engine.go:1258-1282 | Two tasks share a job row only if they are the same |
| TaskJobs.InitJobs | internal/migration/engine.go:386-413 | Creates the rows in plan order and succeeds if and only if no two tasks share one |
| TaskJobs.JoinJobs | internal/migration/engine.go:586-616 | Each pending job is sent to the task it was created for, and the task's key leads back to the job |
| Pagination.ReadPaginated | internal/oracle/reader.go:176-259 | Delivers what one scan delivers, also when reading fails, with n / pageSize + 1 queries otherwise |
| ChunkProgress.ChunkAggregator.Update | pkg/api/handlers.go:2072-2149 | The state after every trace of events is the last number told of each chunk, their sum, and the counts of chunks started, done and failed; an event is emitted if and only if it is due, failed, or the table is finished, and the state does not depend on that |
| ChunkProgress.EventExactly | pkg/api/handlers.go:2072-2149 | Events are taken together if and only if table and partition without its chunk agree, with colon-free tables |
| ChunkProgress.GetJobs | pkg/api/handlers.go:1351-1415 | Chunk jobs are merged by table, partition and phase; the totals of rows and bytes are conserved |
| ChunkProgress.GroupExactly | pkg/api/handlers.go:1351-1357 | Chunk jobs are merged if and only if they agree in table, partition without its chunk and phase, with colon-free tables and phases |
| ChunkProgress.MergedStateIsWorst | pkg/api/handlers.go:1436-1451 | The merged state is one of the group's and none has a higher priority |
| ChunkProgress.MergedStateComesFirst | pkg/api/handlers.go:1436-1451 | It is the first of failed, running, retrying, pending, completed and skipped that occurs in the group |
| ChunkProgress.StateIgnoresOrder | pkg/api/handlers.go:1436-1451 | It does not depend on the order of the jobs |
| Naming.ApplyNaming | internal/plsql/convert.go:870-1022 | The loops compute the token-by-token rendering |
| NamingLaws.NamedFolds | internal/plsql/convert.go:870-1022 | Same length, and the same text but for the case of letters |
| NamingLaws.TokenIsRendered | internal/plsql/convert.go:925-1020 | Character by character: a keyword becomes capitals; another word small letters, capitals or what it was, as the convention says; and literals, quoted names, comments and everything else stay, each in its own place |
| NamingLaws.TokenIsDelimited | internal/plsql/convert.go:925-1020 | Where each kind of token ends, by the characters around its end |
| NamingLaws.TokenAround | internal/plsql/convert.go:922-1020 | Every character of the text belongs to a token |
| NamingLaws.TokenEndFolds | internal/plsql/convert.go:925-998 | Lexing commutes with changing the case of letters |
| NamingLaws.LastConventionWins | internal/plsql/convert.go:1005-1014 | After any earlier convention a conversion to lower or upper case gives what it gives on the original |
| NamingLaws.LiteralIsPaired | internal/plsql/convert.go:926-945 | A literal runs to the first quote that is not doubled, or to the end |
| NamingLaws.UnclosedCommentExactly | internal/plsql/convert.go:972-984 | A block comment that is never closed is copied if and only if its last character, which is read again, renders as itself |
| DecodeText.ScanClose | internal/plsql/convert.go:589-617 | Finds the closing parenthesis, passing over literals, or reports that there is none |
| DecodeText.SplitTopLevel | internal/plsql/convert.go:1062-1081 | The pieces between separators at depth 0 |
| DecodeText.SplitJoins | internal/plsql/convert.go:1062-1081 | The pieces joined by the separator are the text again |
| DecodeText.FindIsLeftmost | internal/plsql/convert.go:580-588 | A match is found if there is any, and it is the leftmost one |
| DecodeText.MatchExactly | internal/plsql/convert.go:580-588 | A match is the six letters in any case, behind no letter, digit or underscore, then white space and a parenthesis |
| DecodeText.ConvertDecodeOnce | internal/plsql/convert.go:582-645 | The first call with at least three arguments becomes a CASE; the text before and behind it stays |
| DecodeText.ConvertDecode | internal/plsql/convert.go:567-577 | Ten steps, or fewer when one changes nothing |
| DecodeConversion.StepIsExactly | internal/plsql/convert.go:582-645 | On a printed expression, with commas in its literals or not, a step of the text conversion is the rewriting of its first DECODE if and only if no literal with a comma stands outside of parentheses among the arguments of that DECODE, or the pieces are too few for a conversion |
| DecodeCuts.PartsCount | internal/plsql/convert.go:1062-1081 | The arguments of a call are split into as many pieces as there are arguments and commas in such literals together |
| DecodeCuts.CutCaseDiffers | internal/plsql/convert.go:618-645 | The CASE made of the pieces is then never the CASE of the arguments |
| DecodeTree.SiteIs | internal/plsql/convert.go:618-645 | That rewriting changes the text at one place and nowhere else |
| DecodeConversion.StepCounts | internal/plsql/convert.go:567-577 | A step removes exactly one DECODE, and never one with too few arguments |
| DecodeConversion.ConversionIs | internal/plsql/convert.go:567-577 | If the DECODE that is first is clear of such literals at each step, the conversion of a printed expression is the print of the converted tree |
| DecodeConversion.ClearStays | internal/plsql/convert.go:567-577 | That is so at all steps if every DECODE is clear as it is written |
| DecodeConversion.ConvertedExactly | internal/plsql/convert.go:567-577 | Then no DECODE call is left in the text if and only if there were at most ten, each with at least three arguments |
| DecodeConversion.ConversionIsComplete | internal/plsql/convert.go:567-577 | And then the text is the print of the tree with every DECODE turned into a CASE |
| DecodeExample.LiteralIsCut | internal/plsql/convert.go:582-645 | The conversion of DECODE(a, 'x,y', b) is not the print of its rewriting |
| DecodeExample.LiteralComesApart | internal/plsql/convert.go:582-645 | It is CASE a WHEN 'x THEN y' ELSE b END |
| DecodeExample.ParenthesisHidesArguments | internal/plsql/convert.go:1062-1081 | A literal with an opening parenthesis hides the arguments behind it, so that DECODE(a, '(', b) stays as it is |
| DecodeExample.SplitCutsLiteral | internal/plsql/convert.go:1062-1081 | Splitting cuts every literal with one comma in two |
| DecodeMeaning.PickExactly | internal/plsql/convert.go:626-642 | A DECODE and its CASE agree unless the selector and a search are NULL and the result of that search is not the default |
| DecodeMeaning.ConversionKeepsMeaning | internal/plsql/convert.go:567-645 | Whatever atoms, operators and functions mean, the converted expression has the same value as long as at each DECODE a NULL found by a search leads to the value of the default, and the DECODE that is first at each step is clear |
| DecodeMeaning.NullIsLost | internal/plsql/convert.go:626-642 | An expression whose value the conversion changes |

## Left out

- Oracle, PostgreSQL and SQLite drivers, SQL text, connection pools, HTTP, streaming, the command line and the user
  interface: their effects are maps, multisets and premises here.
- `initJobs` marks work of an earlier run as skipped in incremental mode, and the table and partition modes that keep
  old rows (append, truncate_partition): the exactly-once theorems are about recreate and truncate mode, where no job
  is skipped.
- Constraint, index and validation phases: they write no rows.
- Connection accounting in `CopyData`, because a retry replaces the connection that the deferred release is bound to.
- Delays, cool-downs, the progress watchdog and throttling intervals are choices that a step can take at any time;
  speeds and percentages are not modelled.
- PartitionBounds.BuildPartitionBounds: bounds of LIST partitions and the names in a bound are not modelled, because
  only range bounds route by comparison; times of day in HIGH_VALUE texts are cut off, as the program does.
- Keys that mix numbers and dates: the program's comparison is not an order there.
- Commits that the server made and the client saw fail.
- The regular-expression rewrites of PL/SQL other than the start of a DECODE call; that pattern is a function here, and
  characters outside of ASCII are not modelled.
- DecodeConversion.StepIsExactly: literals that hold parentheses are excluded, because splitting counts them as if they
  were not in a literal (`DecodeExample.ParenthesisHidesArguments`); commas in literals are not excluded.
- WorkerPool.StepKeeps: goroutines are modelled as interleaved steps of one machine, not as Dafny methods, because the
  language has no threads; the same holds for the two goroutines of `CopyPipeline`.
- PlanResolution.BuildPlan: the fields of a task that only steer the copy, such as fetch size, are carried along but
  nothing is stated about them.
- ChunkProgress.GetJobs: expected rows, error texts, attempts and times of a group, and the order in which the groups
  are listed.
- ChunkProgress.ChunkAggregator.Update: of an emitted event only the row total is modelled, not its state or percentage.
- Planner.ResolvePartitions: where the keys of partitions and range are not of one class, or the range is not one, the
  contract says only that the program's comparisons decide, because no order of keys tells what the range means.
