# go-benchmark core in Dafny

A model of the core of go-benchmark, the Tokutek framework that drives
MongoDB and TokuMX benchmarks. The model covers:

- the runner in benchmark.go. It checks that every work is either
  duration-bound or finite (`verifyWorks`). It runs each work in a loop:
  a rate gate, a finite runner and a time-based runner.
- the operation gater, which limits a worker to `OpsPerInterval`
  operations per `IntervalInSeconds`.
- both collection writers (`insertWork`/`collectionWriter`). They derive an
  operation budget and rate from the flags and the global
  `minBatchSizeForChannel`, and batch their inserts up to that size.
- both versions of collection setup (`MakeCollections`, `createCollection`,
  `collectionExists`, `setIsTokuMX`, `VerifyNotCreating`,
  `GetCollectionString`).
- the sysbench string templates, the sysbench transaction and the
  transaction-rate arithmetic of its `main`.
- the result managers, which keep totals and print deltas.
- the two sysbench loaders, which bundle one insert work per collection
  into `numWriters` round-robin writers.
- the iibench document generator and query work, the older copies in
  mongotools/iibenchtools.go, and the iibench `main`.
- the `Transaction` begin/commit/rollback/close state machine.

Go semantics are written out explicitly in module `Runtime`:

- An outcome is `Ok`, `Fatal` (log.Fatal) or `Panic` (a run-time panic).
- Division truncates toward zero.
- 64-bit conversions wrap.
- `rand.Rand` is an oracle stream with a position. A bounded draw
  (`Int31n`/`Int63n`) is `stream(pos) % n`.

The server is also an oracle. Each command either fails or does not, the
server says which collections exist, and it says whether it is TokuMX. The
clock is a number of nanoseconds supplied by the caller.

Modules, one per source unit: `Gating`, `Benchmark` (benchmark.go);
`Batching`, `CollectionWriter`, `LegacyCollectionWriter` (the two collection
writers); `CreateCollection`, `CreateCollectionLegacy`; `SysbenchStrings`,
`Sysbench`, `ResultSinks`; `SysbenchWriters`, `SysbenchLoad`,
`SysbenchLoadNested` (the loaders); `IIBench`, `IIBenchTools`,
`IIBenchMain`; `Transaction`. `Arith` and `Runtime` hold the arithmetic
facts and Go semantics they share.

## Model

| member | source | states |
|---|---|---|
| Gating.Gate | benchmark.go:56-73 | The call counts itself. The counter resets exactly when gating is on and the window's budget is reached. The period is IntervalInSeconds * 10^9 in wrapping int64 arithmetic. On a reset the sleep is exactly the rest of the period when some is left, and zero otherwise. Without a reset only the counter moves. The new window starts after the sleep, at least one period after the old one. |
| Gating.RoundsAccounting | benchmark.go:58-73 | After k gated operations from a fresh gater, k = resets * OpsPerInterval + the open window's count. The open window is below the budget, and the windows start at least one (wrapped) period apart. |
| Gating.ThroughputBound | benchmark.go:56-73 | When the wrapped period T is positive: however fast the work is, a gated worker has done fewer than N * (elapsed / T + 1) operations once `elapsed` nanoseconds have passed. |
| Gating.PeriodOfMaxInterval | benchmark.go:60-60 | An interval of 2^64 - 1 seconds, which a negative -insertInterval becomes, wraps to a period of -1 second. |
| Gating.UnthrottledRounds | benchmark.go:59-70 | When the wrapped period is zero or negative, an enabled gater never sleeps. The clock advances by the work alone, so nothing is throttled. |
| Gating.UngatedRounds | benchmark.go:58-72 | With gating off (zero interval or zero budget), rounds never sleep and never move the window start. The clock advances by the work alone. |
| Benchmark.VerifyWorks | benchmark.go:115-131 | A run is accepted iff d <= 0 and every MaxOps > 0, or d > 0 and every MaxOps == 0. A rejection names the first offending work. |
| Benchmark.MixedRejected | benchmark.go:117-131 | A configuration mixing a finite and an unbounded work is rejected whatever the duration. |
| Benchmark.Loop | benchmark.go:108-112 | The shared worker loop makes n Do-then-gate rounds, then Close. Its gater and clock are those of n gate rounds. |
| Benchmark.WorkerTraceCounts | benchmark.go:100-113 | A worker that stopped after n rounds called Do n times, gated n times and closed its work exactly once. |
| Benchmark.RunFiniteWorker | benchmark.go:97-113 | Fatal iff MaxOps is 0. Otherwise exactly MaxOps Do-and-gate rounds, then Close. |
| Benchmark.RunTimeBasedWorker | benchmark.go:75-95 | Fatal iff MaxOps > 0. Otherwise rounds until the quit poll succeeds, then Close. |
| Benchmark.Run | benchmark.go:140-175 | Proceeds iff verifyWorks accepts. Each work gets the time-based runner iff its MaxOps is 0. The quit message goes to exactly the time-based workers. |
| Benchmark.FiniteRunDoTotal | benchmark.go:133-175 | In a finite run the workers call Do exactly sum-of-MaxOps times in all. |
| Batching.LowerMinBatch | mongotools/collection_writer.go:70-75 | The batch size never rises. It ends at most each positive flag, and equals one of the old size, insertsPerInterval or numInsertsPerThread. |
| Batching.LowerMinBatchIdempotent | mongotools/collection_writer.go:70-75 | A second writer built with the same flags leaves the batch size where the first one put it. |
| Batching.FillBatches | mongotools/collection_writer.go:36-45 | The batching loop reaches the batch size in whole batches and overshoots by less than one batch. |
| Batching.FillBatchesFromZero | mongotools/collection_writer.go:29-47 | One Do inserts exactly the least multiple of docsPerInsert that reaches the batch size. |
| Batching.OneBatchWhenLarge | mongotools/collection_writer.go:36-45 | When docsPerInsert reaches the batch size, one batch is sent. |
| Batching.ExactWhenDivisible | mongotools/collection_writer.go:36-45 | When docsPerInsert divides the batch size, exactly the batch size is sent. |
| Batching.FillBatchesMonotone | mongotools/collection_writer.go:36-45 | Lowering the batch size after a build never makes Do send more than the size the writer was built with. |
| CollectionWriter.Do | mongotools/collection_writer.go:29-47 | Panics iff docsPerInsert < 0 and never returns iff it is 0. Otherwise it sends one record holding only inserts: the least multiple of docsPerInsert that reaches the batch size. |
| CollectionWriter.MakeCollectionWriter | mongotools/collection_writer.go:59-89 | Panics iff docsPerInsert is 0. Fatal iff docsPerInsert is below the lowered batch size and does not divide it. Otherwise budget and rate are divided by max(docsPerInsert, batch size), truncated and converted to uint64. |
| CollectionWriter.BudgetSplit | mongotools/collection_writer.go:79-85 | For non-negative flags, budget and rate are the flag divided by the larger of docsPerInsert and the batch size. |
| CollectionWriter.NoBudgetIsDurationBound | mongotools/collection_writer.go:79-87 | A writer built with no insert budget has MaxOps 0, so it is duration-bound. |
| CollectionWriter.WithinBudget | mongotools/collection_writer.go:59-89 | MaxOps calls of Do insert at most numInsertsPerThread documents, even after later writers lower the batch size. |
| CollectionWriter.FatalIffIndivisible | mongotools/collection_writer.go:76-78 | For positive docsPerInsert the fatal check means exactly "smaller than the batch size and not a divisor of it". |
| LegacyCollectionWriter.DoWork | mongotools/collectionWriter.go:29-47 | Never returns iff DocsPerInsert is 0. Otherwise it sends one record holding only inserts: the least multiple of DocsPerInsert that reaches the batch size. |
| LegacyCollectionWriter.MakeCollectionWriter | mongotools/collectionWriter.go:53-84 | The uint64 variant. Panics iff docsPerInsert is 0 and is fatal iff it is an indivisible smaller size. The writer keeps the copied session. Budget and rate are the unsigned quotients. |
| LegacyCollectionWriter.ClosesCopiedSession | mongotools/collectionWriter.go:49-62 | Close closes the session MakeCollectionWriter copied, not the caller's. |
| LegacyCollectionWriter.WithinBudget | mongotools/collectionWriter.go:63-84 | MaxOps calls of DoWork insert at most numInsertsPerThread documents, even after later writers lower the batch size. |
| LegacyCollectionWriter.AgreesWithNewerWriter | mongotools/collectionWriter.go:63-84 | On flags within int64, the older writer succeeds, fails or panics exactly when the newer one does, with the same batch size, budget and rate. |
| CreateCollection.DigitsRoundTrip | mongotools/create_collection.go:28-30 | The decimal digits of a natural number read back to that number. |
| CreateCollection.DecimalRoundTrip | mongotools/create_collection.go:28-30 | %d of any integer, sign included, reads back to that integer. |
| CreateCollection.NamesDistinct | mongotools/create_collection.go:28-30 | Different indexes give different collection names. |
| CreateCollection.CompressionWhitelist | mongotools/create_collection.go:49-51 | A compression type is valid iff it is one of zlib, quicklz, lzma, none. |
| CreateCollection.DefaultCreateOptions | mongotools/create_collection.go:60-65 | The defaults are zlib with 1 << 22 byte nodes, 1 << 16 byte basement nodes, and no partitioning. The compression type is valid. |
| CreateCollection.Perform | mongotools/create_collection.go:67-92 | Commands are issued in order, and the first failed one ends the program. Everything is issued iff nothing fails. |
| CreateCollection.CollectionExists | mongotools/create_collection.go:97-107 | One namespace query, fatal if it fails. Otherwise it answers whether the server has the collection. |
| CreateCollection.EnsureIndexes | mongotools/create_collection.go:132-137 | One EnsureIndex per index, in the given order. |
| CreateCollection.CreateCollectionIn | mongotools/create_collection.go:121-141 | Always starts with the existence query. It succeeds iff the collection was absent and every create command went through, and then issues query + create plan. |
| CreateCollection.Visit | mongotools/create_collection.go:157-164 | In create mode a collection is created. In verify mode there is one query, and the visit survives iff the collection exists. |
| CreateCollection.MakeCollections | mongotools/create_collection.go:153-165 | An invalid compression type is fatal before any command. A non-positive count does nothing. |
| CreateCollection.VerifyModeVisitsInOrder | mongotools/create_collection.go:157-164 | In verify mode it queries collname_0, collname_1, ... in order, and survives iff every one exists. |
| CreateCollection.VisitAllOk | mongotools/create_collection.go:157-164 | The loop survives iff every visit does. |
| CreateCollection.ChainOk | mongotools/create_collection.go:157-164 | A loop of visits that stops at the first failure survives iff every visit does. |
| CreateCollection.ChainSingles | mongotools/create_collection.go:157-164 | When each visit issues one command, the loop issues those commands in order, one per visit it reaches, and all of them iff it survives. |
| CreateCollection.ChainCommands | mongotools/create_collection.go:157-164 | Every command the loop issues is a command of one of its visits. |
| CreateCollection.CreateModeSurvivors | mongotools/create_collection.go:157-164 | In create mode the loop survives iff every collection was absent and created without error. |
| CreateCollection.MakeCollectionsVerifyMode | mongotools/create_collection.go:143-165 | Verify mode survives iff the compression type is valid and all collections exist, querying in index order. |
| CreateCollection.MakeCollectionsCreateMode | mongotools/create_collection.go:143-165 | Create mode survives iff the compression type is valid and every collection is creatable. |
| CreateCollection.CreatePlanShape | mongotools/create_collection.go:121-141 | On TokuMX the create carries the options and ends with a reIndex that applies them. On MongoDB it is a plain create and no reIndex is sent. |
| CreateCollection.VerifyNotCreating | mongotools/create_collection.go:170-174 | Fatal iff -create is set. |
| CreateCollectionLegacy.SetIsTokuMXAsWritten | mongotools/createCollection.go:64-77 | As written: fatal iff buildInfo fails, and otherwise the global ends true. |
| CreateCollectionLegacy.SetIsTokuMXIgnoresReply | mongotools/createCollection.go:71-76 | The reply is ignored: on a MongoDB server the detected kind is wrong. |
| CreateCollectionLegacy.SetIsTokuMX | mongotools/createCollection.go:63-77 | Corrected: the global records whether the server is TokuMX. |
| CreateCollectionLegacy.CreatePlanLegacy | mongotools/createCollection.go:116-133 | A create of the kind the global names, then one EnsureIndex per index. There is no reIndex. |
| CreateCollectionLegacy.VisitLegacy | mongotools/createCollection.go:141-148 | Verify mode queries once. Create mode survives iff the query succeeds, the collection is absent and every create command goes through. |
| CreateCollectionLegacy.MakeCollectionsFrom | mongotools/createCollection.go:135-149 | An invalid compression type is fatal first. Otherwise buildInfo comes first, and a failed detection stops there. |
| CreateCollectionLegacy.VisitKind | mongotools/createCollection.go:116-133 | Every create command of one visit is the kind the global names. |
| CreateCollectionLegacy.LoopCreatesKind | mongotools/createCollection.go:141-148 | Every create command of the loop is the kind the global names. |
| CreateCollectionLegacy.AsWrittenAlwaysCreatesToku | mongotools/createCollection.go:135-149 | As written, no plain MongoDB create is ever issued. |
| CreateCollectionLegacy.CreatesMatchServer | mongotools/createCollection.go:135-149 | Corrected, every create matches the server's kind. |
| CreateCollectionLegacy.MongoServerGetsTokuCollection | mongotools/createCollection.go:64-77 | On an empty MongoDB server with -create, as written collection c_0 is created with TokuMX options. Corrected, it is a plain create. |
| CreateCollectionLegacy.VerifyModeLegacy | mongotools/createCollection.go:141-148 | In verify mode the older loop issues exactly what the newer one does. |
| SysbenchStrings.AlphabetsAreClasses | benchmarks/sysbench/utils.go:20-21 | The digit and letter alphabets consist of digits and lower-case letters. |
| SysbenchStrings.GenChar | benchmarks/sysbench/utils.go:23-29 | '#' yields a digit, '@' a lower-case letter, and anything else is copied. Only placeholders consume a draw. |
| SysbenchStrings.GenString | benchmarks/sysbench/utils.go:18-32 | The output has the template's length, and each byte fits its template byte. It consumes one draw per placeholder. |
| SysbenchStrings.GenStringPrefix | benchmarks/sysbench/utils.go:22-30 | Generation is prefix-closed. |
| SysbenchStrings.GenStringPointwise | benchmarks/sysbench/utils.go:22-30 | Byte i is what GenChar makes of template byte i, after the draws of the earlier placeholders. |
| SysbenchStrings.GenStringLiteral | benchmarks/sysbench/utils.go:27-28 | A template without placeholders is copied and costs no draw. |
| SysbenchStrings.SysbenchString | benchmarks/sysbenchload/sysbenchload.go:24-38 | The in-place version (zeroed buffer, `=` for digits and `+=` for the rest) computes exactly GenString. |
| SysbenchStrings.TemplateLayout | benchmarks/sysbench/utils.go:15-16 | The templates have '-' exactly at every twelfth position and '#' everywhere else. |
| SysbenchStrings.TemplatePlaceholders | benchmarks/sysbench/utils.go:15-16 | A template of n groups has 11 * n placeholders. |
| SysbenchStrings.GeneratedShape | benchmarks/sysbench/utils.go:34-40 | Generated strings have digits exactly where the template has '#' and '-' elsewhere. |
| SysbenchStrings.StringSizes | benchmarks/sysbench/utils.go:34-40 | CString is 119 bytes and uses 110 draws. PadString is 59 bytes and uses 55 draws. |
| ResultSinks.Report | benchmarks/sysbench/sysbench.go:201-207 | The printed delta plus the old snapshot is the total, and the snapshot becomes the total. |
| ResultSinks.ReportsTelescope | benchmarks/sysbench/sysbench.go:201-216 | The counter holds everything registered, and the printed deltas add up to the last snapshot. |
| ResultSinks.ReportedAll | benchmarks/sysbench/sysbench.go:201-216 | A run ending in a report has printed everything registered. |
| ResultSinks.PrintSysbench | benchmarks/sysbench/sysbench.go:201-207 | Both deltas are the growth since the last print, the totals are printed, and both snapshots move to the totals. |
| ResultSinks.FinalSysbench | benchmarks/sysbench/sysbench.go:209-211 | Prints the two totals and changes nothing. |
| ResultSinks.RegisterAllSysbenchSums | benchmarks/sysbench/sysbench.go:213-216 | A batch of results adds its Operations and Errors sums to the totals and leaves the snapshots alone. |
| ResultSinks.PrintIIBench | benchmarks/iibench/iibench.go:161-167 | Insert and query deltas are the growth since the last print, and both snapshots move to the totals. |
| ResultSinks.FinalIIBench | benchmarks/iibench/iibench.go:169-171 | Prints the two totals and changes nothing. |
| ResultSinks.RegisterAllIIBenchSums | benchmarks/iibench/iibench.go:173-176 | A batch of results adds its Inserts and Queries sums to the totals. |
| ResultSinks.RegistrationOrderIrrelevant | benchmarks/sysbench/sysbench.go:213-216 | Totals do not depend on the order in which results are registered. |
| Sysbench.DoWork | benchmarks/sysbench/sysbench.go:71-187 | Panics iff int32(NumCollections) <= 0 or MaxID <= 0. Otherwise it sends one record: one operation plus every failed counted call. It begins iff the IsTokuMX global is set, and commits iff the begin succeeded. |
| Sysbench.ReadOnlyMakesNoUpdate | benchmarks/sysbench/sysbench.go:138-157 | A read-only transaction makes no update, and its errors are bounded by distinct queries + 4. |
| Sysbench.CleanTransaction | benchmarks/sysbench/sysbench.go:176-186 | A transaction with no failed call reports one operation and no error. |
| Sysbench.Main | benchmarks/sysbench/sysbench.go:243-287 | Panics iff numThreads is 0. Otherwise it is fatal iff -create is set, which VerifyNotCreating checks. Otherwise there is one worker per thread with rate numMaxTPS / numThreads, interval 1 and no budget. The duration is numSeconds seconds when that fits. |
| Sysbench.RateSplit | benchmarks/sysbench/sysbench.go:243-243 | The threads together stay within numMaxTPS and lose less than one per thread to rounding. |
| Sysbench.AcceptedIffTimed | benchmarks/sysbench/sysbench.go:282-287 | The run is accepted iff the duration is positive. |
| Sysbench.ZeroSecondsRejected | benchmarks/sysbench/sysbench.go:282-287 | numSeconds = 0 is rejected by the configuration check of benchmark.go. |
| SysbenchWriters.Members | benchmarks/sysbenchload/sysbenchload.go:101-109 | A writer's collections are among the first n. |
| SysbenchWriters.MembersSpec | benchmarks/sysbenchload/sysbenchload.go:101-109 | Writer j holds exactly the collections i < n with i % w == j, each once and in increasing order. |
| SysbenchWriters.Partition | benchmarks/sysbenchload/sysbenchload.go:108-108 | Collection i belongs to writer i % w and to no other. |
| SysbenchWriters.MembersStartAtIndex | benchmarks/sysbenchload/sysbenchload.go:110-115 | With no more writers than collections every writer is non-empty, and its first collection is its own index. |
| SysbenchWriters.Assign | benchmarks/sysbenchload/sysbenchload.go:100-109 | Panics iff there are no writers and some collections. Otherwise group j is exactly Members(n, w, j). |
| SysbenchWriters.Distribute | benchmarks/sysbenchload/sysbenchload.go:100-115 | Panics iff the writer count is negative, zero with collections, or larger than the collections. Otherwise worker j runs its group unthrottled with the first work's budget. |
| SysbenchWriters.EveryCollectionOnce | benchmarks/sysbenchload/sysbenchload.go:100-115 | One round of the workers reaches every collection, at writer i % w and only there. |
| SysbenchLoad.Generate | benchmarks/sysbenchload/sysbenchload.go:45-53 | The id is the counter, which wraps at 2^64. c and pad have the template shapes, and one document consumes 166 draws. |
| SysbenchLoad.GenerateIds | benchmarks/sysbenchload/sysbenchload.go:45-53 | Consecutive documents have consecutive ids while the counter does not wrap. |
| SysbenchLoad.FreshIds | benchmarks/sysbenchload/sysbenchload.go:45-53 | A fresh generator numbers its documents 0, 1, 2, ... |
| SysbenchLoad.BuildWriters | benchmarks/sysbenchload/sysbenchload.go:101-109 | Collection i's work writes collname_i with the flag's batch width. |
| SysbenchLoad.BuildWritersUniform | benchmarks/sysbenchload/sysbenchload.go:101-109 | The first writer decides for all: the loop fails iff the first build fails, and every work has the same budget and rate. |
| SysbenchLoad.Main | benchmarks/sysbenchload/sysbenchload.go:78-116 | numWriters > numCollections is fatal and a negative count panics. Otherwise worker j bundles the works of its Members in order, and the run is budget-bound (d = 0). |
| SysbenchLoad.MainBudgets | benchmarks/sysbenchload/sysbenchload.go:110-115 | Every bundled work has the worker's budget, and the run is accepted iff that budget is positive. |
| SysbenchLoad.NoWritersPanics | benchmarks/sysbenchload/sysbenchload.go:100-108 | Zero writers with collections is a division by zero. |
| SysbenchLoad.DoAll | benchmarks/sysbenchload/sysbenchload.go:60-64 | A SysbenchWriter runs its works' Do in order. It stops at the first one that does not return. |
| SysbenchLoad.LoadSweepsComplete | benchmarks/sysbenchload/sysbenchload.go:60-64 | Under a built load every sweep completes, and each work sends one full batch. |
| SysbenchLoadNested.Generate | benchmarks/sysbench/sysbenchload/sysbenchload.go:20-28 | The same shape, id and draw count as the older generator. |
| SysbenchLoadNested.FreshIds | benchmarks/sysbench/sysbenchload/sysbenchload.go:20-28 | A fresh generator numbers its documents 0, 1, 2, ..., and the counter ends at n mod 2^64. |
| SysbenchLoadNested.SameDocuments | benchmarks/sysbench/sysbenchload/sysbenchload.go:20-28 | Both loaders produce identical documents from the same generator. |
| SysbenchLoadNested.Main | benchmarks/sysbench/sysbenchload/sysbenchload.go:59-97 | Fatal iff numWriters > numCollections, and panics iff the count is negative or zero with collections. Otherwise worker j runs the works of its Members, with the first one's budget. |
| SysbenchLoadNested.CloseReachesEveryCollection | benchmarks/sysbench/sysbenchload/sysbenchload.go:31-45 | Close and Do of the writers reach collection i's work at writer i % numWriters. |
| IIBench.AlnumIsAlphanumeric | benchmarks/iibench/iibench.go:48-55 | The alphabet of rand_str is exactly the 62 ASCII letters and digits. |
| IIBench.RandStr | benchmarks/iibench/iibench.go:48-55 | n alphanumeric characters from n draws. |
| IIBench.RandStrDraws | benchmarks/iibench/iibench.go:48-55 | Character i is the alphabet entry of draw i. |
| IIBench.CharFields | benchmarks/iibench/iibench.go:62-87 | count strings of the given length, all alphanumeric, consuming count * length draws. |
| IIBench.Generate | benchmarks/iibench/iibench.go:62-87 | The ids are below their maxima. Char fields are present iff numCharFields > 0, and a negative length then panics. Draws: four, plus one per character. |
| IIBench.NewQueryWork | benchmarks/iibench/iibench.go:98-101 | A fresh counter, the query flags as the rate, and no budget. |
| IIBench.Do | benchmarks/iibench/iibench.go:103-146 | The shape is counter % 3, and the counter advances mod 2^64. One query is reported. The ids are bounded, and the queried time lies in [start, now) once time has passed. |
| IIBench.ShapesCycle | benchmarks/iibench/iibench.go:118-146 | From a fresh work the shapes cycle 0, 1, 2, 0, ... |
| IIBench.ShapesCount | benchmarks/iibench/iibench.go:103-146 | After n queries from a fresh work the counter is n, wrapping to 0 at 2^64. |
| IIBenchTools.MakeDoc | mongotools/iibenchtools.go:54-79 | The same fields, bounds and panic as the newer generator. |
| IIBenchTools.Build | mongotools/iibenchtools.go:92-137 | The query shape comes from the counter the receiver holds. The ids are bounded, and the queried time lies in [start, now). |
| IIBenchTools.DoWorkAsWritten | mongotools/iibenchtools.go:92-137 | As written, the stored query work is unchanged after DoWork. |
| IIBenchTools.DoWork | mongotools/iibenchtools.go:92-137 | Corrected, the stored counter advances by one. |
| IIBenchTools.ShapeNeverChanges | mongotools/iibenchtools.go:92-137 | As written, every query of a run has the first shape. |
| IIBenchTools.ShapesCycle | mongotools/iibenchtools.go:92-137 | Corrected, the shapes cycle 0, 1, 2, ..., and from the second query on they differ from the shapes as written. |
| IIBenchTools.SecondQueryRepeatsShape | mongotools/iibenchtools.go:92-137 | Two queries from a fresh work: shapes [0, 0] as written, [0, 1] corrected. |
| IIBenchMain.Target | benchmarks/iibench/bin/iibench.go:62-66 | Worker i's collection is collname_(i mod abs(numCollections)). |
| IIBenchMain.BuildWriters | benchmarks/iibench/bin/iibench.go:55-64 | Panics with writers and no collections, or with a zero batch. Writer i writes its target through its own copied session, within the insert budget. |
| IIBenchMain.BuildQueries | benchmarks/iibench/bin/iibench.go:65-70 | Panics iff there are query threads and no collections. Thread i queries its target. |
| IIBenchMain.Main | benchmarks/iibench/bin/iibench.go:31-72 | Fatal on inserts with queries or a duration, and panics on a negative slice capacity. Otherwise the writers come first, then the query works. The duration is numSeconds seconds in wrapping nanoseconds. |
| IIBenchMain.LaunchedSameCollection | benchmarks/iibench/bin/iibench.go:54-71 | In a worker list laid out as main lays it out, writer i and query thread j share a collection iff i and j agree modulo the collection count. |
| IIBenchMain.LaunchedBudgets | benchmarks/iibench/bin/iibench.go:54-71 | In such a list no worker's budget exceeds numInsertsPerThread, and the query threads have none. |
| IIBenchMain.SameCollection | benchmarks/iibench/bin/iibench.go:62-66 | Writer i and query thread j share a collection iff i and j agree modulo the collection count. |
| IIBenchMain.UnboundedRunRejected | benchmarks/iibench/bin/iibench.go:54-71 | With no insert budget and no positive duration, any worker list is rejected by verifyWorks. |
| IIBenchMain.TimedRunAccepted | benchmarks/iibench/bin/iibench.go:54-71 | A positive duration implies no insert budget, and such a run is accepted. |
| Transaction.Begin | mongotools/transaction.go:34-59 | On MongoDB: nil, nothing sent, nothing changed. On TokuMX a single invalid level is an error with nothing sent; otherwise one beginTransaction (with the level only if exactly one was given). live is set iff the server accepts. |
| Transaction.Commit | mongotools/transaction.go:62-69 | Sends commitTransaction. live is cleared iff it is accepted, and a refusal changes nothing and returns an error. |
| Transaction.Rollback | mongotools/transaction.go:72-79 | Sends rollbackTransaction. live is cleared iff it is accepted, and a refusal changes nothing and returns an error. |
| Transaction.Close | mongotools/transaction.go:82-89 | Rolls back iff live, and a refused rollback is fatal. Afterwards live is false. |
| Transaction.CloseIdempotent | mongotools/transaction.go:82-89 | After a Close, a second Close sends nothing and changes nothing. |
| Transaction.ReplayLive | mongotools/transaction.go:34-89 | After any history, live holds iff some accepted begin is not followed by an accepted commit/rollback or a Close, or it was live at the start and nothing shut it. |
| Transaction.MongoNeverLive | mongotools/transaction.go:34-79 | On MongoDB no history makes the transaction live or sends beginTransaction. |

## Left out

- Goroutines, channels, the WaitGroup and the olbermann reporter of `Run`. Each worker is modelled as the sequence of calls it makes, and the quit message as the round at which the worker sees it.
- The mgo driver. Every server command is an oracle: it fails or not, the server says which collections exist, and it says whether it is TokuMX. Query filters, projections, hints, `queryResultLimit` and the documents' wire format are not modelled.
- Time. The clock is a number of nanoseconds given by the caller. `time.Sleep` is an advance of that clock.
- Randomness. `rand.Rand` is an oracle stream, and no claim is made about the distribution of values.
- Floating point. The float draw for the price is counted as a draw, but the price itself and `MaxPrice` are not modelled.
- Flag parsing, `log.Println`, `fmt.Println` and `mgo.Dial`. Flags are parameters with their default values as constants.
- The mains' calls of `MakeCollections`, and the session copies in the mains. Both are modelled on their own, in `CreateCollection` and `LegacyCollectionWriter`.
- `IsTokuMX` of mongotools/utils.go. It is a buildInfo command and appears here as the server's `isTokuMX` answer. The newer createCollection calls it twice per collection (before the create and before the reIndex). Neither call is listed among the commands `CreateCollection.CreateCollectionIn` issues, and a failure of either, which is fatal, is not modelled.
- `mongotools.NewInsertWork`, used by the nested sysbench loader. That file is not part of this model, so the work collection i receives is a parameter of `SysbenchLoadNested.Main`.
- The partition benchmarks and mongotools/partitiontools.go.
- ResultSinks.Report: counters are unbounded naturals. The uint64 wrap of NumInserts and NumTransactions needs 2^64 operations, and a negative delta (an invalid snapshot) is stated instead of wrapping.
- Benchmark.Run: Stats counters are naturals; their uint64 wrap is not modelled for the same reason.
- Sysbench.Main: the duration is stated exactly only when numSeconds * 10^9 fits in int64. Otherwise it is the wrapped value the model computes.
- IIBenchMain.UnboundedRunRejected: assumes numSeconds * 10^9 does not wrap below -2^63. A wrapped negative duration can become positive.
- IIBenchMain.Main: the capacity of `make` is checked only for being negative. An allocation too large for memory is not modelled.
- CollectionWriter.Do: `make` of docsPerInsert interface values also panics when the slice exceeds the allocation limit (for example docsPerInsert = 2^45). The model only panics on a negative length.
- LegacyCollectionWriter.DoWork: `make` panics for a DocsPerInsert of 2^63 or more (not a valid length) or one beyond the allocation limit. The model sends a batch for every positive DocsPerInsert.
- IIBench.Generate: `make` of NumCharFields strings, and the byte slice of rand_str, also panic beyond the allocation limit. Only a negative length panics in the model.
- IIBenchTools.MakeDoc: the same allocation limit as IIBench.Generate is not modelled.
- Sysbench.Main: `make` with capacity numThreads panics beyond the allocation limit. The model builds the workers for every positive count.
- SysbenchLoad.Main: the two `make` calls with numWriters panic only on a negative count in the model, not beyond the allocation limit.
- SysbenchLoadNested.Main: the same allocation limit as SysbenchLoad.Main is not modelled.
- SysbenchWriters.Distribute: `make` of numWriters writers panics only on a negative count in the model, not beyond the allocation limit.
- SysbenchStrings.GeneratedShape: the templates' literal text is stated through its layout ('-' every twelfth position), not compared character by character.
- Sysbench.DoWork: the statements whose errors are ignored (point selects and range queries) are not listed as calls, and the drawn ids and collection index are not recorded.
- SysbenchLoad.LoadSweepsComplete and Transaction.CloseIdempotent follow directly from the contracts they build on.
- Sysbench.AcceptedIffTimed: sysbench's main hands its workers to `Run` of the tokubenchmark package, which is not part of this model. The lemma assumes that `Run` applies the configuration check of benchmark.go.
- Sysbench.ZeroSecondsRejected: rests on the same assumption about tokubenchmark's `Run`.
- Gating.Gate: the operation counter is a natural. Its uint64 wrap needs 2^64 operations without a reset. The time after a sleep is the clock before it plus the sleep.

## Findings

| source | as written | input that shows it | evidently intended | confidence | as-written member | corrected member |
|---|---|---|---|---|---|---|
| mongotools/createCollection.go:71-76 | After `IsTokuMX = false` the function falls through to `IsTokuMX = true`, so the global is true on every server. | A MongoDB server (no `tokumxVersion` in buildInfo) with -create and one collection: `c_0` is created with TokuMX options. | `return` after the MongoDB branch: the global records the server's kind, and MongoDB gets a plain create. | high, not executed | CreateCollectionLegacy.MongoServerGetsTokuCollection | CreateCollectionLegacy.CreatesMatchServer |
| mongotools/iibenchtools.go:92-137 | `DoWork` has a value receiver, so `r.numQueriesSoFar++` updates a copy and the stored counter never moves. | A fresh query work asked for two queries sends shape 0 twice. The second and third query shapes never run. | A pointer receiver, as `QueryWork.Do` in benchmarks/iibench/iibench.go has, so shapes cycle 0, 1, 2. | high, not executed | IIBenchTools.ShapeNeverChanges | IIBenchTools.ShapesCycle |
