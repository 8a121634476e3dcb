# StarRocks statistics collection planning, in Dafny

This project models the planner behind StarRocks' automatic statistics
collection, `StatisticsCollectJobFactory`. Given an analyze request and a
snapshot of the catalog and of the statistics metadata, the factory decides
which tables get a collection job, with which method (SAMPLE, HISTOGRAM,
FULL, or external FULL), and over which partitions.

The model has four parts.

- **Scope fan-out.** A native request covers one table, all tables of one
  database, or all databases (`NativePlan.PlanNativeJobs`). An external
  request does the same for a catalog (`ExternalPlan.PlanExternalJobs`).
- **Per-table gate sequence.** First the eligibility filters and the
  exclusion pattern. Then the watermark and the freshness, rate-limit and
  health gates. Last the forced downgrade to SAMPLE and the dispatch on the
  analyze type (`NativePlan.PlanNativeTable`, `ExternalPlan.PlanExternalTable`).
- **Incremental FULL partition selection.** It includes the downgrade to
  SAMPLE when a selected partition is oversized (`NativePlan.FullStatsOutcome`).
- **Job builders.** They default the columns, the column types and the
  partitions (`JobBuilder`).

Modules:

- `Wrappers`: `Option` and `Result`.
- `StatsCatalog`: the snapshot types, the configuration, the unknown
  helpers (as the `Oracles` record), the job descriptors, and `JobList`, the
  caller-owned list that jobs are appended to.
- `JobBuilder`: both native and external builders. They are pure functions.
- `NativePlan` and `ExternalPlan`: the planning decisions as functions of the
  snapshot, and the lemmas about them.
- `NativeCollector` and `ExternalCollector`: the imperative code. These are
  `createJob`, `createExternalAnalyzeJob`, the `create*StatsJob` helpers, the
  partition and data-size loops, and the scope loops. Each method appends to
  a `JobList`. Each is proved to append exactly what the planning functions
  specify.

Three of the source's exceptions are modelled as `PlanError` values. An
unknown analyze type throws (line 456). A column name the table does not
have dereferences null (lines 103, 107, 195, 213, 217 and 267). A non-blank exclusion pattern that
does not compile makes `Pattern.compile` throw (lines 241 and 349), before
any table name is matched. The source catches none of them, so each one
aborts the whole request. The proved methods and functions return the
`Failure`. Further exceptions the source can raise are listed under
"Left out".

Time is an integer number of seconds. `LocalDateTime.MIN` is the stamp `Min`,
which lies before every other time. The health ratio is a `real`.

Some behaviours of the code are easy to get wrong when reading it quickly.
The model follows the code as written:

- The health gate (line 423) is not restricted by method. It also skips
  HISTOGRAM requests (`HealthyTableGetsNoJob`).
- Caller-supplied column types are kept when they are not empty (line 106).
  They are not re-derived from the schema (`JobBuilder.ResolveColumns`).
- A FULL job downgraded to SAMPLE because of an oversized partition goes
  through the builder's SAMPLE branch (lines 111-113, reached from line 498).
  That job covers the whole table, not the selected partitions
  (`FullStatsOutcome`).
- An unknown analyze type throws out of the whole request, not just out of
  that table (`UnknownTypeRaises`, `FoldFailurePersists`,
  `PlanDbsFailurePersists`).
- The init flag does not bypass every gate. For SAMPLE and FULL, the
  freshness gate (`isUpdatedAfterLoad`) and the health gate also apply to an
  init-job meta. Only the rate limit and the histogram freshness test look
  at the flag.
- A table without statistics metadata does not always get a job. A FULL
  request finds no partition to collect when no partition holds data.
- The external freshness skip needs the stats time to be strictly after a
  known table update time (line 256).

## Model

| member | source | states |
|---|---|---|
| StatsCatalog.GetTable | fe/fe-core/src/main/java/com/starrocks/statistic/StatisticsCollectJobFactory.java:86-87 | the table found has the requested id and is one of the database's tables; none is found only when no table has that id |
| StatsCatalog.JobList.Add | fe/fe-core/src/main/java/com/starrocks/statistic/StatisticsCollectJobFactory.java:466 | the list gains exactly the given job at its end |
| StatsCatalog.AddBuilt | fe/fe-core/src/main/java/com/starrocks/statistic/StatisticsCollectJobFactory.java:498-500 | a built job is appended; a build that raises appends nothing and reports its exception |
| StatsCatalog.FoldFollowsOrder | fe/fe-core/src/main/java/com/starrocks/statistic/StatisticsCollectJobFactory.java:65-67 | when each table emits nothing or a job on itself, the loop's jobs follow the table order, at most one per table |
| StatsCatalog.FoldFailurePersists | fe/fe-core/src/main/java/com/starrocks/statistic/StatisticsCollectJobFactory.java:65-67 | once a table raises, the loop's result is that exception whatever tables follow |
| JobBuilder.LookupTypes | fe/fe-core/src/main/java/com/starrocks/statistic/StatisticsCollectJobFactory.java:103 | succeeds iff every name is a schema column; then the types line up one to one with the names' schema types; on failure it names a column missing from the schema |
| JobBuilder.ResolveColumns | fe/fe-core/src/main/java/com/starrocks/statistic/StatisticsCollectJobFactory.java:101-108 | null or empty names default to the collectible columns; null or empty types are the schema types of the names, one per name; non-empty caller names and types are kept unchanged; succeeds iff every looked-up name (the collectible columns, or the given names when only the types are missing) is in the schema, and a failure names a looked-up column missing from the schema |
| JobBuilder.IdsWithData | fe/fe-core/src/main/java/com/starrocks/statistic/StatisticsCollectJobFactory.java:117-119 | an id is listed iff some partition with that id holds data |
| JobBuilder.BuildNativeJob | fe/fe-core/src/main/java/com/starrocks/statistic/StatisticsCollectJobFactory.java:94-124 | succeeds iff the columns resolve, that is iff every looked-up name is in the schema; SAMPLE gives a SAMPLE job, HISTOGRAM a HISTOGRAM job, every other type a FULL job; a FULL job covers the given partitions, or every partition with data when none are given; target, columns, schedule and properties are carried over |
| JobBuilder.WholeTableJobsIgnorePartitions | fe/fe-core/src/main/java/com/starrocks/statistic/StatisticsCollectJobFactory.java:111-115 | SAMPLE and HISTOGRAM jobs are the same whatever partition list is passed |
| JobBuilder.ExternalPartitionNames | fe/fe-core/src/main/java/com/starrocks/statistic/StatisticsCollectJobFactory.java:220-227 | given names are kept; without them a partitioned table uses all its partition names and an unpartitioned table uses its own name |
| JobBuilder.BuildExternalJob | fe/fe-core/src/main/java/com/starrocks/statistic/StatisticsCollectJobFactory.java:200-230 | succeeds iff the columns resolve, that is iff every looked-up name is in the schema; the job is always an external FULL descriptor on this catalog, database and table, with the defaulted partitions and columns and the given type, schedule and properties |
| JobBuilder.BuildExternalJobForColumns | fe/fe-core/src/main/java/com/starrocks/statistic/StatisticsCollectJobFactory.java:189-198 | succeeds iff the given names (or, when empty, the collectible columns) are schema columns; the job's types are then the schema types of its columns, one per column; the job is an external FULL descriptor on this catalog, database and table, with the defaulted partitions and the given type, schedule and properties |
| NativePlan.MinUpdateTime | fe/fe-core/src/main/java/com/starrocks/statistic/StatisticsCollectJobFactory.java:370-373 | the result is one of the histogram times and no later than any of them |
| NativePlan.Watermark | fe/fe-core/src/main/java/com/starrocks/statistic/StatisticsCollectJobFactory.java:361-375 | SAMPLE and FULL with a basic meta use its time and init flag; other types with histogram metas use the earliest histogram time and are init iff some histogram meta is; otherwise MIN and init; a non-init watermark is never MIN |
| NativePlan.SampleOutcome | fe/fe-core/src/main/java/com/starrocks/statistic/StatisticsCollectJobFactory.java:461-467 | succeeds iff the columns resolve, and then emits exactly one SAMPLE job on this table with the resolved columns and types, the request's schedule and properties; otherwise a missing-column error |
| NativePlan.HistogramOutcome | fe/fe-core/src/main/java/com/starrocks/statistic/StatisticsCollectJobFactory.java:469-475 | succeeds iff the columns resolve, and then emits exactly one HISTOGRAM job on this table with the resolved columns and types, the request's schedule and properties; otherwise a missing-column error |
| NativePlan.ChangedPartitions | fe/fe-core/src/main/java/com/starrocks/statistic/StatisticsCollectJobFactory.java:481-487 | a partition is selected iff it holds data and was updated strictly after the watermark; the selection keeps partition order |
| NativePlan.FullStatsOutcome | fe/fe-core/src/main/java/com/starrocks/statistic/StatisticsCollectJobFactory.java:477-502 | an empty selection gives no job; otherwise it succeeds iff the columns resolve, and then emits exactly one job on this table with the resolved columns and types, the request's schedule and empty properties, SAMPLE iff a selected partition exceeds the max full-collect size, else FULL over exactly the selected partition ids |
| NativePlan.DispatchOutcome | fe/fe-core/src/main/java/com/starrocks/statistic/StatisticsCollectJobFactory.java:444-458 | an unknown type is exactly the case that raises the unknown-type error; SAMPLE gives SAMPLE jobs, HISTOGRAM gives HISTOGRAM jobs, and only FULL can give a FULL job |
| NativePlan.PlanNativeTable | fe/fe-core/src/main/java/com/starrocks/statistic/StatisticsCollectJobFactory.java:326-459 | a job is only emitted for a present, eligible, not excluded table, and it targets that table; an invalid exclusion pattern raises iff the table is present and eligible |
| NativePlan.ResolvedDb | fe/fe-core/src/main/java/com/starrocks/statistic/StatisticsCollectJobFactory.java:60-63 | a database is used iff its id resolves and its name is not blacklisted, and then it is the database stored under that id |
| NativePlan.IneligibleTableGetsNoJob | fe/fe-core/src/main/java/com/starrocks/statistic/StatisticsCollectJobFactory.java:328-355 | a null table, a table of another kind, an OLAP table not in NORMAL state, a temporary table with the flag off, an empty table, or an excluded table gets no job and raises nothing |
| NativePlan.RateLimitedTableGetsNoJob | fe/fe-core/src/main/java/com/starrocks/statistic/StatisticsCollectJobFactory.java:389-414 | with a basic meta and a non-init watermark, no job when watermark + interval is after now; the interval is the override, else the histogram interval for HISTOGRAM, else the large-table interval iff the changed size is strictly above the small-table size |
| NativePlan.StaleTableGetsNoJob | fe/fe-core/src/main/java/com/starrocks/statistic/StatisticsCollectJobFactory.java:377-387 | with a basic meta, SAMPLE and FULL get no job when the meta reports collection after the table's last update, init-job meta or not; other types get none when their histogram metas are all non-init and all strictly after the table's last update |
| NativePlan.HealthyTableGetsNoJob | fe/fe-core/src/main/java/com/starrocks/statistic/StatisticsCollectJobFactory.java:416-426 | a basic meta strictly healthier than the ratio (override, else configured) gives no job, for every type |
| NativePlan.UnhealthyChangedTableIsSampled | fe/fe-core/src/main/java/com/starrocks/statistic/StatisticsCollectJobFactory.java:427-438 | past the earlier gates, below the sample threshold, not HISTOGRAM and changed by more than the small-table size, the table gets exactly one SAMPLE job and no FULL job, or a missing-column error |
| NativePlan.TableWithoutStatsSkipsGates | fe/fe-core/src/main/java/com/starrocks/statistic/StatisticsCollectJobFactory.java:377-458 | without a basic meta no gate applies: SAMPLE, HISTOGRAM and FULL (against MIN) are built as requested, and an unknown type raises |
| NativePlan.EveryPartitionWithDataChangedSinceMin | fe/fe-core/src/main/java/com/starrocks/statistic/StatisticsCollectJobFactory.java:482-486 | against MIN, exactly the partitions with data are selected |
| NativePlan.NeverAnalysedFullTableGetsOneJob | fe/fe-core/src/main/java/com/starrocks/statistic/StatisticsCollectJobFactory.java:448-450 | an eligible table without basic meta and with a partition holding data gets exactly one job for a FULL request iff its columns resolve |
| NativePlan.FullWatermarkFollowsBasicMeta | fe/fe-core/src/main/java/com/starrocks/statistic/StatisticsCollectJobFactory.java:448-454 | FULL selects partitions against MIN when the basic meta is missing or init, else against the meta's time |
| NativePlan.UnknownTypeRaises | fe/fe-core/src/main/java/com/starrocks/statistic/StatisticsCollectJobFactory.java:455-457 | an eligible table that passes the gates with an unknown type raises the unknown-type error |
| NativePlan.PlanTablesFollowsTableOrder | fe/fe-core/src/main/java/com/starrocks/statistic/StatisticsCollectJobFactory.java:77-79 | the jobs of a database target its tables in table order, at most one per table |
| NativePlan.GatesPassedTableGetsRequestedJob | fe/fe-core/src/main/java/com/starrocks/statistic/StatisticsCollectJobFactory.java:377-458 | an eligible table with a basic meta that passes the freshness, rate-limit and health gates and is not downgraded gets the requested job: SAMPLE, HISTOGRAM, or FULL against the meta's time (MIN for an init-job meta) |
| NativePlan.PlanDbsFollowsEnumeration | fe/fe-core/src/main/java/com/starrocks/statistic/StatisticsCollectJobFactory.java:59-68 | all-databases mode emits jobs in database-then-table order, only for tables of resolved, non-blacklisted databases, at most one per table |
| NativePlan.SkippedDbContributesNothing | fe/fe-core/src/main/java/com/starrocks/statistic/StatisticsCollectJobFactory.java:60-63 | removing an unresolved or blacklisted database id from the enumeration leaves the plan unchanged |
| NativePlan.MissingDbYieldsNoJobs | fe/fe-core/src/main/java/com/starrocks/statistic/StatisticsCollectJobFactory.java:69-85 | all-tables and single-table modes return an empty list when the database is missing |
| NativePlan.MissingTableYieldsNoJobs | fe/fe-core/src/main/java/com/starrocks/statistic/StatisticsCollectJobFactory.java:86-88 | single-table mode returns an empty list when the database has no table with the id |
| NativePlan.PlanDbsCoversEveryResolvedDb | fe/fe-core/src/main/java/com/starrocks/statistic/StatisticsCollectJobFactory.java:59-67 | when the all-databases plan succeeds, every id that resolves to a non-blacklisted database contributes all of its tables' jobs, right after the jobs of the ids before it |
| NativePlan.PlanDbsFailurePersists | fe/fe-core/src/main/java/com/starrocks/statistic/StatisticsCollectJobFactory.java:59-68 | once a database raises, the result for the request is that exception whatever databases follow |
| NativeCollector.CreateSampleStatsJob | fe/fe-core/src/main/java/com/starrocks/statistic/StatisticsCollectJobFactory.java:461-467 | appends exactly the SAMPLE outcome and reports its exception |
| NativeCollector.CreateHistogramJob | fe/fe-core/src/main/java/com/starrocks/statistic/StatisticsCollectJobFactory.java:469-475 | appends exactly the HISTOGRAM outcome and reports its exception |
| NativeCollector.SelectChangedPartitions | fe/fe-core/src/main/java/com/starrocks/statistic/StatisticsCollectJobFactory.java:481-487 | the loop builds exactly the changed partitions, in order |
| NativeCollector.CreateFullStatsJob | fe/fe-core/src/main/java/com/starrocks/statistic/StatisticsCollectJobFactory.java:477-502 | appends exactly the FULL-stats outcome and reports its exception |
| NativeCollector.SumChangedDataSize | fe/fe-core/src/main/java/com/starrocks/statistic/StatisticsCollectJobFactory.java:390-396 | the loop sums the data size of exactly the partitions the meta does not report as collected after their last load |
| NativeCollector.DispatchJob | fe/fe-core/src/main/java/com/starrocks/statistic/StatisticsCollectJobFactory.java:444-458 | appends exactly the dispatch outcome and reports its exception |
| NativeCollector.ComputeWatermark | fe/fe-core/src/main/java/com/starrocks/statistic/StatisticsCollectJobFactory.java:361-375 | computes exactly the watermark and init flag of the metas |
| NativeCollector.SkipByGates | fe/fe-core/src/main/java/com/starrocks/statistic/StatisticsCollectJobFactory.java:377-426 | skips iff the freshness, rate-limit or health gate trips |
| NativeCollector.CreateGatedJob | fe/fe-core/src/main/java/com/starrocks/statistic/StatisticsCollectJobFactory.java:357-458 | appends exactly the gated outcome and reports its exception |
| NativeCollector.CreateJob | fe/fe-core/src/main/java/com/starrocks/statistic/StatisticsCollectJobFactory.java:326-459 | appends exactly the table's planned outcome and reports its exception |
| NativeCollector.CreateTableJobs | fe/fe-core/src/main/java/com/starrocks/statistic/StatisticsCollectJobFactory.java:65-67 | appends exactly the database's planned jobs, or reports the exception that aborts them |
| NativeCollector.CollectAllDatabases | fe/fe-core/src/main/java/com/starrocks/statistic/StatisticsCollectJobFactory.java:55-68 | returns exactly the all-databases plan |
| NativeCollector.CollectOneDatabase | fe/fe-core/src/main/java/com/starrocks/statistic/StatisticsCollectJobFactory.java:69-79 | returns exactly the plan for every table of the database |
| NativeCollector.CollectOneTable | fe/fe-core/src/main/java/com/starrocks/statistic/StatisticsCollectJobFactory.java:80-88 | returns exactly the single table's outcome, with the request's columns |
| NativeCollector.BuildStatisticsCollectJobs | fe/fe-core/src/main/java/com/starrocks/statistic/StatisticsCollectJobFactory.java:53-92 | returns exactly the native plan for the request |
| ExternalPlan.ExternalMetaOf | fe/fe-core/src/main/java/com/starrocks/statistic/StatisticsCollectJobFactory.java:249-250 | a meta is found iff one is stored under (catalog, database, table), and it is the meta stored under that key |
| ExternalPlan.ProbeColumns | fe/fe-core/src/main/java/com/starrocks/statistic/StatisticsCollectJobFactory.java:265-268 | given names and types are kept; null or empty names become the collectible columns with their schema types; fails iff that default lookup meets a column missing from the schema |
| ExternalPlan.TableRowCount | fe/fe-core/src/main/java/com/starrocks/statistic/StatisticsCollectJobFactory.java:269-278 | the first known column's row count, else one below the small-table row threshold |
| ExternalPlan.ExternalFullOutcome | fe/fe-core/src/main/java/com/starrocks/statistic/StatisticsCollectJobFactory.java:307-324 | one external FULL job with empty properties iff the columns resolve; it covers the probed partitions, or all partition names when the probe is unsupported, or the table's own name for an unpartitioned table |
| ExternalPlan.PlanExternalTable | fe/fe-core/src/main/java/com/starrocks/statistic/StatisticsCollectJobFactory.java:232-305 | a job is only emitted for a present, not excluded table and a FULL request, and it is an external FULL job with empty properties on that table; the only errors are a missing column and an invalid exclusion pattern, which raises iff the table is present |
| ExternalPlan.ResolvedExternalDb | fe/fe-core/src/main/java/com/starrocks/statistic/StatisticsCollectJobFactory.java:132-136 | a database is used iff its name resolves and it is not blacklisted, and then it is the database stored under that name |
| ExternalPlan.ExcludedExternalTableGetsNoJob | fe/fe-core/src/main/java/com/starrocks/statistic/StatisticsCollectJobFactory.java:235-247 | a null or excluded table gets no job and raises nothing |
| ExternalPlan.FreshExternalTableGetsNoJob | fe/fe-core/src/main/java/com/starrocks/statistic/StatisticsCollectJobFactory.java:251-262 | a meta strictly after a known table update time gives no job |
| ExternalPlan.ExternalGatesPassedTableGetsDispatched | fe/fe-core/src/main/java/com/starrocks/statistic/StatisticsCollectJobFactory.java:239-304 | a present, not excluded table whose meta is not strictly after a known update time (or whose update time is unknown), and which the rate limit lets through for the probed columns, gets the FULL-only dispatch against the meta's time with the probed columns |
| ExternalPlan.UnknownUpdateTimeIsNeverFresh | fe/fe-core/src/main/java/com/starrocks/statistic/StatisticsCollectJobFactory.java:254-262 | with an unknown table update time the freshness gate never skips: once the interval has elapsed, a FULL request gets its job against the meta's time |
| ExternalPlan.RateLimitedExternalTableGetsNoJob | fe/fe-core/src/main/java/com/starrocks/statistic/StatisticsCollectJobFactory.java:274-291 | no job when meta time + interval is after now; the interval is the override, else the small-table interval iff the row count is below the small-table row threshold, else the large-table interval |
| ExternalPlan.UnknownRowCountMeansSmallTable | fe/fe-core/src/main/java/com/starrocks/statistic/StatisticsCollectJobFactory.java:274-281 | without known column statistics the default interval is the small-table interval |
| ExternalPlan.ProbeDefaultsToCollectibleColumns | fe/fe-core/src/main/java/com/starrocks/statistic/StatisticsCollectJobFactory.java:264-270 | without request columns, the rate limit and the job use the collectible columns with their schema types |
| ExternalPlan.NeverAnalysedExternalTableGetsOneJob | fe/fe-core/src/main/java/com/starrocks/statistic/StatisticsCollectJobFactory.java:294-296 | without a meta, a FULL request probes against MIN and gets exactly one job iff its columns resolve |
| ExternalPlan.ExternalTablesAreFullOnly | fe/fe-core/src/main/java/com/starrocks/statistic/StatisticsCollectJobFactory.java:294-304 | a database's jobs are all external FULL jobs with empty properties, and there are none unless the request is FULL |
| ExternalPlan.ExternalDbsAreFullOnly | fe/fe-core/src/main/java/com/starrocks/statistic/StatisticsCollectJobFactory.java:128-149 | the same over every listed database |
| ExternalPlan.ExternalJobsAreFullOnly | fe/fe-core/src/main/java/com/starrocks/statistic/StatisticsCollectJobFactory.java:126-187 | the same for every request scope: only FULL produces external jobs |
| ExternalPlan.ExternalDbsFollowListing | fe/fe-core/src/main/java/com/starrocks/statistic/StatisticsCollectJobFactory.java:131-149 | all-databases mode emits jobs in database-then-listing order, only for tables of resolved, non-blacklisted databases, at most one per table |
| ExternalPlan.ExternalTablesFollowListing | fe/fe-core/src/main/java/com/starrocks/statistic/StatisticsCollectJobFactory.java:138-148 | a database's jobs follow the table listing, at most one per resolved table |
| ExternalPlan.SkippedExternalDbContributesNothing | fe/fe-core/src/main/java/com/starrocks/statistic/StatisticsCollectJobFactory.java:132-136 | removing an unresolved or blacklisted database name from the listing leaves the plan unchanged |
| ExternalPlan.MissingExternalDbOrTableYieldsNoJobs | fe/fe-core/src/main/java/com/starrocks/statistic/StatisticsCollectJobFactory.java:150-181 | all-tables and single-table modes return an empty list for a missing database, and single-table mode for a missing table |
| ExternalPlan.ExternalDbsCoverEveryResolvedDb | fe/fe-core/src/main/java/com/starrocks/statistic/StatisticsCollectJobFactory.java:131-148 | when the all-databases plan succeeds, every name that resolves to a non-blacklisted database contributes the jobs of all its listed tables, right after the jobs of the names before it |
| ExternalPlan.ExternalDbsFailurePersists | fe/fe-core/src/main/java/com/starrocks/statistic/StatisticsCollectJobFactory.java:131-149 | once a database raises, the request's result is that exception whatever databases follow |
| ExternalCollector.CreateExternalFullStatsJob | fe/fe-core/src/main/java/com/starrocks/statistic/StatisticsCollectJobFactory.java:307-324 | appends exactly the external FULL outcome and reports its exception |
| ExternalCollector.ExternalDispatchJob | fe/fe-core/src/main/java/com/starrocks/statistic/StatisticsCollectJobFactory.java:294-304 | appends exactly the FULL-only dispatch outcome and reports its exception |
| ExternalCollector.ExternalRateLimited | fe/fe-core/src/main/java/com/starrocks/statistic/StatisticsCollectJobFactory.java:269-291 | skips iff meta time plus the row-count based interval is after now |
| ExternalCollector.CreateExternalAnalyzeJob | fe/fe-core/src/main/java/com/starrocks/statistic/StatisticsCollectJobFactory.java:232-305 | appends exactly the external table's planned outcome and reports its exception |
| ExternalCollector.CreateExternalTableJobs | fe/fe-core/src/main/java/com/starrocks/statistic/StatisticsCollectJobFactory.java:138-148 | appends exactly the database's planned jobs, or reports the exception that aborts them |
| ExternalCollector.CollectExternalDb | fe/fe-core/src/main/java/com/starrocks/statistic/StatisticsCollectJobFactory.java:132-148 | one database name of the loop: appends exactly that database's planned jobs (none when it does not resolve or is blacklisted), or reports the exception that aborts them |
| ExternalCollector.CollectAllExternalDatabases | fe/fe-core/src/main/java/com/starrocks/statistic/StatisticsCollectJobFactory.java:128-149 | returns exactly the all-databases plan |
| ExternalCollector.CollectOneExternalDatabase | fe/fe-core/src/main/java/com/starrocks/statistic/StatisticsCollectJobFactory.java:150-167 | returns exactly the plan for every listed table of the database |
| ExternalCollector.CollectOneExternalTable | fe/fe-core/src/main/java/com/starrocks/statistic/StatisticsCollectJobFactory.java:168-184 | returns exactly the single table's outcome, with the request's columns |
| ExternalCollector.BuildExternalStatisticsCollectJobs | fe/fe-core/src/main/java/com/starrocks/statistic/StatisticsCollectJobFactory.java:126-187 | returns exactly the external plan for the request |

## Left out

- Metadata lookups through `GlobalStateMgr` (databases, tables, partitions,
  table names, partition names, statistics metas) are an explicit snapshot
  (`NativeCatalog`, `ExternalCatalog`, `StatsStore`). No live catalog is
  modelled.
- `refreshTable` (lines 208-209) changes an external catalog. It is not
  modelled; the snapshot is taken to be already refreshed.
- The connector's change probe `getUpdatedPartitionNames` (line 315) is the
  input function `Oracles.updatedPartitionNames`. Its 60-second tolerance is
  opaque. An exception and a null result are both `None`. The returned set's
  iteration order is taken as the given sequence.
- The connector row counts (lines 269-272) are the input function
  `Oracles.knownRowCount`, which gives the row count of the first column
  whose statistics are known.
- These `StatisticUtils` helpers have bodies that are not part of this
  model: `getTableLastUpdateTime`, `getPartitionLastUpdateTime`,
  `isEmptyTable`, `getCollectibleColumns`, `statisticDatabaseBlackListCheck`.
  The same holds for `BasicStatsMeta.isUpdatedAfterLoad`. They are
  snapshot fields or `Oracles` functions. A native table's last update time
  is always known. A null native update time, and the null dereference it
  would cause at line 385, are not modelled.
- Java regular expressions (lines 241-243 and 349-351) are the opaque
  predicate `Oracles.patternFinds`. `StringUtils.isNotBlank` is modelled
  exactly for characters below U+0080. For other characters, whitespace is
  not modelled.
- `Long.parseLong` and `Double.parseDouble` of the overrides are the input
  functions `Oracles.parseLong` and `Oracles.parseDouble`. The
  `NumberFormatException` they throw on a malformed value is not modelled.
- `PlusSeconds`: `LocalDateTime.plusSeconds` (lines 286 and 409) throws
  `DateTimeException` when an interval override pushes the time past the
  `LocalDateTime` range. The model's times are unbounded integers, so that
  exception is not modelled.
- `NativePlan.ChangedDataSize`: the source sums partition sizes in a `long`
  (lines 390-395), which can wrap around. The model's sum is an unbounded
  integer, because partition sizes in practice stay far below that bound.
- `Oracles.patternCompiles` decides whether a pattern compiles; the Java
  regular-expression syntax itself is not modelled.
- Times are whole seconds. `LocalDateTime` also carries nanoseconds, so
  the strict comparisons at lines 256, 385, 391 and 486 may order two
  times within the same second differently from the model.
- Health ratios are compared as reals. Floating-point rounding of the
  `double` is not modelled.
- Logging is left out. `LocalDateTime.now()` is the `now` field of the
  environment.
- The job subclasses' constructors are not part of this model. A job is a
  `Job` value.
- The values of `StatsConstants` are taken to be -1 for `DEFAULT_ALL_ID` and
  `statistic_exclude_pattern`, `statistic_auto_collect_interval` and
  `statistic_auto_collect_ratio` for the property keys. `StatsConstants` is
  not part of this model.
- `PlusSeconds`: adding seconds to `LocalDateTime.MIN` gives `MIN`. This is
  a simplification; the source only adds to MIN for an init job, whose rate
  limit is never evaluated.
- `JobBuilder.BuildExternalJobForColumns`: the column list is never null.
  The source would dereference a null list at line 195.
- Job-list updates are modelled in place on `JobList`. A native request and
  an external request each return a fresh list. Sharing of that list with
  other code is not modelled.
