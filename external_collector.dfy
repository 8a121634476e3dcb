/** The imperative side of external planning: `createExternalAnalyzeJob`
    and `createExternalFullStatsJob` append to the caller-owned job list, and
    the scope method loops over databases and table names. Each method is
    proved to append exactly what `ExternalPlan` specifies. */
module ExternalCollector {
  import opened Wrappers
  import opened StatsCatalog
  import opened JobBuilder
  import opened ExternalPlan

  /** `createExternalFullStatsJob`: probe the connector for the partitions
      updated after the watermark, then add one external FULL job. */
  method CreateExternalFullStatsJob(jobs: JobList, env: ExternalEnv, req: ExternalAnalyzeJob, w: Stamp,
                                    db: ExternalDb, t: ExternalTable,
                                    names: Option<seq<string>>, types: Option<seq<ColType>>)
    returns (err: Option<PlanError>)
    modifies jobs
    ensures jobs.jobs == old(jobs.jobs) + Emitted(ExternalFullOutcome(env, req, w, db, t, names, types))
    ensures err == ErrorOf(ExternalFullOutcome(env, req, w, db, t, names, types))
  {
    var updatedPartitions := env.orc.updatedPartitionNames(t, w);
    var built := BuildExternalJob(req.catalogName, db, t, updatedPartitions, names, types,
                                  Full, req.scheduleType, map[]);
    err := AddBuilt(jobs, built);
  }

  /** The FULL-only dispatch at the end of `createExternalAnalyzeJob`. */
  method ExternalDispatchJob(jobs: JobList, env: ExternalEnv, req: ExternalAnalyzeJob, w: Stamp,
                             db: ExternalDb, t: ExternalTable,
                             names: Option<seq<string>>, types: Option<seq<ColType>>)
    returns (err: Option<PlanError>)
    modifies jobs
    ensures jobs.jobs == old(jobs.jobs) + Emitted(ExternalDispatch(env, req, w, db, t, names, types))
    ensures err == ErrorOf(ExternalDispatch(env, req, w, db, t, names, types))
  {
    err := None;
    if req.analyzeType == Full {
      err := CreateExternalFullStatsJob(jobs, env, req, w, db, t, names, types);
    }
  }

  /** The rate-limit check of `createExternalAnalyzeJob`: the row count of the
      probed columns picks the interval, and the table is skipped when the
      meta time plus the interval is after now. */
  method ExternalRateLimited(env: ExternalEnv, req: ExternalAnalyzeJob, t: ExternalTable, m: ExternalMeta,
                             columnNames: seq<string>)
    returns (skip: bool)
    ensures skip == ExternalCollectedTooRecently(env, req, t, m, columnNames)
  {
    var tableRowCount := TableRowCount(env.cfg, env.orc, t, columnNames);
    var timeInterval := ExternalCollectInterval(env.orc, env.cfg, req, tableRowCount);
    skip := IsAfter(PlusSeconds(At(m.updateTime), timeInterval), At(env.now));
  }

  /** `createExternalAnalyzeJob`: the exclusion filter, the freshness and
      rate-limit gates, then the FULL-only dispatch. */
  method CreateExternalAnalyzeJob(jobs: JobList, env: ExternalEnv, req: ExternalAnalyzeJob, db: ExternalDb,
                                  table: Option<ExternalTable>,
                                  names: Option<seq<string>>, types: Option<seq<ColType>>)
    returns (err: Option<PlanError>)
    modifies jobs
    ensures jobs.jobs == old(jobs.jobs) + Emitted(PlanExternalTable(env, req, db, table, names, types))
    ensures err == ErrorOf(PlanExternalTable(env, req, db, table, names, types))
  {
    if table.None? {
      return None;
    }
    var t := table.value;
    if ExcludePatternInvalid(env.orc, req.properties) {
      return Some(BadExcludePattern(req.properties[ExcludePatternKey]));
    }
    if Excluded(env.orc, req.properties, db.fullName, t.name) {
      return None;
    }

    var basicStatsMeta := ExternalMetaOf(env, req, db, t);
    if basicStatsMeta.None? {
      err := ExternalDispatchJob(jobs, env, req, Min, db, t, names, types);
      return;
    }
    var m := basicStatsMeta.value;
    // freshness
    if t.lastUpdateTime.Some? && IsAfter(At(m.updateTime), At(t.lastUpdateTime.value)) {
      return None;
    }
    // row count
    var columnNames := names;
    var columnTypes := types;
    if columnNames.None? || columnNames.value == [] {
      var looked := LookupTypes(t.schema, t.collectible);
      if looked.Failure? {
        return Some(looked.error);
      }
      columnNames := Some(t.collectible);
      columnTypes := Some(looked.value);
    }
    assert ProbeColumns(t, names, types) == Success((columnNames.value, columnTypes));
    var skip := ExternalRateLimited(env, req, t, m, columnNames.value);
    if skip {
      return None;
    }
    err := ExternalDispatchJob(jobs, env, req, At(m.updateTime), db, t, columnNames, columnTypes);
  }

  /** The table loop shared by all-databases and all-tables mode: one
      `createExternalAnalyzeJob` per listed name, with no request columns;
      names that do not resolve are skipped. */
  method CreateExternalTableJobs(jobs: JobList, env: ExternalEnv, req: ExternalAnalyzeJob, db: ExternalDb,
                                 dbName: string)
    returns (err: Option<PlanError>)
    modifies jobs
    ensures err == ErrorOf(PlanExternalTables(env, req, db, dbName, ListTableNames(env.catalog, dbName)))
    ensures err.None? ==>
              jobs.jobs == old(jobs.jobs) + PlanExternalTables(env, req, db, dbName, ListTableNames(env.catalog, dbName)).value
  {
    var tableNames := ListTableNames(env.catalog, dbName);
    var k := 0;
    while k < |tableNames|
      invariant 0 <= k <= |tableNames|
      invariant PlanExternalTables(env, req, db, dbName, tableNames[..k]).Success?
      invariant jobs.jobs == old(jobs.jobs) + PlanExternalTables(env, req, db, dbName, tableNames[..k]).value
    {
      assert tableNames[..k + 1][..k] == tableNames[..k];
      var table := GetExternalTable(env.catalog, dbName, tableNames[k]);
      err := CreateExternalAnalyzeJob(jobs, env, req, db, table, None, None);
      if err.Some? {
        FoldFailurePersists(tableNames, ExternalTablePlanner(env, req, db, dbName), k + 1);
        return;
      }
      k := k + 1;
    }
    assert tableNames[..k] == tableNames;
    err := None;
  }

  /** One database name of the all-databases loop: skipped when it does not
      resolve or is blacklisted, otherwise every listed table of it. */
  method CollectExternalDb(jobs: JobList, env: ExternalEnv, req: ExternalAnalyzeJob, name: string)
    returns (err: Option<PlanError>)
    modifies jobs
    ensures err == ErrorOf(PlanExternalDb(env, req, name))
    ensures err.None? ==> jobs.jobs == old(jobs.jobs) + PlanExternalDb(env, req, name).value
  {
    var db := GetExternalDb(env.catalog, name);
    if db.Some? && !env.orc.blacklisted(db.value.fullName) {
      assert ResolvedExternalDb(env, name) == db;
      err := CreateExternalTableJobs(jobs, env, req, db.value, name);
    } else {
      assert PlanExternalDb(env, req, name) == Success([]);
      assert jobs.jobs + [] == jobs.jobs;
      err := None;
    }
  }

  /** All-databases mode: every listed database name in order, skipping
      names that do not resolve and blacklisted databases. */
  method CollectAllExternalDatabases(env: ExternalEnv, req: ExternalAnalyzeJob) returns (r: Result<seq<Job>, PlanError>)
    ensures r == PlanExternalDbs(env, req, env.catalog.dbNames)
  {
    var jobs := new JobList();
    var dbNames := env.catalog.dbNames;
    var i := 0;
    while i < |dbNames|
      invariant 0 <= i <= |dbNames|
      invariant PlanExternalDbs(env, req, dbNames[..i]) == Success(jobs.jobs)
    {
      assert dbNames[..i + 1][..i] == dbNames[..i];
      assert PlanExternalDbs(env, req, dbNames[..i + 1])
          == AppendJobs(PlanExternalDbs(env, req, dbNames[..i]), PlanExternalDb(env, req, dbNames[i]));
      var err := CollectExternalDb(jobs, env, req, dbNames[i]);
      if err.Some? {
        ExternalDbsFailurePersists(env, req, dbNames, i + 1);
        return Failure(err.value);
      }
      i := i + 1;
    }
    assert dbNames[..i] == dbNames;
    return Success(jobs.jobs);
  }

  /** All-tables mode: every listed table of one database. */
  method CollectOneExternalDatabase(env: ExternalEnv, req: ExternalAnalyzeJob, db: ExternalDb, dbName: string)
    returns (r: Result<seq<Job>, PlanError>)
    ensures r == PlanExternalTables(env, req, db, dbName, ListTableNames(env.catalog, dbName))
  {
    var jobs := new JobList();
    var err := CreateExternalTableJobs(jobs, env, req, db, dbName);
    if err.Some? {
      return Failure(err.value);
    }
    var planned := PlanExternalTables(env, req, db, dbName, ListTableNames(env.catalog, dbName));
    assert planned.Success?;
    assert [] + planned.value == planned.value;
    return Success(jobs.jobs);
  }

  /** Single-table mode: one `createExternalAnalyzeJob` with the request's
      columns. */
  method CollectOneExternalTable(env: ExternalEnv, req: ExternalAnalyzeJob, db: ExternalDb, t: ExternalTable)
    returns (r: Result<seq<Job>, PlanError>)
    ensures r == AppendOutcome(Success([]), PlanExternalTable(env, req, db, Some(t), req.columns, req.columnTypes))
  {
    var jobs := new JobList();
    var err := CreateExternalAnalyzeJob(jobs, env, req, db, Some(t), req.columns, req.columnTypes);
    if err.Some? {
      return Failure(err.value);
    }
    return Success(jobs.jobs);
  }

  /** `buildExternalStatisticsCollectJob(externalAnalyzeJob)`: the jobs for
      every database, for every table of one database, or for one table. */
  method BuildExternalStatisticsCollectJobs(env: ExternalEnv, req: ExternalAnalyzeJob)
    returns (r: Result<seq<Job>, PlanError>)
    ensures r == PlanExternalJobs(env, req)
  {
    match req.scope
    case AllDatabases =>
      r := CollectAllExternalDatabases(env, req);
    case AllTables(dbName) =>
      var db := GetExternalDb(env.catalog, dbName);
      if db.None? {
        return Success([]);
      }
      r := CollectOneExternalDatabase(env, req, db.value, dbName);
    case OneTable(dbName, tableName) =>
      var db := GetExternalDb(env.catalog, dbName);
      if db.None? {
        return Success([]);
      }
      var table := GetExternalTable(env.catalog, dbName, tableName);
      if table.None? {
        return Success([]);
      }
      r := CollectOneExternalTable(env, req, db.value, table.value);
  }
}
