/** The imperative side of native planning: `createJob` and its helpers append
    to the caller-owned job list, and the scope method loops over databases
    and tables. Each method is proved to append exactly what `NativePlan`
    specifies. */
module NativeCollector {
  import opened Wrappers
  import opened StatsCatalog
  import opened JobBuilder
  import opened NativePlan

  /** `createSampleStatsJob`. */
  method CreateSampleStatsJob(jobs: JobList, req: NativeAnalyzeJob, db: Database, t: NativeTable,
                              names: Option<seq<string>>, types: Option<seq<ColType>>)
    returns (err: Option<PlanError>)
    modifies jobs
    ensures jobs.jobs == old(jobs.jobs) + Emitted(SampleOutcome(req, db, t, names, types))
    ensures err == ErrorOf(SampleOutcome(req, db, t, names, types))
  {
    var built := BuildNativeJob(db, t, None, names, types, Sample, req.scheduleType, req.properties);
    err := AddBuilt(jobs, built);
  }

  /** `createHistogramJob`. */
  method CreateHistogramJob(jobs: JobList, req: NativeAnalyzeJob, db: Database, t: NativeTable,
                            names: Option<seq<string>>, types: Option<seq<ColType>>)
    returns (err: Option<PlanError>)
    modifies jobs
    ensures jobs.jobs == old(jobs.jobs) + Emitted(HistogramOutcome(req, db, t, names, types))
    ensures err == ErrorOf(HistogramOutcome(req, db, t, names, types))
  {
    var built := BuildNativeJob(db, t, None, names, types, Histogram, req.scheduleType, req.properties);
    err := AddBuilt(jobs, built);
  }

  /** The partition loop of `createFullStatsJob`: the partitions with data
      updated strictly after the watermark, in order. */
  method SelectChangedPartitions(ps: seq<Partition>, w: Stamp) returns (partitionList: seq<Partition>)
    ensures partitionList == ChangedPartitions(ps, w)
  {
    partitionList := [];
    var i := 0;
    while i < |ps|
      invariant 0 <= i <= |ps|
      invariant partitionList == ChangedPartitions(ps[..i], w)
    {
      var p := ps[i];
      assert ps[..i + 1][..i] == ps[..i];
      if IsBefore(w, At(p.updateTime)) && p.hasData {
        partitionList := partitionList + [p];
      }
      i := i + 1;
    }
    assert ps[..i] == ps;
  }

  /** `createFullStatsJob`. */
  method CreateFullStatsJob(jobs: JobList, cfg: Config, req: NativeAnalyzeJob, w: Stamp, db: Database, t: NativeTable,
                            names: Option<seq<string>>, types: Option<seq<ColType>>)
    returns (err: Option<PlanError>)
    modifies jobs
    ensures jobs.jobs == old(jobs.jobs) + Emitted(FullStatsOutcome(cfg, req, w, db, t, names, types))
    ensures err == ErrorOf(FullStatsOutcome(cfg, req, w, db, t, names, types))
  {
    var partitionList := SelectChangedPartitions(t.partitions, w);
    var analyzeType := if exists p | p in partitionList :: p.dataSize > cfg.maxFullCollectDataSize then Sample else Full;
    err := None;
    if partitionList != [] {
      var built := BuildNativeJob(db, t, Some(PartitionIds(partitionList)), names, types, analyzeType,
                                  req.scheduleType, map[]);
      err := AddBuilt(jobs, built);
    }
  }

  /** The partition loop of `createJob`: the size of the partitions the meta
      does not report as collected after their last load. */
  method SumChangedDataSize(orc: Oracles, m: BasicMeta, ps: seq<Partition>) returns (sumDataSize: int)
    ensures sumDataSize == ChangedDataSize(orc, m, ps)
  {
    sumDataSize := 0;
    var i := 0;
    while i < |ps|
      invariant 0 <= i <= |ps|
      invariant sumDataSize == ChangedDataSize(orc, m, ps[..i])
    {
      assert ps[..i + 1][..i] == ps[..i];
      if !orc.updatedAfterLoad(m, ps[i].updateTime) {
        sumDataSize := sumDataSize + ps[i].dataSize;
      }
      i := i + 1;
    }
    assert ps[..i] == ps;
  }

  /** The dispatch at the end of `createJob`. */
  method DispatchJob(jobs: JobList, env: NativeEnv, req: NativeAnalyzeJob, db: Database, t: NativeTable,
                     names: Option<seq<string>>, types: Option<seq<ColType>>)
    returns (err: Option<PlanError>)
    modifies jobs
    ensures jobs.jobs == old(jobs.jobs) + Emitted(DispatchOutcome(env, req, db, t, names, types))
    ensures err == ErrorOf(DispatchOutcome(env, req, db, t, names, types))
  {
    var basic := BasicMetaOf(env.stats, t.id);
    match req.analyzeType
    case Sample =>
      err := CreateSampleStatsJob(jobs, req, db, t, names, types);
    case Histogram =>
      err := CreateHistogramJob(jobs, req, db, t, names, types);
    case Full =>
      if basic.None? || basic.value.isInit {
        err := CreateFullStatsJob(jobs, env.cfg, req, Min, db, t, names, types);
      } else {
        err := CreateFullStatsJob(jobs, env.cfg, req, At(basic.value.updateTime), db, t, names, types);
      }
    case OtherType(_) =>
      err := Some(UnknownAnalyzeType(req.analyzeType));
  }

  /** The gates of `createJob` for a table with a basic meta: true when the
      table is skipped. */
  method SkipByGates(env: NativeEnv, req: NativeAnalyzeJob, t: NativeTable, m: BasicMeta,
                     statsUpdateTime: Stamp, isInitJob: bool, sumDataSize: int)
    returns (skip: bool)
    requires (statsUpdateTime, isInitJob) == TableWatermark(env, req, t)
    requires sumDataSize == ChangedDataSize(env.orc, m, t.partitions)
    ensures skip <==> NotUpdatedSinceCollect(env, req, t, m) || CollectedTooRecently(env, req, t, m)
                      || HealthyEnough(env, req, m)
  {
    var useBasicStats := req.analyzeType == Sample || req.analyzeType == Full;
    // 1. no update since the last collection
    if useBasicStats && env.orc.updatedAfterLoad(m, t.lastUpdateTime) {
      return true;
    }
    if !useBasicStats && !isInitJob && IsAfter(statsUpdateTime, At(t.lastUpdateTime)) {
      return true;
    }
    // 2. collected too recently
    var timeInterval := CollectInterval(env.orc, env.cfg, req, sumDataSize);
    if !isInitJob && IsAfter(PlusSeconds(statsUpdateTime, timeInterval), At(env.now)) {
      return true;
    }
    // 3. healthy enough
    return m.healthy > CollectRatio(env.orc, env.cfg, req);
  }

  /** The watermark and init flag `createJob` reads from the metas. */
  method ComputeWatermark(env: NativeEnv, req: NativeAnalyzeJob, t: NativeTable)
    returns (statsUpdateTime: Stamp, isInitJob: bool)
    ensures (statsUpdateTime, isInitJob) == TableWatermark(env, req, t)
  {
    var basic := BasicMetaOf(env.stats, t.id);
    var hists := HistogramMetasOf(env.stats, t.id);
    var useBasicStats := req.analyzeType == Sample || req.analyzeType == Full;
    statsUpdateTime := Min;
    isInitJob := true;
    if useBasicStats && basic.Some? {
      statsUpdateTime := At(basic.value.updateTime);
      isInitJob := basic.value.isInit;
    } else if !useBasicStats && |hists| > 0 {
      statsUpdateTime := At(MinUpdateTime(hists));
      isInitJob := exists i | 0 <= i < |hists| :: hists[i].isInit;
    }
  }

  /** `createJob` after the filters: the watermark, the gates and the
      dispatch. */
  method CreateGatedJob(jobs: JobList, env: NativeEnv, req: NativeAnalyzeJob, db: Database, t: NativeTable,
                        names: Option<seq<string>>, types: Option<seq<ColType>>)
    returns (err: Option<PlanError>)
    modifies jobs
    ensures jobs.jobs == old(jobs.jobs) + Emitted(GatedOutcome(env, req, db, t, names, types))
    ensures err == ErrorOf(GatedOutcome(env, req, db, t, names, types))
  {
    var basic := BasicMetaOf(env.stats, t.id);
    var statsUpdateTime, isInitJob := ComputeWatermark(env, req, t);
    if basic.Some? {
      var m := basic.value;
      var sumDataSize := SumChangedDataSize(env.orc, m, t.partitions);
      var skip := SkipByGates(env, req, t, m, statsUpdateTime, isInitJob, sumDataSize);
      if skip {
        return None;
      }
      if m.healthy < env.cfg.sampleThreshold && req.analyzeType != Histogram && sumDataSize > env.cfg.smallTableSize {
        err := CreateSampleStatsJob(jobs, req, db, t, names, types);
        return;
      }
    }
    err := DispatchJob(jobs, env, req, db, t, names, types);
  }

  /** `createJob`: the table filters, then the gated dispatch. */
  method CreateJob(jobs: JobList, env: NativeEnv, req: NativeAnalyzeJob, db: Database, table: Option<NativeTable>,
                   names: Option<seq<string>>, types: Option<seq<ColType>>)
    returns (err: Option<PlanError>)
    modifies jobs
    ensures jobs.jobs == old(jobs.jobs) + Emitted(PlanNativeTable(env, req, db, table, names, types))
    ensures err == ErrorOf(PlanNativeTable(env, req, db, table, names, types))
  {
    if table.None? || !IsCollectibleKind(table.value) {
      return None;
    }
    var t := table.value;
    if t.olapState.Some? && t.olapState.value != Normal {
      return None;
    }
    if !env.cfg.enableTemporaryTableCollect && t.isTemporary {
      return None;
    }
    if t.isEmpty {
      return None;
    }
    if ExcludePatternInvalid(env.orc, req.properties) {
      return Some(BadExcludePattern(req.properties[ExcludePatternKey]));
    }
    if Excluded(env.orc, req.properties, db.fullName, t.name) {
      return None;
    }
    err := CreateGatedJob(jobs, env, req, db, t, names, types);
  }

  /** The table loop shared by all-databases and all-tables mode: one
      `createJob` per table, with no request columns. */
  method CreateTableJobs(jobs: JobList, env: NativeEnv, req: NativeAnalyzeJob, db: Database)
    returns (err: Option<PlanError>)
    modifies jobs
    ensures err == ErrorOf(PlanTables(env, req, db, db.tables))
    ensures err.None? ==> jobs.jobs == old(jobs.jobs) + PlanTables(env, req, db, db.tables).value
  {
    var ts := db.tables;
    var k := 0;
    while k < |ts|
      invariant 0 <= k <= |ts|
      invariant PlanTables(env, req, db, ts[..k]).Success?
      invariant jobs.jobs == old(jobs.jobs) + PlanTables(env, req, db, ts[..k]).value
    {
      assert ts[..k + 1][..k] == ts[..k];
      ghost var o := PlanNativeTable(env, req, db, Some(ts[k]), None, None);
      assert TablePlanner(env, req, db)(ts[k]) == o;
      assert PlanTables(env, req, db, ts[..k + 1]) == AppendOutcome(PlanTables(env, req, db, ts[..k]), o);
      err := CreateJob(jobs, env, req, db, Some(ts[k]), None, None);
      if err.Some? {
        FoldFailurePersists(ts, TablePlanner(env, req, db), k + 1);
        return;
      }
      k := k + 1;
    }
    assert ts[..k] == ts;
    err := None;
  }

  /** All-databases mode: every database id in order, skipping ids that do
      not resolve and blacklisted databases. */
  method CollectAllDatabases(env: NativeEnv, req: NativeAnalyzeJob) returns (r: Result<seq<Job>, PlanError>)
    ensures r == PlanDbs(env, req, env.catalog.dbIds)
  {
    var jobs := new JobList();
    var dbIds := env.catalog.dbIds;
    var i := 0;
    while i < |dbIds|
      invariant 0 <= i <= |dbIds|
      invariant PlanDbs(env, req, dbIds[..i]) == Success(jobs.jobs)
    {
      assert dbIds[..i + 1][..i] == dbIds[..i];
      assert PlanDbs(env, req, dbIds[..i + 1]) == AppendJobs(PlanDbs(env, req, dbIds[..i]), PlanDb(env, req, dbIds[i]));
      var db := GetDb(env.catalog, dbIds[i]);
      if db.Some? && !env.orc.blacklisted(db.value.fullName) {
        assert ResolvedDb(env, dbIds[i]) == db;
        var err := CreateTableJobs(jobs, env, req, db.value);
        if err.Some? {
          PlanDbsFailurePersists(env, req, dbIds, i + 1);
          return Failure(err.value);
        }
      } else {
        assert PlanDb(env, req, dbIds[i]) == Success([]);
        assert jobs.jobs + [] == jobs.jobs;
      }
      i := i + 1;
    }
    assert dbIds[..i] == dbIds;
    return Success(jobs.jobs);
  }

  /** All-tables mode: every table of one database. */
  method CollectOneDatabase(env: NativeEnv, req: NativeAnalyzeJob, db: Database) returns (r: Result<seq<Job>, PlanError>)
    ensures r == PlanTables(env, req, db, db.tables)
  {
    var jobs := new JobList();
    var err := CreateTableJobs(jobs, env, req, db);
    if err.Some? {
      return Failure(err.value);
    }
    var planned := PlanTables(env, req, db, db.tables);
    assert planned.Success?;
    assert [] + planned.value == planned.value;
    return Success(jobs.jobs);
  }

  /** Single-table mode: one `createJob` with the request's columns. */
  method CollectOneTable(env: NativeEnv, req: NativeAnalyzeJob, db: Database) returns (r: Result<seq<Job>, PlanError>)
    ensures r == AppendOutcome(Success([]), PlanNativeTable(env, req, db, GetTable(db.tables, req.tableId),
                                                            req.columns, req.columnTypes))
  {
    var jobs := new JobList();
    var err := CreateJob(jobs, env, req, db, GetTable(db.tables, req.tableId), req.columns, req.columnTypes);
    if err.Some? {
      return Failure(err.value);
    }
    return Success(jobs.jobs);
  }

  /** `buildStatisticsCollectJob(nativeAnalyzeJob)`: the jobs for every
      database, for every table of one database, or for one table. */
  method BuildStatisticsCollectJobs(env: NativeEnv, req: NativeAnalyzeJob) returns (r: Result<seq<Job>, PlanError>)
    ensures r == PlanNativeJobs(env, req)
  {
    if req.dbId == DefaultAllId {
      r := CollectAllDatabases(env, req);
    } else {
      var db := GetDb(env.catalog, req.dbId);
      if db.None? {
        r := Success([]);
      } else if req.tableId == DefaultAllId {
        r := CollectOneDatabase(env, req, db.value);
      } else {
        r := CollectOneTable(env, req, db.value);
      }
    }
  }
}
