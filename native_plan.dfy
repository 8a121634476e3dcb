/** What the factory plans for native tables, as functions of the metadata
    snapshot: the eligibility filters, the watermark, the freshness, rate-limit
    and health gates, the forced downgrade to SAMPLE, the incremental FULL
    partition selection and the fan-out over databases and tables. The methods
    of `NativeCollector` are proved to append exactly these jobs. */
module NativePlan {
  import opened Wrappers
  import opened StatsCatalog
  import opened JobBuilder
  import opened Sequences

  /** Everything native planning reads besides the request; `now` is the
      value of `LocalDateTime.now()`. */
  datatype NativeEnv = NativeEnv(cfg: Config, orc: Oracles, catalog: NativeCatalog, stats: StatsStore, now: int)

  // ------------------------------------------------------------ eligibility

  /** OLAP, cloud-native or materialized view. */
  predicate IsCollectibleKind(t: NativeTable)
  {
    t.kind != OtherTableKind
  }

  /** The table filters applied before any metadata is read: a collectible
      kind, an OLAP table in NORMAL state, not temporary unless enabled, and
      not empty. */
  predicate Collectible(cfg: Config, t: NativeTable)
  {
    && IsCollectibleKind(t)
    && (t.olapState.Some? ==> t.olapState.value == Normal)
    && (cfg.enableTemporaryTableCollect || !t.isTemporary)
    && !t.isEmpty
  }

  // -------------------------------------------------------------- watermark

  /** SAMPLE and FULL read the table's basic meta; every other type reads the
      histogram metas. */
  predicate UsesBasicStats(a: AnalyzeType)
  {
    a == Sample || a == Full
  }

  function BasicMetaOf(stats: StatsStore, tableId: int): Option<BasicMeta>
  {
    if tableId in stats.basic then Some(stats.basic[tableId]) else None
  }

  function HistogramMetasOf(stats: StatsStore, tableId: int): seq<HistogramMeta>
  {
    if tableId in stats.histograms then stats.histograms[tableId] else []
  }

  /** The earliest update time among the histogram metas. */
  function MinUpdateTime(hs: seq<HistogramMeta>): (r: int)
    requires |hs| > 0
    ensures exists i :: 0 <= i < |hs| && hs[i].updateTime == r
    ensures forall i :: 0 <= i < |hs| ==> r <= hs[i].updateTime
  {
    if |hs| == 1 then hs[0].updateTime
    else
      var m := MinUpdateTime(hs[1..]);
      assert forall i :: 1 <= i < |hs| ==> hs[i] == hs[1..][i - 1];
      if hs[0].updateTime <= m then hs[0].updateTime else m
  }

  /** Some histogram meta is still an init-job meta. */
  predicate AnyInit(hs: seq<HistogramMeta>)
  {
    exists i :: 0 <= i < |hs| && hs[i].isInit
  }

  /** The stats watermark and the init-job flag. SAMPLE and FULL with a basic
      meta use its time and flag; other types with histogram metas use the
      earliest histogram time, and are init if any histogram meta is; otherwise
      the watermark is `LocalDateTime.MIN` and the job is an init job. */
  function Watermark(a: AnalyzeType, basic: Option<BasicMeta>, hs: seq<HistogramMeta>): (w: (Stamp, bool))
    ensures UsesBasicStats(a) && basic.Some? ==> w == (At(basic.value.updateTime), basic.value.isInit)
    ensures !UsesBasicStats(a) && |hs| > 0 ==>
              && w.0.At?
              && (forall i :: 0 <= i < |hs| ==> w.0.seconds <= hs[i].updateTime)
              && (exists i :: 0 <= i < |hs| && hs[i].updateTime == w.0.seconds)
              && (w.1 <==> exists i :: 0 <= i < |hs| && hs[i].isInit)
    ensures (UsesBasicStats(a) && basic.None?) || (!UsesBasicStats(a) && hs == []) ==> w == (Min, true)
    ensures !w.1 ==> w.0.At?
  {
    if UsesBasicStats(a) && basic.Some? then (At(basic.value.updateTime), basic.value.isInit)
    else if !UsesBasicStats(a) && |hs| > 0 then (At(MinUpdateTime(hs)), AnyInit(hs))
    else (Min, true)
  }

  function TableWatermark(env: NativeEnv, req: NativeAnalyzeJob, t: NativeTable): (Stamp, bool)
  {
    Watermark(req.analyzeType, BasicMetaOf(env.stats, t.id), HistogramMetasOf(env.stats, t.id))
  }

  // ------------------------------------------------------------------ gates

  /** Total data size of the partitions the meta does not report as collected
      after their last load (`!isUpdatedAfterLoad`). */
  function ChangedDataSize(orc: Oracles, m: BasicMeta, ps: seq<Partition>): int
  {
    if ps == [] then 0
    else
      var p := ps[|ps| - 1];
      ChangedDataSize(orc, m, ps[..|ps| - 1]) + (if orc.updatedAfterLoad(m, p.updateTime) then 0 else p.dataSize)
  }

  /** The configured interval: the histogram interval for HISTOGRAM, else the
      large-table interval when more than the small-table size has changed. */
  function DefaultInterval(cfg: Config, a: AnalyzeType, changedSize: int): int
  {
    if a == Histogram then cfg.histogramInterval
    else if changedSize > cfg.smallTableSize then cfg.largeTableInterval
    else cfg.smallTableInterval
  }

  /** The request's interval override wins over the configured interval. */
  function CollectInterval(orc: Oracles, cfg: Config, req: NativeAnalyzeJob, changedSize: int): int
  {
    if AutoCollectIntervalKey in req.properties then orc.parseLong(req.properties[AutoCollectIntervalKey])
    else DefaultInterval(cfg, req.analyzeType, changedSize)
  }

  /** The request's ratio override, else the configured collect ratio. */
  function CollectRatio(orc: Oracles, cfg: Config, req: NativeAnalyzeJob): real
  {
    if AutoCollectRatioKey in req.properties then orc.parseDouble(req.properties[AutoCollectRatioKey])
    else cfg.collectRatio
  }

  /** Freshness gate: SAMPLE/FULL skip a table the basic meta reports as
      collected after the table's last update; other types skip when the
      watermark is not init and strictly after the table's last update. */
  predicate NotUpdatedSinceCollect(env: NativeEnv, req: NativeAnalyzeJob, t: NativeTable, m: BasicMeta)
  {
    var w := TableWatermark(env, req, t);
    if UsesBasicStats(req.analyzeType) then env.orc.updatedAfterLoad(m, t.lastUpdateTime)
    else !w.1 && IsAfter(w.0, At(t.lastUpdateTime))
  }

  /** Rate-limit gate: the watermark is not init and watermark + interval is
      after now. */
  predicate CollectedTooRecently(env: NativeEnv, req: NativeAnalyzeJob, t: NativeTable, m: BasicMeta)
  {
    var w := TableWatermark(env, req, t);
    var interval := CollectInterval(env.orc, env.cfg, req, ChangedDataSize(env.orc, m, t.partitions));
    !w.1 && IsAfter(PlusSeconds(w.0, interval), At(env.now))
  }

  /** Health gate: strictly healthier than the collect ratio. */
  predicate HealthyEnough(env: NativeEnv, req: NativeAnalyzeJob, m: BasicMeta)
  {
    m.healthy > CollectRatio(env.orc, env.cfg, req)
  }

  /** Downgrade: below the sample threshold, not HISTOGRAM, and more than the
      small-table size changed. */
  predicate ForcedSample(env: NativeEnv, req: NativeAnalyzeJob, t: NativeTable, m: BasicMeta)
  {
    && m.healthy < env.cfg.sampleThreshold
    && req.analyzeType != Histogram
    && ChangedDataSize(env.orc, m, t.partitions) > env.cfg.smallTableSize
  }

  // ------------------------------------------------------------- job kinds

  /** `createSampleStatsJob`: a whole-table SAMPLE job with the request's
      properties. */
  function SampleOutcome(req: NativeAnalyzeJob, db: Database, t: NativeTable,
                         names: Option<seq<string>>, types: Option<seq<ColType>>): (r: TableOutcome)
    ensures r.Success? <==> ResolveColumns(t.schema, t.collectible, names, types).Success?
    ensures r.Success? ==>
              && r.value.Some?
              && r.value.value.SampleJob?
              && r.value.value.target == NativeTarget(db.id, t.id)
              && (r.value.value.columns, r.value.value.columnTypes) == ResolveColumns(t.schema, t.collectible, names, types).value
              && r.value.value.scheduleType == req.scheduleType
              && r.value.value.properties == req.properties
    ensures r.Failure? ==> r.error.ColumnNotFound?
  {
    Emit(BuildNativeJob(db, t, None, names, types, Sample, req.scheduleType, req.properties))
  }

  /** `createHistogramJob`: a whole-table HISTOGRAM job with the request's
      properties. */
  function HistogramOutcome(req: NativeAnalyzeJob, db: Database, t: NativeTable,
                            names: Option<seq<string>>, types: Option<seq<ColType>>): (r: TableOutcome)
    ensures r.Success? <==> ResolveColumns(t.schema, t.collectible, names, types).Success?
    ensures r.Success? ==>
              && r.value.Some?
              && r.value.value.HistogramJob?
              && r.value.value.target == NativeTarget(db.id, t.id)
              && (r.value.value.columns, r.value.value.columnTypes) == ResolveColumns(t.schema, t.collectible, names, types).value
              && r.value.value.scheduleType == req.scheduleType
              && r.value.value.properties == req.properties
    ensures r.Failure? ==> r.error.ColumnNotFound?
  {
    Emit(BuildNativeJob(db, t, None, names, types, Histogram, req.scheduleType, req.properties))
  }

  /** The partitions that hold data and were updated strictly after the
      watermark, in partition order. */
  function ChangedPartitions(ps: seq<Partition>, w: Stamp): (r: seq<Partition>)
    ensures forall p :: p in r <==> p in ps && p.hasData && IsBefore(w, At(p.updateTime))
    ensures Subseq(r, ps)
  {
    if ps == [] then []
    else
      var rest := ChangedPartitions(ps[..|ps| - 1], w);
      var p := ps[|ps| - 1];
      assert ps == ps[..|ps| - 1] + [p];
      SubseqExtend(rest, ps[..|ps| - 1], p);
      if IsBefore(w, At(p.updateTime)) && p.hasData then rest + [p] else rest
  }

  function PartitionIds(ps: seq<Partition>): (ids: seq<int>)
    ensures |ids| == |ps| && forall i :: 0 <= i < |ps| ==> ids[i] == ps[i].id
  {
    seq(|ps|, i requires 0 <= i < |ps| => ps[i].id)
  }

  /** Some selected partition is larger than the max full-collect size. */
  predicate HasOversized(cfg: Config, ps: seq<Partition>)
  {
    exists p :: p in ps && p.dataSize > cfg.maxFullCollectDataSize
  }

  /** `createFullStatsJob`: no job when no partition changed after the
      watermark; otherwise one job over the changed partitions' ids, built with
      empty properties, whose type is SAMPLE when one of them is oversized and
      FULL otherwise. The SAMPLE job goes through the builder's SAMPLE branch,
      so it carries no partition list. */
  function FullStatsOutcome(cfg: Config, req: NativeAnalyzeJob, w: Stamp, db: Database, t: NativeTable,
                            names: Option<seq<string>>, types: Option<seq<ColType>>): (r: TableOutcome)
    ensures ChangedPartitions(t.partitions, w) == [] ==> r == Success(None)
    ensures ChangedPartitions(t.partitions, w) != [] ==>
              r.Success? == ResolveColumns(t.schema, t.collectible, names, types).Success?
    ensures ChangedPartitions(t.partitions, w) != [] && r.Success? ==>
              && r.value.Some?
              && r.value.value.target == NativeTarget(db.id, t.id)
              && (r.value.value.columns, r.value.value.columnTypes) == ResolveColumns(t.schema, t.collectible, names, types).value
              && r.value.value.scheduleType == req.scheduleType
    ensures r.Success? && r.value.Some? ==>
              var j := r.value.value;
              var sel := ChangedPartitions(t.partitions, w);
              && sel != []
              && j.properties == map[]
              && (j.SampleJob? <==> HasOversized(cfg, sel))
              && (j.FullJob? <==> !HasOversized(cfg, sel))
              && (j.FullJob? ==> j.partitionIds == PartitionIds(sel))
    ensures r.Failure? ==> r.error.ColumnNotFound?
  {
    var sel := ChangedPartitions(t.partitions, w);
    var a := if HasOversized(cfg, sel) then Sample else Full;
    if sel == [] then Success(None)
    else Emit(BuildNativeJob(db, t, Some(PartitionIds(sel)), names, types, a, req.scheduleType, map[]))
  }

  /** The watermark a FULL job selects partitions against: MIN when the basic
      meta is missing or an init-job meta. */
  function FullWatermark(basic: Option<BasicMeta>): Stamp
  {
    if basic.None? || basic.value.isInit then Min else At(basic.value.updateTime)
  }

  /** Dispatch on the requested type; any other type raises. */
  function DispatchOutcome(env: NativeEnv, req: NativeAnalyzeJob, db: Database, t: NativeTable,
                           names: Option<seq<string>>, types: Option<seq<ColType>>): (r: TableOutcome)
    ensures req.analyzeType.OtherType? <==> r == Failure(UnknownAnalyzeType(req.analyzeType))
    ensures r.Success? && r.value.Some? && req.analyzeType == Histogram ==> r.value.value.HistogramJob?
    ensures r.Success? && r.value.Some? && req.analyzeType == Sample ==> r.value.value.SampleJob?
    ensures r.Success? && r.value.Some? && r.value.value.FullJob? ==> req.analyzeType == Full
  {
    match req.analyzeType
    case Sample => SampleOutcome(req, db, t, names, types)
    case Histogram => HistogramOutcome(req, db, t, names, types)
    case Full => FullStatsOutcome(env.cfg, req, FullWatermark(BasicMetaOf(env.stats, t.id)), db, t, names, types)
    case OtherType(_) => Failure(UnknownAnalyzeType(req.analyzeType))
  }

  /** The gate sequence for an eligible table: without a basic meta the
      requested job is built; with one, the freshness, rate-limit and health
      gates may skip the table, and the downgrade may force a SAMPLE job. */
  function GatedOutcome(env: NativeEnv, req: NativeAnalyzeJob, db: Database, t: NativeTable,
                        names: Option<seq<string>>, types: Option<seq<ColType>>): TableOutcome
  {
    match BasicMetaOf(env.stats, t.id)
    case None => DispatchOutcome(env, req, db, t, names, types)
    case Some(m) =>
      if NotUpdatedSinceCollect(env, req, t, m) then Success(None)
      else if CollectedTooRecently(env, req, t, m) then Success(None)
      else if HealthyEnough(env, req, m) then Success(None)
      else if ForcedSample(env, req, t, m) then SampleOutcome(req, db, t, names, types)
      else DispatchOutcome(env, req, db, t, names, types)
  }

  /** `createJob`: what one table contributes. A job is only ever emitted for
      a present, eligible, not excluded table, and it works on that table; an
      exclusion pattern that does not compile raises once a table is eligible. */
  function PlanNativeTable(env: NativeEnv, req: NativeAnalyzeJob, db: Database, table: Option<NativeTable>,
                           names: Option<seq<string>>, types: Option<seq<ColType>>): (r: TableOutcome)
    ensures r.Success? && r.value.Some? ==>
              && table.Some?
              && Collectible(env.cfg, table.value)
              && !Excluded(env.orc, req.properties, db.fullName, table.value.name)
              && r.value.value.target == NativeTarget(db.id, table.value.id)
    ensures r.Failure? && r.error.BadExcludePattern? <==>
              table.Some? && Collectible(env.cfg, table.value) && ExcludePatternInvalid(env.orc, req.properties)
  {
    if table.None? || !Collectible(env.cfg, table.value) then Success(None)
    else if ExcludePatternInvalid(env.orc, req.properties) then Failure(BadExcludePattern(req.properties[ExcludePatternKey]))
    else if Excluded(env.orc, req.properties, db.fullName, table.value.name) then Success(None)
    else GatedOutcome(env, req, db, table.value, names, types)
  }

  // --------------------------------------------------------------- fan-out

  /** `createJob` for one table of a database, with no request columns. */
  function TablePlanner(env: NativeEnv, req: NativeAnalyzeJob, db: Database): NativeTable -> TableOutcome
  {
    (t: NativeTable) => PlanNativeTable(env, req, db, Some(t), None, None)
  }

  /** The tables of one database, in order. */
  function PlanTables(env: NativeEnv, req: NativeAnalyzeJob, db: Database, ts: seq<NativeTable>): Result<seq<Job>, PlanError>
  {
    FoldOutcomes(ts, TablePlanner(env, req, db))
  }

  /** A database id that resolves to a database not on the blacklist. */
  function ResolvedDb(env: NativeEnv, id: int): (r: Option<Database>)
    ensures r.Some? ==> id in env.catalog.dbs && r.value == env.catalog.dbs[id] && !env.orc.blacklisted(r.value.fullName)
    ensures id in env.catalog.dbs && !env.orc.blacklisted(env.catalog.dbs[id].fullName) ==> r == Some(env.catalog.dbs[id])
  {
    match GetDb(env.catalog, id)
    case None => None
    case Some(db) => if env.orc.blacklisted(db.fullName) then None else Some(db)
  }

  function PlanDb(env: NativeEnv, req: NativeAnalyzeJob, id: int): Result<seq<Job>, PlanError>
  {
    match ResolvedDb(env, id)
    case None => Success([])
    case Some(db) => PlanTables(env, req, db, db.tables)
  }

  /** Every database, in id-list order. */
  function PlanDbs(env: NativeEnv, req: NativeAnalyzeJob, ids: seq<int>): Result<seq<Job>, PlanError>
  {
    if ids == [] then Success([])
    else AppendJobs(PlanDbs(env, req, ids[..|ids| - 1]), PlanDb(env, req, ids[|ids| - 1]))
  }

  /** `buildStatisticsCollectJob(nativeAnalyzeJob)`: all databases, all tables
      of one database, or one table (with the request's columns). */
  function PlanNativeJobs(env: NativeEnv, req: NativeAnalyzeJob): Result<seq<Job>, PlanError>
  {
    if req.dbId == DefaultAllId then
      PlanDbs(env, req, env.catalog.dbIds)
    else if req.tableId == DefaultAllId then
      match GetDb(env.catalog, req.dbId)
      case None => Success([])
      case Some(db) => PlanTables(env, req, db, db.tables)
    else
      match GetDb(env.catalog, req.dbId)
      case None => Success([])
      case Some(db) =>
        AppendOutcome(Success([]), PlanNativeTable(env, req, db, GetTable(db.tables, req.tableId),
                                                   req.columns, req.columnTypes))
  }

  // ------------------------------------------------------ gate properties

  /** A missing, ineligible or excluded table gets no job and raises nothing. */
  lemma IneligibleTableGetsNoJob(env: NativeEnv, req: NativeAnalyzeJob, db: Database, table: Option<NativeTable>,
                                 names: Option<seq<string>>, types: Option<seq<ColType>>)
    requires || table.None?
             || !IsCollectibleKind(table.value)
             || (table.value.olapState.Some? && table.value.olapState.value != Normal)
             || (!env.cfg.enableTemporaryTableCollect && table.value.isTemporary)
             || table.value.isEmpty
             || Excluded(env.orc, req.properties, db.fullName, table.value.name)
    ensures PlanNativeTable(env, req, db, table, names, types) == Success(None)
  {
  }

  /** Freshness: with a basic meta, SAMPLE and FULL skip a table the meta
      reports as collected after the table's last update, whether or not the
      meta is an init-job meta; any other type skips when no histogram meta is
      an init-job meta and every histogram meta is strictly later than the
      table's last update. */
  lemma StaleTableGetsNoJob(env: NativeEnv, req: NativeAnalyzeJob, db: Database, t: NativeTable,
                            names: Option<seq<string>>, types: Option<seq<ColType>>, m: BasicMeta)
    requires !ExcludePatternInvalid(env.orc, req.properties)
    requires BasicMetaOf(env.stats, t.id) == Some(m)
    requires if req.analyzeType == Sample || req.analyzeType == Full then
               env.orc.updatedAfterLoad(m, t.lastUpdateTime)
             else
               var hs := HistogramMetasOf(env.stats, t.id);
               && hs != []
               && (forall i :: 0 <= i < |hs| ==> !hs[i].isInit)
               && (forall i :: 0 <= i < |hs| ==> hs[i].updateTime > t.lastUpdateTime)
    ensures PlanNativeTable(env, req, db, Some(t), names, types) == Success(None)
  {
  }

  /** Rate limit: with a basic meta and a watermark that is not init, no job
      when watermark + interval is after now, where the interval is the
      request's override, else the histogram interval for HISTOGRAM, else the
      large-table interval iff the changed size is strictly above the
      small-table size. */
  lemma RateLimitedTableGetsNoJob(env: NativeEnv, req: NativeAnalyzeJob, db: Database, t: NativeTable,
                                  names: Option<seq<string>>, types: Option<seq<ColType>>,
                                  m: BasicMeta, interval: int)
    requires !ExcludePatternInvalid(env.orc, req.properties)
    requires BasicMetaOf(env.stats, t.id) == Some(m)
    requires interval ==
               if AutoCollectIntervalKey in req.properties then env.orc.parseLong(req.properties[AutoCollectIntervalKey])
               else if req.analyzeType == Histogram then env.cfg.histogramInterval
               else if ChangedDataSize(env.orc, m, t.partitions) > env.cfg.smallTableSize then env.cfg.largeTableInterval
               else env.cfg.smallTableInterval
    requires !TableWatermark(env, req, t).1
    requires TableWatermark(env, req, t).0.seconds + interval > env.now
    ensures PlanNativeTable(env, req, db, Some(t), names, types) == Success(None)
  {
  }

  /** Health gate: a basic meta healthier than the ratio (override, else the
      configured ratio; strict) means no job, whatever the requested type,
      HISTOGRAM included. */
  lemma HealthyTableGetsNoJob(env: NativeEnv, req: NativeAnalyzeJob, db: Database, t: NativeTable,
                              names: Option<seq<string>>, types: Option<seq<ColType>>, m: BasicMeta)
    requires !ExcludePatternInvalid(env.orc, req.properties)
    requires BasicMetaOf(env.stats, t.id) == Some(m)
    requires m.healthy >
               if AutoCollectRatioKey in req.properties then env.orc.parseDouble(req.properties[AutoCollectRatioKey])
               else env.cfg.collectRatio
    ensures PlanNativeTable(env, req, db, Some(t), names, types) == Success(None)
  {
  }

  /** Downgrade: an eligible table that passes the freshness and rate-limit
      gates, is not healthy enough, is below the sample threshold and changed
      by more than the small-table size gets exactly one SAMPLE job (no FULL
      job) for any type but HISTOGRAM, or the column lookup raises. */
  lemma UnhealthyChangedTableIsSampled(env: NativeEnv, req: NativeAnalyzeJob, db: Database, t: NativeTable,
                                       names: Option<seq<string>>, types: Option<seq<ColType>>, m: BasicMeta)
    requires Collectible(env.cfg, t) && !ExcludePatternInvalid(env.orc, req.properties) && !Excluded(env.orc, req.properties, db.fullName, t.name)
    requires BasicMetaOf(env.stats, t.id) == Some(m)
    requires !NotUpdatedSinceCollect(env, req, t, m) && !CollectedTooRecently(env, req, t, m)
    requires m.healthy <= CollectRatio(env.orc, env.cfg, req)
    requires m.healthy < env.cfg.sampleThreshold
    requires req.analyzeType != Histogram
    requires ChangedDataSize(env.orc, m, t.partitions) > env.cfg.smallTableSize
    ensures var r := PlanNativeTable(env, req, db, Some(t), names, types);
            && r == SampleOutcome(req, db, t, names, types)
            && (r.Success? ==> Emitted(r) == [r.value.value] && r.value.value.SampleJob?)
            && (r.Failure? ==> r.error.ColumnNotFound?)
  {
  }

  /** A table without a basic meta skips every gate: it gets the requested
      job, FULL over every partition with data, and an unknown type raises. */
  lemma TableWithoutStatsSkipsGates(env: NativeEnv, req: NativeAnalyzeJob, db: Database, t: NativeTable,
                                    names: Option<seq<string>>, types: Option<seq<ColType>>)
    requires Collectible(env.cfg, t) && !ExcludePatternInvalid(env.orc, req.properties) && !Excluded(env.orc, req.properties, db.fullName, t.name)
    requires BasicMetaOf(env.stats, t.id) == None
    ensures var r := PlanNativeTable(env, req, db, Some(t), names, types);
            && (req.analyzeType == Sample ==> r == SampleOutcome(req, db, t, names, types))
            && (req.analyzeType == Histogram ==> r == HistogramOutcome(req, db, t, names, types))
            && (req.analyzeType == Full ==> r == FullStatsOutcome(env.cfg, req, Min, db, t, names, types))
            && (req.analyzeType.OtherType? ==> r == Failure(UnknownAnalyzeType(req.analyzeType)))
  {
  }

  /** Against `LocalDateTime.MIN` every partition with data counts as
      changed. */
  lemma EveryPartitionWithDataChangedSinceMin(ps: seq<Partition>)
    ensures forall p :: p in ChangedPartitions(ps, Min) <==> p in ps && p.hasData
  {
  }

  /** A never-analysed table with a partition holding data gets exactly one
      job for a FULL request (SAMPLE if a partition is oversized), unless a
      column lookup raises. */
  lemma NeverAnalysedFullTableGetsOneJob(env: NativeEnv, req: NativeAnalyzeJob, db: Database, t: NativeTable,
                                         names: Option<seq<string>>, types: Option<seq<ColType>>, p: Partition)
    requires Collectible(env.cfg, t) && !ExcludePatternInvalid(env.orc, req.properties) && !Excluded(env.orc, req.properties, db.fullName, t.name)
    requires BasicMetaOf(env.stats, t.id) == None && req.analyzeType == Full
    requires p in t.partitions && p.hasData
    ensures var r := PlanNativeTable(env, req, db, Some(t), names, types);
            && (r.Success? ==> |Emitted(r)| == 1)
            && (r.Success? <==> ResolveColumns(t.schema, t.collectible, names, types).Success?)
  {
  }

  /** FULL selects partitions against `LocalDateTime.MIN` when the basic
      meta is missing or an init-job meta, else against the meta's time. */
  lemma FullWatermarkFollowsBasicMeta(env: NativeEnv, req: NativeAnalyzeJob, db: Database, t: NativeTable,
                                      names: Option<seq<string>>, types: Option<seq<ColType>>)
    requires req.analyzeType == Full
    ensures var basic := BasicMetaOf(env.stats, t.id);
            DispatchOutcome(env, req, db, t, names, types) ==
              FullStatsOutcome(env.cfg, req, if basic.None? || basic.value.isInit then Min else At(basic.value.updateTime),
                               db, t, names, types)
  {
  }

  /** An eligible table with a basic meta that passes the freshness,
      rate-limit and health gates and is not downgraded gets the job it asked
      for: SAMPLE and HISTOGRAM over the whole table, FULL over the partitions
      changed since the meta's time (since MIN for an init-job meta). */
  lemma GatesPassedTableGetsRequestedJob(env: NativeEnv, req: NativeAnalyzeJob, db: Database, t: NativeTable,
                                         names: Option<seq<string>>, types: Option<seq<ColType>>, m: BasicMeta)
    requires Collectible(env.cfg, t) && !ExcludePatternInvalid(env.orc, req.properties) && !Excluded(env.orc, req.properties, db.fullName, t.name)
    requires BasicMetaOf(env.stats, t.id) == Some(m)
    requires !NotUpdatedSinceCollect(env, req, t, m) && !CollectedTooRecently(env, req, t, m)
    requires !HealthyEnough(env, req, m) && !ForcedSample(env, req, t, m)
    ensures var r := PlanNativeTable(env, req, db, Some(t), names, types);
            && r == DispatchOutcome(env, req, db, t, names, types)
            && (req.analyzeType == Sample ==> r == SampleOutcome(req, db, t, names, types))
            && (req.analyzeType == Histogram ==> r == HistogramOutcome(req, db, t, names, types))
            && (req.analyzeType == Full ==>
                  r == FullStatsOutcome(env.cfg, req, if m.isInit then Min else At(m.updateTime), db, t, names, types))
  {
  }

  /** An eligible table that reaches the dispatch with an analyze type the
      factory does not know raises, which aborts the whole request. */
  lemma UnknownTypeRaises(env: NativeEnv, req: NativeAnalyzeJob, db: Database, t: NativeTable,
                          names: Option<seq<string>>, types: Option<seq<ColType>>)
    requires Collectible(env.cfg, t) && !ExcludePatternInvalid(env.orc, req.properties) && !Excluded(env.orc, req.properties, db.fullName, t.name)
    requires req.analyzeType.OtherType?
    requires match BasicMetaOf(env.stats, t.id)
             case None => true
             case Some(m) =>
               && !NotUpdatedSinceCollect(env, req, t, m) && !CollectedTooRecently(env, req, t, m)
               && !HealthyEnough(env, req, m) && !ForcedSample(env, req, t, m)
    ensures PlanNativeTable(env, req, db, Some(t), names, types) == Failure(UnknownAnalyzeType(req.analyzeType))
  {
  }

  // --------------------------------------------------- fan-out properties

  /** The target of a table of `db`. */
  function TableTarget(db: Database): NativeTable -> seq<Target>
  {
    (t: NativeTable) => [NativeTarget(db.id, t.id)]
  }

  /** The targets of a database's tables, in enumeration order. */
  function TableTargets(db: Database, ts: seq<NativeTable>): seq<Target>
  {
    FlatTargets(ts, TableTarget(db))
  }

  /** Within a database the jobs follow the table order, at most one per
      table. */
  lemma PlanTablesFollowsTableOrder(env: NativeEnv, req: NativeAnalyzeJob, db: Database, ts: seq<NativeTable>)
    ensures PlanTables(env, req, db, ts).Success? ==>
              && Subseq(Targets(PlanTables(env, req, db, ts).value), TableTargets(db, ts))
              && |PlanTables(env, req, db, ts).value| <= |ts|
  {
    var f := TablePlanner(env, req, db);
    forall t | t in ts
      ensures Emitted(f(t)) == [] || Targets(Emitted(f(t))) == TableTarget(db)(t)
    {
      var o := PlanNativeTable(env, req, db, Some(t), None, None);
      assert f(t) == o;
      if o.Success? && o.value.Some? {
        assert Targets(Emitted(o)) == [o.value.value.target];
      }
    }
    FoldFollowsOrder(ts, f, TableTarget(db));
  }

  /** The tables enumerated in all-databases mode, database by database: the
      ids that resolve to a database not on the blacklist. */
  function EnumeratedTargets(env: NativeEnv, ids: seq<int>): seq<Target>
  {
    if ids == [] then []
    else
      EnumeratedTargets(env, ids[..|ids| - 1]) +
      (match ResolvedDb(env, ids[|ids| - 1])
       case None => []
       case Some(db) => TableTargets(db, db.tables))
  }

  /** All-databases mode emits jobs in database-then-table order, only for
      tables of resolved, non-blacklisted databases, at most one per table. */
  lemma {:induction false} PlanDbsFollowsEnumeration(env: NativeEnv, req: NativeAnalyzeJob, ids: seq<int>)
    ensures PlanDbs(env, req, ids).Success? ==>
              && Subseq(Targets(PlanDbs(env, req, ids).value), EnumeratedTargets(env, ids))
              && |PlanDbs(env, req, ids).value| <= |EnumeratedTargets(env, ids)|
  {
    var r := PlanDbs(env, req, ids);
    if ids != [] && r.Success? {
      PlanDbsFollowsEnumeration(env, req, ids[..|ids| - 1]);
      PlanDbStepFollowsEnumeration(env, req, ids);
    }
    if r.Success? {
      SubseqMembers(Targets(r.value), EnumeratedTargets(env, ids));
    }
  }

  /** One step of `PlanDbsFollowsEnumeration`: appending a database keeps the
      order. */
  lemma PlanDbStepFollowsEnumeration(env: NativeEnv, req: NativeAnalyzeJob, ids: seq<int>)
    requires ids != []
    requires PlanDbs(env, req, ids[..|ids| - 1]).Success? ==>
               Subseq(Targets(PlanDbs(env, req, ids[..|ids| - 1]).value), EnumeratedTargets(env, ids[..|ids| - 1]))
    ensures PlanDbs(env, req, ids).Success? ==>
              Subseq(Targets(PlanDbs(env, req, ids).value), EnumeratedTargets(env, ids))
  {
    var init := ids[..|ids| - 1];
    var id := ids[|ids| - 1];
    var r := PlanDbs(env, req, ids);
    if r.Success? {
      var acc := PlanDbs(env, req, init).value;
      var step := PlanDb(env, req, id);
      assert r.value == acc + step.value;
      TargetsAppend(acc, step.value);
      match ResolvedDb(env, id)
      case None =>
        assert step.value == [];
        assert Targets(r.value) == Targets(acc);
        assert EnumeratedTargets(env, ids) == EnumeratedTargets(env, init);
      case Some(db) =>
        PlanTablesFollowsTableOrder(env, req, db, db.tables);
        assert EnumeratedTargets(env, ids) == EnumeratedTargets(env, init) + TableTargets(db, db.tables);
        SubseqConcat(Targets(acc), EnumeratedTargets(env, init), Targets(step.value), TableTargets(db, db.tables));
    }
  }

  /** A database id that does not resolve, or resolves to a blacklisted
      database, contributes nothing: dropping it from the id list leaves the
      plan unchanged. */
  lemma {:induction false} SkippedDbContributesNothing(env: NativeEnv, req: NativeAnalyzeJob, before: seq<int>, id: int, after: seq<int>)
    requires ResolvedDb(env, id).None?
    ensures PlanDbs(env, req, before + [id] + after) == PlanDbs(env, req, before + after)
    decreases |after|
  {
    if after == [] {
      var whole := before + [id];
      assert whole[..|whole| - 1] == before && whole[|whole| - 1] == id;
      assert before + [id] + after == whole;
      assert before + after == before;
      assert PlanDb(env, req, id) == Success([]);
      var acc := PlanDbs(env, req, before);
      assert PlanDbs(env, req, whole) == AppendJobs(acc, Success([]));
      assert acc.Success? ==> acc.value + [] == acc.value;
    } else {
      var init := after[..|after| - 1];
      var last := after[|after| - 1];
      SkippedDbContributesNothing(env, req, before, id, init);
      var lhs := before + [id] + after;
      var rhs := before + after;
      assert lhs[..|lhs| - 1] == before + [id] + init && lhs[|lhs| - 1] == last;
      assert rhs[..|rhs| - 1] == before + init && rhs[|rhs| - 1] == last;
      assert PlanDbs(env, req, lhs) == AppendJobs(PlanDbs(env, req, before + [id] + init), PlanDb(env, req, last));
      assert PlanDbs(env, req, rhs) == AppendJobs(PlanDbs(env, req, before + init), PlanDb(env, req, last));
    }
  }

  /** Single-table and all-tables modes plan nothing when the database does
      not resolve. */
  lemma MissingDbYieldsNoJobs(env: NativeEnv, req: NativeAnalyzeJob)
    requires req.dbId != DefaultAllId && req.dbId !in env.catalog.dbs
    ensures PlanNativeJobs(env, req) == Success([])
  {
  }

  /** Single-table mode plans nothing for a table id the database does not
      have. */
  lemma MissingTableYieldsNoJobs(env: NativeEnv, req: NativeAnalyzeJob)
    requires req.dbId != DefaultAllId && req.tableId != DefaultAllId
    requires req.dbId in env.catalog.dbs
    requires forall t :: t in env.catalog.dbs[req.dbId].tables ==> t.id != req.tableId
    ensures PlanNativeJobs(env, req) == Success([])
  {
    var db := env.catalog.dbs[req.dbId];
    assert GetTable(db.tables, req.tableId).None?;
    var o := PlanNativeTable(env, req, db, None, req.columns, req.columnTypes);
    assert o == Success(None);
    assert Emitted(o) == [];
    var none: seq<Job> := [];
    assert AppendOutcome(Success(none), o) == Success(none + []);
    assert GetDb(env.catalog, req.dbId) == Some(db);
    assert PlanNativeJobs(env, req) == AppendOutcome(Success(none), o);
    assert none + [] == none;
  }

  /** The plan of a prefix of the id list is a prefix of the whole plan. */
  lemma {:induction false} PlanDbsPrefix(env: NativeEnv, req: NativeAnalyzeJob, ids: seq<int>, j: nat)
    requires j <= |ids| && PlanDbs(env, req, ids).Success?
    ensures PlanDbs(env, req, ids[..j]).Success?
    ensures PlanDbs(env, req, ids[..j]).value <= PlanDbs(env, req, ids).value
  {
    if j == |ids| {
      assert ids[..j] == ids;
    } else {
      var init := ids[..|ids| - 1];
      assert init[..j] == ids[..j];
      PlanDbsPrefix(env, req, init, j);
    }
  }

  /** Every database that resolves and is not blacklisted is planned, in
      place: the jobs of the databases before it, followed by all of its
      tables' jobs, start the all-databases plan. */
  lemma PlanDbsCoversEveryResolvedDb(env: NativeEnv, req: NativeAnalyzeJob, ids: seq<int>, k: nat)
    requires k < |ids| && PlanDbs(env, req, ids).Success?
    requires ids[k] in env.catalog.dbs && !env.orc.blacklisted(env.catalog.dbs[ids[k]].fullName)
    ensures var db := env.catalog.dbs[ids[k]];
            && PlanDbs(env, req, ids[..k]).Success?
            && PlanTables(env, req, db, db.tables).Success?
            && PlanDbs(env, req, ids[..k]).value + PlanTables(env, req, db, db.tables).value
               <= PlanDbs(env, req, ids).value
  {
    PlanDbsPrefix(env, req, ids, k + 1);
    var upto := ids[..k + 1];
    assert upto[..|upto| - 1] == ids[..k] && upto[|upto| - 1] == ids[k];
  }

  // ------------------------------------------------- exception propagation

  /** An exception raised in one database aborts the rest of the enumeration. */
  lemma {:induction false} PlanDbsFailurePersists(env: NativeEnv, req: NativeAnalyzeJob, ids: seq<int>, k: nat)
    requires k <= |ids| && PlanDbs(env, req, ids[..k]).Failure?
    ensures PlanDbs(env, req, ids) == PlanDbs(env, req, ids[..k])
    decreases |ids| - k
  {
    if k < |ids| {
      assert ids[..k + 1][..k] == ids[..k];
      PlanDbsFailurePersists(env, req, ids, k + 1);
    } else {
      assert ids[..k] == ids;
    }
  }
}
