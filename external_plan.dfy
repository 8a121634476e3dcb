/** What the factory plans for external catalogs, as functions of the
    metadata snapshot: the exclusion filter, the freshness and rate-limit
    gates read from the external basic meta, the row-count based interval,
    the FULL-only dispatch and the fan-out over databases and tables. The
    methods of `ExternalCollector` are proved to append exactly these jobs. */
module ExternalPlan {
  import opened Wrappers
  import opened StatsCatalog
  import opened JobBuilder
  import opened Sequences

  /** Everything external planning reads besides the request; `now` is the
      value of `LocalDateTime.now()`. */
  datatype ExternalEnv = ExternalEnv(cfg: Config, orc: Oracles, catalog: ExternalCatalog, stats: StatsStore, now: int)

  /** The external basic meta, keyed by catalog, database and table name. */
  function ExternalMetaOf(env: ExternalEnv, req: ExternalAnalyzeJob, db: ExternalDb, t: ExternalTable)
    : (r: Option<ExternalMeta>)
    ensures r.Some? <==> (req.catalogName, db.fullName, t.name) in env.stats.external
    ensures r.Some? ==> r.value == env.stats.external[(req.catalogName, db.fullName, t.name)]
  {
    var key := (req.catalogName, db.fullName, t.name);
    if key in env.stats.external then Some(env.stats.external[key]) else None
  }

  // ------------------------------------------------------------------ gates

  /** Freshness gate: the table's update time is known and the meta was
      written strictly after it. */
  predicate ExternalNotUpdatedSinceCollect(t: ExternalTable, m: ExternalMeta)
  {
    t.lastUpdateTime.Some? && m.updateTime > t.lastUpdateTime.value
  }

  /** The columns the row count is probed with: null or empty names default
      to the collectible columns, whose schema types are looked up (and the
      lookup raises on a missing column); other names and types are kept. */
  function ProbeColumns(t: ExternalTable, names: Option<seq<string>>, types: Option<seq<ColType>>)
    : (r: Result<(seq<string>, Option<seq<ColType>>), PlanError>)
    ensures !NullOrEmpty(names) ==> r == Success((names.value, types))
    ensures NullOrEmpty(names) && r.Success? ==>
              && r.value.0 == t.collectible
              && r.value.1.Some?
              && |r.value.1.value| == |t.collectible|
              && forall i :: 0 <= i < |t.collectible| ==>
                   t.collectible[i] in t.schema && r.value.1.value[i] == t.schema[t.collectible[i]]
    ensures r.Failure? <==> NullOrEmpty(names) && exists n :: n in t.collectible && n !in t.schema
    ensures r.Failure? ==> r.error.ColumnNotFound?
  {
    if NullOrEmpty(names) then
      match LookupTypes(t.schema, t.collectible)
      case Failure(e) => Failure(e)
      case Success(ts) => Success((t.collectible, Some(ts)))
    else Success((names.value, types))
  }

  /** The row count of the first probed column whose statistics are known,
      else one below the small-table row threshold. */
  function TableRowCount(cfg: Config, orc: Oracles, t: ExternalTable, names: seq<string>): (rows: int)
    ensures orc.knownRowCount(t, names).None? ==> rows == cfg.smallTableRows - 1
    ensures orc.knownRowCount(t, names).Some? ==> rows == orc.knownRowCount(t, names).value
  {
    match orc.knownRowCount(t, names)
    case None => cfg.smallTableRows - 1
    case Some(n) => n
  }

  /** The configured interval: the small-table interval below the small-table
      row threshold, the large-table interval otherwise. */
  function ExternalDefaultInterval(cfg: Config, rows: int): int
  {
    if rows < cfg.smallTableRows then cfg.smallTableInterval else cfg.largeTableInterval
  }

  /** The request's interval override wins over the configured interval. */
  function ExternalCollectInterval(orc: Oracles, cfg: Config, req: ExternalAnalyzeJob, rows: int): int
  {
    if AutoCollectIntervalKey in req.properties then orc.parseLong(req.properties[AutoCollectIntervalKey])
    else ExternalDefaultInterval(cfg, rows)
  }

  /** Rate-limit gate: meta time plus the interval is after now. There is no
      init-job exemption on the external side. */
  predicate ExternalCollectedTooRecently(env: ExternalEnv, req: ExternalAnalyzeJob, t: ExternalTable,
                                         m: ExternalMeta, names: seq<string>)
  {
    var interval := ExternalCollectInterval(env.orc, env.cfg, req, TableRowCount(env.cfg, env.orc, t, names));
    IsAfter(PlusSeconds(At(m.updateTime), interval), At(env.now))
  }

  // --------------------------------------------------------------- job kind

  /** `createExternalFullStatsJob`: one external FULL job with empty
      properties, over the partitions the connector reports as updated after
      the watermark, or (when the probe is unsupported) the builder's
      default partitions. */
  function ExternalFullOutcome(env: ExternalEnv, req: ExternalAnalyzeJob, w: Stamp, db: ExternalDb, t: ExternalTable,
                               names: Option<seq<string>>, types: Option<seq<ColType>>): (r: TableOutcome)
    ensures r.Success? <==> ResolveColumns(t.schema, t.collectible, names, types).Success?
    ensures r.Success? ==> r.value.Some?
    ensures r.Success? ==>
              var j := r.value.value;
              && j.ExternalFullJob?
              && j.target == ExternalTarget(req.catalogName, db.fullName, t.name)
              && j.analyzeType == Full
              && j.scheduleType == req.scheduleType
              && j.properties == map[]
              && (env.orc.updatedPartitionNames(t, w).Some? ==> j.partitionNames == env.orc.updatedPartitionNames(t, w).value)
              && (env.orc.updatedPartitionNames(t, w).None? && t.unpartitioned ==> j.partitionNames == [t.name])
              && (env.orc.updatedPartitionNames(t, w).None? && !t.unpartitioned ==> j.partitionNames == t.partitionNames)
    ensures r.Failure? ==> r.error.ColumnNotFound?
  {
    Emit(BuildExternalJob(req.catalogName, db, t, env.orc.updatedPartitionNames(t, w), names, types,
                          Full, req.scheduleType, map[]))
  }

  /** The FULL-only dispatch: any other type is logged and yields no job. */
  function ExternalDispatch(env: ExternalEnv, req: ExternalAnalyzeJob, w: Stamp, db: ExternalDb, t: ExternalTable,
                            names: Option<seq<string>>, types: Option<seq<ColType>>): TableOutcome
  {
    if req.analyzeType == Full then ExternalFullOutcome(env, req, w, db, t, names, types) else Success(None)
  }

  /** `createExternalAnalyzeJob`: what one external table contributes. */
  function PlanExternalTable(env: ExternalEnv, req: ExternalAnalyzeJob, db: ExternalDb, table: Option<ExternalTable>,
                             names: Option<seq<string>>, types: Option<seq<ColType>>): (r: TableOutcome)
    ensures r.Success? && r.value.Some? ==>
              && table.Some?
              && !Excluded(env.orc, req.properties, db.fullName, table.value.name)
              && req.analyzeType == Full
              && r.value.value.ExternalFullJob?
              && r.value.value.target == ExternalTarget(req.catalogName, db.fullName, table.value.name)
              && r.value.value.analyzeType == Full
              && r.value.value.properties == map[]
    ensures r.Failure? ==> r.error.ColumnNotFound? || r.error.BadExcludePattern?
    ensures r.Failure? && r.error.BadExcludePattern? <==> table.Some? && ExcludePatternInvalid(env.orc, req.properties)
  {
    if table.None? then Success(None)
    else if ExcludePatternInvalid(env.orc, req.properties) then Failure(BadExcludePattern(req.properties[ExcludePatternKey]))
    else if Excluded(env.orc, req.properties, db.fullName, table.value.name) then Success(None)
    else
      var t := table.value;
      match ExternalMetaOf(env, req, db, t)
      case None => ExternalDispatch(env, req, Min, db, t, names, types)
      case Some(m) =>
        if ExternalNotUpdatedSinceCollect(t, m) then Success(None)
        else
          match ProbeColumns(t, names, types)
          case Failure(e) => Failure(e)
          case Success((probed, probedTypes)) =>
            if ExternalCollectedTooRecently(env, req, t, m, probed) then Success(None)
            else ExternalDispatch(env, req, At(m.updateTime), db, t, Some(probed), probedTypes)
  }

  // --------------------------------------------------------------- fan-out

  /** `createExternalAnalyzeJob` for one listed table name of a database,
      with no request columns; a name that does not resolve is a null table. */
  function ExternalTablePlanner(env: ExternalEnv, req: ExternalAnalyzeJob, db: ExternalDb, dbName: string)
    : string -> TableOutcome
  {
    (name: string) => PlanExternalTable(env, req, db, GetExternalTable(env.catalog, dbName, name), None, None)
  }

  /** The listed tables of one database, in order. */
  function PlanExternalTables(env: ExternalEnv, req: ExternalAnalyzeJob, db: ExternalDb, dbName: string,
                              names: seq<string>): Result<seq<Job>, PlanError>
  {
    FoldOutcomes(names, ExternalTablePlanner(env, req, db, dbName))
  }

  /** A database name that resolves to a database not on the blacklist. */
  function ResolvedExternalDb(env: ExternalEnv, name: string): (r: Option<ExternalDb>)
    ensures r.Some? ==> name in env.catalog.dbs && r.value == env.catalog.dbs[name] && !env.orc.blacklisted(r.value.fullName)
    ensures name in env.catalog.dbs && !env.orc.blacklisted(env.catalog.dbs[name].fullName) ==> r == Some(env.catalog.dbs[name])
  {
    match GetExternalDb(env.catalog, name)
    case None => None
    case Some(db) => if env.orc.blacklisted(db.fullName) then None else Some(db)
  }

  function PlanExternalDb(env: ExternalEnv, req: ExternalAnalyzeJob, name: string): Result<seq<Job>, PlanError>
  {
    match ResolvedExternalDb(env, name)
    case None => Success([])
    case Some(db) => PlanExternalTables(env, req, db, name, ListTableNames(env.catalog, name))
  }

  /** Every listed database, in order. */
  function PlanExternalDbs(env: ExternalEnv, req: ExternalAnalyzeJob, names: seq<string>): Result<seq<Job>, PlanError>
  {
    if names == [] then Success([])
    else AppendJobs(PlanExternalDbs(env, req, names[..|names| - 1]), PlanExternalDb(env, req, names[|names| - 1]))
  }

  /** `buildExternalStatisticsCollectJob(externalAnalyzeJob)`: all databases
      (blacklist applied), all tables of one database (no blacklist), or one
      table (with the request's columns). */
  function PlanExternalJobs(env: ExternalEnv, req: ExternalAnalyzeJob): Result<seq<Job>, PlanError>
  {
    match req.scope
    case AllDatabases => PlanExternalDbs(env, req, env.catalog.dbNames)
    case AllTables(dbName) =>
      (match GetExternalDb(env.catalog, dbName)
       case None => Success([])
       case Some(db) => PlanExternalTables(env, req, db, dbName, ListTableNames(env.catalog, dbName)))
    case OneTable(dbName, tableName) =>
      (match GetExternalDb(env.catalog, dbName)
       case None => Success([])
       case Some(db) =>
         match GetExternalTable(env.catalog, dbName, tableName)
         case None => Success([])
         case Some(t) => AppendOutcome(Success([]), PlanExternalTable(env, req, db, Some(t), req.columns, req.columnTypes)))
  }

  // ------------------------------------------------------ gate properties

  /** A missing or excluded table gets no job and raises nothing. */
  lemma ExcludedExternalTableGetsNoJob(env: ExternalEnv, req: ExternalAnalyzeJob, db: ExternalDb,
                                       table: Option<ExternalTable>,
                                       names: Option<seq<string>>, types: Option<seq<ColType>>)
    requires table.None? || Excluded(env.orc, req.properties, db.fullName, table.value.name)
    ensures PlanExternalTable(env, req, db, table, names, types) == Success(None)
  {
  }

  /** Freshness: a meta written strictly after the table's known last update
      means no job (and no column lookup). */
  lemma FreshExternalTableGetsNoJob(env: ExternalEnv, req: ExternalAnalyzeJob, db: ExternalDb, t: ExternalTable,
                                    names: Option<seq<string>>, types: Option<seq<ColType>>, m: ExternalMeta, u: int)
    requires !ExcludePatternInvalid(env.orc, req.properties)
    requires ExternalMetaOf(env, req, db, t) == Some(m)
    requires t.lastUpdateTime == Some(u) && m.updateTime > u
    ensures PlanExternalTable(env, req, db, Some(t), names, types) == Success(None)
  {
  }

  /** The converse of the external gates: a present, not excluded table with
      a meta that is not strictly after the table's update time (or whose
      update time is unknown), and that the rate limit lets through for the
      probed columns, gets the FULL-only dispatch against the meta's time. */
  lemma ExternalGatesPassedTableGetsDispatched(env: ExternalEnv, req: ExternalAnalyzeJob, db: ExternalDb,
                                               t: ExternalTable, names: Option<seq<string>>,
                                               types: Option<seq<ColType>>, m: ExternalMeta,
                                               probed: seq<string>, probedTypes: Option<seq<ColType>>)
    requires !ExcludePatternInvalid(env.orc, req.properties) && !Excluded(env.orc, req.properties, db.fullName, t.name)
    requires ExternalMetaOf(env, req, db, t) == Some(m)
    requires t.lastUpdateTime.None? || m.updateTime <= t.lastUpdateTime.value
    requires ProbeColumns(t, names, types) == Success((probed, probedTypes))
    requires !ExternalCollectedTooRecently(env, req, t, m, probed)
    ensures PlanExternalTable(env, req, db, Some(t), names, types)
         == ExternalDispatch(env, req, At(m.updateTime), db, t, Some(probed), probedTypes)
  {
  }

  /** A table whose last update time is unknown never passes the freshness
      gate: once the interval has elapsed, a FULL request with columns gets
      its job against the meta's time. */
  lemma UnknownUpdateTimeIsNeverFresh(env: ExternalEnv, req: ExternalAnalyzeJob, db: ExternalDb, t: ExternalTable,
                                      names: seq<string>, types: Option<seq<ColType>>, m: ExternalMeta)
    requires !ExcludePatternInvalid(env.orc, req.properties) && !Excluded(env.orc, req.properties, db.fullName, t.name)
    requires ExternalMetaOf(env, req, db, t) == Some(m) && t.lastUpdateTime.None?
    requires names != [] && req.analyzeType == Full
    requires m.updateTime + ExternalCollectInterval(env.orc, env.cfg, req, TableRowCount(env.cfg, env.orc, t, names))
             <= env.now
    ensures PlanExternalTable(env, req, db, Some(t), Some(names), types)
         == ExternalFullOutcome(env, req, At(m.updateTime), db, t, Some(names), types)
  {
  }

  /** Rate limit: with a meta that passes the freshness gate, no job when
      meta time + interval is after now, where the interval is the request's
      override, else the small-table interval iff the probed row count is
      below the small-table row threshold. */
  lemma RateLimitedExternalTableGetsNoJob(env: ExternalEnv, req: ExternalAnalyzeJob, db: ExternalDb, t: ExternalTable,
                                          names: seq<string>, types: Option<seq<ColType>>, m: ExternalMeta,
                                          interval: int)
    requires !ExcludePatternInvalid(env.orc, req.properties)
    requires ExternalMetaOf(env, req, db, t) == Some(m) && !ExternalNotUpdatedSinceCollect(t, m)
    requires names != []
    requires interval ==
               if AutoCollectIntervalKey in req.properties then env.orc.parseLong(req.properties[AutoCollectIntervalKey])
               else if TableRowCount(env.cfg, env.orc, t, names) < env.cfg.smallTableRows then env.cfg.smallTableInterval
               else env.cfg.largeTableInterval
    requires m.updateTime + interval > env.now
    ensures PlanExternalTable(env, req, db, Some(t), Some(names), types) == Success(None)
  {
  }

  /** With no known column statistics the table counts as small. */
  lemma UnknownRowCountMeansSmallTable(cfg: Config, orc: Oracles, t: ExternalTable, names: seq<string>)
    requires orc.knownRowCount(t, names).None?
    ensures ExternalDefaultInterval(cfg, TableRowCount(cfg, orc, t, names)) == cfg.smallTableInterval
  {
  }

  /** Without column names the rate-limit probe (and the job) use the
      collectible columns with their schema types. */
  lemma ProbeDefaultsToCollectibleColumns(env: ExternalEnv, req: ExternalAnalyzeJob, db: ExternalDb, t: ExternalTable,
                                          m: ExternalMeta, types: seq<ColType>)
    requires !ExcludePatternInvalid(env.orc, req.properties) && !Excluded(env.orc, req.properties, db.fullName, t.name)
    requires ExternalMetaOf(env, req, db, t) == Some(m) && !ExternalNotUpdatedSinceCollect(t, m)
    requires LookupTypes(t.schema, t.collectible) == Success(types)
    ensures PlanExternalTable(env, req, db, Some(t), None, None) ==
              if ExternalCollectedTooRecently(env, req, t, m, t.collectible) then Success(None)
              else ExternalDispatch(env, req, At(m.updateTime), db, t, Some(t.collectible), Some(types))
  {
  }

  /** A never-analysed table gets one FULL job for a FULL request, probed
      against `LocalDateTime.MIN`, unless a column lookup raises. */
  lemma NeverAnalysedExternalTableGetsOneJob(env: ExternalEnv, req: ExternalAnalyzeJob, db: ExternalDb,
                                             t: ExternalTable, names: Option<seq<string>>, types: Option<seq<ColType>>)
    requires !ExcludePatternInvalid(env.orc, req.properties) && !Excluded(env.orc, req.properties, db.fullName, t.name)
    requires ExternalMetaOf(env, req, db, t).None? && req.analyzeType == Full
    ensures var r := PlanExternalTable(env, req, db, Some(t), names, types);
            && r == ExternalFullOutcome(env, req, Min, db, t, names, types)
            && (r.Success? <==> ResolveColumns(t.schema, t.collectible, names, types).Success?)
            && (r.Success? ==> |Emitted(r)| == 1)
  {
  }

  // --------------------------------------------------- fan-out properties

  /** Every job is an external FULL job with empty properties. */
  predicate AllExternalFull(js: seq<Job>)
  {
    forall j :: j in js ==> j.ExternalFullJob? && j.analyzeType == Full && j.properties == map[]
  }

  lemma AllExternalFullAppend(js: seq<Job>, more: seq<Job>)
    requires AllExternalFull(js) && AllExternalFull(more)
    ensures AllExternalFull(js + more)
  {
  }

  /** Only FULL requests produce external jobs, and every one of them is an
      external FULL job with empty properties. */
  lemma {:induction false} ExternalTablesAreFullOnly(env: ExternalEnv, req: ExternalAnalyzeJob, db: ExternalDb,
                                                     dbName: string, names: seq<string>)
    ensures var r := PlanExternalTables(env, req, db, dbName, names);
            r.Success? ==> AllExternalFull(r.value) && (req.analyzeType != Full ==> r.value == [])
  {
    var r := PlanExternalTables(env, req, db, dbName, names);
    if names != [] && r.Success? {
      var init := names[..|names| - 1];
      ExternalTablesAreFullOnly(env, req, db, dbName, init);
      var acc := PlanExternalTables(env, req, db, dbName, init).value;
      var o := PlanExternalTable(env, req, db, GetExternalTable(env.catalog, dbName, names[|names| - 1]), None, None);
      assert r.value == acc + Emitted(o);
      AllExternalFullAppend(acc, Emitted(o));
    }
  }

  lemma {:induction false} ExternalDbsAreFullOnly(env: ExternalEnv, req: ExternalAnalyzeJob, names: seq<string>)
    ensures var r := PlanExternalDbs(env, req, names);
            r.Success? ==> AllExternalFull(r.value) && (req.analyzeType != Full ==> r.value == [])
  {
    var r := PlanExternalDbs(env, req, names);
    if names != [] && r.Success? {
      var init := names[..|names| - 1];
      var name := names[|names| - 1];
      ExternalDbsAreFullOnly(env, req, init);
      var acc := PlanExternalDbs(env, req, init).value;
      var step := PlanExternalDb(env, req, name);
      assert r.value == acc + step.value;
      match ResolvedExternalDb(env, name)
      case None =>
        assert step.value == [];
      case Some(db) =>
        ExternalTablesAreFullOnly(env, req, db, name, ListTableNames(env.catalog, name));
      AllExternalFullAppend(acc, step.value);
    }
  }

  /** Whole-request form: a request of any type but FULL plans no job (a
      missing column may still raise); a FULL request plans only external
      FULL jobs with empty properties. */
  lemma ExternalJobsAreFullOnly(env: ExternalEnv, req: ExternalAnalyzeJob)
    ensures var r := PlanExternalJobs(env, req);
            r.Success? ==> AllExternalFull(r.value) && (req.analyzeType != Full ==> r.value == [])
  {
    match req.scope
    case AllDatabases =>
      ExternalDbsAreFullOnly(env, req, env.catalog.dbNames);
    case AllTables(dbName) =>
      if GetExternalDb(env.catalog, dbName).Some? {
        ExternalTablesAreFullOnly(env, req, GetExternalDb(env.catalog, dbName).value, dbName,
                                  ListTableNames(env.catalog, dbName));
      }
    case OneTable(_, _) =>
  }

  /** The target of a listed table name: none when the name does not
      resolve. */
  function ListedTarget(env: ExternalEnv, req: ExternalAnalyzeJob, db: ExternalDb, dbName: string)
    : string -> seq<Target>
  {
    (name: string) =>
      match GetExternalTable(env.catalog, dbName, name)
      case None => []
      case Some(t) => [ExternalTarget(req.catalogName, db.fullName, t.name)]
  }

  /** Within a database the jobs follow the table listing, at most one per
      resolved table. */
  lemma ExternalTablesFollowListing(env: ExternalEnv, req: ExternalAnalyzeJob, db: ExternalDb,
                                    dbName: string, names: seq<string>)
    ensures var r := PlanExternalTables(env, req, db, dbName, names);
            r.Success? ==>
              && Subseq(Targets(r.value), FlatTargets(names, ListedTarget(env, req, db, dbName)))
              && |r.value| <= |names|
  {
    var f := ExternalTablePlanner(env, req, db, dbName);
    var tg := ListedTarget(env, req, db, dbName);
    forall name | name in names
      ensures Emitted(f(name)) == [] || Targets(Emitted(f(name))) == tg(name)
    {
      var o := PlanExternalTable(env, req, db, GetExternalTable(env.catalog, dbName, name), None, None);
      assert f(name) == o;
      if o.Success? && o.value.Some? {
        assert Targets(Emitted(o)) == [o.value.value.target];
      }
    }
    FoldFollowsOrder(names, f, tg);
  }

  /** The tables listed in all-databases mode, database by database: the
      names that resolve to a database not on the blacklist. */
  function ListedTargets(env: ExternalEnv, req: ExternalAnalyzeJob, names: seq<string>): seq<Target>
  {
    if names == [] then []
    else
      var name := names[|names| - 1];
      ListedTargets(env, req, names[..|names| - 1]) +
      (match ResolvedExternalDb(env, name)
       case None => []
       case Some(db) => FlatTargets(ListTableNames(env.catalog, name), ListedTarget(env, req, db, name)))
  }

  /** All-databases mode emits jobs in database-then-listing order, only for
      tables of resolved, non-blacklisted databases, at most one per table. */
  lemma {:induction false} ExternalDbsFollowListing(env: ExternalEnv, req: ExternalAnalyzeJob, names: seq<string>)
    ensures var r := PlanExternalDbs(env, req, names);
            r.Success? ==>
              && Subseq(Targets(r.value), ListedTargets(env, req, names))
              && |r.value| <= |ListedTargets(env, req, names)|
  {
    var r := PlanExternalDbs(env, req, names);
    if names != [] && r.Success? {
      ExternalDbsFollowListing(env, req, names[..|names| - 1]);
      ExternalDbStepFollowsListing(env, req, names);
    }
    if r.Success? {
      SubseqMembers(Targets(r.value), ListedTargets(env, req, names));
    }
  }

  /** One step of `ExternalDbsFollowListing`: appending a database keeps the
      order. */
  lemma ExternalDbStepFollowsListing(env: ExternalEnv, req: ExternalAnalyzeJob, names: seq<string>)
    requires names != []
    requires PlanExternalDbs(env, req, names[..|names| - 1]).Success? ==>
               Subseq(Targets(PlanExternalDbs(env, req, names[..|names| - 1]).value),
                      ListedTargets(env, req, names[..|names| - 1]))
    ensures PlanExternalDbs(env, req, names).Success? ==>
              Subseq(Targets(PlanExternalDbs(env, req, names).value), ListedTargets(env, req, names))
  {
    var init := names[..|names| - 1];
    var name := names[|names| - 1];
    var r := PlanExternalDbs(env, req, names);
    if r.Success? {
      var acc := PlanExternalDbs(env, req, init).value;
      var step := PlanExternalDb(env, req, name);
      assert r.value == acc + step.value;
      TargetsAppend(acc, step.value);
      match ResolvedExternalDb(env, name)
      case None =>
        assert step.value == [];
        assert Targets(r.value) == Targets(acc);
        assert ListedTargets(env, req, names) == ListedTargets(env, req, init);
      case Some(db) =>
        var listing := ListTableNames(env.catalog, name);
        ExternalTablesFollowListing(env, req, db, name, listing);
        assert ListedTargets(env, req, names) == ListedTargets(env, req, init) + FlatTargets(listing, ListedTarget(env, req, db, name));
        SubseqConcat(Targets(acc), ListedTargets(env, req, init), Targets(step.value), FlatTargets(listing, ListedTarget(env, req, db, name)));
    }
  }

  /** A database name that does not resolve, or resolves to a blacklisted
      database, contributes nothing in all-databases mode. */
  lemma {:induction false} SkippedExternalDbContributesNothing(env: ExternalEnv, req: ExternalAnalyzeJob,
                                                               before: seq<string>, name: string, after: seq<string>)
    requires ResolvedExternalDb(env, name).None?
    ensures PlanExternalDbs(env, req, before + [name] + after) == PlanExternalDbs(env, req, before + after)
    decreases |after|
  {
    if after == [] {
      var whole := before + [name];
      assert whole[..|whole| - 1] == before && whole[|whole| - 1] == name;
      assert before + [name] + after == whole;
      assert before + after == before;
      assert PlanExternalDb(env, req, name) == Success([]);
      var acc := PlanExternalDbs(env, req, before);
      assert PlanExternalDbs(env, req, whole) == AppendJobs(acc, Success([]));
      assert acc.Success? ==> acc.value + [] == acc.value;
    } else {
      var init := after[..|after| - 1];
      var last := after[|after| - 1];
      SkippedExternalDbContributesNothing(env, req, before, name, init);
      var lhs := before + [name] + after;
      var rhs := before + after;
      assert lhs[..|lhs| - 1] == before + [name] + init && lhs[|lhs| - 1] == last;
      assert rhs[..|rhs| - 1] == before + init && rhs[|rhs| - 1] == last;
      assert PlanExternalDbs(env, req, lhs) == AppendJobs(PlanExternalDbs(env, req, before + [name] + init), PlanExternalDb(env, req, last));
      assert PlanExternalDbs(env, req, rhs) == AppendJobs(PlanExternalDbs(env, req, before + init), PlanExternalDb(env, req, last));
    }
  }

  /** All-tables and single-table modes plan nothing for a database name
      that does not resolve; single-table mode plans nothing for a table
      name that does not resolve. */
  lemma MissingExternalDbOrTableYieldsNoJobs(env: ExternalEnv, req: ExternalAnalyzeJob)
    requires !req.scope.AllDatabases?
    requires req.scope.dbName !in env.catalog.dbs ||
             (req.scope.OneTable? && (req.scope.dbName, req.scope.tableName) !in env.catalog.tables)
    ensures PlanExternalJobs(env, req) == Success([])
  {
  }

  /** The plan of a prefix of the name list is a prefix of the whole plan. */
  lemma {:induction false} ExternalDbsPrefix(env: ExternalEnv, req: ExternalAnalyzeJob, names: seq<string>, j: nat)
    requires j <= |names| && PlanExternalDbs(env, req, names).Success?
    ensures PlanExternalDbs(env, req, names[..j]).Success?
    ensures PlanExternalDbs(env, req, names[..j]).value <= PlanExternalDbs(env, req, names).value
  {
    if j == |names| {
      assert names[..j] == names;
    } else {
      var init := names[..|names| - 1];
      assert init[..j] == names[..j];
      ExternalDbsPrefix(env, req, init, j);
    }
  }

  /** Every database name that resolves and is not blacklisted is planned,
      in place: the jobs of the databases before it, followed by the jobs of
      all of its listed tables, start the all-databases plan. */
  lemma ExternalDbsCoverEveryResolvedDb(env: ExternalEnv, req: ExternalAnalyzeJob, names: seq<string>, k: nat)
    requires k < |names| && PlanExternalDbs(env, req, names).Success?
    requires names[k] in env.catalog.dbs && !env.orc.blacklisted(env.catalog.dbs[names[k]].fullName)
    ensures var db := env.catalog.dbs[names[k]];
            var listed := PlanExternalTables(env, req, db, names[k], ListTableNames(env.catalog, names[k]));
            && PlanExternalDbs(env, req, names[..k]).Success?
            && listed.Success?
            && PlanExternalDbs(env, req, names[..k]).value + listed.value <= PlanExternalDbs(env, req, names).value
  {
    ExternalDbsPrefix(env, req, names, k + 1);
    var upto := names[..k + 1];
    assert upto[..|upto| - 1] == names[..k] && upto[|upto| - 1] == names[k];
  }

  // ------------------------------------------------- exception propagation

  /** An exception raised in one database aborts the rest of the listing. */
  lemma {:induction false} ExternalDbsFailurePersists(env: ExternalEnv, req: ExternalAnalyzeJob, names: seq<string>, k: nat)
    requires k <= |names| && PlanExternalDbs(env, req, names[..k]).Failure?
    ensures PlanExternalDbs(env, req, names) == PlanExternalDbs(env, req, names[..k])
    decreases |names| - k
  {
    if k < |names| {
      assert names[..k + 1][..k] == names[..k];
      ExternalDbsFailurePersists(env, req, names, k + 1);
    } else {
      assert names[..k] == names;
    }
  }
}
