/** The metadata snapshot the job factory plans from: catalog entities,
    statistics metadata, configuration thresholds, the request, the job
    descriptors it produces, and the caller-owned list they are appended to.

    Every lookup that the factory performs through the global state manager
    becomes a field of one of these values; every helper whose body is not part
    of this model becomes an arrow-typed field of `Oracles`. */
module StatsCatalog {
  import opened Wrappers
  import opened Sequences

  // ---------------------------------------------------------------- time

  /** A `LocalDateTime`, in seconds. `Min` is `LocalDateTime.MIN`, which
      precedes every real time. */
  datatype Stamp = Min | At(seconds: int)

  /** `a.isAfter(b)`: strictly later; equal times are not "after". */
  predicate IsAfter(a: Stamp, b: Stamp)
  {
    match (a, b)
    case (Min, _) => false
    case (At(_), Min) => true
    case (At(x), At(y)) => x > y
  }

  /** `a.isBefore(b)`: strictly earlier. */
  predicate IsBefore(a: Stamp, b: Stamp)
  {
    IsAfter(b, a)
  }

  /** `a.plusSeconds(n)`. Adding an interval to `LocalDateTime.MIN` stays
      before every real time, so `Min` absorbs the addition. */
  function PlusSeconds(a: Stamp, n: int): Stamp
  {
    match a
    case Min => Min
    case At(x) => At(x + n)
  }

  // ------------------------------------------------------------- requests

  /** `StatsConstants.AnalyzeType`; `OtherType` stands for any further value
      of the enumeration, which the factory rejects. */
  datatype AnalyzeType = Sample | Histogram | Full | OtherType(name: string)

  /** `StatsConstants.ScheduleType`. */
  datatype ScheduleType = Once | Schedule

  /** The id that means "every database" / "every table". */
  const DefaultAllId: int := -1

  /** Property keys recognised by the factory. */
  const ExcludePatternKey: string := "statistic_exclude_pattern"
  const AutoCollectIntervalKey: string := "statistic_auto_collect_interval"
  const AutoCollectRatioKey: string := "statistic_auto_collect_ratio"

  /** A column type, by name. */
  type ColType = string

  /** A native analyze request. `columns` / `columnTypes` are `None` where the
      Java list is null. */
  datatype NativeAnalyzeJob = NativeAnalyzeJob(
    dbId: int,
    tableId: int,
    columns: Option<seq<string>>,
    columnTypes: Option<seq<ColType>>,
    analyzeType: AnalyzeType,
    scheduleType: ScheduleType,
    properties: map<string, string>)

  /** What an external analyze request covers. */
  datatype ExternalScope =
    | AllDatabases
    | AllTables(dbName: string)
    | OneTable(dbName: string, tableName: string)

  /** An analyze request against an external catalog. */
  datatype ExternalAnalyzeJob = ExternalAnalyzeJob(
    catalogName: string,
    scope: ExternalScope,
    columns: Option<seq<string>>,
    columnTypes: Option<seq<ColType>>,
    analyzeType: AnalyzeType,
    scheduleType: ScheduleType,
    properties: map<string, string>)

  // ------------------------------------------------------ native catalog

  /** A partition as seen by the planner: its id, its last update time, its
      data size in bytes and whether it holds data. */
  datatype Partition = Partition(id: int, updateTime: int, dataSize: int, hasData: bool)

  /** The kind of a native table, as far as the eligibility filter cares. */
  datatype TableKind = OlapKind | CloudNativeKind | MaterializedViewKind | OtherTableKind

  /** `OlapTable.OlapTableState`: NORMAL or any state of a structural change. */
  datatype OlapTableState = Normal | InChange(state: string)

  /** A native table. `olapState` is `Some` exactly when the table is an
      `OlapTable` instance. `isEmpty` is `StatisticUtils.isEmptyTable`,
      `lastUpdateTime` is `StatisticUtils.getTableLastUpdateTime`, `collectible`
      is `StatisticUtils.getCollectibleColumns`, `schema` maps a column name to
      its type. */
  datatype NativeTable = NativeTable(
    id: int,
    name: string,
    kind: TableKind,
    olapState: Option<OlapTableState>,
    isTemporary: bool,
    isEmpty: bool,
    lastUpdateTime: int,
    partitions: seq<Partition>,
    schema: map<string, ColType>,
    collectible: seq<string>)

  /** A native database with its tables, in the metastore's order. */
  datatype Database = Database(id: int, fullName: string, tables: seq<NativeTable>)

  /** The local metastore: database ids in enumeration order, and the
      databases that can still be resolved. */
  datatype NativeCatalog = NativeCatalog(dbIds: seq<int>, dbs: map<int, Database>)

  function GetDb(cat: NativeCatalog, id: int): (r: Option<Database>)
    ensures r.Some? <==> id in cat.dbs
  {
    if id in cat.dbs then Some(cat.dbs[id]) else None
  }

  /** `getTable(dbId, tableId)`: the first table of the database with that id. */
  function GetTable(tables: seq<NativeTable>, id: int): (r: Option<NativeTable>)
    ensures r.Some? ==> r.value in tables && r.value.id == id
    ensures r.None? ==> forall t :: t in tables ==> t.id != id
  {
    if tables == [] then None
    else if tables[0].id == id then Some(tables[0])
    else GetTable(tables[1..], id)
  }

  // ---------------------------------------------------- external catalog

  /** A table of an external catalog. `lastUpdateTime` is `None` when the
      connector cannot tell; `partitionNames` is `listPartitionNames`. */
  datatype ExternalTable = ExternalTable(
    name: string,
    lastUpdateTime: Option<int>,
    unpartitioned: bool,
    partitionNames: seq<string>,
    schema: map<string, ColType>,
    collectible: seq<string>)

  datatype ExternalDb = ExternalDb(fullName: string)

  /** One external catalog: database names in listing order, the databases
      that resolve, the table names listed per database, and the tables that
      resolve, keyed by (database name, table name). */
  datatype ExternalCatalog = ExternalCatalog(
    dbNames: seq<string>,
    dbs: map<string, ExternalDb>,
    tableNames: map<string, seq<string>>,
    tables: map<(string, string), ExternalTable>)

  function GetExternalDb(cat: ExternalCatalog, name: string): (r: Option<ExternalDb>)
    ensures r.Some? <==> name in cat.dbs
  {
    if name in cat.dbs then Some(cat.dbs[name]) else None
  }

  function ListTableNames(cat: ExternalCatalog, dbName: string): seq<string>
  {
    if dbName in cat.tableNames then cat.tableNames[dbName] else []
  }

  function GetExternalTable(cat: ExternalCatalog, dbName: string, tableName: string): (r: Option<ExternalTable>)
    ensures r.Some? <==> (dbName, tableName) in cat.tables
  {
    if (dbName, tableName) in cat.tables then Some(cat.tables[(dbName, tableName)]) else None
  }

  // ----------------------------------------------------- statistics metas

  /** `BasicStatsMeta`: last collection time, health ratio, init-job flag. */
  datatype BasicMeta = BasicMeta(updateTime: int, healthy: real, isInit: bool)

  /** `HistogramStatsMeta` of one column. */
  datatype HistogramMeta = HistogramMeta(updateTime: int, isInit: bool)

  /** `ExternalBasicStatsMeta`: last collection time of an external table. */
  datatype ExternalMeta = ExternalMeta(updateTime: int)

  /** The analyze manager's metas: basic and histogram metas by table id,
      external metas by (catalog, database, table) name. */
  datatype StatsStore = StatsStore(
    basic: map<int, BasicMeta>,
    histograms: map<int, seq<HistogramMeta>>,
    external: map<(string, string, string), ExternalMeta>)

  // ------------------------------------------------------- configuration

  /** The `Config` thresholds the factory reads. */
  datatype Config = Config(
    enableTemporaryTableCollect: bool,
    smallTableRows: int,
    smallTableSize: int,
    smallTableInterval: int,
    largeTableInterval: int,
    histogramInterval: int,
    collectRatio: real,
    sampleThreshold: real,
    maxFullCollectDataSize: int)

  /** Helpers whose bodies are not part of this model, taken as given
      functions:
      - `blacklisted`: `StatisticUtils.statisticDatabaseBlackListCheck`;
      - `patternCompiles(regex)`: `Pattern.compile(regex)` returns instead of
        throwing `PatternSyntaxException`;
      - `patternFinds(regex, name)`: `Pattern.compile(regex).matcher(name).find()`;
      - `updatedAfterLoad(meta, t)`: `BasicStatsMeta.isUpdatedAfterLoad(t)`;
      - `parseLong`, `parseDouble`: parsing of a property value;
      - `knownRowCount(table, columns)`: the row count of the first known
        column statistic the statistic storage returns, `None` if none is known;
      - `updatedPartitionNames(table, since)`: the connector's changed-partition
        probe (60-second tolerance), in the set's iteration order; `None` when
        the probe is unsupported, throws or returns null. */
  datatype Oracles = Oracles(
    blacklisted: string -> bool,
    patternCompiles: string -> bool,
    patternFinds: (string, string) -> bool,
    updatedAfterLoad: (BasicMeta, int) -> bool,
    parseLong: string -> int,
    parseDouble: string -> real,
    knownRowCount: (ExternalTable, seq<string>) -> Option<int>,
    updatedPartitionNames: (ExternalTable, Stamp) -> Option<seq<string>>)

  /** `Character.isWhitespace` on the characters below U+0080. */
  predicate IsWhitespace(c: char)
  {
    c == ' ' || c == '\t' || c == '\n' || c == '\r' || c == '\U{B}' || c == '\U{C}' ||
    ('\U{1C}' <= c <= '\U{1F}')
  }

  /** `StringUtils.isBlank` on a non-null string. */
  predicate IsBlank(s: string)
  {
    forall i :: 0 <= i < |s| ==> IsWhitespace(s[i])
  }

  /** The request carries a non-blank exclusion pattern that does not
      compile: `Pattern.compile` throws before any table name is matched. */
  predicate ExcludePatternInvalid(orc: Oracles, properties: map<string, string>)
  {
    ExcludePatternKey in properties &&
    !IsBlank(properties[ExcludePatternKey]) &&
    !orc.patternCompiles(properties[ExcludePatternKey])
  }

  /** The request's exclusion pattern compiles and finds a match in
      `db.table`. A missing or blank pattern excludes nothing. */
  predicate Excluded(orc: Oracles, properties: map<string, string>, dbName: string, tableName: string)
  {
    ExcludePatternKey in properties &&
    !IsBlank(properties[ExcludePatternKey]) &&
    orc.patternCompiles(properties[ExcludePatternKey]) &&
    orc.patternFinds(properties[ExcludePatternKey], dbName + "." + tableName)
  }

  // ----------------------------------------------------------------- jobs

  /** The table a job works on. */
  datatype Target =
    | NativeTarget(dbId: int, tableId: int)
    | ExternalTarget(catalogName: string, dbName: string, tableName: string)

  /** The four job descriptors. Sample and histogram jobs cover the whole
      table; a full job names partition ids, an external full job partition
      names. */
  datatype Job =
    | SampleJob(target: Target, columns: seq<string>, columnTypes: seq<ColType>,
                scheduleType: ScheduleType, properties: map<string, string>)
    | HistogramJob(target: Target, columns: seq<string>, columnTypes: seq<ColType>,
                   scheduleType: ScheduleType, properties: map<string, string>)
    | FullJob(target: Target, partitionIds: seq<int>, columns: seq<string>, columnTypes: seq<ColType>,
              scheduleType: ScheduleType, properties: map<string, string>)
    | ExternalFullJob(target: Target, partitionNames: seq<string>, columns: seq<string>,
                      columnTypes: seq<ColType>, analyzeType: AnalyzeType,
                      scheduleType: ScheduleType, properties: map<string, string>)

  /** The exceptions planning can raise: an analyze type the dispatch does
      not know, a column the table's schema does not have (the
      `getColumn(name).getType()` null dereference), and an exclusion pattern
      that does not compile. */
  datatype PlanError =
    | UnknownAnalyzeType(analyzeType: AnalyzeType)
    | ColumnNotFound(column: string)
    | BadExcludePattern(regex: string)

  /** What planning one table yields: at most one job, or an error. */
  type TableOutcome = Result<Option<Job>, PlanError>

  /** The jobs a table outcome appends to the list. */
  function Emitted(o: TableOutcome): (js: seq<Job>)
    ensures |js| <= 1
    ensures js != [] <==> o.Success? && o.value.Some?
  {
    if o.Success? && o.value.Some? then [o.value.value] else []
  }

  /** The exception a table outcome raises, if any. */
  function ErrorOf<R>(o: Result<R, PlanError>): (e: Option<PlanError>)
    ensures e.Some? <==> o.Failure?
  {
    if o.Failure? then Some(o.error) else None
  }

  /** Wraps a built job as "one job emitted". */
  function Emit(r: Result<Job, PlanError>): (o: TableOutcome)
    ensures o.Success? <==> r.Success?
    ensures r.Success? ==> o.value == Some(r.value)
  {
    match r
    case Success(j) => Success(Some(j))
    case Failure(e) => Failure(e)
  }

  /** Appends one table's outcome to the jobs accumulated so far; the first
      error aborts the whole enumeration. */
  function AppendOutcome(acc: Result<seq<Job>, PlanError>, o: TableOutcome): (r: Result<seq<Job>, PlanError>)
    ensures acc.Failure? ==> r == acc
    ensures acc.Success? && o.Failure? ==> r == Failure(o.error)
    ensures acc.Success? && o.Success? ==> r == Success(acc.value + Emitted(o))
  {
    if acc.Failure? then acc
    else if o.Failure? then Failure(o.error)
    else Success(acc.value + Emitted(o))
  }

  /** Appends one database's jobs to those accumulated so far. */
  function AppendJobs(acc: Result<seq<Job>, PlanError>, step: Result<seq<Job>, PlanError>): (r: Result<seq<Job>, PlanError>)
    ensures acc.Failure? ==> r == acc
    ensures acc.Success? && step.Failure? ==> r == step
    ensures acc.Success? && step.Success? ==> r == Success(acc.value + step.value)
  {
    if acc.Failure? then acc
    else if step.Failure? then step
    else Success(acc.value + step.value)
  }

  /** The targets of a job list, in order. */
  function Targets(js: seq<Job>): (ts: seq<Target>)
    ensures |ts| == |js|
    ensures forall i :: 0 <= i < |js| ==> ts[i] == js[i].target
  {
    seq(|js|, i requires 0 <= i < |js| => js[i].target)
  }

  lemma TargetsAppend(js: seq<Job>, more: seq<Job>)
    ensures Targets(js + more) == Targets(js) + Targets(more)
  {
  }

  // ---------------------------------------------------------------- folds

  /** The loop over the tables of one database: each item's outcome in
      order, appending what it emits; the first exception aborts the rest. */
  function FoldOutcomes<X>(xs: seq<X>, f: X -> TableOutcome): Result<seq<Job>, PlanError>
  {
    if xs == [] then Success([])
    else AppendOutcome(FoldOutcomes(xs[..|xs| - 1], f), f(xs[|xs| - 1]))
  }

  /** The targets the items may contribute, in order. */
  function FlatTargets<X>(xs: seq<X>, tg: X -> seq<Target>): (r: seq<Target>)
    ensures (forall x | x in xs :: |tg(x)| <= 1) ==> |r| <= |xs|
  {
    if xs == [] then [] else FlatTargets(xs[..|xs| - 1], tg) + tg(xs[|xs| - 1])
  }

  /** When every item emits either nothing or exactly its own targets, the
      fold's jobs follow the item order. */
  lemma {:induction false} FoldFollowsOrder<X>(xs: seq<X>, f: X -> TableOutcome, tg: X -> seq<Target>)
    requires forall x | x in xs :: Emitted(f(x)) == [] || Targets(Emitted(f(x))) == tg(x)
    ensures FoldOutcomes(xs, f).Success? ==>
              && Subseq(Targets(FoldOutcomes(xs, f).value), FlatTargets(xs, tg))
              && |FoldOutcomes(xs, f).value| <= |FlatTargets(xs, tg)|
  {
    var r := FoldOutcomes(xs, f);
    if xs != [] && r.Success? {
      var init := xs[..|xs| - 1];
      var x := xs[|xs| - 1];
      assert forall y | y in init :: y in xs;
      FoldFollowsOrder(init, f, tg);
      var acc := FoldOutcomes(init, f).value;
      var emitted := Targets(Emitted(f(x)));
      assert r.value == acc + Emitted(f(x));
      TargetsAppend(acc, Emitted(f(x)));
      if emitted != [] {
        SubseqRefl(tg(x));
      }
      SubseqConcat(Targets(acc), FlatTargets(init, tg), emitted, tg(x));
    }
    if r.Success? {
      SubseqMembers(Targets(r.value), FlatTargets(xs, tg));
    }
  }

  /** Once an item raises, the fold's result is that exception whatever
      items follow. */
  lemma {:induction false} FoldFailurePersists<X>(xs: seq<X>, f: X -> TableOutcome, k: nat)
    requires k <= |xs| && FoldOutcomes(xs[..k], f).Failure?
    ensures FoldOutcomes(xs, f) == FoldOutcomes(xs[..k], f)
    decreases |xs| - k
  {
    if k < |xs| {
      assert xs[..k + 1][..k] == xs[..k];
      FoldFailurePersists(xs, f, k + 1);
    } else {
      assert xs[..k] == xs;
    }
  }

  /** The caller-owned list the factory appends jobs to. */
  class JobList {
    var jobs: seq<Job>

    constructor ()
      ensures jobs == []
    {
      jobs := [];
    }

    method Add(j: Job)
      modifies this
      ensures jobs == old(jobs) + [j]
    {
      jobs := jobs + [j];
    }
  }

  /** `allTableJobMap.add(build(...))`: a build that raises adds nothing. */
  method AddBuilt(jobs: JobList, built: Result<Job, PlanError>) returns (err: Option<PlanError>)
    modifies jobs
    ensures jobs.jobs == old(jobs.jobs) + Emitted(Emit(built))
    ensures err == ErrorOf(built)
  {
    match built
    case Success(j) =>
      jobs.Add(j);
      err := None;
    case Failure(e) =>
      err := Some(e);
  }
}
