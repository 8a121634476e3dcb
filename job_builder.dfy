/** The job builders: `buildStatisticsCollectJob(db, table, ...)` for native
    tables and the two `buildExternalStatisticsCollectJob(catalog, db, table,
    ...)` overloads. They default the columns, the column types and the
    partitions, then dispatch on the analyze type. */
module JobBuilder {
  import opened Wrappers
  import opened StatsCatalog

  /** `names.stream().map(col -> table.getColumn(col).getType())`: the schema
      type of each name, in order. The first name the schema does not have
      dereferences null, which is `ColumnNotFound`. */
  function LookupTypes(schema: map<string, ColType>, names: seq<string>): (r: Result<seq<ColType>, PlanError>)
    ensures r.Success? <==> forall n :: n in names ==> n in schema
    ensures r.Success? ==>
              |r.value| == |names| &&
              forall i :: 0 <= i < |names| ==> names[i] in schema && r.value[i] == schema[names[i]]
    ensures r.Failure? ==> r.error.ColumnNotFound? && r.error.column in names && r.error.column !in schema
  {
    if names == [] then Success([])
    else if names[0] !in schema then Failure(ColumnNotFound(names[0]))
    else
      match LookupTypes(schema, names[1..])
      case Failure(e) => Failure(e)
      case Success(ts) => Success([schema[names[0]]] + ts)
  }

  /** A Java list that is null or empty. */
  predicate NullOrEmpty<T>(s: Option<seq<T>>)
  {
    s.None? || s.value == []
  }

  /** The names whose schema types the builder looks up: the collectible
      columns when no names are given, the given names when only the types are
      missing, and none when both are given. */
  function LookedUpNames(collectible: seq<string>, names: Option<seq<string>>, types: Option<seq<ColType>>): seq<string>
  {
    if NullOrEmpty(names) then collectible
    else if NullOrEmpty(types) then names.value
    else []
  }

  /** The column names and types a job is built with. Null or empty names
      default to the collectible columns, with schema types; otherwise types
      that are null or empty are taken from the schema, and caller-supplied
      types that are not empty are kept as they are. */
  function ResolveColumns(schema: map<string, ColType>, collectible: seq<string>,
                          names: Option<seq<string>>, types: Option<seq<ColType>>)
    : (r: Result<(seq<string>, seq<ColType>), PlanError>)
    ensures r.Success? ==> r.value.0 == (if NullOrEmpty(names) then collectible else names.value)
    ensures r.Success? && (NullOrEmpty(names) || NullOrEmpty(types)) ==>
              |r.value.1| == |r.value.0| &&
              forall i :: 0 <= i < |r.value.0| ==> r.value.0[i] in schema && r.value.1[i] == schema[r.value.0[i]]
    ensures !NullOrEmpty(names) && !NullOrEmpty(types) ==> r == Success((names.value, types.value))
    ensures r.Success? <==> forall n :: n in LookedUpNames(collectible, names, types) ==> n in schema
    ensures r.Failure? ==>
              && r.error.ColumnNotFound?
              && r.error.column in LookedUpNames(collectible, names, types)
              && r.error.column !in schema
  {
    if NullOrEmpty(names) then
      // the second, types-only default re-derives from the same names, so it
      // yields the same list
      match LookupTypes(schema, collectible)
      case Failure(e) => Failure(e)
      case Success(ts) => Success((collectible, ts))
    else if NullOrEmpty(types) then
      match LookupTypes(schema, names.value)
      case Failure(e) => Failure(e)
      case Success(ts) => Success((names.value, ts))
    else Success((names.value, types.value))
  }

  /** The ids of the partitions that hold data, in partition order. */
  function IdsWithData(ps: seq<Partition>): (ids: seq<int>)
    ensures |ids| <= |ps|
    ensures forall p :: p in ps && p.hasData ==> p.id in ids
    ensures forall id :: id in ids ==> exists p :: p in ps && p.hasData && p.id == id
  {
    if ps == [] then []
    else (if ps[0].hasData then [ps[0].id] else []) + IdsWithData(ps[1..])
  }

  /** `buildStatisticsCollectJob(db, table, partitionIdList, ...)`: SAMPLE and
      HISTOGRAM jobs cover the whole table; every other type builds a FULL job
      whose partitions default, when the list is null, to those with data. */
  function BuildNativeJob(db: Database, t: NativeTable, partitionIds: Option<seq<int>>,
                          names: Option<seq<string>>, types: Option<seq<ColType>>,
                          analyzeType: AnalyzeType, scheduleType: ScheduleType,
                          properties: map<string, string>): (r: Result<Job, PlanError>)
    ensures r.Success? <==> ResolveColumns(t.schema, t.collectible, names, types).Success?
    ensures r.Success? <==> forall n :: n in LookedUpNames(t.collectible, names, types) ==> n in t.schema
    ensures r.Success? ==>
              var j := r.value;
              && j.target == NativeTarget(db.id, t.id)
              && (j.columns, j.columnTypes) == ResolveColumns(t.schema, t.collectible, names, types).value
              && j.scheduleType == scheduleType
              && j.properties == properties
              && (j.SampleJob? <==> analyzeType == Sample)
              && (j.HistogramJob? <==> analyzeType == Histogram)
              && (j.FullJob? <==> analyzeType != Sample && analyzeType != Histogram)
              && (j.FullJob? && partitionIds.None? ==> j.partitionIds == IdsWithData(t.partitions))
              && (j.FullJob? && partitionIds.Some? ==> j.partitionIds == partitionIds.value)
    ensures r.Failure? ==> r.error.ColumnNotFound?
  {
    match ResolveColumns(t.schema, t.collectible, names, types)
    case Failure(e) => Failure(e)
    case Success((cols, colTypes)) =>
      var target := NativeTarget(db.id, t.id);
      if analyzeType == Sample then
        Success(SampleJob(target, cols, colTypes, scheduleType, properties))
      else if analyzeType == Histogram then
        Success(HistogramJob(target, cols, colTypes, scheduleType, properties))
      else
        var ids := if partitionIds.None? then IdsWithData(t.partitions) else partitionIds.value;
        Success(FullJob(target, ids, cols, colTypes, scheduleType, properties))
  }

  /** SAMPLE and HISTOGRAM jobs do not depend on the partition list passed in. */
  lemma WholeTableJobsIgnorePartitions(db: Database, t: NativeTable, p1: Option<seq<int>>, p2: Option<seq<int>>,
                                       names: Option<seq<string>>, types: Option<seq<ColType>>,
                                       analyzeType: AnalyzeType, scheduleType: ScheduleType,
                                       properties: map<string, string>)
    requires analyzeType == Sample || analyzeType == Histogram
    ensures BuildNativeJob(db, t, p1, names, types, analyzeType, scheduleType, properties)
         == BuildNativeJob(db, t, p2, names, types, analyzeType, scheduleType, properties)
  {
  }

  /** The partition names an external job covers: the given names, or when
      they are null every listed partition name, or the table's own name for an
      unpartitioned table. */
  function ExternalPartitionNames(t: ExternalTable, partitionNames: Option<seq<string>>): (r: seq<string>)
    ensures partitionNames.Some? ==> r == partitionNames.value
    ensures partitionNames.None? && t.unpartitioned ==> r == [t.name]
    ensures partitionNames.None? && !t.unpartitioned ==> r == t.partitionNames
  {
    if partitionNames.Some? then partitionNames.value
    else if !t.unpartitioned then t.partitionNames
    else [t.name]
  }

  /** `buildExternalStatisticsCollectJob(catalog, db, table, partitionNames,
      columnNames, columnTypes, ...)`: always an external FULL job descriptor,
      carrying the analyze type it was given. */
  function BuildExternalJob(catalogName: string, db: ExternalDb, t: ExternalTable,
                            partitionNames: Option<seq<string>>,
                            names: Option<seq<string>>, types: Option<seq<ColType>>,
                            analyzeType: AnalyzeType, scheduleType: ScheduleType,
                            properties: map<string, string>): (r: Result<Job, PlanError>)
    ensures r.Success? <==> ResolveColumns(t.schema, t.collectible, names, types).Success?
    ensures r.Success? <==> forall n :: n in LookedUpNames(t.collectible, names, types) ==> n in t.schema
    ensures r.Success? ==>
              var j := r.value;
              && j.ExternalFullJob?
              && j.target == ExternalTarget(catalogName, db.fullName, t.name)
              && j.partitionNames == ExternalPartitionNames(t, partitionNames)
              && (j.columns, j.columnTypes) == ResolveColumns(t.schema, t.collectible, names, types).value
              && j.analyzeType == analyzeType
              && j.scheduleType == scheduleType
              && j.properties == properties
    ensures r.Failure? ==> r.error.ColumnNotFound?
  {
    match ResolveColumns(t.schema, t.collectible, names, types)
    case Failure(e) => Failure(e)
    case Success((cols, colTypes)) =>
      Success(ExternalFullJob(ExternalTarget(catalogName, db.fullName, t.name),
                              ExternalPartitionNames(t, partitionNames),
                              cols, colTypes, analyzeType, scheduleType, properties))
  }

  /** `buildExternalStatisticsCollectJob(catalog, db, table, partitionNames,
      columnNames, ...)`: the types are looked up for the given names first, so
      the job's names and types always line up. Nothing in the factory calls
      this overload; it is the entry point other callers use. */
  function BuildExternalJobForColumns(catalogName: string, db: ExternalDb, t: ExternalTable,
                                      partitionNames: Option<seq<string>>, names: seq<string>,
                                      analyzeType: AnalyzeType, scheduleType: ScheduleType,
                                      properties: map<string, string>): (r: Result<Job, PlanError>)
    ensures r.Success? <==>
              (forall n :: n in names ==> n in t.schema) &&
              (names == [] ==> forall n :: n in t.collectible ==> n in t.schema)
    ensures r.Success? ==>
              && r.value.ExternalFullJob?
              && r.value.target == ExternalTarget(catalogName, db.fullName, t.name)
              && r.value.partitionNames == ExternalPartitionNames(t, partitionNames)
              && r.value.analyzeType == analyzeType
              && r.value.scheduleType == scheduleType
              && r.value.properties == properties
              && r.value.columns == (if names == [] then t.collectible else names)
              && |r.value.columnTypes| == |r.value.columns|
              && (forall i :: 0 <= i < |r.value.columns| ==> r.value.columns[i] in t.schema && r.value.columnTypes[i] == t.schema[r.value.columns[i]])
  {
    match LookupTypes(t.schema, names)
    case Failure(e) => Failure(e)
    case Success(colTypes) =>
      BuildExternalJob(catalogName, db, t, partitionNames, Some(names), Some(colTypes),
                       analyzeType, scheduleType, properties)
  }
}
