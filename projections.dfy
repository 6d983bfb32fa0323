/**
 * `ProjectionToProjectorVisitor`: compiles one projection of an execution
 * plan into the projector that runs it.  The model keeps the decisions the
 * visitor takes (which projector, the layout of its inputs, its ordering,
 * its limits, the output file URI, the shard guard of DML projections and
 * the single-relation rule of sys updates) and returns a descriptor of the
 * projector instead of the projector itself.
 */
module ProjectionToProjector {
  import opened Wrappers
  import JavaText

  /** `TopN.NO_LIMIT`: the limit of a projection that has none. */
  const NO_LIMIT: int := -1

  const UPDATE_ON_NODE_MESSAGE := "Update projection can only be executed on a shard"
  const DELETE_ON_NODE_MESSAGE := "Delete projection can only be executed on a shard"
  const UNSUPPORTED_MESSAGE := "Unsupported projection"

  /** A planner symbol; the visitor only places symbols, it never looks inside. */
  type Symbol = string

  datatype ShardId = ShardId(index: string, id: int)

  /** The two `RowGranularity` values `supportedGranularity` can answer. */
  datatype RowGranularity = NODE | SHARD

  datatype CompressionType = GZIP

  datatype RelationName = RelationName(schema: string, name: string)

  /** A column reference of a system table, as a sys-update assignment key. */
  datatype Reference = Reference(relation: RelationName, column: string)

  /**
   * The projections.  `uri` and `fileName` of a writer projection are the
   * already evaluated strings; `assignments` of a sys update is the entry
   * set of its assignment map in iteration order.
   */
  datatype Projection =
    | OrderedTopN(outputs: seq<Symbol>, orderBy: seq<Symbol>, reverseFlags: seq<bool>,
                  nullsFirst: seq<bool>, limit: int, offset: int)
    | TopN(limit: int, offset: int)
    | Eval(outputs: seq<Symbol>)
    | Group(keys: seq<Symbol>, values: seq<Symbol>)
    | MergeCount
    | Aggregation(aggregations: seq<Symbol>)
    | Writer(inputs: seq<Symbol>, uri: string, fileName: string, compression: Option<CompressionType>)
    | SourceIndexWriter(table: RelationName, bulkActions: int)
    | ColumnIndexWriter(table: RelationName, columnSymbols: seq<Symbol>, bulkActions: int)
    | Filter(query: Symbol)
    | Update(uidSymbol: Symbol, assignmentsColumns: seq<string>, assignments: seq<Symbol>, requiredVersion: Option<int>)
    | Delete(uidSymbol: Symbol)
    | Fetch(fetchSize: int)
    | SysUpdate(sysAssignments: seq<(Reference, Symbol)>)
    | Other(kind: string)   // a projection class without a visit of its own

  /** `OrderingByPosition.arrayOrdering(positions, reverseFlags, nullsFirst)`. */
  datatype Ordering = OrderingByPosition(positions: seq<int>, reverseFlags: seq<bool>, nullsFirst: seq<bool>)

  /** The shard-level executor inside a `DMLProjector`. */
  datatype DmlExecutor =
    | UpsertExecutor(bulkSize: int, shard: ShardId, uidSymbol: Symbol, assignmentsColumns: seq<string>,
                     assignments: seq<Symbol>, requiredVersion: Option<int>)
    | DeleteExecutor(bulkSize: int, shard: ShardId, uidSymbol: Symbol)

  /** What the visitor builds, one constructor per projector class. */
  datatype Projector =
    | SortingTopNProjector(inputs: seq<Symbol>, numOutputs: int, ordering: Ordering, limit: int, offset: int)
    | SortingProjector(inputs: seq<Symbol>, numOutputs: int, ordering: Ordering, offset: int)
    | SimpleTopNProjector(limit: int, offset: int)
    | InputRowProjector(inputs: seq<Symbol>)
    | GroupingProjector(keys: seq<Symbol>, values: seq<Symbol>)
    | MergeCountProjector
    | AggregationPipe(aggregations: seq<Symbol>)
    | FileWriterProjector(uri: string, compression: Option<CompressionType>, writerInputs: Option<seq<Symbol>>)
    | IndexWriterProjector(table: RelationName, bulkActions: int)
    | ColumnIndexWriterProjector(table: RelationName, insertInputs: seq<Symbol>, bulkActions: int)
    | FilterProjector(query: Symbol)
    | DMLProjector(executor: DmlExecutor)
    | FetchProjector(fetchSize: int)
    | SysUpdateProjector(relation: RelationName, readRelation: RelationName,
                         columns: seq<string>, values: seq<Symbol>)

  datatype CompileError = UnsupportedOperation(message: string)

  /**
   * The visitor's own state that its decisions depend on: the shard it was
   * created for (null on a node-level visitor) and
   * `ShardDMLExecutor.DEFAULT_BULK_SIZE`.
   */
  datatype Visitor = Visitor(shardId: Option<ShardId>, defaultBulkSize: int)

  /** `supportedGranularity()`. */
  function SupportedGranularity(v: Visitor): (g: RowGranularity)
    ensures g == NODE <==> v.shardId.None?
  {
    if v.shardId.None? then NODE else SHARD
  }

  /** `checkShardLevel(errorMessage)`: passes with the shard, or fails with the message. */
  function CheckShardLevel(v: Visitor, message: string): (r: Result<ShardId, CompileError>)
    ensures r.Ok? ==> v.shardId == Some(r.value)
    ensures r.Err? ==> r.error == UnsupportedOperation(message)
  {
    if v.shardId.None? then Err(UnsupportedOperation(message)) else Ok(v.shardId.value)
  }

  /** The shard guard passes exactly on a visitor whose granularity is SHARD. */
  lemma ShardLevelMatchesGranularity(v: Visitor, message: string)
    ensures CheckShardLevel(v, message).Ok? <==> SupportedGranularity(v) == SHARD
  {
  }

  /**
   * The Java `assert`s that the visits rely on: a plain top-N has a limit,
   * and a sys update has at least one assignment, all on one relation.
   */
  predicate SingleRelation(assignments: seq<(Reference, Symbol)>) {
    forall i, j :: 0 <= i < |assignments| && 0 <= j < |assignments| ==>
      assignments[i].0.relation == assignments[j].0.relation
  }

  predicate Compilable(p: Projection) {
    && (p.TopN? ==> p.limit > NO_LIMIT)
    && (p.SysUpdate? ==> |p.sysAssignments| > 0 && SingleRelation(p.sysAssignments))
  }

  /**
   * What `visitOrderedTopN` builds for `p`.  The inputs are the outputs
   * followed by the order-by symbols, and the ordering sorts on the
   * positions of the order-by symbols within them.  A projection with a
   * limit gets a bounded top-N sorter, one without it a sorter that keeps
   * every row; both share the flags, `numOutputs` and the offset.
   */
  predicate OrderedTopNBuilt(p: Projection, r: Projector) {
    && p.OrderedTopN?
    && (r.SortingTopNProjector? || r.SortingProjector?)
    && (r.SortingTopNProjector? <==> p.limit > NO_LIMIT)
    && r.inputs == p.outputs + p.orderBy && r.numOutputs == |p.outputs|
    && |r.ordering.positions| == |p.orderBy|
    && (forall k :: 0 <= k < |r.ordering.positions| ==> r.ordering.positions[k] == r.numOutputs + k)
    && (forall k :: 0 <= k < |p.orderBy| ==> r.inputs[r.ordering.positions[k]] == p.orderBy[k])
    && r.ordering.reverseFlags == p.reverseFlags && r.ordering.nullsFirst == p.nullsFirst
    && r.offset == p.offset
    && (r.SortingTopNProjector? ==> r.limit == p.limit)
  }

  /** The description leaves no freedom: at most one projector fits it. */
  lemma OrderedTopNBuiltUnique(p: Projection, r1: Projector, r2: Projector)
    requires OrderedTopNBuilt(p, r1) && OrderedTopNBuilt(p, r2)
    ensures r1 == r2
  {
    assert r1.ordering.positions == r2.ordering.positions;
  }

  /** `visitOrderedTopN`: fills the order-by positions into an array. */
  method VisitOrderedTopN(p: Projection) returns (r: Projector)
    requires p.OrderedTopN?
    ensures OrderedTopNBuilt(p, r)
  {
    var inputs := p.outputs + p.orderBy;
    var numOutputs := |p.outputs|;
    var orderByIndices := new int[|inputs| - numOutputs];
    var idx := 0;
    for i := numOutputs to |inputs|
      invariant idx == i - numOutputs
      invariant forall k :: 0 <= k < idx ==> orderByIndices[k] == numOutputs + k
    {
      orderByIndices[idx] := i;
      idx := idx + 1;
    }
    var ordering := OrderingByPosition(orderByIndices[..], p.reverseFlags, p.nullsFirst);
    if p.limit > NO_LIMIT {
      r := SortingTopNProjector(inputs, numOutputs, ordering, p.limit, p.offset);
    } else {
      r := SortingProjector(inputs, numOutputs, ordering, p.offset);
    }
  }

  /** The extension a compressed output file gets. */
  function CompressionSuffix(compression: Option<CompressionType>): string {
    if compression == Some(GZIP) then ".gz" else ""
  }

  /**
   * The URI of the file a writer projection writes: the directory URI, a
   * separating "/" unless the directory URI already ends with one, the file
   * name, and ".gz" for GZIP compression.
   */
  function FileUri(uri: string, fileName: string, compression: Option<CompressionType>): (r: string)
    ensures JavaText.StartsWith(r, uri)
    ensures JavaText.EndsWith(r, "/" + fileName + CompressionSuffix(compression))
    ensures |r| == |uri| + (if JavaText.EndsWith(uri, "/") then 0 else 1) + |fileName| + |CompressionSuffix(compression)|
  {
    var directory := if JavaText.EndsWith(uri, "/") then uri else uri + "/";
    assert directory[|directory| - 1] == '/';
    var r := directory + fileName + CompressionSuffix(compression);
    assert r[..|uri|] == uri;
    assert r[|r| - |"/" + fileName + CompressionSuffix(compression)|..] == "/" + fileName + CompressionSuffix(compression);
    r
  }

  /** A directory URI with or without its trailing "/" names the same file. */
  lemma FileUriTrailingSlash(uri: string, fileName: string, compression: Option<CompressionType>)
    requires !JavaText.EndsWith(uri, "/")
    ensures FileUri(uri + "/", fileName, compression) == FileUri(uri, fileName, compression)
  {
    assert JavaText.EndsWith(uri + "/", "/");
  }

  /** The file is compressed exactly when its URI ends in ".gz" after the file name. */
  lemma FileUriCompression(uri: string, fileName: string)
    ensures JavaText.EndsWith(FileUri(uri, fileName, Some(GZIP)), fileName + ".gz")
    ensures JavaText.EndsWith(FileUri(uri, fileName, None), "/" + fileName)
    ensures |FileUri(uri, fileName, Some(GZIP))| == |FileUri(uri, fileName, None)| + 3
  {
    var gz := FileUri(uri, fileName, Some(GZIP));
    assert gz[|gz| - |fileName + ".gz"|..] == (("/" + fileName) + ".gz")[1..];
    assert ("/" + fileName + ".gz")[1..] == fileName + ".gz";
    assert "/" + fileName + CompressionSuffix(None) == "/" + fileName;
  }

  /** The `StringBuilder` appends of `visitWriterProjection`. */
  method BuildFileUri(uri: string, fileName: string, compression: Option<CompressionType>) returns (r: string)
    ensures r == FileUri(uri, fileName, compression)
  {
    var sb := uri;
    if !JavaText.EndsWith(uri, "/") {
      sb := sb + "/";
    }
    sb := sb + fileName;
    if compression == Some(GZIP) {
      sb := sb + ".gz";
    }
    r := sb;
  }

  /**
   * What `visitSysUpdateProjection` builds: the assigned columns and the
   * value inputs in entry order; the read context comes from the table of
   * the first entry, the row updater from the relation of the last, and the
   * single-relation rule makes the two the same.
   */
  predicate SysUpdateBuilt(assignments: seq<(Reference, Symbol)>, r: Projector) {
    && |assignments| > 0
    && r.SysUpdateProjector?
    && r.readRelation == assignments[0].0.relation
    && r.relation == assignments[|assignments| - 1].0.relation == r.readRelation
    && |r.columns| == |r.values| == |assignments|
    && (forall k :: 0 <= k < |assignments| ==>
          r.columns[k] == assignments[k].0.column && r.values[k] == assignments[k].1)
  }

  /** The description leaves no freedom: at most one projector fits it. */
  lemma SysUpdateBuiltUnique(assignments: seq<(Reference, Symbol)>, r1: Projector, r2: Projector)
    requires SysUpdateBuilt(assignments, r1) && SysUpdateBuilt(assignments, r2)
    ensures r1 == r2
  {
    assert r1.columns == r2.columns && r1.values == r2.values;
  }

  /** `visitSysUpdateProjection`: one pass over the assignment entries. */
  method VisitSysUpdate(assignments: seq<(Reference, Symbol)>) returns (r: Projector)
    requires |assignments| > 0
    requires SingleRelation(assignments)
    ensures SysUpdateBuilt(assignments, r)
  {
    var valueInputs: seq<Symbol> := [];
    var assignmentCols: seq<string> := [];
    var relationName: Option<RelationName> := None;
    var readCtx: Option<RelationName> := None;
    for i := 0 to |assignments|
      invariant |valueInputs| == |assignmentCols| == i
      invariant forall k :: 0 <= k < i ==>
        assignmentCols[k] == assignments[k].0.column && valueInputs[k] == assignments[k].1
      invariant i == 0 ==> relationName.None? && readCtx.None?
      invariant i > 0 ==> relationName == Some(assignments[i - 1].0.relation)
      invariant i > 0 ==> readCtx == Some(assignments[0].0.relation)
    {
      var ref := assignments[i].0;
      assert relationName.None? || relationName.value == ref.relation;  // "mixed table assignments found"
      relationName := Some(ref.relation);
      if readCtx.None? {
        readCtx := Some(relationName.value);
      }
      assignmentCols := assignmentCols + [ref.column];
      valueInputs := valueInputs + [assignments[i].1];
    }
    r := SysUpdateProjector(relationName.value, readCtx.value, assignmentCols, valueInputs);
  }

  /** `visitUpdateProjection`: the shard guard first, then an upsert executor for that shard. */
  function VisitUpdate(v: Visitor, p: Projection): (r: Result<Projector, CompileError>)
    requires p.Update?
    ensures r.Err? <==> SupportedGranularity(v) == NODE
    ensures r.Err? ==> r.error == UnsupportedOperation(UPDATE_ON_NODE_MESSAGE)
    ensures r.Ok? ==> r.value.DMLProjector? && r.value.executor.UpsertExecutor?
    ensures r.Ok? ==> r.value.executor.bulkSize == v.defaultBulkSize && Some(r.value.executor.shard) == v.shardId
  {
    match CheckShardLevel(v, UPDATE_ON_NODE_MESSAGE)
    case Err(e) => Err(e)
    case Ok(shard) =>
      Ok(DMLProjector(UpsertExecutor(v.defaultBulkSize, shard, p.uidSymbol, p.assignmentsColumns,
                                     p.assignments, p.requiredVersion)))
  }

  /** `visitDeleteProjection`: the shard guard first, then a delete executor for that shard. */
  function VisitDelete(v: Visitor, p: Projection): (r: Result<Projector, CompileError>)
    requires p.Delete?
    ensures r.Err? <==> SupportedGranularity(v) == NODE
    ensures r.Err? ==> r.error == UnsupportedOperation(DELETE_ON_NODE_MESSAGE)
    ensures r.Ok? ==> r.value.DMLProjector? && r.value.executor.DeleteExecutor?
    ensures r.Ok? ==> r.value.executor.bulkSize == v.defaultBulkSize && Some(r.value.executor.shard) == v.shardId
  {
    match CheckShardLevel(v, DELETE_ON_NODE_MESSAGE)
    case Err(e) => Err(e)
    case Ok(shard) => Ok(DMLProjector(DeleteExecutor(v.defaultBulkSize, shard, p.uidSymbol)))
  }

  /**
   * `process(projection, context)`: the visit for the projection's class, or
   * `visitProjection`'s "Unsupported projection" for a class without one.
   */
  method Process(v: Visitor, p: Projection) returns (r: Result<Projector, CompileError>)
    requires Compilable(p)
    ensures r.Err? <==> p.Other? || ((p.Update? || p.Delete?) && SupportedGranularity(v) == NODE)
    ensures p.Other? ==> r == Err(UnsupportedOperation(UNSUPPORTED_MESSAGE))
    ensures p.Update? ==> r == VisitUpdate(v, p)
    ensures p.Delete? ==> r == VisitDelete(v, p)
    ensures p.OrderedTopN? ==> r.Ok? && OrderedTopNBuilt(p, r.value)
    ensures p.TopN? ==> r == Ok(SimpleTopNProjector(p.limit, p.offset)) && p.limit > NO_LIMIT
    ensures p.Eval? ==> r == Ok(InputRowProjector(p.outputs))
    ensures p.Group? ==> r == Ok(GroupingProjector(p.keys, p.values))
    ensures p.MergeCount? ==> r == Ok(MergeCountProjector)
    ensures p.Aggregation? ==> r == Ok(AggregationPipe(p.aggregations))
    ensures p.Writer? ==> r == Ok(FileWriterProjector(FileUri(p.uri, p.fileName, p.compression), p.compression,
                                                      if p.inputs == [] then None else Some(p.inputs)))
    ensures p.SourceIndexWriter? ==> r == Ok(IndexWriterProjector(p.table, p.bulkActions))
    ensures p.ColumnIndexWriter? ==> r == Ok(ColumnIndexWriterProjector(p.table, p.columnSymbols, p.bulkActions))
    ensures p.Filter? ==> r == Ok(FilterProjector(p.query))
    ensures p.Fetch? ==> r == Ok(FetchProjector(p.fetchSize))
    ensures p.SysUpdate? ==> r.Ok? && SysUpdateBuilt(p.sysAssignments, r.value)
  {
    match p
    case OrderedTopN(_, _, _, _, _, _) =>
      var projector := VisitOrderedTopN(p);
      r := Ok(projector);
    case TopN(limit, offset) =>
      assert limit > NO_LIMIT;  // "TopNProjection must have a limit"
      r := Ok(SimpleTopNProjector(limit, offset));
    case Eval(outputs) =>
      r := Ok(InputRowProjector(outputs));
    case Group(keys, values) =>
      r := Ok(GroupingProjector(keys, values));
    case MergeCount =>
      r := Ok(MergeCountProjector);
    case Aggregation(aggregations) =>
      r := Ok(AggregationPipe(aggregations));
    case Writer(inputs, uri, fileName, compression) =>
      var writerInputs := if inputs == [] then None else Some(inputs);
      var fileUri := BuildFileUri(uri, fileName, compression);
      r := Ok(FileWriterProjector(fileUri, compression, writerInputs));
    case SourceIndexWriter(table, bulkActions) =>
      r := Ok(IndexWriterProjector(table, bulkActions));
    case ColumnIndexWriter(table, columnSymbols, bulkActions) =>
      r := Ok(ColumnIndexWriterProjector(table, columnSymbols, bulkActions));
    case Filter(query) =>
      r := Ok(FilterProjector(query));
    case Update(_, _, _, _) =>
      r := VisitUpdate(v, p);
    case Delete(_) =>
      r := VisitDelete(v, p);
    case Fetch(fetchSize) =>
      r := Ok(FetchProjector(fetchSize));
    case SysUpdate(assignments) =>
      var projector := VisitSysUpdate(assignments);
      r := Ok(projector);
    case Other(_) =>
      r := Err(UnsupportedOperation(UNSUPPORTED_MESSAGE));
  }
}
