/**
 A model of the report relocator: it reads a table of mapping rows, resolves each
 row's destination folder name to a folder id (through a per-run cache), checks the
 ownership of private reports, and asks the remote system to move each report.

 The remote system is not modelled: its answers are supplied by the caller as two
 functions, consulted with the index of the row being processed, so the same folder
 name may be answered differently on different rows.
 */
module ReportOrganizer {

  type FolderName = string
  type FolderId = string
  type ReportId = string

  /** The folder-name to folder-id cache built during one run. */
  type Cache = map<FolderName, FolderId>

  datatype Option<+T> = None | Some(value: T)

  datatype Result<+T, +E> = Ok(value: T) | Err(error: E)

  /** What the remote folder query answers: the reported total size and the ids of
      the returned records, in the order the remote system returned them; or the
      query raised. */
  datatype QueryAnswer = Answered(totalSize: nat, recordIds: seq<FolderId>) | QueryRaised

  /** What the remote report update answers. */
  datatype UpdateAnswer = Updated | UpdateRaised

  /** The remote folder query, by row index and folder name. */
  type FolderQuery = (nat, FolderName) -> QueryAnswer

  /** The remote report update, by row index, report id and folder id. */
  type ReportUpdate = (nat, ReportId, FolderId) -> UpdateAnswer

  /** Why a folder name could not be resolved. */
  datatype FolderError =
    | FolderNotFound    // the query reported zero matching folders
    | QueryFailed       // the query itself raised
    | NoRecordReturned  // a non-zero total size but no record to read the id from

  /** One row of the mapping table; an empty owner stands for a missing one. */
  datatype Row = Row(reportId: ReportId, destinationFolder: FolderName, isPrivate: bool, ownerUsername: string)

  /** The mapping table: its header and its rows, in file order. */
  datatype Table = Table(columns: seq<string>, rows: seq<Row>)

  const RequiredColumns: seq<string> := ["report_id", "destination_folder", "is_private", "owner_username"]

  predicate HasRequiredColumns(columns: seq<string>)
  {
    forall c | c in RequiredColumns :: c in columns
  }

  /** Turns the answer of the folder query into a folder id: zero matches is
      "not found"; otherwise the first record wins, however many there are. */
  function GetFolderId(answer: QueryAnswer): (r: Result<FolderId, FolderError>)
    ensures r.Ok? <==> answer.Answered? && answer.totalSize > 0 && |answer.recordIds| > 0
    ensures r.Ok? ==> r.value == answer.recordIds[0]
    ensures r == Err(FolderNotFound) <==> answer.Answered? && answer.totalSize == 0
    ensures r == Err(QueryFailed) <==> answer.QueryRaised?
  {
    match answer
    case QueryRaised => Err(QueryFailed)
    case Answered(total, ids) =>
      if total == 0 then Err(FolderNotFound)
      else if |ids| == 0 then Err(NoRecordReturned)
      else Ok(ids[0])
  }

  /** A report move: a raised update is absorbed into `false`. */
  function MoveReport(answer: UpdateAnswer): (moved: bool)
    ensures moved <==> answer.Updated?
  {
    answer == Updated
  }

  /** `bigger` keeps every entry of `smaller`, with the same value. */
  ghost predicate Extends(bigger: Cache, smaller: Cache)
  {
    forall k | k in smaller :: k in bigger && bigger[k] == smaller[k]
  }

  /** The cache after resolving one name, the id (or the error), and whether the
      remote query was issued. */
  datatype Resolution = Resolution(cache: Cache, folderId: Result<FolderId, FolderError>, lookedUp: bool)

  /** Cache-or-lookup: a cached name is answered from the cache without a query;
      otherwise the query is issued and its id is cached only when it resolves. */
  function ResolveFolder(cache: Cache, name: FolderName, index: nat, query: FolderQuery): (r: Resolution)
    ensures r.lookedUp <==> name !in cache
    ensures name in cache ==> r.folderId == Ok(cache[name])
    ensures name !in cache ==> r.folderId == GetFolderId(query(index, name))
    ensures r.folderId.Ok? <==> name in r.cache
    ensures r.folderId.Ok? ==> r.cache[name] == r.folderId.value
    ensures r.folderId.Err? ==> r.cache == cache
    ensures Extends(r.cache, cache)
    ensures r.cache.Keys <= cache.Keys + {name}
  {
    if name in cache then
      Resolution(cache, Ok(cache[name]), false)
    else
      match GetFolderId(query(index, name))
      case Ok(id) => Resolution(cache[name := id], Ok(id), true)
      case Err(e) => Resolution(cache, Err(e), true)
  }

  datatype MoveCall = MoveCall(reportId: ReportId, folderId: FolderId)

  /** The outcome of one row. */
  datatype RowOutcome = Moved | MoveFailed | Skipped | RowFailed(error: FolderError)

  /** What one row did: the folder query it issued (if any), the move it issued
      (if any), and its outcome. */
  datatype RowLog = RowLog(index: nat, lookup: Option<FolderName>, move: Option<MoveCall>, outcome: RowOutcome)

  /** A private report without an owner is not moved. */
  predicate MissingOwner(row: Row)
  {
    row.isPrivate && row.ownerUsername == ""
  }

  datatype RowStep = RowStep(cache: Cache, log: RowLog)

  /** One iteration of the row loop. */
  function ProcessRow(cache: Cache, row: Row, index: nat, query: FolderQuery, update: ReportUpdate): (r: RowStep)
    ensures r.log.index == index
    // resolution comes first, whatever the private flag says
    ensures r.log.lookup == (if row.destinationFolder in cache then None else Some(row.destinationFolder))
    ensures r.log.outcome.RowFailed? <==> row.destinationFolder !in r.cache
    ensures r.log.outcome.RowFailed? ==>
              row.destinationFolder !in cache
              && GetFolderId(query(index, row.destinationFolder)) == Err(r.log.outcome.error)
    // a successful query is what puts the id into the cache
    ensures r.log.lookup.Some? && !r.log.outcome.RowFailed? ==>
              GetFolderId(query(index, row.destinationFolder)) == Ok(r.cache[row.destinationFolder])
    ensures r.log.outcome == Skipped <==> row.destinationFolder in r.cache && MissingOwner(row)
    ensures r.log.move.Some? <==> row.destinationFolder in r.cache && !MissingOwner(row)
    ensures r.log.move.Some? ==> r.log.move.value == MoveCall(row.reportId, r.cache[row.destinationFolder])
    ensures r.log.move.Some? ==>
              (r.log.outcome == Moved <==> update(index, row.reportId, r.log.move.value.folderId).Updated?)
    ensures r.log.move.Some? <==> r.log.outcome in {Moved, MoveFailed}
    ensures Extends(r.cache, cache)
    ensures r.cache.Keys <= cache.Keys + {row.destinationFolder}
    ensures row.destinationFolder in cache ==> r.cache == cache
  {
    var res := ResolveFolder(cache, row.destinationFolder, index, query);
    var lookup := if res.lookedUp then Some(row.destinationFolder) else None;
    match res.folderId
    case Err(e) =>
      RowStep(res.cache, RowLog(index, lookup, None, RowFailed(e)))
    case Ok(id) =>
      if MissingOwner(row) then
        RowStep(res.cache, RowLog(index, lookup, None, Skipped))
      else
        var moved := MoveReport(update(index, row.reportId, id));
        RowStep(res.cache, RowLog(index, lookup, Some(MoveCall(row.reportId, id)), if moved then Moved else MoveFailed))
  }

  /** The state of the row loop: the cache so far and one log per processed row. */
  datatype Progress = Progress(cache: Cache, logs: seq<RowLog>)

  /** The row loop over `rows`, from an empty cache, one row at a time in order. */
  function ProcessRows(rows: seq<Row>, query: FolderQuery, update: ReportUpdate): (p: Progress)
    ensures |p.logs| == |rows|
    ensures forall i | 0 <= i < |p.logs| :: p.logs[i].index == i
    ensures forall k | k in p.cache :: exists i | 0 <= i < |rows| :: rows[i].destinationFolder == k
    decreases |rows|
  {
    if rows == [] then
      Progress(map[], [])
    else
      var before := ProcessRows(rows[..|rows| - 1], query, update);
      var step := ProcessRow(before.cache, rows[|rows| - 1], |rows| - 1, query, update);
      Progress(step.cache, before.logs + [step.log])
  }

  /** A run either stops at the header check or processes every row. */
  datatype Run = MissingColumns | Completed(progress: Progress)

  /** The whole batch: header check, then the row loop. */
  function ProcessMappingFile(table: Table, query: FolderQuery, update: ReportUpdate): (run: Run)
    ensures run.MissingColumns? <==> !HasRequiredColumns(table.columns)
    ensures run.Completed? ==> |run.progress.logs| == |table.rows|
  {
    if !HasRequiredColumns(table.columns) then MissingColumns
    else Completed(ProcessRows(table.rows, query, update))
  }

  /** The remote calls and outcome of one row, in the order they happen. */
  datatype Event = Lookup(name: FolderName) | Move(call: MoveCall) | Outcome(index: nat, outcome: RowOutcome)

  function RowEvents(log: RowLog): seq<Event>
  {
    (if log.lookup.Some? then [Lookup(log.lookup.value)] else [])
    + (if log.move.Some? then [Move(log.move.value)] else [])
    + [Outcome(log.index, log.outcome)]
  }

  function Trace(logs: seq<RowLog>): seq<Event>
    decreases |logs|
  {
    if logs == [] then [] else Trace(logs[..|logs| - 1]) + RowEvents(logs[|logs| - 1])
  }

  function RunTrace(run: Run): seq<Event>
  {
    match run
    case MissingColumns => []
    case Completed(p) => Trace(p.logs)
  }
}
