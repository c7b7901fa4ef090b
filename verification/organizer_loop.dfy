/**
 The batch written the way the program runs it: one pass over the rows with a
 mutable cache, emitting remote calls and outcomes as it goes, leaving a row early
 on a failed resolution or a missing owner. It is proved to compute exactly the
 functional model's run and trace.
 */
module OrganizerLoop {
  import opened ReportOrganizer

  /** The body of the row loop: resolve (cache-or-lookup), check the owner of a
      private report, move. */
  method RunRow(cache: Cache, row: Row, i: nat, query: FolderQuery, update: ReportUpdate)
    returns (cache': Cache, log: RowLog, emitted: seq<Event>)
    ensures RowStep(cache', log) == ProcessRow(cache, row, i, query, update)
    ensures emitted == RowEvents(log)
  {
    cache' := cache;
    var lookup: Option<FolderName> := None;
    var failure: Option<FolderError> := None;
    emitted := [];
    if row.destinationFolder !in cache' {
      lookup := Some(row.destinationFolder);
      emitted := emitted + [Lookup(row.destinationFolder)];
      var found := GetFolderId(query(i, row.destinationFolder));
      match found
      case Ok(id) => cache' := cache'[row.destinationFolder := id];
      case Err(e) => failure := Some(e);
    }
    if failure.Some? {
      log := RowLog(i, lookup, None, RowFailed(failure.value));
      emitted := emitted + [Outcome(i, log.outcome)];
      return;
    }
    if MissingOwner(row) {
      log := RowLog(i, lookup, None, Skipped);
      emitted := emitted + [Outcome(i, log.outcome)];
      return;
    }
    var destination := cache'[row.destinationFolder];
    var call := MoveCall(row.reportId, destination);
    emitted := emitted + [Move(call)];
    var moved := MoveReport(update(i, row.reportId, destination));
    log := RowLog(i, lookup, Some(call), if moved then Moved else MoveFailed);
    emitted := emitted + [Outcome(i, log.outcome)];
  }

  /** The whole batch: header check, then every row in order; a row's failure
      never ends the loop. */
  method RunMappingFile(table: Table, query: FolderQuery, update: ReportUpdate)
    returns (run: Run, events: seq<Event>)
    ensures run == ProcessMappingFile(table, query, update)
    ensures events == RunTrace(run)
    ensures run.MissingColumns? ==> events == []
  {
    if !HasRequiredColumns(table.columns) {
      return MissingColumns, [];
    }
    var cache: Cache := map[];
    var logs: seq<RowLog> := [];
    events := [];
    var i := 0;
    while i < |table.rows|
      invariant 0 <= i <= |table.rows|
      invariant Progress(cache, logs) == ProcessRows(table.rows[..i], query, update)
      invariant events == Trace(logs)
    {
      assert table.rows[..i + 1][..i] == table.rows[..i];
      var log, emitted;
      cache, log, emitted := RunRow(cache, table.rows[i], i, query, update);
      logs := logs + [log];
      events := events + emitted;
      assert logs[..|logs| - 1] == logs[..i];
      i := i + 1;
    }
    assert table.rows[..i] == table.rows;
    run := Completed(Progress(cache, logs));
  }
}
