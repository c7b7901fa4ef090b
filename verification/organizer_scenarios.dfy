/**
 Concrete runs of the batch, each stated as the exact sequence of remote calls and
 outcomes it produces.
 */
module OrganizerScenarios {
  import opened ReportOrganizer

  /** "Sales" and "Marketing" exist once each; nothing else exists. */
  function Folders(): FolderQuery
  {
    (i: nat, name: FolderName) =>
      if name == "Sales" then Answered(1, ["F100"])
      else if name == "Marketing" then Answered(1, ["F200"])
      else Answered(0, [])
  }

  /** Every update succeeds. */
  function AlwaysUpdates(): ReportUpdate
  {
    (i: nat, r: ReportId, f: FolderId) => Updated
  }

  /** The query raises on row 0 and finds "F100" afterwards. */
  function FlakyFolders(): FolderQuery
  {
    (i: nat, name: FolderName) => if i == 0 then QueryRaised else Answered(1, ["F100"])
  }

  /** The update of report "R1" raises; every other update succeeds. */
  function RejectsR1(): ReportUpdate
  {
    (i: nat, r: ReportId, f: FolderId) => if r == "R1" then UpdateRaised else Updated
  }

  /** Appending a row runs one more iteration from the cache the earlier rows left. */
  lemma {:induction false} ProcessRowsSnoc(rows: seq<Row>, row: Row, query: FolderQuery, update: ReportUpdate)
    ensures var p := ProcessRows(rows, query, update);
            var s := ProcessRow(p.cache, row, |rows|, query, update);
            ProcessRows(rows + [row], query, update) == Progress(s.cache, p.logs + [s.log])
  {
    assert (rows + [row])[..|rows|] == rows;
  }

  lemma {:induction false} TraceSnoc(logs: seq<RowLog>, log: RowLog)
    ensures Trace(logs + [log]) == Trace(logs) + RowEvents(log)
  {
    assert (logs + [log])[..|logs|] == logs;
  }

  /** A table with exactly the required columns passes the header check. */
  lemma {:induction false} CompleteHeaderRuns(rows: seq<Row>, query: FolderQuery, update: ReportUpdate)
    ensures ProcessMappingFile(Table(RequiredColumns, rows), query, update) == Completed(ProcessRows(rows, query, update))
  {
  }

  /** A two-row run is two iterations, the second from the cache the first left. */
  lemma {:induction false} TwoRowRun(r0: Row, r1: Row, query: FolderQuery, update: ReportUpdate)
    ensures var s0 := ProcessRow(map[], r0, 0, query, update);
            var s1 := ProcessRow(s0.cache, r1, 1, query, update);
            ProcessRows([r0, r1], query, update).logs == [s0.log, s1.log]
  {
    var s0 := ProcessRow(map[], r0, 0, query, update);
    ProcessRowsSnoc([], r0, query, update);
    assert [] + [r0] == [r0];
    assert ProcessRows([r0], query, update) == Progress(s0.cache, [s0.log]);
    ProcessRowsSnoc([r0], r1, query, update);
    assert [r0] + [r1] == [r0, r1];
  }

  /** The trace of two logs is their events, one after the other. */
  lemma {:induction false} TwoLogTrace(l0: RowLog, l1: RowLog)
    ensures Trace([l0, l1]) == RowEvents(l0) + RowEvents(l1)
  {
    TraceSnoc([], l0);
    assert [] + [l0] == [l0];
    TraceSnoc([l0], l1);
    assert [l0] + [l1] == [l0, l1];
  }

  /** The trace of a two-row run, one iteration at a time. */
  lemma {:induction false} TwoRowTrace(r0: Row, r1: Row, query: FolderQuery, update: ReportUpdate)
    ensures var s0 := ProcessRow(map[], r0, 0, query, update);
            var s1 := ProcessRow(s0.cache, r1, 1, query, update);
            RunTrace(ProcessMappingFile(Table(RequiredColumns, [r0, r1]), query, update))
            == RowEvents(s0.log) + RowEvents(s1.log)
  {
    var s0 := ProcessRow(map[], r0, 0, query, update);
    var s1 := ProcessRow(s0.cache, r1, 1, query, update);
    TwoRowRun(r0, r1, query, update);
    CompleteHeaderRuns([r0, r1], query, update);
    TwoLogTrace(s0.log, s1.log);
  }

  /** One public row to an existing folder: one query, one move, moved. */
  lemma {:induction false} SingleRowIsMoved()
    ensures RunTrace(ProcessMappingFile(Table(RequiredColumns, [Row("R1", "Sales", false, "")]), Folders(), AlwaysUpdates()))
            == [Lookup("Sales"), Move(MoveCall("R1", "F100")), Outcome(0, Moved)]
  {
  }

  /** Two rows to the same folder: the second is served from the cache. */
  lemma {:induction false} SecondRowUsesCache()
    ensures RunTrace(ProcessMappingFile(
              Table(RequiredColumns, [Row("R1", "Marketing", false, ""), Row("R2", "Marketing", false, "")]),
              Folders(), AlwaysUpdates()))
            == [Lookup("Marketing"), Move(MoveCall("R1", "F200")), Outcome(0, Moved),
                Move(MoveCall("R2", "F200")), Outcome(1, Moved)]
  {
    var r0, r1 := Row("R1", "Marketing", false, ""), Row("R2", "Marketing", false, "");
    TwoRowTrace(r0, r1, Folders(), AlwaysUpdates());
    var s0 := ProcessRow(map[], r0, 0, Folders(), AlwaysUpdates());
    assert s0.log == RowLog(0, Some("Marketing"), Some(MoveCall("R1", "F200")), Moved);
    assert s0.cache == map["Marketing" := "F200"];
    var s1 := ProcessRow(s0.cache, r1, 1, Folders(), AlwaysUpdates());
    assert s1.log == RowLog(1, None, Some(MoveCall("R2", "F200")), Moved);
  }

  /** A private report without owner is looked up, then skipped, and the next row
      still runs. */
  lemma {:induction false} PrivateWithoutOwnerIsSkipped()
    ensures RunTrace(ProcessMappingFile(
              Table(RequiredColumns, [Row("R1", "Sales", true, ""), Row("R2", "Sales", true, "alice")]),
              Folders(), AlwaysUpdates()))
            == [Lookup("Sales"), Outcome(0, Skipped),
                Move(MoveCall("R2", "F100")), Outcome(1, Moved)]
  {
    var r0, r1 := Row("R1", "Sales", true, ""), Row("R2", "Sales", true, "alice");
    TwoRowTrace(r0, r1, Folders(), AlwaysUpdates());
    var s0 := ProcessRow(map[], r0, 0, Folders(), AlwaysUpdates());
    assert s0.log == RowLog(0, Some("Sales"), None, Skipped);
    assert s0.cache == map["Sales" := "F100"];
    var s1 := ProcessRow(s0.cache, r1, 1, Folders(), AlwaysUpdates());
    assert s1.log == RowLog(1, None, Some(MoveCall("R2", "F100")), Moved);
  }

  /** A folder that does not exist fails its row only; the next row runs. */
  lemma {:induction false} UnknownFolderFailsRowOnly()
    ensures RunTrace(ProcessMappingFile(
              Table(RequiredColumns, [Row("R1", "Archive", false, ""), Row("R2", "Sales", false, "")]),
              Folders(), AlwaysUpdates()))
            == [Lookup("Archive"), Outcome(0, RowFailed(FolderNotFound)),
                Lookup("Sales"), Move(MoveCall("R2", "F100")), Outcome(1, Moved)]
  {
    var r0, r1 := Row("R1", "Archive", false, ""), Row("R2", "Sales", false, "");
    TwoRowTrace(r0, r1, Folders(), AlwaysUpdates());
    var s0 := ProcessRow(map[], r0, 0, Folders(), AlwaysUpdates());
    assert s0.log == RowLog(0, Some("Archive"), None, RowFailed(FolderNotFound));
    assert s0.cache == map[];
    var s1 := ProcessRow(s0.cache, r1, 1, Folders(), AlwaysUpdates());
    assert s1.log == RowLog(1, Some("Sales"), Some(MoveCall("R2", "F100")), Moved);
  }

  /** A failed lookup is not cached: the same name is queried again on the next row
      and, when the query now succeeds, that row moves. */
  lemma {:induction false} FailedLookupIsQueriedAgain()
    ensures RunTrace(ProcessMappingFile(
              Table(RequiredColumns, [Row("R1", "Sales", false, ""), Row("R2", "Sales", false, "")]),
              FlakyFolders(), AlwaysUpdates()))
            == [Lookup("Sales"), Outcome(0, RowFailed(QueryFailed)),
                Lookup("Sales"), Move(MoveCall("R2", "F100")), Outcome(1, Moved)]
  {
    var r0, r1 := Row("R1", "Sales", false, ""), Row("R2", "Sales", false, "");
    TwoRowTrace(r0, r1, FlakyFolders(), AlwaysUpdates());
    var s0 := ProcessRow(map[], r0, 0, FlakyFolders(), AlwaysUpdates());
    assert s0.log == RowLog(0, Some("Sales"), None, RowFailed(QueryFailed));
    assert s0.cache == map[];
    var s1 := ProcessRow(s0.cache, r1, 1, FlakyFolders(), AlwaysUpdates());
    assert s1.log == RowLog(1, Some("Sales"), Some(MoveCall("R2", "F100")), Moved);
  }

  /** A failed update is recorded for its row and the batch goes on. */
  lemma {:induction false} FailedMoveIsRecorded()
    ensures RunTrace(ProcessMappingFile(
              Table(RequiredColumns, [Row("R1", "Sales", false, ""), Row("R2", "Sales", false, "")]),
              Folders(), RejectsR1()))
            == [Lookup("Sales"), Move(MoveCall("R1", "F100")), Outcome(0, MoveFailed),
                Move(MoveCall("R2", "F100")), Outcome(1, Moved)]
  {
    var r0, r1 := Row("R1", "Sales", false, ""), Row("R2", "Sales", false, "");
    TwoRowTrace(r0, r1, Folders(), RejectsR1());
    var s0 := ProcessRow(map[], r0, 0, Folders(), RejectsR1());
    assert s0.log == RowLog(0, Some("Sales"), Some(MoveCall("R1", "F100")), MoveFailed);
    assert s0.cache == map["Sales" := "F100"];
    var s1 := ProcessRow(s0.cache, r1, 1, Folders(), RejectsR1());
    assert s1.log == RowLog(1, None, Some(MoveCall("R2", "F100")), Moved);
  }

  /** A header without `owner_username` stops the run with no remote call. */
  lemma {:induction false} MissingOwnerColumnAborts()
    ensures ProcessMappingFile(
              Table(["report_id", "destination_folder", "is_private"], [Row("R1", "Sales", false, "")]),
              Folders(), AlwaysUpdates())
            == MissingColumns
  {
    var columns := ["report_id", "destination_folder", "is_private"];
    assert RequiredColumns[3] == "owner_username";
    assert "owner_username" !in columns by {
      assert "owner_username"[0] != "report_id"[0];
      assert "owner_username"[0] != "destination_folder"[0];
      assert "owner_username"[0] != "is_private"[0];
    }
  }
}
