/**
 Properties of the whole row loop: each row is processed once and in order, the
 cache only grows, a resolved name is never queried again while a failed one is
 queried afresh, private reports without an owner are never moved, every other
 resolved row moves its report to the cached folder id, the outcome of a move
 touches nothing but its own row, and a table without the required columns makes
 no remote call at all.
 */
module OrganizerProperties {
  import opened ReportOrganizer

  /** The cache as it stands when row `i` is about to be processed. */
  ghost function CacheBefore(rows: seq<Row>, i: nat, query: FolderQuery, update: ReportUpdate): Cache
    requires i <= |rows|
  {
    ProcessRows(rows[..i], query, update).cache
  }

  /** Processing a prefix of the rows gives a prefix of the logs. */
  lemma {:induction false} ProcessRowsPrefix(rows: seq<Row>, k: nat, query: FolderQuery, update: ReportUpdate)
    requires k <= |rows|
    ensures ProcessRows(rows[..k], query, update).logs == ProcessRows(rows, query, update).logs[..k]
    decreases |rows|
  {
    if k == |rows| {
      assert rows[..k] == rows;
    } else {
      var init := rows[..|rows| - 1];
      assert init[..k] == rows[..k];
      ProcessRowsPrefix(init, k, query, update);
    }
  }

  /** Row `i` is processed exactly as one iteration of the loop from the cache left
      by rows `0..i`, and that iteration leaves the cache seen by row `i + 1`. */
  lemma {:induction false} LogAt(rows: seq<Row>, i: nat, query: FolderQuery, update: ReportUpdate)
    requires i < |rows|
    ensures ProcessRows(rows, query, update).logs[i]
            == ProcessRow(CacheBefore(rows, i, query, update), rows[i], i, query, update).log
    ensures CacheBefore(rows, i + 1, query, update)
            == ProcessRow(CacheBefore(rows, i, query, update), rows[i], i, query, update).cache
  {
    var upto := rows[..i + 1];
    assert upto[..|upto| - 1] == rows[..i];
    assert upto[|upto| - 1] == rows[i];
    ProcessRowsPrefix(rows, i + 1, query, update);
  }

  /** The final cache is the cache after the last row. */
  lemma {:induction false} FinalCache(rows: seq<Row>, query: FolderQuery, update: ReportUpdate)
    ensures CacheBefore(rows, |rows|, query, update) == ProcessRows(rows, query, update).cache
  {
    assert rows[..|rows|] == rows;
  }

  /** Cache entries are never overwritten or dropped: the cache seen by a later row
      holds every entry the cache of an earlier row held, with the same id. */
  lemma {:induction false} CacheGrows(rows: seq<Row>, i: nat, j: nat, query: FolderQuery, update: ReportUpdate)
    requires i <= j <= |rows|
    ensures Extends(CacheBefore(rows, j, query, update), CacheBefore(rows, i, query, update))
    decreases j - i
  {
    if i < j {
      CacheGrows(rows, i + 1, j, query, update);
      LogAt(rows, i, query, update);
    }
  }

  /** A name that is not cached, and that no row in `a..b` names, is still not
      cached when row `b` is reached. */
  lemma {:induction false} NameStaysUncached(rows: seq<Row>, name: FolderName, a: nat, b: nat, query: FolderQuery, update: ReportUpdate)
    requires a <= b <= |rows|
    requires name !in CacheBefore(rows, a, query, update)
    requires forall k | a <= k < b :: rows[k].destinationFolder != name
    ensures name !in CacheBefore(rows, b, query, update)
    decreases b - a
  {
    if a < b {
      LogAt(rows, a, query, update);
      NameStaysUncached(rows, name, a + 1, b, query, update);
    }
  }

  /** Row `i` queried `name` and the query resolved it. */
  predicate ResolvedByLookup(log: RowLog, name: FolderName)
  {
    log.lookup == Some(name) && !log.outcome.RowFailed?
  }

  /** Once a row has resolved its folder, no later row naming the same folder
      queries it again. */
  lemma {:induction false} NoLookupAfterResolution(rows: seq<Row>, i: nat, j: nat, query: FolderQuery, update: ReportUpdate)
    requires i < j < |rows|
    requires rows[i].destinationFolder == rows[j].destinationFolder
    requires !ProcessRows(rows, query, update).logs[i].outcome.RowFailed?
    ensures ProcessRows(rows, query, update).logs[j].lookup == None
  {
    LogAt(rows, i, query, update);
    CacheGrows(rows, i + 1, j, query, update);
    LogAt(rows, j, query, update);
  }

  /** Each name is successfully looked up at most once per run. */
  lemma {:induction false} AtMostOneSuccessfulLookup(rows: seq<Row>, name: FolderName, query: FolderQuery, update: ReportUpdate)
    ensures var logs := ProcessRows(rows, query, update).logs;
            forall i, j | 0 <= i < |logs| && 0 <= j < |logs|
              && ResolvedByLookup(logs[i], name) && ResolvedByLookup(logs[j], name) :: i == j
  {
    var logs := ProcessRows(rows, query, update).logs;
    forall i, j | 0 <= i < |logs| && 0 <= j < |logs|
      && ResolvedByLookup(logs[i], name) && ResolvedByLookup(logs[j], name)
      ensures i == j
    {
      LogAt(rows, i, query, update);
      LogAt(rows, j, query, update);
      if i < j {
        NoLookupAfterResolution(rows, i, j, query, update);
      } else if j < i {
        NoLookupAfterResolution(rows, j, i, query, update);
      }
    }
  }

  /** Every id in the final cache is the id the folder query answered to the row
      that resolved that name by looking it up. */
  lemma {:induction false} CachedIdsComeFromLookups(rows: seq<Row>, query: FolderQuery, update: ReportUpdate)
    ensures forall name | name in ProcessRows(rows, query, update).cache :: exists i | 0 <= i < |rows| ::
              && ResolvedByLookup(ProcessRows(rows, query, update).logs[i], name)
              && GetFolderId(query(i, name)) == Ok(ProcessRows(rows, query, update).cache[name])
    decreases |rows|
  {
    if rows != [] {
      var last := |rows| - 1;
      var init := rows[..last];
      var before := ProcessRows(init, query, update);
      var step := ProcessRow(before.cache, rows[last], last, query, update);
      CachedIdsComeFromLookups(init, query, update);
      var p := ProcessRows(rows, query, update);
      assert p == Progress(step.cache, before.logs + [step.log]);
      forall name | name in p.cache
        ensures exists i | 0 <= i < |rows| ::
                  ResolvedByLookup(p.logs[i], name) && GetFolderId(query(i, name)) == Ok(p.cache[name])
      {
        if name in before.cache {
          var i :| 0 <= i < |init| && ResolvedByLookup(before.logs[i], name)
                   && GetFolderId(query(i, name)) == Ok(before.cache[name]);
          assert p.logs[i] == before.logs[i];
        } else {
          assert name == rows[last].destinationFolder;
          assert p.logs[last] == step.log;
        }
      }
    }
  }

  /** A failed lookup caches nothing: the next row naming the same folder issues a
      fresh query for it. */
  lemma {:induction false} FailedLookupIsRetried(rows: seq<Row>, i: nat, j: nat, query: FolderQuery, update: ReportUpdate)
    requires i < j < |rows|
    requires rows[i].destinationFolder == rows[j].destinationFolder
    requires ProcessRows(rows, query, update).logs[i].outcome.RowFailed?
    requires forall k | i < k < j :: rows[k].destinationFolder != rows[i].destinationFolder
    ensures ProcessRows(rows, query, update).logs[j].lookup == Some(rows[j].destinationFolder)
  {
    LogAt(rows, i, query, update);
    NameStaysUncached(rows, rows[i].destinationFolder, i + 1, j, query, update);
    LogAt(rows, j, query, update);
  }

  /** A private report with no owner is never moved, and its folder is still
      resolved (queried when not cached) because resolution comes first. */
  lemma {:induction false} MissingOwnerNeverMoves(rows: seq<Row>, j: nat, query: FolderQuery, update: ReportUpdate)
    requires j < |rows|
    requires rows[j].isPrivate && rows[j].ownerUsername == ""
    ensures var log := ProcessRows(rows, query, update).logs[j];
            && log.move == None
            && log.outcome in {Skipped, RowFailed(FolderNotFound), RowFailed(QueryFailed), RowFailed(NoRecordReturned)}
            && (log.lookup.Some? <==> rows[j].destinationFolder !in CacheBefore(rows, j, query, update))
  {
    LogAt(rows, j, query, update);
  }

  /** Every row that resolves its folder and is not a private report without owner
      issues exactly one move, of its report to the id the final cache holds for
      its folder; every other row issues none. */
  lemma {:induction false} MoveUsesCachedId(rows: seq<Row>, j: nat, query: FolderQuery, update: ReportUpdate)
    requires j < |rows|
    ensures var p := ProcessRows(rows, query, update);
            && (p.logs[j].move.Some? <==> !p.logs[j].outcome.RowFailed? && !MissingOwner(rows[j]))
            && (p.logs[j].move.Some? ==>
                  rows[j].destinationFolder in p.cache
                  && p.logs[j].move == Some(MoveCall(rows[j].reportId, p.cache[rows[j].destinationFolder])))
  {
    LogAt(rows, j, query, update);
    CacheGrows(rows, j + 1, |rows|, query, update);
    FinalCache(rows, query, update);
  }

  /** The answers of the remote update affect nothing but the outcomes of the rows
      that moved: the cache, the queries and the moves issued are the same under
      any two update behaviours, and a failed move never stops the loop. */
  lemma {:induction false} MoveOutcomesAreIsolated(rows: seq<Row>, query: FolderQuery, u1: ReportUpdate, u2: ReportUpdate)
    ensures var p1, p2 := ProcessRows(rows, query, u1), ProcessRows(rows, query, u2);
            && p1.cache == p2.cache
            && |p1.logs| == |p2.logs| == |rows|
            && forall i | 0 <= i < |rows| ::
                 && p1.logs[i].lookup == p2.logs[i].lookup
                 && p1.logs[i].move == p2.logs[i].move
                 && (p1.logs[i].outcome in {Moved, MoveFailed} <==> p2.logs[i].outcome in {Moved, MoveFailed})
                 && (p1.logs[i].outcome !in {Moved, MoveFailed} ==> p1.logs[i].outcome == p2.logs[i].outcome)
    decreases |rows|
  {
    if rows != [] {
      MoveOutcomesAreIsolated(rows[..|rows| - 1], query, u1, u2);
    }
  }

  /** A table missing any required column stops the run before any remote call. */
  lemma {:induction false} MissingColumnMakesNoRemoteCall(table: Table, query: FolderQuery, update: ReportUpdate)
    requires "report_id" !in table.columns || "destination_folder" !in table.columns
          || "is_private" !in table.columns || "owner_username" !in table.columns
    ensures ProcessMappingFile(table, query, update) == MissingColumns
    ensures forall e | e in RunTrace(ProcessMappingFile(table, query, update)) :: !e.Lookup? && !e.Move?
  {
    assert !HasRequiredColumns(table.columns) by {
      if "report_id" !in table.columns {
        assert RequiredColumns[0] == "report_id";
      } else if "destination_folder" !in table.columns {
        assert RequiredColumns[1] == "destination_folder";
      } else if "is_private" !in table.columns {
        assert RequiredColumns[2] == "is_private";
      } else {
        assert RequiredColumns[3] == "owner_username";
      }
    }
  }

  /** The trace issues a query for `name` exactly when some row's log records one. */
  lemma {:induction false} TraceLookups(logs: seq<RowLog>, name: FolderName)
    ensures Lookup(name) in Trace(logs) <==> exists i | 0 <= i < |logs| :: logs[i].lookup == Some(name)
    decreases |logs|
  {
    if logs != [] {
      var init := logs[..|logs| - 1];
      TraceLookups(init, name);
      assert Trace(logs) == Trace(init) + RowEvents(logs[|logs| - 1]);
      assert forall i | 0 <= i < |init| :: init[i] == logs[i];
    }
  }

  /** The trace issues a move exactly when some row's log records it. */
  lemma {:induction false} TraceMoves(logs: seq<RowLog>, call: MoveCall)
    ensures Move(call) in Trace(logs) <==> exists i | 0 <= i < |logs| :: logs[i].move == Some(call)
    decreases |logs|
  {
    if logs != [] {
      var init := logs[..|logs| - 1];
      TraceMoves(init, call);
      assert Trace(logs) == Trace(init) + RowEvents(logs[|logs| - 1]);
      assert forall i | 0 <= i < |init| :: init[i] == logs[i];
    }
  }

  /** The row indices of the outcome events of a trace, in trace order. */
  function OutcomeIndices(events: seq<Event>): seq<nat>
    decreases |events|
  {
    if events == [] then []
    else OutcomeIndices(events[..|events| - 1])
         + (if events[|events| - 1].Outcome? then [events[|events| - 1].index] else [])
  }

  lemma {:induction false} OutcomeIndicesAppend(a: seq<Event>, b: seq<Event>)
    ensures OutcomeIndices(a + b) == OutcomeIndices(a) + OutcomeIndices(b)
    decreases |b|
  {
    if b == [] {
      assert a + b == a;
    } else {
      var init := b[..|b| - 1];
      assert (a + b)[..|a + b| - 1] == a + init;
      assert (a + b)[|a + b| - 1] == b[|b| - 1];
      OutcomeIndicesAppend(a, init);
    }
  }

  /** A row contributes exactly one outcome event, carrying its own index. */
  lemma {:induction false} RowEventsOutcome(log: RowLog)
    ensures OutcomeIndices(RowEvents(log)) == [log.index]
  {
    var lk: seq<Event> := if log.lookup.Some? then [Lookup(log.lookup.value)] else [];
    var mv: seq<Event> := if log.move.Some? then [Move(log.move.value)] else [];
    var out: seq<Event> := [Outcome(log.index, log.outcome)];
    OutcomeIndicesAppend(lk, mv);
    OutcomeIndicesAppend(lk + mv, out);
    assert OutcomeIndices(lk) == [] by {
      if lk != [] {
        assert lk[..0] == [];
      }
    }
    assert OutcomeIndices(mv) == [] by {
      if mv != [] {
        assert mv[..0] == [];
      }
    }
    assert out[..0] == [];
  }

  /** The outcome events of a trace carry the logs' indices, one per log, in order. */
  lemma {:induction false} TraceOutcomes(logs: seq<RowLog>)
    ensures |OutcomeIndices(Trace(logs))| == |logs|
    ensures forall i | 0 <= i < |logs| :: OutcomeIndices(Trace(logs))[i] == logs[i].index
    decreases |logs|
  {
    if logs != [] {
      var init, last := logs[..|logs| - 1], logs[|logs| - 1];
      var before := OutcomeIndices(Trace(init));
      TraceOutcomes(init);
      assert Trace(logs) == Trace(init) + RowEvents(last);
      OutcomeIndicesAppend(Trace(init), RowEvents(last));
      RowEventsOutcome(last);
      assert OutcomeIndices(Trace(logs)) == before + [last.index];
      forall i | 0 <= i < |logs|
        ensures OutcomeIndices(Trace(logs))[i] == logs[i].index
      {
        if i < |init| {
          assert init[i] == logs[i];
        }
      }
    }
  }

  /** Every row ends with exactly one outcome event, and the outcomes appear in row
      order: the trace's outcome indices are 0, 1, ..., |rows| - 1. */
  lemma {:induction false} EveryRowOnceInOrder(rows: seq<Row>, query: FolderQuery, update: ReportUpdate)
    ensures var ix := OutcomeIndices(Trace(ProcessRows(rows, query, update).logs));
            |ix| == |rows| && forall i | 0 <= i < |ix| :: ix[i] == i
  {
    TraceOutcomes(ProcessRows(rows, query, update).logs);
  }
}
