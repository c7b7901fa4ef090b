# Report organizer: a Dafny model of the batch loop

The program reads a CSV mapping file and moves reports between folders of a
Salesforce org. Each row names a report, a destination folder (by name), a
private flag and an owner username. For every row the program does the following:

1. It resolves the folder name to a folder id. A per-run cache answers first. On a
   miss, it queries the remote system and caches the id, but only when the query
   succeeds.
2. It skips a private report whose owner is empty.
3. Otherwise it asks the remote system to move the report. A failed move is
   absorbed into a `false` result.

An error while resolving ends that row only. A header that lacks any of
`report_id`, `destination_folder`, `is_private` or `owner_username` ends the run
before any remote call.

The model is purely functional. The remote system is two caller-supplied
functions:

- the folder query, which answers with a total size and a list of record ids, or
  raises;
- the report update, which succeeds or raises.

Both are consulted with the index of the row being processed. So the same folder
name may be answered differently on different rows, as a live remote system may.
A run produces the final cache and one `RowLog` per row. The `RowLog` records the
query the row issued (if any), the move it issued (if any) and its outcome:
`Moved`, `MoveFailed`, `Skipped` or `RowFailed(error)`. `Trace` flattens the logs
into the event sequence `Lookup(name)`, `Move(report, folder)`,
`Outcome(row, outcome)`, in the order the program performs them.

Files:

- `organizer.dfy` (module `ReportOrganizer`) holds the data model, `get_folder_id`,
  `move_report`, the cache-or-lookup step, one loop iteration, the row loop as a
  fold, the header check and the trace.
- `organizer_properties.dfy` (module `OrganizerProperties`) holds the properties
  of the whole loop.
- `organizer_loop.dfy` (module `OrganizerLoop`) holds the loop written
  imperatively, with a mutable cache. A row whose resolution fails, and a
  skipped row, leave the loop body early, as the program's `continue` does. It is
  proved equal to the fold.
- `organizer_scenarios.dfy` (module `OrganizerScenarios`) holds concrete runs,
  each with its exact trace.

## Model

| member | source | states |
|---|---|---|
| ReportOrganizer.GetFolderId | report_organizer.py:33-45 | A query that raises is an error. A reported total size of zero is "folder not found". A non-zero total with no record is an error (the failing `records[0]`). Otherwise the id is the first record's, however many records matched. |
| ReportOrganizer.ResolveFolder | report_organizer.py:76-79 | The query is issued exactly when the name is not cached. A cached name is answered from the cache. The id is cached only when the query resolves, so a failed query leaves the cache unchanged. Existing entries are never changed, and at most the one name is added. |
| ReportOrganizer.ProcessRow | report_organizer.py:47-98 | One iteration. The query depends only on the cache, not on the private flag, because resolution comes first. A query that resolves caches the very id `get_folder_id` read from its answer. `RowFailed` happens exactly when resolution failed, with that error, and issues no move. `Skipped` happens exactly for a resolved private row with an empty owner, with no move. Every other resolved row issues one move of its report to the cached id. Its outcome is `Moved` exactly when the update succeeded, else `MoveFailed`: `move_report` turns a raised update into `false`, so a failed move never fails the row. The cache only grows, by at most the row's folder. |
| ReportOrganizer.ProcessRows | report_organizer.py:69-73 | The loop yields exactly one log per row, and log `i` belongs to row `i`. Every cached name is the folder of some row. |
| ReportOrganizer.ProcessMappingFile | report_organizer.py:63-73 | The run stops at the header check exactly when a required column is missing. Otherwise it yields one log per row. |
| OrganizerProperties.LogAt | report_organizer.py:73-98 | Row `i` is processed by exactly one loop iteration, from the cache left by rows `0..i-1`, and leaves the cache that row `i+1` sees. |
| OrganizerProperties.CacheGrows | report_organizer.py:76-77 | The cache seen by a later row keeps every entry an earlier row's cache held, with the same id. Entries are never overwritten. |
| OrganizerProperties.NoLookupAfterResolution | report_organizer.py:76-79 | After a row has resolved its folder, no later row with the same folder queries it again. |
| OrganizerProperties.AtMostOneSuccessfulLookup | report_organizer.py:76-77 | A name is queried with success by at most one row per run. |
| OrganizerProperties.CachedIdsComeFromLookups | report_organizer.py:76-79 | Every id in the final cache is the first record id of the answer the folder query gave to the one row that looked that name up and resolved it. |
| OrganizerProperties.FailedLookupIsRetried | report_organizer.py:76-77 | A failed query caches nothing. The next row with the same folder issues a fresh query. |
| OrganizerProperties.MissingOwnerNeverMoves | report_organizer.py:76-85 | A private row with an empty owner never issues a move. Its outcome is `Skipped` or a resolution failure. It still issues the query exactly when its folder is not cached. |
| OrganizerProperties.MoveUsesCachedId | report_organizer.py:79-90 | A row issues a move exactly when it resolved and is not a private row without owner. That move is of its report to the id the final cache holds for its folder. |
| OrganizerProperties.MoveOutcomesAreIsolated | report_organizer.py:47-56 | A raised update is absorbed by `move_report`, so the update's answers change nothing but the Moved/MoveFailed outcomes. Under any two update behaviours, the final cache, every query, every move and every other outcome are identical. |
| OrganizerProperties.MissingColumnMakesNoRemoteCall | report_organizer.py:63-67 | If any of the four required columns is absent, the run stops, and its trace holds no `Lookup` and no `Move`. |
| OrganizerProperties.TraceLookups | report_organizer.py:76-77 | The flat trace contains `Lookup(n)` exactly when some row's log records a query for `n`. |
| OrganizerProperties.TraceMoves | report_organizer.py:90 | The flat trace contains `Move(c)` exactly when some row's log records move `c`. |
| OrganizerProperties.EveryRowOnceInOrder | report_organizer.py:73-98 | The trace has exactly one outcome per row. The outcomes carry row indices 0, 1, ..., n-1 in order, so no row is skipped, repeated or reordered, whatever fails. |
| OrganizerLoop.RunRow | report_organizer.py:74-98 | The imperative loop body computes exactly the functional iteration and emits exactly that row's events. |
| OrganizerLoop.RunMappingFile | report_organizer.py:58-102 | The imperative batch computes exactly the functional run and its trace. A missing column emits nothing. |
| OrganizerScenarios.SingleRowIsMoved | report_organizer.py:73-92 | One public row to an existing folder produces one query, one move and `Moved`. |
| OrganizerScenarios.SecondRowUsesCache | report_organizer.py:76-79 | Two rows to one folder produce one query and two moves. |
| OrganizerScenarios.PrivateWithoutOwnerIsSkipped | report_organizer.py:81-85 | A private row with no owner is queried and then skipped, and the next row is moved. |
| OrganizerScenarios.UnknownFolderFailsRowOnly | report_organizer.py:39-40 | Zero matching folders fail that row with "not found", and the next row is moved. |
| OrganizerScenarios.FailedLookupIsQueriedAgain | report_organizer.py:76-77 | A raised query on row 0 is not cached. Row 1 queries the same name again and is moved. |
| OrganizerScenarios.FailedMoveIsRecorded | report_organizer.py:90-94 | A raised update is recorded as `MoveFailed`, and the next row is moved. |
| OrganizerScenarios.MissingOwnerColumnAborts | report_organizer.py:63-67 | A header without `owner_username` stops the run. |

Notes on the model:

- The cache saves a query only for names whose query succeeded. A failed
  lookup is not cached, so every later row with that name queries again
  (`FailedLookupIsRetried`, `FailedLookupIsQueriedAgain`).
- `get_folder_id` reads the total size and the first record separately. A
  non-zero total with an empty record list raises in the code. The model keeps
  it as the separate error `NoRecordReturned`.
- Besides resolution errors, the row-level `except` in the code catches only
  failures that lie outside the model. `move_report` absorbs its own errors.
  So `RowFailed` carries exactly the resolution errors.

## Left out

- Authentication and connection setup (report_organizer.py:16-31): network I/O through a third-party client. A failed login ends the program before any row is read.
- The query text and the client's `query` / `Report.update` calls (report_organizer.py:36-37, 51): both are the caller-supplied answer functions. The folder name is interpolated into the query unescaped, and how the remote side reads such a name is not modelled.
- CSV reading and pandas type coercion (report_organizer.py:62): rows arrive already typed. `is_private` is a boolean. The owner is a string, with the empty string standing for a missing owner. An empty cell that pandas reads as NaN is truthy in Python, so such an owner passes the check. The model does not represent NaN. An unreadable file is not modelled.
- Logging (report_organizer.py:8-13 and every `logger` call): the row outcomes in the trace carry the information the log lines report.
- Environment loading and `main` (report_organizer.py:18, 104-115): side-effect plumbing with no behaviour to state.
