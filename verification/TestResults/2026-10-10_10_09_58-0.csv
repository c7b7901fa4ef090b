TestResult.DisplayName,TestResult.Outcome,TestResult.Duration,TestResult.ResourceCount,RandomSeed
OrganizerProperties.TraceMoves (correctness),Passed,00:00:01.3732241,12016657,5
OrganizerScenarios.TwoRowTrace (correctness),Passed,00:00:00.8035437,526185,5
OrganizerScenarios.SingleRowIsMoved (correctness),Passed,00:00:00.5436948,460764,5
OrganizerProperties.MoveOutcomesAreIsolated (correctness),Passed,00:00:00.4688068,750881,5
OrganizerScenarios.PrivateWithoutOwnerIsSkipped (correctness),Passed,00:00:00.4555362,492400,5
OrganizerProperties.LogAt (correctness),Passed,00:00:00.4042437,581177,5
OrganizerScenarios.TwoRowTrace (well-formedness),Passed,00:00:00.4006013,150198,5
OrganizerScenarios.ProcessRowsSnoc (well-formedness),Passed,00:00:00.3855625,112654,5
OrganizerScenarios.FailedMoveIsRecorded (correctness),Passed,00:00:00.3753613,545250,5
OrganizerProperties.CacheGrows (correctness),Passed,00:00:00.3736261,202004,5
OrganizerProperties.ProcessRowsPrefix (correctness),Passed,00:00:00.3637923,423954,5
OrganizerScenarios.SecondRowUsesCache (correctness),Passed,00:00:00.3612799,498352,5
OrganizerScenarios.CompleteHeaderRuns (correctness),Passed,00:00:00.3558548,142082,5
OrganizerScenarios.FailedLookupIsQueriedAgain (correctness),Passed,00:00:00.3229876,402843,5
OrganizerProperties.NameStaysUncached (well-formedness),Passed,00:00:00.3115178,115271,5
OrganizerLoop.RunMappingFile (correctness),Passed,00:00:00.3083007,597567,5
OrganizerScenarios.SingleRowIsMoved (well-formedness),Passed,00:00:00.2837058,158634,5
OrganizerProperties.AtMostOneSuccessfulLookup (correctness),Passed,00:00:00.2799453,443699,5
OrganizerScenarios.UnknownFolderFailsRowOnly (correctness),Passed,00:00:00.2362902,460668,5
OrganizerScenarios.SecondRowUsesCache (well-formedness),Passed,00:00:00.2292955,168026,5
OrganizerScenarios.Folders (well-formedness),Passed,00:00:00.2214261,44232,5
OrganizerScenarios.ProcessRowsSnoc (correctness),Passed,00:00:00.2170213,129665,5
OrganizerScenarios.FlakyFolders (well-formedness),Passed,00:00:00.2136559,32971,5
OrganizerScenarios.UnknownFolderFailsRowOnly (well-formedness),Passed,00:00:00.2083017,169815,5
OrganizerProperties.CacheGrows (well-formedness),Passed,00:00:00.1983759,111248,5
OrganizerProperties.CachedIdsComeFromLookups (correctness),Passed,00:00:00.1977321,248417,5
OrganizerScenarios.MissingOwnerColumnAborts (correctness),Passed,00:00:00.1959808,211534,5
OrganizerScenarios.FailedLookupIsQueriedAgain (well-formedness),Passed,00:00:00.1897385,162954,5
OrganizerProperties.MissingOwnerNeverMoves (correctness),Passed,00:00:00.1894523,261726,5
OrganizerScenarios.FailedMoveIsRecorded (well-formedness),Passed,00:00:00.1679101,167952,5
OrganizerProperties.TraceOutcomes (correctness),Passed,00:00:00.1669397,143664,5
ReportOrganizer.ProcessRows (well-formedness),Passed,00:00:00.1606953,274459,5
OrganizerProperties.NameStaysUncached (correctness),Passed,00:00:00.1594520,287305,5
OrganizerProperties.NoLookupAfterResolution (correctness),Passed,00:00:00.1558965,212671,5
OrganizerScenarios.PrivateWithoutOwnerIsSkipped (well-formedness),Passed,00:00:00.1551168,168645,5
OrganizerProperties.NoLookupAfterResolution (well-formedness),Passed,00:00:00.1460960,115047,5
ReportOrganizer.GetFolderId (well-formedness),Passed,00:00:00.1425577,28488,5
ReportOrganizer.MoveReport (well-formedness),Passed,00:00:00.1378679,6193,5
OrganizerProperties.RowEventsOutcome (correctness),Passed,00:00:00.1360928,85556,5
OrganizerProperties.FailedLookupIsRetried (correctness),Passed,00:00:00.1317241,196544,5
OrganizerLoop.RunRow (correctness),Passed,00:00:00.1304516,274954,5
OrganizerProperties.MissingColumnMakesNoRemoteCall (correctness),Passed,00:00:00.1268230,192453,5
OrganizerProperties.LogAt (well-formedness),Passed,00:00:00.1244375,134962,5
OrganizerScenarios.TraceSnoc (correctness),Passed,00:00:00.1234492,33923,5
OrganizerProperties.MoveUsesCachedId (correctness),Passed,00:00:00.1167199,176014,5
ReportOrganizer.ProcessRow (well-formedness),Passed,00:00:00.1064622,155873,5
OrganizerProperties.ProcessRowsPrefix (well-formedness),Passed,00:00:00.1011771,113172,5
OrganizerProperties.EveryRowOnceInOrder (well-formedness),Passed,00:00:00.0996243,122611,5
OrganizerProperties.FinalCache (correctness),Passed,00:00:00.0961885,128536,5
OrganizerProperties.EveryRowOnceInOrder (correctness),Passed,00:00:00.0913820,143617,5
OrganizerProperties.MoveOutcomesAreIsolated (well-formedness),Passed,00:00:00.0887087,117874,5
OrganizerProperties.AtMostOneSuccessfulLookup (well-formedness),Passed,00:00:00.0859077,125900,5
OrganizerProperties.TraceLookups (correctness),Passed,00:00:00.0822383,95939,5
ReportOrganizer.ProcessMappingFile (well-formedness),Passed,00:00:00.0775788,142978,5
OrganizerProperties.MoveUsesCachedId (well-formedness),Passed,00:00:00.0764716,125877,5
OrganizerProperties.FailedLookupIsRetried (well-formedness),Passed,00:00:00.0726690,117951,5
OrganizerProperties.CachedIdsComeFromLookups (well-formedness),Passed,00:00:00.0715125,119267,5
OrganizerProperties.MissingOwnerNeverMoves (well-formedness),Passed,00:00:00.0693264,116721,5
OrganizerProperties.CacheBefore (well-formedness),Passed,00:00:00.0666150,110819,5
OrganizerProperties.FinalCache (well-formedness),Passed,00:00:00.0651219,112778,5
ReportOrganizer.ResolveFolder (well-formedness),Passed,00:00:00.0552942,81919,5
OrganizerProperties.TraceMoves (well-formedness),Passed,00:00:00.0489624,34843,5
ReportOrganizer.Trace (well-formedness),Passed,00:00:00.0465797,29809,5
OrganizerProperties.OutcomeIndicesAppend (correctness),Passed,00:00:00.0357207,67759,5
ReportOrganizer.Extends (well-formedness),Passed,00:00:00.0298058,14836,5
OrganizerProperties.TraceLookups (well-formedness),Passed,00:00:00.0226209,32247,5
ReportOrganizer.RowEvents (well-formedness),Passed,00:00:00.0215432,17422,5
OrganizerProperties.OutcomeIndices (well-formedness),Passed,00:00:00.0195801,21821,5
OrganizerProperties.TraceOutcomes (well-formedness),Passed,00:00:00.0175817,31197,5
