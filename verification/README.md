# Verified model of the AutoStream control panel's core

A Dafny model of the parts of the control panel whose correctness is not visible
from a single function: the live-notification outbox, the data migrations and their
restart behaviour, the SQL statement splitter, the Discord Bot's stream selection, the
login failure limiter, runtime-secret authorisation, node permissions, the shell
quoting of configure commands, OAuth refresh scans and the start-claim test.
`dafny verify dfyconfig.toml` verifies the whole project.

Code that updates variables or rows step by step is modelled by methods with loops and
by classes; each is specified by a function or a predicate, and what the system promises
is proved of that specification. Protocols are state machines over their durable steps,
with any number of workers and a crash possible between any two steps.

## Layout

| files | what they model |
|---|---|
| `Text`, `Ordering`, `Grouping`, `Profiles` | string helpers, sorting, grouping by key, profile configurations |
| `SqlSplitter` | the statement splitter, against a scanner without lookahead |
| `ArchiveMapping`, `MigrationRunner`, `CorrectionRuns` | the archive-mapping correction, the apply-then-record runner, and the correction over all its lives |
| `EolRetained`, `EolStatements`, `EolTexts`, `EolResume`, `EolHistory`, `EolResumption`, `EolMigration` | migration 081: retained-state digest, statement rewriting, which texts are executed, one attempt, all histories, when it can still finish, its place in the runner |
| `OutboxStore`, `OutboxDispatch`, `OutboxProtocol`, `OutboxHistory`, `OutboxTransition`, `OutboxDispatcher` | the notification outbox: row updates, decisions, the interleaved protocol, its histories, how often the live transition is asked for, the dispatcher program |
| `DiscordConfig` | which waiting streams a Bot is told about |
| `LoginLimiter` | anchored failure windows |
| `SecretNames`, `RuntimeSecrets`, `SecretSoundness`, `ArchiveSecrets` | secret names, the decision, what it implies, its agreement with archive configurations |
| `NodePermissions`, `ShellQuote` | permission projection against enforcement, configure commands read back by a POSIX shell |
| `OAuthRefresh`, `OAuthScan` | revision compare-and-set under interleaving, the refresh scan |
| `StartClaim` | the claim test of a prepared start and its failure path |

## What was found

- A crash between creating the resume-checkpoint table and inserting its row leaves a
  state from which no attempt of migration 081 ever finishes
  (`EolHistory.CrashWhileRecordingNeverResumes`), and every first recording passes through
  it. From the checkpoint table on, the migration can still finish exactly when neither
  this has happened nor only some of the Discord columns are left
  (`EolResumption.CrashIsResumableExactlyWhen`); the distributed SQL removes those columns
  in one statement.
- An ordinary migration with an unguarded statement never finishes again when it is
  interrupted after that statement: 004 and 008 begin with a plain `ADD COLUMN`, 005 adds
  a plain unique key after a delete. For bodies whose done statements repeat or fail, an
  interruption sticks exactly when a done statement does not repeat
  (`MigrationRunner.InterruptedBodySticksExactlyWhen`, `MigrationRunner.PlainAddSticks`).
- The live transition can be requested twice for one notification: after a crash between
  asking and saving (`OutboxHistory.TransitionCanBeAskedTwice`), and without one, when a
  claim that cannot read the provider writes its code over the transition code
  (`OutboxHistory.TransitionCanBeAskedTwiceWithoutCrash`). Exactly when it is requested is
  `OutboxHistory.TransitionAskedExactlyWhen`; it is requested at most once when every claim
  finds the broadcast starting and saves its retry
  (`OutboxTransition.TransitionAskedAtMostOnce`).
- A failure whose code holds other characters than letters, digits, dashes and underscores
  is never saved, whatever it says: even one that confirms that nothing was sent stays
  behind the fence until its lease runs out, and ends as an unknown delivery instead of a
  retry (`OutboxDispatch.OddCodeIsNeverSaved`). Exactly which answers can be saved is
  `OutboxDispatch.AnswerAcceptedExactlyWhen`.
- When two caption profiles name one key, only the first listed one is asked: the worker
  of a stream that selects the second is refused the key
  (`SecretSoundness.SecondProfileIsRefused`); the exact condition is
  `SecretSoundness.WorkerAllowedExactlyWhen`.

## Assumptions

- A text is a sequence of Unicode characters. Lexing tests ASCII characters only, so
  walking over characters and over the bytes of valid UTF-8 take the same branches.
- Digests are arbitrary functions; where equal digests must mean equal values the lemma
  says so. Row encodings of the checkpoint are injective JSON arrays on one line.
- A store returns a row only under the row's own id, ids are generated and never used
  again, and a lease token or notification event id is new when it is given out.
- A Drive destination's mode is one of the two values of its column, and a claimed start has
  one primary of each service type.
- The SQL of migration 081 is any list of statements with any effect on any table but the
  checkpoint's own. Rows of a table are listed in the order of its first column, which is
  not one of the removed columns.

## Model

| member | source | states |
|---|---|---|
| `SqlSplitter.SplitSQLStatements` | internal/database/migrations.go:136-252 | the lookahead loop returns exactly the trimmed, non-empty segments of the lookahead-free scanner |
| `SqlSplitter.IterateAgrees` | internal/database/migrations.go:155-240 | one iteration, with its one- and two-character lookahead, keeps loop state and scanner in agreement |
| `SqlSplitter.SegmentsConserveText` | internal/database/migrations.go:155-251 | the segments joined with `;` are the input: nothing is lost, added or reordered |
| `SqlSplitter.SegmentsAreCut` | internal/database/migrations.go:155-251 | no segment contains a separator the scanner would split at, and all but the last end outside quotes and comments |
| `SqlSplitter.QuotedSemicolonsNeverSplit` | internal/database/migrations.go:155-240 | rendered literals, identifiers, comments and words joined with `;` split at exactly those joins, whatever they contain |
| `SqlSplitter.SplitJoinRoundTrip` | internal/database/migrations.go:136-252 | for every text, splitting its statements rejoined with newline, semicolon, newline gives them back |
| `SqlSplitter.SplitIsStable` | internal/database/migrations.go:136-252 | splitting any single returned statement returns just it |
| `LoginLimiter.LoginFailureLimiter.Allow` | internal/httpapi/login_limiter.go:35-54 | the answer and the new window of the key; other keys untouched |
| `LoginLimiter.LoginFailureLimiter.Record` | internal/httpapi/login_limiter.go:56-69 | a failure opens a window or counts in the current one; other keys untouched |
| `LoginLimiter.LoginFailureLimiter.Clear` | internal/httpapi/login_limiter.go:71-78 | the key is forgotten; other keys untouched |
| `LoginLimiter.OverlapBound` | internal/httpapi/login_limiter.go:35-69 | in every interleaving with at most c pending attempts and no clear, no window counts more than limit - 1 + c failures |
| `LoginLimiter.OverlapBoundIsExact` | internal/httpapi/login_limiter.go:35-69 | some interleaving reaches that bound |
| `LoginLimiter.AtMostTwoWindows` | internal/httpapi/login_limiter.go:56-69 | failures less than a window's length apart come from at most two windows |
| `LoginLimiter.SlidingBound` | internal/httpapi/login_limiter.go:35-69 | with sequential attempts and a non-decreasing clock any half-open interval of a window's length holds at most 2 * limit - 1 failures |
| `LoginLimiter.SlidingBoundIsExact` | internal/httpapi/login_limiter.go:35-69 | some attempts reach that bound |
| `LoginLimiter.OverlapBoundOfThreshold` | internal/httpapi/login_limiter.go:35-69 | in the lockout threshold: no window counts more than threshold - 2 + c failures, or c for a threshold of 2 or less |
| `LoginLimiter.SlidingBoundOfThreshold` | internal/httpapi/login_limiter.go:35-69 | in the lockout threshold: no interval holds more than 2 * threshold - 3 failures, or one |
| `LoginLimiter.ThresholdBoundsAreExact` | internal/httpapi/login_limiter.go:35-69 | both are reached for every threshold |
| `ArchiveMapping.ArchiveDatabase.PlanMapping` | internal/database/archive_mapping.go:62-91 | the row loop succeeds exactly when every row can be prepared and no destinations collide, and then plans exactly the backed-up rows |
| `ArchiveMapping.ArchiveDatabase.ApplyMapping` | internal/database/archive_mapping.go:94-110 | the plans turn the tables into the corrected ones |
| `ArchiveMapping.ArchiveDatabase.CorrectArchiveMapping` | internal/database/archive_mapping.go:26-111 | all or nothing: corrected exactly when acceptable, unchanged on every error |
| `ArchiveMapping.CorrectedWhere` | internal/database/archive_mapping.go:94-145 | every backed-up artifact with a run of its own ends in that run at `final/stream/run/name`, every other one in the legacy run, with its original path saved; artifacts without a backup entry are untouched |
| `ArchiveMapping.AcceptedExactlyAtKnownPoints` | internal/database/archive_mapping.go:113-145 | a row can be prepared exactly when its ids are well-formed, its saved path has its digest and it is flat, preserved, moved by the old 081 or already corrected |
| `ArchiveMapping.MovedSegmentsAreSafe` | internal/database/archive_mapping.go:113-157 | stream, run and name of a moved path are single path segments that are neither empty nor relative |
| `ArchiveMapping.LegacyRunIsUnique` | internal/database/archive_mapping.go:113-119 | streams share a legacy run exactly when their ids differ only in case |
| `ArchiveMapping.CorrectedIsUnique` | internal/database/archive_mapping.go:94-110 | a correction has one outcome |
| `ArchiveMapping.CorrectionIsIdempotent` | internal/database/archive_mapping.go:26-145 | a corrected table is acceptable and correcting it again changes only the gate's time |
| `ArchiveMapping.HistoriesConverge` | internal/database/archive_mapping.go:113-145 | flat, preserved, old-081 and corrected states of the same artifacts, with their original paths saved or not, end in one table |
| `ArchiveMapping.CorrectedIsSameArtifacts` | internal/database/archive_mapping.go:94-110 | a table and its correction are two states of the same artifacts |
| `ArchiveMapping.OldMigrationIsAccepted` | internal/database/migrations/081_bundle8b_physical_eol.sql:61-76 | what the distributed 081 left of an accepted table is accepted |
| `ArchiveMapping.OldMigrationConverges` | internal/database/archive_mapping.go:113-145 | and is corrected to exactly what the table before it is corrected to |
| `ArchiveMapping.MovedPathsAreUnambiguous` | internal/database/archive_mapping.go:113-157 | two moved rows share a path exactly when stream, run and name agree; a moved path is never flat |
| `ArchiveMapping.RunPathIsUnique` | internal/database/archive_mapping.go:113-157 | a run path decomposes uniquely into stream, run and name |
| `MigrationRunner.Runner.RunMigrations` | internal/database/migrations.go:68-100 | one life of the process, dying after any number of durable writes, also between statements and before the record |
| `MigrationRunner.Runner.ApplyMigrationBody` | internal/database/migrations.go:102-125 | an ordinary body is executed statement by statement, up to the first failure or the crash |
| `MigrationRunner.RestartsConverge` | internal/database/migrations.go:76-112 | if every body still to come is resumable on the database it will meet, then however often and wherever the process dies a recorded database is what one uninterrupted pass leaves |
| `MigrationRunner.ResumableExactlyWhenGuarded` | internal/database/migrations.go:119-123 | a body whose done statements repeat or fail is resumable exactly when, wherever it is interrupted, every done statement changes nothing when repeated |
| `MigrationRunner.InterruptedBodySticksExactlyWhen` | internal/database/migrations.go:119-123 | interrupted after any number of writes such a body comes to the same if all done statements repeat, and otherwise the migrations never finish again |
| `MigrationRunner.PlainAddSticks` | internal/database/migrations/005_stream_artifacts_unique_key.sql:1-16 | a delete and a plain addition, interrupted before the record, never finish |
| `MigrationRunner.LivesKeep` | internal/database/migrations.go:76-112 | what every body keeps wherever it is interrupted, and reaches when it succeeds, every sequence of lives keeps and has reached once such a body is newly recorded |
| `CorrectionRuns.ManyCorrectionsAreOne` | internal/database/migrations.go:76-116 | over any sequence of lives, by 081, by 083 or by both, at any times, the archive tables are those before or after one correction, and after it once a correcting entry is newly recorded |
| `CorrectionRuns.FinishedIsCorrected` | internal/database/migrations.go:76-116 | a history that finishes has corrected the tables |
| `CorrectionRuns.CorrectionCorrects` | internal/database/migrations.go:102-116 | migration 083, one transaction or an error, is a correcting body |
| `EolMigration.PhysicalEOLCorrects` | internal/database/physical_eol_resume.go:19-113 | for any statements that leave the archive tables alone, migration 081, which goes on after the correction and may fail, is a correcting body |
| `EolMigration.PlansLeaveArchive` | internal/database/physical_eol_resume.go:53-85 | if only the five kinds of archive statements touch the archive tables, then no planned statement does, for every list of statements |
| `EolMigration.DistributedEOLCorrects` | internal/database/physical_eol_resume.go:19-113 | so 081 is a correcting body for every text of its SQL, split and planned as the code does |
| `CorrectionRuns.CorrectionIsNeverUndone` | internal/database/archive_mapping.go:92-111 | once the tables are corrected no later life undoes it |
| `EolRetained.Hash` | internal/database/physical_eol_resume.go:272-328 | the nested loops compute the digest of the retained rows of the listed tables, or stop at a table that cannot be read |
| `EolRetained.DroppingLegacyKeepsFingerprint` | internal/database/physical_eol_resume.go:299-316 | dropping any of the legacy columns leaves the digest unchanged |
| `EolRetained.FingerprintTellsRowsApart` | internal/database/physical_eol_resume.go:272-328 | digests agree exactly when all retained rows agree: the fed text can be read back |
| `EolStatements.TrimMigrationComments` | internal/database/physical_eol_resume.go:115-120 | the loop gives a trimmed text that starts with no comment |
| `EolStatements.CommentLineIsSkipped` | internal/database/physical_eol_resume.go:115-120 | a leading comment line makes no difference |
| `EolStatements.GuardsExactlyDropView` | internal/database/physical_eol_resume.go:54-85 | after skipping and rewriting, the checkpoint guards exactly the statements that drop a view |
| `EolTexts.SkippedExactlyArchive` | internal/database/physical_eol_resume.go:54-61 | a statement is left out exactly when it starts like one of the five statements of the old archive move |
| `EolTexts.ExecutedIsNotArchive` | internal/database/physical_eol_resume.go:54-85 | no text that is executed after rewriting starts like one of them |
| `EolTexts.ExecutedReadsNoLegacy` | internal/database/physical_eol_resume.go:54-85 | no executed text contains a read or a join of the legacy settings; it reads the snapshot |
| `EolTexts.ExportIgnores` | internal/database/physical_eol_resume.go:54-85 | the export is executed as an insert that ignores rows already there |
| `EolTexts.GateIsAlwaysGated` | internal/database/physical_eol_resume.go:62-85 | no executed text inserts into the final gate without the validation before it |
| `EolResume.Connection.Checkpoint` | internal/database/physical_eol_resume.go:264-345 | its writes and its answer, for a call that may create and one that may not |
| `EolResume.Connection.RunPlans` | internal/database/physical_eol_resume.go:53-91 | the statement loop performs exactly the writes of its plans up to the first failure |
| `EolResume.Connection.ApplyPhysicalEOLMigration` | internal/database/physical_eol_resume.go:19-113 | the whole attempt, from the SQL text, as the list of its durable states |
| `EolHistory.AttemptIsSound` | internal/database/physical_eol_resume.go:19-113 | every write leaves the checkpoint alone, creates it empty, or fills it with the digest of the tables at that moment |
| `EolHistory.CheckpointIsWriteOnce` | internal/database/physical_eol_resume.go:329-344 | over all histories of crashes, retries and edits a recorded digest never changes |
| `EolHistory.FinishedRunKeepsRetainedRows` | internal/database/physical_eol_resume.go:80-94 | a finished attempt with a checkpoint leaves the retained rows of the write that first recorded it, and no legacy column |
| `EolHistory.FinishedRunKeepsTenTables` | internal/database/physical_eol_resume.go:273-276 | the same, table by table, for the ten tables of the checkpoint |
| `EolHistory.FinishedHasCheckpointExactlyWhen` | internal/database/physical_eol_resume.go:80-94 | a finished attempt has a checkpoint exactly when there was one or a statement drops a view |
| `EolHistory.EmptyCheckpointIsForever` | internal/database/physical_eol_resume.go:264-271 | with the table created but empty no later attempt writes or finishes |
| `EolHistory.CrashWhileRecordingNeverResumes` | internal/database/physical_eol_resume.go:329-340 | every first recording has a write after which a crash can never be resumed |
| `EolResumption.CrashIsResumableExactlyWhen` | internal/database/physical_eol_resume.go:19-113 | after any history that got as far as the checkpoint table, the migration can still finish exactly when the table is not empty and the schema not partial, and then it finishes however often it crashes |
| `EolResumption.GoodAttemptFinishes` | internal/database/physical_eol_resume.go:19-113 | on tables with the recorded digest and no partial schema an attempt finishes and keeps them so |
| `EolResumption.WedgedNeverFinishes` | internal/database/physical_eol_resume.go:34-36 | with the empty checkpoint or a partial schema no number of attempts finishes |
| `EolResumption.DroppingSomeWedges` | internal/database/physical_eol_resume.go:34-36 | dropping some but not all Discord columns keeps the digest and still wedges the migration |
| `EolResumption.RecordedCheckpointNeverFails` | internal/database/physical_eol_resume.go:337-344 | once the digest is recorded no checkpoint of any later attempt fails |
| `EolResumption.LegacyDropsKeep` | internal/database/physical_eol_resume.go:80-91 | steps that only drop legacy columns keep the digest |
| `OutboxStore.Outbox.FenceExpired` | internal/store/discord_youtube_live_notification_outbox.go:395-455 | begun rows with an expired lease become unknown deliveries, in the order of their leases and up to the normalised limit; nothing else changes |
| `OutboxStore.Outbox.ClaimDue` | internal/store/discord_youtube_live_notification_outbox.go:325-389 | the first due row in the order of due time and creation is claimed under a token and a lease, or none is due |
| `OutboxStore.Outbox.BeginBotDispatch` | internal/store/discord_youtube_live_notification_outbox.go:460-483 | the fence is passed exactly by the holder of a live lease on a claimed row |
| `OutboxStore.Outbox.UpdateClaimed` | internal/store/discord_youtube_live_notification_outbox.go:485-553 | a save takes effect exactly for a valid value under the current lease in a state that allows it |
| `OutboxStore.SaveAcceptedExactlyWhen` | internal/store/discord_youtube_live_notification_outbox.go:485-553 | a save is accepted exactly when its code, or its message id and lifecycle, are well-formed and the worker holds the row, past the fence for a delivery or an unknown one |
| `OutboxStore.HeldExactlyUntilDue` | internal/store/discord_youtube_live_notification_outbox.go:325-553 | at every moment a claimed row is its holder's or due or to be fenced, never two of them |
| `OutboxStore.CodeExactlyWhen` | internal/store/discord_youtube_live_notification_outbox.go:176-188 | a value is kept, trimmed and lower-cased, exactly when it then is one to 128 letters, digits, dashes and underscores |
| `OutboxStore.OpaqueExactlyWhen` | internal/store/discord_youtube_live_notification_outbox.go:164-174 | a message id is any non-empty text without control characters |
| `OutboxStore.ClaimedIsDueAfterLease` | internal/store/discord_youtube_live_notification_outbox.go:325-389 | a claimed row is due again exactly when its lease has run out, and only its state, counter and lease have changed |
| `OutboxStore.BegunIsOnlyFenced` | internal/store/discord_youtube_live_notification_outbox.go:395-483 | behind the fence a row is never due again and ends as an unknown delivery when its lease runs out |
| `OutboxStore.SavedIsDueExactlyWhen` | internal/store/discord_youtube_live_notification_outbox.go:485-553 | a saved retry is due exactly from its time on; every other save is the final state of its name and never due |
| `OutboxStore.FirstDueIsEarliest` | internal/store/discord_youtube_live_notification_outbox.go:325-350 | the claimed row has the earliest due time, and among those the earliest creation |
| `OutboxDispatch.ProceedNeedsLive` | internal/httpapi/discord_youtube_live_notification_outbox.go:274-348 | a claim goes on to the Bot only for a live stream the provider calls live, or one with a stream key |
| `OutboxDispatch.ProceedsExactlyWhen` | internal/httpapi/discord_youtube_live_notification_outbox.go:198-232 | the Bot is called exactly for a live stream with a stream key or a broadcast seen live, when the Bot is still an assigned primary and can be called |
| `OutboxDispatch.SuppressedExactlyWhen` | internal/httpapi/discord_youtube_live_notification_outbox.go:198-232 | a notification is given up before the call exactly when the stream is gone or not live or the broadcast is over |
| `OutboxDispatch.LifecycleExactlyWhen` | internal/httpapi/discord_youtube_live_notification_outbox.go:274-348 | when the provider counts as live and when as over, with the second reading after a transition |
| `OutboxDispatch.RetriesBackOff` | internal/httpapi/discord_youtube_live_notification_outbox.go:136-155 | the delay grows strictly from 15 seconds at the first call to an hour at the eighth |
| `OutboxDispatch.StatusSpeaks` | internal/httpapi/discord_youtube_live_notification_outbox.go:257-268 | without phase and code: 429 is a retry, 0 and 500 and above an unknown delivery, everything else a suppression, each with its code |
| `OutboxDispatch.TransportSpeaks` | internal/httpapi/discord_youtube_live_notification_outbox.go:257-268 | a transport failure without a receipt is an unknown delivery |
| `OutboxDispatch.ReceiptSpeaks` | internal/httpapi/discord_youtube_live_notification_outbox.go:362-372 | a failure before the dispatch or one of the six receipt codes is a retry |
| `OutboxDispatch.SuccessSpeaks` | internal/httpapi/discord_youtube_live_notification_outbox.go:245-256 | a success is a delivery exactly when it names the message, and else unknown |
| `OutboxDispatch.FinalFailureSpeaks` | internal/httpapi/discord_youtube_live_notification_outbox.go:257-268 | a failure with no receipt is an unknown delivery exactly for status 0, 500 and above or the transport phase, and else a suppression |
| `OutboxDispatch.AnswerAcceptedExactlyWhen` | internal/httpapi/discord_youtube_live_notification_outbox.go:240-268 | what an answer calls for can be saved exactly when a failure has no code or a proper one, and a success no message id or one that can be kept with its lifecycle |
| `OutboxDispatch.OddCodeIsNeverSaved` | internal/httpapi/discord_youtube_live_notification_outbox.go:257-268 | a failure with any other code, also a confirmed retry, is never saved by anyone |
| `OutboxProtocol.NamesStep` | internal/store/discord_youtube_live_notification_outbox.go:325-389 | every step keeps tokens apart and rows, workers and events about one notification |
| `OutboxProtocol.CallsStep` | internal/httpapi/discord_youtube_live_notification_outbox.go:198-268 | every step keeps the invariant that an unanswered or unknown call shuts its notification |
| `OutboxProtocol.NoSecondPost` | internal/httpapi/discord_youtube_live_notification_outbox.go:157-268 | in every run two Bot calls carry one event id only if the first was answered "nothing sent" and that was saved in between |
| `OutboxHistory.CallsFollowLive` | internal/httpapi/discord_youtube_live_notification_outbox.go:198-218 | in every run a Bot call follows its fence and, in the same claim, a live stream and a live provider or a stream key |
| `OutboxHistory.DeliveredMeansPosted` | internal/httpapi/discord_youtube_live_notification_outbox.go:230-268 | a delivered row holds the message id of a successful call, the last one for its notification |
| `OutboxHistory.CounterCoversCalls` | internal/store/discord_youtube_live_notification_outbox.go:460-483 | the durable dispatch counter is the number of fences and never below the number of calls |
| `OutboxHistory.TransitionAskedExactlyWhen` | internal/httpapi/discord_youtube_live_notification_outbox.go:274-348 | in every run the transition is requested exactly when a claim meets a starting broadcast and the last saved code is no transition code |
| `OutboxTransition.TracedStep` | internal/httpapi/discord_youtube_live_notification_outbox.go:198-268 | every step keeps each save traced to its own decision or Bot call, and each lease to the last claim |
| `OutboxTransition.SavedAnswerFitsCall` | internal/httpapi/discord_youtube_live_notification_outbox.go:240-268 | in every run what a claim saves after its Bot call is what that call's answer calls for |
| `OutboxTransition.FinalAnswerIsSavedAs` | internal/httpapi/discord_youtube_live_notification_outbox.go:257-268 | in every run an unclear answer that is saved is saved as unknown and a refusal as suppressed |
| `OutboxTransition.FinalCallIsLast` | internal/httpapi/discord_youtube_live_notification_outbox.go:157-268 | in every run a call answered with a success, or with a status, phase and code that are no receipt of "not sent", is the last call of its event id |
| `OutboxTransition.AskedAgainOnlyAfterOtherCode` | internal/httpapi/discord_youtube_live_notification_outbox.go:274-348 | in every run, of two claims that both ask, the first had not saved its transition code when the second was taken, or another code was written in between |
| `OutboxTransition.TransitionAskedAtMostOnce` | internal/httpapi/discord_youtube_live_notification_outbox.go:394-404 | in every run whose claims of a notification all find it starting and save their retry, the transition is asked for at most once |
| `OutboxHistory.TransitionCanBeAskedTwice` | internal/httpapi/discord_youtube_live_notification_outbox.go:274-348 | a run with a crash in which the transition is requested twice |
| `OutboxHistory.TransitionCanBeAskedTwiceWithoutCrash` | internal/httpapi/discord_youtube_live_notification_outbox.go:274-348 | a run without a crash in which every claim saves and the transition is requested twice |
| `OutboxDispatcher.DispatchClaimed` | internal/httpapi/discord_youtube_live_notification_outbox.go:198-268 | working off a claim is the one course of protocol steps that the observation, the Bot's answer, the clock and the store leave, and reports what was saved |
| `OutboxDispatcher.DispatchDue` | internal/httpapi/discord_youtube_live_notification_outbox.go:161-196 | from any state of the protocol with these rows: the fences, the claim of the first due row and its course, with the counters of just that; a failing fence or claim call ends it after steps of the protocol too |
| `OutboxDispatcher.CountedOnce` | internal/httpapi/discord_youtube_live_notification_outbox.go:161-196 | every outcome is counted once, in a counter of its own |
| `OutboxDispatcher.ScanExtendsRun` | internal/httpapi/discord_youtube_live_notification_outbox.go:161-196 | a scan from the last state of a run extends the run, so what holds of runs holds after it |
| `OutboxDispatcher.BrokenScanExtendsRun` | internal/httpapi/discord_youtube_live_notification_outbox.go:169-182 | so does a scan that a failing call ends |
| `Ordering.SortedIsUnique` | internal/httpapi/server_runtime_config.go:559-587 | sorted permutations are equal when the comparison tells the elements apart |
| `Ordering.FirstDifferenceDecides` | internal/httpapi/server_runtime_config.go:559-587 | texts are ordered by their first difference, a prefix first |
| `Grouping.PickLone` | internal/httpapi/server_runtime_config.go:569-583 | the loop over runs of equal keys picks exactly the elements alone on a free key |
| `Grouping.LonesAreLone` | internal/httpapi/server_runtime_config.go:569-583 | what is picked depends only on the multiset, not on the order |
| `DiscordConfig.AssignmentRoleByStream` | internal/httpapi/server_runtime_config.go:598-611 | the map holds for each stream the role of its last assignment to the Bot |
| `DiscordConfig.RuntimeDiscordStreamConfigs` | internal/httpapi/server_runtime_config.go:481-585 | the payload is sorted and holds all explicit primaries and exactly the lone, unopposed implicit candidates; it fails exactly when the stream list or a lookup breaks |
| `DiscordConfig.RoleIsOfLast` | internal/httpapi/server_runtime_config.go:598-611 | the role is that of the last assignment to the Bot, primary unless it says standby |
| `DiscordConfig.ClassExactlyWhen` | internal/httpapi/server_runtime_config.go:494-557 | a stream is explicit exactly when its item describes it and its last assignment is not standby, and a candidate exactly when it has no assignment and joins by voice |
| `DiscordConfig.FailsExactlyWhen` | internal/httpapi/server_runtime_config.go:500-530 | a stream breaks the list exactly when it is waiting and the lookup of its profile, or then of its channels, fails other than by not finding it |
| `DiscordConfig.PayloadItemsQualify` | internal/httpapi/server_runtime_config.go:481-585 | every item is of a waiting stream, with the stream's own guild and channels before the profile's, that is assigned as primary or has no assignment and joins by voice; a standby is never sent |
| `DiscordConfig.AssignedStreamsAreSent` | internal/httpapi/server_runtime_config.go:543-557 | every such stream assigned as primary is sent |
| `DiscordConfig.VoiceKeyTellsApart` | internal/httpapi/server_runtime_config.go:594-596 | voice keys agree exactly when guild and channel do |
| `DiscordConfig.PayloadAscends` | internal/httpapi/server_runtime_config.go:559-585 | the payload is in ascending order of stream ids |
| `DiscordConfig.PayloadIgnoresOrder` | internal/httpapi/server_runtime_config.go:481-585 | for distinct stream ids the payload is the same for every order of the stream list |
| `DiscordConfig.ImplicitNeverCompetes` | internal/httpapi/server_runtime_config.go:545-583 | two streams of the payload share a voice channel only if both are explicit |
| `SecretNames.ParseAfterPrint` | internal/httpapi/server_archive_configuration.go:185-195 | a printed secret name parses back to its secret and id |
| `SecretNames.PrintAfterParse` | internal/httpapi/server_runtime_secrets.go:293-310 | what the parser accepts prints to a name with the same meaning |
| `SecretNames.NamesAreDistinct` | internal/httpapi/server_archive_configuration.go:185-195 | different secrets or ids have different names |
| `SecretNames.BotTokenIsNotStreamScoped` | internal/httpapi/server_runtime_secrets.go:325-371 | a name a Discord profile may refer to is never stream-scoped |
| `SecretNames.OneKindPerName` | internal/httpapi/server_runtime_secrets.go:325-371 | a secret name may be referred to by at most one kind of profile, and never by an overlay |
| `SecretNames.FamilyExactlyWhen` | internal/httpapi/server_runtime_secrets.go:325-371 | a family of names is its base alone and the base with anything after an underscore |
| `RuntimeSecrets.ServicePrimaryAssignedToStream` | internal/httpapi/server_runtime_secrets.go:236-251 | the search answers whether some assignment makes the service the stream's primary |
| `RuntimeSecrets.RuntimeSecretAllowedForService` | internal/httpapi/server_runtime_secrets.go:14-49 | the nested searches with early return give the decision over all branches, errors included |
| `SecretSoundness.EncoderSecretsAreTheStreams` | internal/httpapi/server_runtime_secrets.go:14-49 | over all stores, an encoder's allowed secret is the live key, the output's key, in a selected profile or a Drive credential of a stream it is primary of |
| `SecretSoundness.EncoderAllowedExactlyWhen` | internal/httpapi/server_runtime_secrets.go:14-49 | when every store answers, exactly that, where the first profile with a say decides before any Drive credential |
| `SecretSoundness.WorkerAllowedExactlyWhen` | internal/httpapi/server_runtime_secrets.go:198-234 | a worker is allowed exactly a caption key whose first referring profile its stream selects |
| `SecretSoundness.SecondProfileIsRefused` | internal/httpapi/server_runtime_secrets.go:27-45 | a store in which the primary worker is refused the key its stream's caption profile names |
| `SecretSoundness.BotAllowedExactlyWhen` | internal/httpapi/server_runtime_secrets.go:325-398 | a Bot is allowed exactly the bot tokens named by a Discord profile bound to it |
| `SecretSoundness.OthersAreNeverAllowed` | internal/httpapi/server_runtime_secrets.go:373-384 | no other service is ever allowed a secret |
| `SecretSoundness.AllowedMeansPrimary` | internal/httpapi/server_runtime_secrets.go:14-49 | an allowed encoder or worker request names a non-empty stream it is the primary of |
| `SecretSoundness.StandbyIsNeverAllowed` | internal/httpapi/server_runtime_secrets.go:236-251 | an encoder or worker whose only assignments to the stream are standby is never allowed a secret |
| `SecretSoundness.StaticModeExactlyWhen` | internal/httpapi/server_youtube_outputs.go:337-350 | only an output in one of the three stream-key modes, or without a mode, has a static key |
| `SecretSoundness.ReferenceKeyExactlyWhen` | internal/httpapi/server_runtime_secrets.go:312-323 | a setting names a secret exactly when its key, apart from case and outer spaces, has one of three endings |
| `ArchiveSecrets.StartRequest.ApplyArchiveConfig` | internal/httpapi/server_archive_configuration.go:12-84 | the failure and what it leaves, or the whole configuration, as the chain of profile, destination, account and provider gives it |
| `ArchiveSecrets.ConfigHandsOutNames` | internal/httpapi/server_archive_configuration.go:56-77 | the three secret names of a configuration are the printed ones |
| `ArchiveSecrets.HandedOutNamesResolve` | internal/httpapi/server_runtime_secrets.go:85-120 | every handed-out name resolves to the folder, client secret or refresh token of its own row, which is not blank |
| `ArchiveSecrets.HandedOutNamesAllowedExactlyWhen` | internal/httpapi/server_runtime_secrets.go:122-196 | a handed-out name is allowed for the primary encoder exactly when the first archive profile naming it directly, if any, is the stream's |
| `NodePermissions.NodeActionRequiredPermissions` | internal/httpapi/node_action_permissions.go:326-365 | the list is the needed permissions in canonical order |
| `NodePermissions.AllowedNodeAuthority` | internal/httpapi/node_action_permissions.go:301-315 | the missing list is what the actor lacks, in the same order |
| `NodePermissions.ValidateServiceTokenScopePermissions` | internal/httpapi/server_service_tokens.go:12-32 | accepts exactly when every scope's permission is held |
| `NodePermissions.SwitchIsTable` | internal/httpapi/server_service_tokens.go:12-32 | the projection's switch and the validator's table agree on every text |
| `NodePermissions.ProjectionIsEnforcement` | internal/httpapi/node_action_permissions.go:266-365 | nothing is missing exactly when the actor may create (and for a rotation revoke) and both validators accept |
| `NodePermissions.RequiredIsNeeded` | internal/httpapi/node_action_permissions.go:326-365 | a permission is listed exactly when it is needed |
| `NodePermissions.RequiredIsCanonical` | internal/httpapi/node_action_permissions.go:346-364 | the required list has no duplicates and is in canonical order |
| `NodePermissions.RequiredIsMonotone` | internal/httpapi/node_action_permissions.go:331-344 | fewer scopes need a sublist of what more scopes need |
| `NodePermissions.ProjectRegistration` | internal/httpapi/node_action_permissions.go:266-280 | the disposition of a registration, allowed exactly when the handler's gates and the store accept |
| `NodePermissions.CheckRegistration` | internal/httpapi/server_node_registration.go:216-230 | the gates of the handler accept exactly when both validators do |
| `NodePermissions.RegistrationNeedsExactly` | internal/httpapi/server_node_registration.go:317-338 | for each service type exactly which permissions a registration needs |
| `NodePermissions.RegistrationAllowedExactlyWhen` | internal/httpapi/server_node_registration.go:216-230 | the gates and the right to create tokens together ask for exactly those |
| `NodePermissions.KnownHasScopes` | internal/httpapi/node_action_permissions.go:367-375 | a service type is known exactly when it has scopes of its own |
| `ShellQuote.QuotedValueIsRead` | internal/httpapi/server_node_registration.go:423-425 | anywhere in a command the quoted value adds exactly the value to the current word |
| `ShellQuote.QuotedValueIsOneWord` | internal/httpapi/server_node_registration.go:423-425 | the quoted value is read as one word, the value, exactly when it has no NUL |
| `ShellQuote.ConfigureCommandIsIntended` | internal/httpapi/server_node_registration.go:403-441 | the command is read as exactly the intended arguments exactly when no value has a NUL; the host agent's has no token |
| `ShellQuote.BinaryTellsTypesApart` | internal/httpapi/server_node_registration.go:427-441 | each service type is configured with its own binary |
| `ShellQuote.OperatorsAreRefused` | internal/httpapi/server_node_registration.go:423-425 | why values are quoted: after literal text an operator, a pattern or an expansion is not read as literal text |
| `ShellQuote.StartsAreRefused` | internal/httpapi/server_node_registration.go:423-425 | nor is a hash or a tilde at the start of a word; every other literal text is one word |
| `OAuthRefresh.StepKeepsCoherent` | internal/store/integration_oauth_accounts_mariadb.go:173-247 | every step keeps a job's revision behind the row's, and equal revisions mean equal tokens |
| `OAuthRefresh.RevisionCountsTokens` | internal/store/integration_oauth_accounts_mariadb.go:173-247 | a step keeps a row's token and revision or counts the revision up by one |
| `OAuthRefresh.SavesUseCurrentToken` | internal/store/integration_oauth_accounts_mariadb.go:173-247 | in every run a save that takes effect was obtained with the token then in the row |
| `OAuthRefresh.RelinkAlwaysWins` | internal/httpapi/server_oauth_refresh.go:78-152 | in every interleaving a relink or removal after the read leaves all saves of that read without effect |
| `OAuthRefresh.RotationAlsoWins` | internal/store/integration_oauth_accounts_mariadb.go:190-198 | so does a rotation saved by another worker |
| `OAuthScan.Scanner.SaveIt` | internal/store/integration_oauth_accounts_mariadb.go:234-247 | stored, conflict or broken, each as a step of the interleaved system |
| `OAuthScan.Scanner.RefreshOne` | internal/httpapi/server_oauth_refresh.go:70-151 | one account's calls are system steps and its outcome is exactly explained by them: refreshed by a good answer of the provider to the token that was read, skipped because the revision moved on, failed because a store call failed, the row or its token was missing, or with the code of the provider's actual answer; with no fault, no other actor and a good answer a usable account is refreshed |
| `OAuthScan.Scanner.RefreshOAuthTokensOnce` | internal/httpapi/server_oauth_refresh.go:47-154 | refreshed, failed and skipped add up to the accounts examined and tally one report for each eligible one, each borne out by the calls up to it; attempted stays within the limit, only the limit ends the scan early, and in a calm world with usable accounts every attempt refreshes |
| `OAuthScan.RefreshedWithCurrentToken` | internal/httpapi/server_oauth_refresh.go:141-152 | a reported refresh was obtained with the token the account had when it was saved |
| `OAuthScan.ReportedIsInRow` | internal/httpapi/server_oauth_refresh.go:156-159 | a reported failure, with its code and time, is what the row says afterwards |
| `OAuthScan.RefreshedIsInRow` | internal/httpapi/server_oauth_refresh.go:137-152 | after a reported refresh the row has no failure, the time the attempt began and the newest token the provider sent |
| `OAuthScan.CalmCounters` | internal/httpapi/server_oauth_refresh.go:47-154 | a scan whose every attempt refreshed counts no failure and attempts all eligible accounts up to the limit |
| `StartClaim.PrimaryStreamAssignments` | internal/httpapi/server_stream_dispatch.go:64-73 | the assignments that are not standby, in order |
| `StartClaim.StartPreparationClaimCurrent` | internal/httpapi/server_start_preparation.go:15-48 | true exactly when the stream is starting with the claimed digest, as many primaries as claimed, and each claimed one found |
| `StartClaim.MatchingIsPermutation` | internal/httpapi/server_start_preparation.go:30-47 | for distinct claimed services the test is exactly a permutation on id, type and URL with all primaries on the stream |
| `StartClaim.PassingIsPermutationExactlyWhen` | internal/httpapi/server_start_preparation.go:30-47 | whatever passes is a permutation exactly when the claimed services are distinct |
| `StartClaim.OnePerTypeIsDistinct` | internal/store/stream_start_claim_mariadb.go:103-107 | the claims the store hands out, one primary of each type, are distinct |
| `StartClaim.CurrentMeansUnchanged` | internal/httpapi/server_start_preparation.go:15-48 | with an injective digest a current claim still has its stream row and its primaries |
| `StartClaim.Panel.FailPreparedStreamStart` | internal/httpapi/server_start_preparation.go:84-109 | the stream is moved to failed only after confirmed cleanup and a current claim; the reported code and follow-up |

## Left out

- HTTP routing, JSON, headers, cookies, audit events, log lines and mail: plumbing with no invariant of its own.
- Bytes that are not valid UTF-8 in migration texts.
- SQL of migration 081 and the bodies of its validation queries: arbitrary functions of the tables in `EolResume`.
- OutboxStore.Outbox.ClaimDue: the batch size is the constant one the dispatcher uses.
- OutboxDispatcher.DispatchDue: between the steps of one scan no other worker acts; interleavings are in `OutboxProtocol`.
- MigrationRunner.Runner.RunMigrations: a statement that fails changes nothing; what a single failing statement may leave behind is not modelled.
- CorrectionRuns.ManyCorrectionsAreOne: the tables are compared without the time of the artifact gate, which every correction sets anew.
- LoginLimiter.LoginFailureLimiter.Allow: a nil limiter and the key's construction from user name and address are not modelled.
- ArchiveSecrets.StartRequest.ApplyArchiveConfig: retention and file-name normalisation are arbitrary functions.
- NodePermissions.ProjectRegistration: the store's scope validation is an arbitrary predicate.
- OAuthRefresh: the classification of provider errors and the account's display fields.
- StartClaim.Panel.FailPreparedStreamStart: the remote cleanup is its confirmed or unconfirmed result.
- ShellQuote: panel URL and configuration path are the values the handler has already resolved; what `sudo` and the agents do with their arguments is not modelled.
- Redaction of profile configurations, WebAuthn, TOTP, sealing of secrets, video covers, host updates and runtime-token rotation: mostly tables or calls into libraries.
- Context cancellation and timeouts, apart from the scan that stops when cancelled.
