# Codito device agent: verified core

A Dafny model of the parts of the Codito device agent whose mistakes would cost a user
work: files patched by halves, a native action run twice, a result that is never
reported, a browser page nobody closes, a page of text that is never returned. Each
part is modelled as the program runs it, with a fault possible at every point where the
program can really be interrupted, and what the part is for is proved over all its runs.

## What is modelled

**Patch transactions** (`patching.py`, the idempotency rows of `db.py`). A patch document
is parsed by an exact grammar (`PatchGrammar`, `PatchReprint`; `PatchLanguage` says in literal
terms which documents that are), checked against the files (`PatchPlan`) and applied by hunks
that must match in exactly one place (`Hunks`; `HunkMeaning` tells it by the tagged lines), over a
codec that keeps a file's byte order mark, newline style and final newline (`Utf8`,
`TextLines`, `TextFile`). `PatchContents` says which requests pass, which error the others
get, and what the new files show. `PatchService` is the service itself: before every durable
write the request may raise, the write may be refused or the process may die, in the commit,
in its rollback and in every later recovery; a directory may refuse to go; and the service
goes on with any number of unfinished journals. `PatchView` says what a durable state means: the files and stored
results that a completed recovery would show. Every write but one leaves this view alone;
the committed manifest changes it, by one whole patch. `PatchJournal` describes the
rollback when somebody else has been writing to the files, and `PatchLeftover` what a
recovery does when a patch has gone over an unfinished journal.

**The device tunnel** (`websocket_client.py`, the `operations` table of `db.py`).
`Tunnel` has one step per stretch between two awaits, for the coroutine that connects,
replays and receives, and for each dispatched operation; the connection may break and the
process may die anywhere, and a run is any list of events. `TunnelSafety`, `TunnelRows`,
`TunnelDelivery`, `TunnelReceipts` and `TunnelBudgets` prove what all runs keep, and
`TunnelLoss` with `TunnelLosingRun` the one way in which a result is lost. `TunnelOutcomes`
says why an operation ended and what its row then says, and `TunnelProgress` what becomes of a
delivery, an acknowledgement and a new connection when nothing breaks. `OperationStore`
is the table and `TunnelClient` the client with its tables updated in place; each of its methods
is proved to be one of the steps.

**Frontend sessions** (`frontend_sessions.py`). `FrontendSessions`, `FrontendOwnership`
and `FrontendManager` treat starting, closing and cleaning up in the same way: who owns
each browser page and dev server at every await. `FrontendReplies` says exactly which request
gets which answer, and `FrontendProgress` what undisturbed starts, closes and cleanups come to.
`FrontendSnapshots`, `FrontendActs` and `FrontendPage` treat one session's snapshots, element
ids and actions.

**Readers** (`read_tools.py`, `scoped_read_tools.py`). `Cursors` holds the continuation
cursors, `ReadPaging` the two file readers with their binary search inside a line,
`SearchPaging` and `SearchMeaning` the two searches. Each has a client that follows the continuations, with the
cursors really encoded and decoded, and gets exactly what one pass would give.

**Two smaller algorithms.** `SemanticElements` selects, links and labels page elements
over parent links that may contain cycles (`frontend_playwright.py`), and `ShellLog` is
the bounded output log of a shell job with its two pagers (`shell.py`).

## What was found

Where the code does less than one might expect, the model keeps the code and a lemma or
contract gives the exact condition.

- `read_tools.read_file` sends a reader back to the same place for ever exactly when some
  character is wider than the page (`ReadPaging.FollowReadFile`); four bytes always suffice.
  The scoped reader reports an error in exactly those cases (`ReadPaging.FollowScopedFile`).
- The text codec reproduces a file exactly when it has one newline style and no other line
  separator (`TextFile.DecodeEncode`); in every other case a second pass changes nothing more.
- The shell log's truncated flag is also set by an empty append to a log that is exactly
  full; without empty appends it means that something was dropped (`ShellLog.TruncatedExactly`,
  `ShellLog.TruncatedMeansDropped`).
- A patch call may raise although its patch took effect, when the database refuses the final
  row: the committed manifest then stands in for the row until the next recovery or
  reconciliation (`PatchService.PatchService.Apply`).
- The branch of a frontend start that answers `outcome_unknown` for a remembered key whose
  session is gone cannot be reached: closing a session forgets its keys in the same step
  (`FrontendOwnership.EveryRunIsSound`, clause `StartsAlive`).
- A stale read of an operation's row can start a second task for an operation that has just
  finished; it ends at its first transition and never reaches the handler
  (`TunnelRows.NoHandlerAfterTheEnd`).
- A result can be lost. The refusal of a redelivery and the result of the operation go by the
  same correlation, digest and bindings, so when the operation finishes before the refusal's
  acknowledgement is stored, that acknowledgement confirms the stored result; if the
  connection breaks before the result is sent, no replay sends it (`TunnelLosingRun.ResultLost`).
  While a task of the operation has not ended, on a working connection, a redelivery opens
  this way if and only if it is refused and the result was not sent before
  (`TunnelLoss.LostExactlyByRefusal`); in every run without such a refusal, what is
  acknowledged was sent (`TunnelReceipts.AcknowledgedOnlyWhenSent`).
- An applied patch can be undone. A rollback refused inside a call, a directory that cannot be
  removed and a refused last manifest of a rollback all leave an unfinished journal, and the
  service goes on. Patches of other keys and other paths keep every guarantee
  (`PatchService.PatchService.Run`), and a redelivery of the same request makes the rollback
  good (`PatchService.PatchService.ReconcileDuplicate`). A patch that goes over the journal
  stays applied through the next recovery if and only if, at each path the journal would put
  back, it wants the original or something the recovery refuses to overwrite, and it has another
  key unless the recovery is blocked (`PatchLeftover.LaterPatchSurvives`). So a later patch that
  deletes the file succeeds, and the recovery brings the file back without an error
  (`PatchLeftover.AppliedPatchUndone`).
- When only the last manifest of a rollback is refused, the row is deleted although the journal
  stays; the same patch tried again succeeds, and the next recovery undoes it, files and row,
  without an error (`PatchLeftover.RetryIsUndone`).
- A patch that wants the original back is safe over an unfinished journal once it is done, but
  not while it can die: two recoveries in the wrong order then end at neither state
  (`PatchLeftover.OverlapEndsElsewhere`).

## Faults

Every durable write of `PatchService` can be interrupted, refused or fatal, and a ghost counter
counts these faults. What a call may leave behind is stated for every number of faults; what it
answers, and that it takes effect, for every call without one: a commit then succeeds exactly
when the files are what the declared hashes say, a recovery completes, and each call is answered
as `ApplyAnswer`, `DuplicateAnswer` and `ServeAnswer` say. In the same way the tunnel and the
frontend have lemmas for every run and lemmas for what happens when nothing goes wrong.

## Reading guide

A module that describes a part on values (`Tunnel`, `FrontendSessions`, `FrontendSnapshots`,
`ShellLog`, the specification functions of the patch modules) comes first, the lemmas about
it next to it, and the class whose methods are tied to it last. `dafny verify dfyconfig.toml`
checks everything.

## Model

| member | source | states |
|---|---|---|
| Utf8.DecodeEncode | agent/src/codito_agent/patching.py:52-75 | decoding the UTF-8 of any text gives the text back |
| Utf8.EncodeDecode | agent/src/codito_agent/patching.py:52-75 | a byte string that decodes is the encoding of its text, so two files with one text are one file |
| Utf8.DecodeIgnoreOfCut | agent/src/codito_agent/shell.py:718-720 | cutting an encoded text at any byte and decoding with ignored errors keeps exactly its longest prefix of whole characters that fits |
| TextLines.FlattenLines | agent/src/codito_agent/patching.py:68 | splitting a text into lines with their breaks loses nothing, for every line separator `splitlines` knows |
| TextLines.LinesFlatten | agent/src/codito_agent/patching.py:68 | every list of lines that can come from a text comes from its own concatenation, and from no other split |
| TextLines.LinesOfRendered | agent/src/codito_agent/patching.py:70-75 | joining lines by a newline and splitting again gives the lines, with a final empty line lost unless a final newline follows it |
| TextFile.DecodeEncode | agent/src/codito_agent/patching.py:52-75 | decoding a file and encoding it again gives the same bytes if and only if all its line breaks are the newline that decoding detects |
| TextFile.EncodeDecodeIdempotent | agent/src/codito_agent/patching.py:52-75 | for every valid file, a second decode and encode changes nothing more |
| TextFile.NewlineMeans | agent/src/codito_agent/patching.py:61-68 | the newline detected is the first of CR LF, LF and CR that ends a line of the text, and the host's when there is none of them |
| TextFile.EncodeMeans | agent/src/codito_agent/patching.py:70-75 | what a written document reads back as: its lines, mark, newline and final newline, but that an empty last line without a final newline is lost, a document without a break shows the host's newline, and a leading U+FEFF is a byte order mark |
| Hunks.ApplyHunks | agent/src/codito_agent/patching.py:204-234 | the splicing loop computes the patch specification, with the same error for a hunk that is not found or ambiguous |
| Hunks.PatchMeaning | agent/src/codito_agent/patching.py:204-234 | hunks apply with a given result if and only if there are places for their expected blocks, in order and disjoint, each the only match in what is left of the original, and the result is the original with those blocks replaced |
| Hunks.PatchOfPlaced | agent/src/codito_agent/patching.py:204-234 | from such places, applying succeeds with that result |
| Hunks.PlacementOfPatch | agent/src/codito_agent/patching.py:204-234 | from a success, the places exist |
| Hunks.ReverseRestores | agent/src/codito_agent/patching.py:204-234 | whenever the hunks with `+` and `-` swapped apply to the result, the original lines come back exactly |
| HunkMeaning.WithoutMeans | agent/src/codito_agent/patching.py:208-209 | the block of a hunk without one tag is, in order, the texts of exactly the lines that do not have the tag |
| HunkMeaning.PatchMeansReplacing | agent/src/codito_agent/patching.py:204-234 | patching succeeds with a result if and only if the lines are gaps around old blocks, each the hunk's lines other than insertions and the only match in what the earlier ones leave, and the result has the hunk's lines other than removals in their place |
| RelativePath.ValidateIdempotent | agent/src/codito_agent/paths.py:140-168 | a normalized path is valid and is its own normal form |
| RelativePath.SplitMeans | agent/src/codito_agent/paths.py:156 | splitting is the one way to cut a text into parts without the separator that join back to it |
| RelativePath.ValidateMeans | agent/src/codito_agent/paths.py:140-168 | a path is accepted if and only if slashes and backslashes cut it into components that are not empty, do not end in a dot or a blank, hold no control or special character and no device name before their first dot; it is returned with forward slashes |
| PatchGrammar.Parse | agent/src/codito_agent/patching.py:119-201 | the index and cursor loops compute the recursive grammar, errors included |
| PatchGrammar.ReadSection | agent/src/codito_agent/patching.py:128-198 | one section from its header to the next one is what the grammar says |
| PatchGrammar.ReadHunks | agent/src/codito_agent/patching.py:165-190 | the hunks of a section's content are what the grammar says |
| PatchLanguage.ParseMeans | agent/src/codito_agent/patching.py:119-201 | a document parses to given sections if and only if it is within the size limit and its lines are the two markers around one or more sections, each written as the grammar says, marker by marker and sign by sign |
| PatchLanguage.HunksMean | agent/src/codito_agent/patching.py:165-190 | a content holds given hunks if and only if each is written as `@@` and its signed lines, with a line that is not inserted and one that is not context |
| PatchLanguage.PathErrorMeans | agent/src/codito_agent/patching.py:128-144 | a document is refused for a path if and only if all its sections up to one that names an invalid path are well written; every other refusal is for the patch |
| PatchReprint.SurvivesExactly | agent/src/codito_agent/patching.py:119-201 | printing sections and parsing gives the sections back if and only if there are some, each is well formed (normalized paths, lines without breaks, changing hunks with context) and the document is within the size limit |
| PatchReprint.ParseReprint | agent/src/codito_agent/patching.py:119-201 | every accepted document prints to a document that is accepted again, with the same sections |
| PatchPlan.Preflight | agent/src/codito_agent/patching.py:559-669 | preflight succeeds if and only if the request is acceptable, with a plan that follows the sections; otherwise the error is that of the paths or of the first section that does not pass |
| PatchContents.RequestMeans | agent/src/codito_agent/patching.py:559-669 | a request is acceptable if and only if the mentioned paths are the declared ones, none is mentioned twice, and some plan fits: each file is there with its declared hash and of at most 8 MiB, or its path is free, and each edited content is the file's text with the hunks' lines replaced |
| PatchContents.PlanMeans | agent/src/codito_agent/patching.py:580-668 | a plan follows the sections if and only if every path is to hold, and every change to report, what its section says, in terms of the files, the hunks and the codec alone |
| PatchContents.RefusalMeans | agent/src/codito_agent/patching.py:559-669 | which error a request gets: that its paths are not the declared ones, or that of the first section that mentions an earlier path or fails by itself, in each of the ways a section can fail |
| PatchContents.PlanShows | agent/src/codito_agent/patching.py:601-668 | what the files of a carried-out plan decode to, for a parsed document: an added file its lines with a final newline, an edited one the old lines with the hunks' blocks replaced under the same mark, newline and final newline, a deleted or moved path nothing |
| PatchPlan.PlanFitsFiles | agent/src/codito_agent/patching.py:559-669 | a plan touches exactly the declared paths, and each declared hash is the hash of the file it was made for |
| PatchPlan.LegacyHashesAgree | agent/src/codito_agent/patching.py:850-864 | the hashes an older manifest implies through its stored result are the hashes of the planned contents |
| PatchPlan.EditTouches | agent/src/codito_agent/patching.py:580-668 | one section changes exactly its own paths, whose present hashes are the declared ones |
| PatchJournal.RestoreAllEffect | agent/src/codito_agent/patching.py:877-926 | whatever an outside writer left: rollback puts every path back to its original except those whose content is neither original nor desired or whose backup is gone, leaves those alone, reports exactly those, and touches nothing else |
| PatchJournal.RestoreRestartable | agent/src/codito_agent/patching.py:877-926 | rerunning a rollback that stopped anywhere gives the same files and the same report |
| PatchView.WriteAhead | agent/src/codito_agent/patching.py:671-768 | a file that differs from the visible files is covered by exactly one active manifest, which is durable and committing, with its original in an intact backup and its new content the desired one, while the row is still running |
| PatchView.StaleRowIsSafe | agent/src/codito_agent/patching.py:544-557 | a running row without a manifest of its key stands for a patch that changed no file: deleting it changes nothing visible |
| PatchView.RollbackSucceeds | agent/src/codito_agent/patching.py:877-926 | without an outside writer the rollback of an active transaction refuses no path and puts exactly its own paths back to the visible files |
| PatchView.PartialRollback | agent/src/codito_agent/patching.py:877-926 | a rollback that stopped anywhere has not changed what is visible, and has put no file out of place |
| PatchView.Opened | agent/src/codito_agent/patching.py:720-738 | the prepared manifest of a patch that clashes with no unfinished journal opens a transaction without a visible change |
| PatchView.FileReplaced | agent/src/codito_agent/patching.py:742-750 | replacing one file under a committing manifest is no visible change |
| PatchView.CommitPoint | agent/src/codito_agent/patching.py:751-753 | writing the committed manifest is the one write that makes all new contents and the result visible |
| PatchView.Closed | agent/src/codito_agent/patching.py:754-768 | removing the journal of an undone patch is no visible change |
| PatchView.CommittedRowWritten | agent/src/codito_agent/patching.py:464-475 | writing the succeeded row of a committed patch is no visible change |
| PatchView.CommittedClosed | agent/src/codito_agent/patching.py:928-944 | once its row says so, removing the journal of a committed patch is no visible change |
| PatchView.AtRest | agent/src/codito_agent/patching.py:974-992 | when no file of an active transaction is out of place, the files on disk are the visible files |
| PatchService.PatchService.PutIdempotency | agent/src/codito_agent/db.py:1029-1087 | a row is written unless the key belongs to a different request or caller |
| PatchService.PatchService.Restore | agent/src/codito_agent/patching.py:877-926 | the rollback loop is the specified rollback when no write is refused; if it dies, every path is as found or already restored; if a file is refused it raises, every path it does not report is restored and every reported one is as found; it may also raise at its last manifest, with every path restored |
| PatchService.PatchService.Rollback | agent/src/codito_agent/patching.py:754-756 | undoing an active transaction puts its files back and marks it, or dies or is refused with nothing visible changed; refused only its last manifest, its files are in place |
| PatchService.PatchService.RecoverTransaction | agent/src/codito_agent/patching.py:928-972 | on any disk, an unfinished journal ends exactly as Recovered says and a committed one with its succeeded row, unless the recovery dies or is refused; on a consistent disk nothing visible changes either way |
| PatchService.PatchService.Recover | agent/src/codito_agent/patching.py:974-992 | with any number of unfinished journals, a recovery that does not complete leaves the service down with nothing visible changed; when it completes the files are the visible files, no manifest is active, none is left but in directories that could not be removed, and the succeeded rows are exactly the applied patches with their results; without a fault it completes and leaves no manifest |
| PatchService.PatchService.ReconcileIncompleteAttempt | agent/src/codito_agent/patching.py:481-557 | a redelivery's attempt is finished or undone, also after its refused rollback; afterwards no manifest of its key is active and the key has no row or a succeeded one, still of the same request |
| PatchService.PatchService.ForgetStaleRow | agent/src/codito_agent/patching.py:544-557 | a running row of a key without a manifest goes, and an applied key keeps its row |
| PatchService.PatchService.BackUp | agent/src/codito_agent/patching.py:690-719 | one backup and manifest line more, for a path that is still unchanged |
| PatchService.PatchService.ReplaceFiles | agent/src/codito_agent/patching.py:742-750 | the files reach their new contents one by one, with nothing visible changed at any point |
| PatchService.PatchService.Stage | agent/src/codito_agent/patching.py:684-740 | backups and manifest are durable before any file changes; if it raises, no file is out of place and nothing is left but a directory that could not be removed |
| PatchService.PatchService.Seal | agent/src/codito_agent/patching.py:751-753 | the committed manifest makes the whole patch visible, or nothing happened |
| PatchService.PatchService.Commit | agent/src/codito_agent/patching.py:671-768 | a commit makes exactly the planned patch visible; or raises with nothing visible changed, and with its files in place unless undoing them was refused; or dies with nothing visible changed; no other path and no other journal is touched; without a fault it succeeds if and only if every file is what its declared hash says, and else raises the conflict |
| PatchService.PatchService.LookUp | agent/src/codito_agent/patching.py:373-404 | a key answers with its stored result only to the same request of the same caller, and then at once; without an answer the key was never applied; no file is put out of place; a running row is an unknown outcome, or reconciled without a fault the applied result or none |
| PatchService.PatchService.ReconcileDuplicate | agent/src/codito_agent/patching.py:270-331 | a duplicate gets its stored or recovered result, or the proof that the key was never applied, and without a fault always one of the two; a rollback of it that was refused is made good, so that the files are the visible files when only its journals were active |
| PatchService.PatchService.Apply | agent/src/codito_agent/patching.py:333-479 | a call changes nothing visible or applies one whole preflighted patch whose key is new; its answer is the stored result; unless it dies or its rollback is refused, no file is put out of place; without a fault its answer is the one its key, its document, its preflight and the journals call for, and a fresh patch that fits and clashes with no journal is applied, with its contents on disk |
| PatchService.PatchService.ApplyAndRecover | agent/src/codito_agent/patching.py:333-479 | crash atomicity: a call that may die or be refused anywhere, then any number of recoveries that may die or be refused anywhere; once one completes, every path is as visible before and the key's success unchanged, or every touched path is as desired and the row holds the patch's result; without a fault the first recovery completes |
| PatchService.PatchService.Run | agent/src/codito_agent/patching.py:333-557 | over any sequence of calls, reconciliations and restarts with any faults, also after refused rollbacks, up to the first patch that would go over an unfinished journal: the visible state is that of a log of patches applied whole and in order, every answer ever given is still the stored one, and every call without a fault gets the answer that what it found calls for |
| PatchService.ResultReports | agent/src/codito_agent/patching.py:416-434 | a result reports its request and, for every section, the change that the section stands for, with the hashes of the old and the new content |
| PatchService.EffectShows | agent/src/codito_agent/patching.py:333-479 | at every path its sections mention, a patch that took effect leaves what the section says of the file that was there; every other path is as it was |
| PatchService.NoBlocks | agent/src/codito_agent/patching.py:684-740 | a journal stands in the way of a patch if and only if it is unfinished and of its key, or active and covers one of its paths |
| PatchService.OnceOnly | agent/src/codito_agent/patching.py:371-404 | in any such log no key occurs twice and none was applied before; the stored result of a key is that of its entry |
| PatchService.StoredKeys | agent/src/codito_agent/patching.py:371-404 | the stored results are exactly those from before and those of the log |
| PatchService.StoredStays | agent/src/codito_agent/patching.py:371-404 | a stored result never changes |
| PatchService.LastPatchWins | agent/src/codito_agent/patching.py:742-753 | a path holds what the last patch of the log that touched it wanted, or what it held at the start |
| PatchService.PatchService.CarryOut | agent/src/codito_agent/patching.py:742-768 | from a committing manifest to the committed one, or back |
| PatchService.PatchService.ReconcileJournal | agent/src/codito_agent/patching.py:521-540 | one journal of the request's key is finished or undone |
| PatchPlan.PlanIsLocal | agent/src/codito_agent/patching.py:559-669 | whether a patch fits and what it plans depend on the files at its declared paths only |
| PatchLeftover.LaterPatchSurvives | agent/src/codito_agent/patching.py:877-972 | a patch applied over an unfinished journal stays applied through its recovery, files and result, if and only if it wants the original or a refused content at every path the journal would put back, and has another key unless the recovery is blocked |
| PatchLeftover.LaterFilesStay | agent/src/codito_agent/patching.py:877-926 | with any number of covered paths: its files stay if and only if each covered path wants the original or is refused |
| PatchLeftover.LaterPatchBlocks | agent/src/codito_agent/patching.py:877-922 | the recovery reports an error if and only if at some covered path the later patch wants neither the original nor what the journal wanted, and some content |
| PatchLeftover.SurvivorIsHarmless | agent/src/codito_agent/patching.py:754-768 | recovering a journal that outlived its transaction changes nothing visible if and only if it has nothing left to put back and, unless its recovery is blocked, its key has not been applied since |
| PatchLeftover.AppliedPatchUndone | agent/src/codito_agent/patching.py:903-926 | after a refused rollback of a replaced file, a real patch that deletes the file succeeds; the next recovery brings the file back without an error, and the patch stays recorded as applied |
| PatchLeftover.RetryIsUndone | agent/src/codito_agent/patching.py:923-926 | after a rollback refused only its last manifest, the same patch tried again succeeds and the next recovery undoes it without an error, files and row |
| PatchLeftover.RetrySurvives | agent/src/codito_agent/patching.py:453-476 | such a retry leaves exactly the state in which a journal survived and its key has been applied since |
| PatchLeftover.OverlapEndsElsewhere | agent/src/codito_agent/patching.py:974-992 | two dead transactions over one path: two recoveries in one order end at the original, in the other at a content of neither view, without an error |
| OperationStore.OperationStore.RecordReceived | agent/src/codito_agent/db.py:653-772 | a receipt is inserted once; a repeat must agree in every binding and not step back an epoch; everything else is a conflict that writes nothing |
| OperationStore.OperationStore.TransitionOperation | agent/src/codito_agent/db.py:774-808 | a transition is refused exactly out of a terminal state into another one, and a terminal result counts as unacknowledged; a terminal transition without a result, which no caller makes, clears the stored one |
| OperationStore.OperationStore.ListUnacknowledgedTerminals | agent/src/codito_agent/db.py:821-838 | exactly the terminal rows with a result that nobody acknowledged |
| OperationStore.OperationStore.AcknowledgeTerminal | agent/src/codito_agent/db.py:959-991 | exactly the terminal rows with this correlation, digest and these bindings are marked |
| OperationStore.AdvancesFurther | agent/src/codito_agent/db.py:653-838 | what every transaction keeps, any sequence of them keeps: rows, receipts, terminal states, results |
| TunnelBudgets.EveryTaskIsMetered | agent/src/codito_agent/websocket_client.py:59-88 | over every run and whatever the two clocks say, each task's deadline on the loop's clock is at most the arrival of some delivery of its envelope plus the wire duration of that envelope |
| TunnelSafety.EveryRunIsSafe | agent/src/codito_agent/websocket_client.py:266-608 | over every run: an uncertain operation's handler is entered at most once, a live task is the only one of its operation, tasks and budgets stay within the limit |
| TunnelSafety.RunsHandleOnce | agent/src/codito_agent/websocket_client.py:32-40 | for every operation classed uncertain the handler count is at most one over deliveries, redeliveries, breaks and crashes, and no handler runs without a journal row; tasks and budgets never exceed `max_pending` |
| TunnelSafety.RunsHaveOneLiveTask | agent/src/codito_agent/websocket_client.py:406-439 | two live tasks of one operation are the same task |
| TunnelSafety.DeliverKeepsSafe | agent/src/codito_agent/websocket_client.py:319-343 | admitting a delivery leaves room for its task and its budget |
| TunnelSafety.StartKeepsSafe | agent/src/codito_agent/websocket_client.py:450-482 | a task may start after the first journalling, or again for a certain operation without a live task |
| TunnelSafety.DecideKeepsSafe | agent/src/codito_agent/websocket_client.py:398-439 | acting on a row that may be out of date is safe |
| TunnelRows.EveryRunIsConsistent | agent/src/codito_agent/websocket_client.py:512-632 | over every run: a row has a result exactly when it is terminal; a task between its first and last transition has a running row; one about to publish has its result in the row; an operation given up on has no live task |
| TunnelRows.NoHandlerAfterTheEnd | agent/src/codito_agent/websocket_client.py:512-514 | no handler is entered for an operation whose row is terminal, and a task that starts on such a row ends at its first transition |
| TunnelOutcomes.EveryRunIsTold | agent/src/codito_agent/websocket_client.py:500-632 | over every run, each terminal row and each answer about to be stored or sent is the verdict on something that happened to its operation: its handler came back, its budget ran out before the handler was called, it could not be announced, or it was given up on |
| TunnelOutcomes.RowIsVerdict | agent/src/codito_agent/websocket_client.py:556-599 | a terminal row has the state and the durable answer that what ended its operation calls for: out of time means outcome unknown for an operation that may not be repeated and failed for any other, and every other end its own state and text |
| TunnelOutcomes.SucceededMeans | agent/src/codito_agent/websocket_client.py:536-555 | a succeeded row's handler answered in time, and that answer is the result |
| TunnelOutcomes.DeniedMeans | agent/src/codito_agent/websocket_client.py:571-585 | a denied row's handler said that approval was denied |
| TunnelOutcomes.UnknownMeans | agent/src/codito_agent/websocket_client.py:571-585 | an operation that may be repeated is of unknown outcome only if its handler said so |
| TunnelOutcomes.NotFailedByTime | agent/src/codito_agent/websocket_client.py:518-526 | an operation that may not be repeated never fails because its handler ran out of time |
| TunnelOutcomes.ReturnIsStored | agent/src/codito_agent/websocket_client.py:536-599 | when a handler comes back, with whatever and whenever, its verdict is stored and about to be sent |
| TunnelOutcomes.CalledWasAnnounced | agent/src/codito_agent/websocket_client.py:528-544 | no handler is called that was not announced while there was time |
| TunnelProgress.DeliveryMeans | agent/src/codito_agent/websocket_client.py:319-369 | a delivery is admitted if and only if there is room and it is in time, for its own project and granted; otherwise the first of these says which refusal is sent and remembered |
| TunnelProgress.NewIsStarted | agent/src/codito_agent/websocket_client.py:370-448 | a new operation is journalled, confirmed and started with the budget of its delivery |
| TunnelProgress.StartedIsHandled | agent/src/codito_agent/websocket_client.py:500-544 | a started task whose budget is not over announces itself and gets its handler, once |
| TunnelProgress.KnownIsDecided | agent/src/codito_agent/websocket_client.py:398-439 | a known operation is answered with its stored result, left to its live task, given up on, or started again, whichever applies first |
| TunnelProgress.GivenUpIsSaid | agent/src/codito_agent/websocket_client.py:610-632 | giving up stores and sends that the outcome is unknown |
| TunnelProgress.RetryBudgetMeans | agent/src/codito_agent/websocket_client.py:406-426 | a retry gets the least of a new delivery's budget, the time since the receipt and a budget that still counts, on each clock |
| TunnelProgress.AckTakesEffect | agent/src/codito_agent/websocket_client.py:275-303 | an acknowledgement that matches what was sent marks exactly the terminal rows it names and is forgotten; any other ends the connection |
| TunnelProgress.ConnectionListsOwed | agent/src/codito_agent/websocket_client.py:696-724 | a new connection takes the relay's epoch and turns to the results it owes |
| TunnelProgress.EndIsPublished | agent/src/codito_agent/websocket_client.py:594-608 | a result about to be sent is remembered and sent, its budget no longer counts, and the task goes |
| TunnelProgress.BrokenIsLeft | agent/src/codito_agent/websocket_client.py:146-206 | a broken connection is noticed and left, and a new one can be made; what is remembered and what runs stays |
| TunnelDelivery.EveryRunIsServed | agent/src/codito_agent/websocket_client.py:696-724 | over every run, on a working connection past its replay list: every result not yet acknowledged was sent in the current epoch or is about to be, and so was every result remembered only in memory |
| TunnelDelivery.ReplayListComplete | agent/src/codito_agent/websocket_client.py:696-724 | a fresh connection sends again every unacknowledged row and every remembered result without such a row, under the new epoch, and nothing else |
| TunnelDelivery.SettledConnectionSentAll | agent/src/codito_agent/websocket_client.py:696-724 | when no task is about to publish, every unacknowledged result has been sent in this epoch |
| TunnelDelivery.RowsOnlyAdvance | agent/src/codito_agent/db.py:653-838 | over every run, from any state: no row is lost or changes its receipt, and a terminal state is final |
| TunnelDelivery.AcknowledgedOnlyWhenReceived | agent/src/codito_agent/websocket_client.py:275-303 | from any state, a journalled result stays unacknowledged until an acknowledgement with its correlation, digest and bindings has come in, or one that was already being stored is |
| TunnelReceipts.AcknowledgedOnlyWhenSent | agent/src/codito_agent/websocket_client.py:275-303 | over every run in which the relay gives a name to one operation, acknowledges only what it was sent, and no delivery of the operation is refused: an acknowledged row's own result was sent |
| TunnelReceipts.NextKeepsFaithful | agent/src/codito_agent/websocket_client.py:275-448 | what every fair step keeps: once a result by the operation's name was sent or is in line, the row has its result, and the row's own result was sent first or is in line |
| TunnelReceipts.ListOwedKeepsFaithful | agent/src/codito_agent/websocket_client.py:696-724 | a fresh connection keeps this: a result not yet acknowledged is in its replay list |
| TunnelReceipts.NamedAckKeepsFaithful | agent/src/codito_agent/websocket_client.py:275-303 | an acknowledgement of something sent reaches the listening connection only after the row's own result was sent |
| TunnelLoss.LostExactlyByRefusal | agent/src/codito_agent/websocket_client.py:319-369 | after a fair run, a redelivery that comes in on a working connection while a task of the operation is in any phase before its end can lead to the result being acknowledged, never sent and forgotten, with nothing unfair from then on, if and only if it is refused and the result was not sent before |
| TunnelLosingRun.ResultLost | agent/src/codito_agent/websocket_client.py:319-343 | with room for one operation, any admissible operation redelivered while its handler runs: any answer can end stored, acknowledged, never sent, and in no replay list |
| TunnelDelivery.PublishKeepsServed | agent/src/codito_agent/websocket_client.py:594-608 | a finished operation's result is remembered and sent after it is stored |
| TunnelDelivery.TerminalizeKeepsServed | agent/src/codito_agent/websocket_client.py:610-632 | an uncertain operation given up on is stored first and then sent |
| TunnelBudgets.BudgetNeverResets | agent/src/codito_agent/websocket_client.py:406-426 | over every run with a wall clock that does not step back during receipt, every task's deadline is at most its wire deadline and at most the journalled receipt plus its delivery's wire duration |
| TunnelBudgets.FirstDurationBounds | agent/src/codito_agent/websocket_client.py:406-426 | when resends are stamped no earlier than the first delivery, no execution outlives the journalled receipt by more than the first wire duration |
| TunnelBudgets.EveryTaskWasDelivered | agent/src/codito_agent/websocket_client.py:450-482 | every task works on an envelope that came in |
| TunnelClient.DeviceClient.SendNew | agent/src/codito_agent/websocket_client.py:647-682 | a terminal result is remembered before it is sent; without a socket it is dropped, on a broken one it raises |
| TunnelClient.DeviceClient.StartDispatch | agent/src/codito_agent/websocket_client.py:450-482 | budget, task and current task of the operation change together |
| TunnelClient.DeviceClient.Deliver | agent/src/codito_agent/websocket_client.py:319-369 | pruning, the queue limits and the other refusals, in the source's order |
| TunnelClient.DeviceClient.Decide | agent/src/codito_agent/websocket_client.py:398-439 | resend, wait, give up or run again |
| TunnelClient.DeviceClient.ReceiveAck | agent/src/codito_agent/websocket_client.py:275-303 | an acknowledgement that does not match its result ends the connection |
| TunnelClient.DeviceClient.ListOwed | agent/src/codito_agent/websocket_client.py:696-724 | the replay list is gathered from the rows and the memory |
| TunnelClient.DeviceClient.Publish | agent/src/codito_agent/websocket_client.py:600-608 | the budget goes, the result is remembered and sent |
| TunnelClient.DeviceClient.Play | agent/src/codito_agent/websocket_client.py:146-206 | any run of the client is a run of the step machine, so it is safe, its owed results are sent or about to be, and what is acknowledged at the end of a fair run was sent |
| FrontendOwnership.EveryRunIsSound | agent/src/codito_agent/frontend_sessions.py:264-536 | over every run: ownership, exclusivity, reservations, live start keys, honest cleanups and capacity |
| FrontendOwnership.HeldHasOneOwner | agent/src/codito_agent/frontend_sessions.py:363-536 | a page or server is held open if and only if it has an owner, and the owner is exactly one start, session, closing record or cleanup |
| FrontendOwnership.ProjectsAreExclusive | agent/src/codito_agent/frontend_sessions.py:264-354 | a project has at most one session or closing record, and then no start and no cleanup; at most eight projects hold anything |
| FrontendOwnership.ShutdownIsFinal | agent/src/codito_agent/frontend_sessions.py:1229-1237 | after a shutdown no run ever adds a session or a start |
| FrontendOwnership.FailMovesResources | agent/src/codito_agent/frontend_sessions.py:483-508 | a failing start hands all it has to its cleanup |
| FrontendOwnership.CommitKeepsSound | agent/src/codito_agent/frontend_sessions.py:474-482 | registering moves page and server from the start to the session, or fails with them handed to a cleanup |
| FrontendOwnership.BeginCloseKeepsSound | agent/src/codito_agent/frontend_sessions.py:1129-1146 | closing takes over a live session's resources, and a failed close keeps what is left |
| FrontendOwnership.FinishCloseKeepsSound | agent/src/codito_agent/frontend_sessions.py:1148-1184 | a close ends only with nothing left to close |
| FrontendOwnership.StartRequestKeepsSound | agent/src/codito_agent/frontend_sessions.py:264-354 | answering a start request, or launching it, keeps exclusivity and capacity |
| FrontendOwnership.NoMoreProjectsThanRecords | agent/src/codito_agent/frontend_sessions.py:318-329 | counting records bounds the projects that hold one |
| FrontendReplies.EveryRequestIsAnswered | agent/src/codito_agent/frontend_sessions.py:264-354 | in every run exactly one answer to a start request fits what the manager holds, it is the one given, and it changes only what it says: launched if and only if the key is unknown, the project holds nothing, there is room and no shutdown |
| FrontendReplies.RunningMeans | agent/src/codito_agent/frontend_sessions.py:264-313 | in every run a session is handed out only to its own project, grant and link, while it is fit and over no older connection, and under a remembered key only to the request it was started or recovered with |
| FrontendReplies.ReusedKeyIsRefused | agent/src/codito_agent/frontend_sessions.py:269-272 | in every run a key known under another digest is a conflict, and nothing changes |
| FrontendReplies.DigestWasRequested | agent/src/codito_agent/frontend_sessions.py:264-354 | in every run the digest a key is known under is that of a request that was given a session or a start |
| FrontendProgress.StartBecomesSession | agent/src/codito_agent/frontend_sessions.py:440-482 | an undisturbed start that gets a server and a page becomes the session of its project, for its owner and under its request, with just these two |
| FrontendProgress.CloseFreesProject | agent/src/codito_agent/frontend_sessions.py:1129-1184 | closing a session without an error frees its page, its server, its start keys and its project |
| FrontendProgress.FailedStartLeavesNothing | agent/src/codito_agent/frontend_sessions.py:483-536 | a failed start whose cleanup meets no error leaves nothing |
| FrontendProgress.CancelledStartsNeverRegister | agent/src/codito_agent/frontend_sessions.py:1226-1237 | a lost connection or a shutdown cancels every pending start for good: in no run after it does one become a session |
| FrontendManager.FrontendSessionManager.StartSession | agent/src/codito_agent/frontend_sessions.py:264-354 | the answer and the new tables are those of the step machine, whose answers `FrontendReplies` characterises |
| FrontendManager.FrontendSessionManager.Acquire | agent/src/codito_agent/frontend_sessions.py:440-448 | an acquired server belongs to its start, or at once to its cleanup when the lifecycle has moved on |
| FrontendManager.FrontendSessionManager.CommitStart | agent/src/codito_agent/frontend_sessions.py:474-482 | session, project entry, start key and reservation change in one step |
| FrontendManager.FrontendSessionManager.FailStart | agent/src/codito_agent/frontend_sessions.py:485-508 | the exception handler and the finally block of a start |
| FrontendManager.FrontendSessionManager.BeginClose | agent/src/codito_agent/frontend_sessions.py:1129-1146 | the session leaves the live tables together with its start keys |
| FrontendManager.FrontendSessionManager.FinishCloseStep | agent/src/codito_agent/frontend_sessions.py:1148-1184 | the page, the server, the bookkeeping; what was closed is not closed again |
| FrontendManager.FrontendSessionManager.FinishPartialStep | agent/src/codito_agent/frontend_sessions.py:518-536 | the same for what a failed start left behind |
| FrontendManager.FrontendSessionManager.Play | agent/src/codito_agent/frontend_sessions.py:264-1237 | any run of the manager is a run of the step machine, so it is sound |
| FrontendSnapshots.EveryRunIsOrderly | agent/src/codito_agent/frontend_sessions.py:666-942 | over every run each snapshot lets at most one action complete or end unknown, and element ids and nodes stay mutual inverses |
| FrontendSnapshots.RepeatedRequestIsRefused | agent/src/codito_agent/frontend_sessions.py:881-942 | a request that took effect is never carried out again, however late it is repeated; once the table of 128 actions has forgotten it, it is refused as stale |
| FrontendSnapshots.IdsKeepTheirNode | agent/src/codito_agent/frontend_sessions.py:790-839 | however long a session goes on, while it still is at the snapshot that gave an element id, the id names the node it was given for |
| FrontendSnapshots.RegisterAllCovers | agent/src/codito_agent/frontend_sessions.py:666-684 | a capture registers exactly the nodes it resolved, each under one new id |
| FrontendSnapshots.ElementsName | agent/src/codito_agent/frontend_sessions.py:685-706 | each returned element names a captured node, and its parent another element or none |
| FrontendActs.CaptureIsComplete | agent/src/codito_agent/frontend_sessions.py:685-706 | a capture returns, in order, every element whose node the browser resolved, and nothing else |
| FrontendActs.AnswerMeans | agent/src/codito_agent/frontend_sessions.py:881-942 | an action reaches the browser if and only if its key is new, its snapshot the last one, of the document as it is, and its element in it; each other answer has its own cause |
| FrontendActs.RepeatIsAnsweredAlike | agent/src/codito_agent/frontend_sessions.py:881-942 | repeated within the next 127 effects, an action that took effect is answered as the first time and nothing happens, and its key used for another action is a conflict |
| FrontendActs.CaptureLetsActThrough | agent/src/codito_agent/frontend_sessions.py:666-942 | an action with a new key on an element of a fresh capture reaches the browser, and what the browser says is the answer |
| FrontendPage.FrontendSession.Snapshot | agent/src/codito_agent/frontend_sessions.py:666-706 | the two loops compute the registry and the elements of the capture |
| FrontendPage.FrontendSession.RequireSnapshot | agent/src/codito_agent/frontend_sessions.py:790-804 | only the last snapshot, of the document as it is now; one the page has left is forgotten |
| FrontendPage.FrontendSession.Inspect | agent/src/codito_agent/frontend_sessions.py:806-839 | inspecting checks the snapshot before and after the browser answers, names the element asked for or found, and registers a new node once |
| FrontendPage.FrontendSession.Perform | agent/src/codito_agent/frontend_sessions.py:881-942 | an action is answered from the table, refused, or carried out; afterwards the snapshot is spent |
| Cursors.Base64RoundTrip | agent/src/codito_agent/read_tools.py:67-117 | unpadded base64url decoding undoes encoding for every byte string (sections 3.2 and 5 of RFC 4648) |
| Cursors.CursorRoundTrip | agent/src/codito_agent/read_tools.py:67-81 | an offset cursor decodes to its offset |
| Cursors.SearchCursorRoundTrip | agent/src/codito_agent/read_tools.py:84-101 | a search cursor decodes to its pair |
| Cursors.ReadCursorRoundTrip | agent/src/codito_agent/read_tools.py:104-117 | a read cursor decodes to its pair and is never the empty cursor |
| ReadPaging.LongestFitting | agent/src/codito_agent/read_tools.py:376-382 | the binary search finds the longest prefix of a line that fits |
| ReadPaging.FitIsLongest | agent/src/codito_agent/read_tools.py:376-382 | fitting is exactly being no longer than that prefix |
| ReadPaging.TakePage | agent/src/codito_agent/read_tools.py:359-389 | the loop over lines returns the longest prefix of the text ahead that fits the page, and the position right after it |
| ReadPaging.ReadFile | agent/src/codito_agent/read_tools.py:320-392 | a request is refused for the source's reasons only; a request by lines gets as much of the text of exactly these lines as fits, with a continuation if and only if some of it is missing |
| ReadPaging.ReadScopedFile | agent/src/codito_agent/scoped_read_tools.py:152-230 | the same for the scoped reader, whose continuation also reports a limit of lines, and which raises exactly when the next character cannot fit |
| ReadPaging.KeptLinesMean | agent/src/codito_agent/read_tools.py:353 | the lines a reader counts are those of any split of the text into lines with their breaks |
| ReadPaging.FollowReadFile | agent/src/codito_agent/read_tools.py:352-392 | following the continuations ends with pages that fit and join to the whole text, if and only if no character is wider than a page |
| ReadPaging.FollowScopedFile | agent/src/codito_agent/scoped_read_tools.py:173-209 | the same for the scoped reader with any limit of lines a page; otherwise it ends with the size error |
| SearchPaging.PreviewFits | agent/src/codito_agent/read_tools.py:516-521 | a preview is the longest whole-character prefix of the line that fits |
| SearchPaging.SearchLines | agent/src/codito_agent/read_tools.py:511-539 | the line loop finds the next matches in order and stops right after the one that fills the page |
| SearchPaging.SearchProject | agent/src/codito_agent/read_tools.py:486-541 | a page holds the next matches, none lost or repeated, and ends early only at the limit or before a file that exceeds the byte budget; an invalid cursor is refused exactly when it is out of range |
| SearchPaging.SearchScoped | agent/src/codito_agent/scoped_read_tools.py:265-333 | the scoped search meets the same specification |
| SearchMeaning.MatchesMean | agent/src/codito_agent/read_tools.py:486-541 | the one-pass result tells, in order and once each, of exactly the matching lines of the readable files, by path, line, first matching column and preview |
| SearchPaging.FollowSearch | agent/src/codito_agent/read_tools.py:486-541 | following either search's continuations ends, the cursors strictly increase, and the pages join to the one-pass list of matches, for every limit |
| SemanticElements.Nearest | agent/src/codito_agent/frontend_playwright.py:862-874 | the walk ends on any parent links, cycles included, with the first proper ancestor in the set, or none exactly when there is none |
| SemanticElements.NearestIsUnique | agent/src/codito_agent/frontend_playwright.py:862-874 | there is at most one nearest ancestor |
| SemanticElements.AllPassed | agent/src/codito_agent/frontend_playwright.py:862-874 | a walk that meets a node again has passed every ancestor there is |
| SemanticElements.Candidates | agent/src/codito_agent/frontend_playwright.py:735-793 | each admissible node once, in layout order |
| SemanticElements.FilterMeans | agent/src/codito_agent/frontend_playwright.py:735-793 | the candidates stand in layout order, each where it comes up first |
| SemanticElements.AdmitAncestors | agent/src/codito_agent/frontend_playwright.py:834-844 | ancestors of one node are admitted while there is room, and all of them if room is left |
| SemanticElements.SelectPriority | agent/src/codito_agent/frontend_playwright.py:832-844 | the first priority nodes that fit, then candidate ancestors of priority nodes |
| SemanticElements.Select | agent/src/codito_agent/frontend_playwright.py:812-858 | exactly as many elements as the limit and the candidates allow, in layout order; none of a later rank while one of an earlier rank is dropped |
| SemanticElements.LinkParents | agent/src/codito_agent/frontend_playwright.py:876-880 | each parent link is the nearest selected proper ancestor |
| SemanticElements.AttributeTexts | agent/src/codito_agent/frontend_playwright.py:882-934 | each element gets, in layout order, exactly the visible texts it is the nearest selected ancestor of with no blocked tag in between |
| SemanticElements.BelongsToOne | agent/src/codito_agent/frontend_playwright.py:905-926 | a text belongs to at most one element |
| SemanticElements.TextsMean | agent/src/codito_agent/frontend_playwright.py:882-934 | the texts of an element are, in layout order, exactly those that belong to it |
| ShellLog.LogKeepsPrefix | agent/src/codito_agent/shell.py:713-726 | after any appends, chunks are numbered from one and join to the longest whole-character prefix of everything written that fits the limit |
| ShellLog.TruncatedExactly | agent/src/codito_agent/shell.py:713-726 | the flag is set if and only if something was dropped or an append came to a full log |
| ShellLog.TruncatedMeansDropped | agent/src/codito_agent/shell.py:713-726 | for appends that are not empty, if and only if something was dropped |
| ShellLog.ChunksComeFrom | agent/src/codito_agent/shell.py:713-726 | every chunk is the start of an output of its own, in their order and of the same stream, and is marked truncated if and only if it is not all of it |
| ShellLog.ShellJob.Append | agent/src/codito_agent/shell.py:713-726 | the log after one append |
| ShellLog.PollResult | agent/src/codito_agent/shell.py:795-823 | a page is the chunks after the cursor, as many as fit and at least one |
| ShellLog.PageDurableResult | agent/src/codito_agent/shell.py:826-854 | the stored pager gives such a page of any whole list of chunks |
| ShellLog.PollsAgree | agent/src/codito_agent/shell.py:795-854 | so the two pagers give the same page |
| ShellLog.FollowPolls | agent/src/codito_agent/shell.py:795-823 | polling a growing log yields every chunk once, in order |
| ShellLog.PollAll | agent/src/codito_agent/shell.py:795-823 | polling a finished log until there is no more ends, with the whole log |

## Left out

- PatchService.PatchService.Run: a patch that reaches its commit although an unfinished journal has its key or puts one of its paths back ends the run with `Clash`, where the code goes on; `PatchLeftover` says what becomes of it.
- PatchService.PatchService.RemoveDirectory: a transaction directory goes whole or stays whole; a manifest that survives without its backups is not modelled.
- PatchService: one project root with one patch at a time; the operation gate, the project locks, scope paths outside the project, pinned handles and root fingerprints are not modelled.
- PatchService.PatchService.Apply: base hashes come normalized, so the errors for malformed hashes and for invalid paths among them are not part of this model.
- PatchService.PatchService.Apply: an outside writer during the commit is not modelled; the rollback lemmas of PatchJournal cover one afterwards.
- PatchPlan: reparse points, handle identities and the resolver's other file system checks.
- PatchJournal: SHA-256 is injective; `_atomic_replace` and `_write_manifest` are atomic, and stray temporary files are ignored.
- RelativePath: letters are upper-cased as ASCII, so reserved names spelled with letters outside it are not modelled.
- OperationStore: SQLite tables are maps and each transaction is one step; the update times, the stored request text, the recent-activity list and the renaming of project ids are left out.
- Tunnel: tickets, signatures, backoff, heartbeats and project metadata; envelopes that fail validation or carry a foreign binding are one event that ends the connection.
- Tunnel: send sequence numbers, which the code resets after the socket is already in use.
- TunnelLoss.LostExactlyByRefusal: an answer that is the refusal word for word is set aside, since the relay then knows it.
- TunnelReceipts: that the relay gives a correlation, digest and bindings to one operation only, and acknowledges only what it was sent, is assumed of it.
- Tunnel: a stop of the agent is a death of the process.
- FrontendSessions: approvals, project checks and expiry are a yes or no given from outside; tombstones of stopped sessions and the reference counts of shared dev servers are left out.
- FrontendSessions: a start task that is cancelled before its first step never runs its `finally` block in the code, so its project stays reserved; here a start always runs, and a cancelled one frees its reservation.
- FrontendSessions: browser and server calls either give a resource, close one, or fail.
- FrontendSnapshots: the browser answers an action with no effect, done or unknown; styles, boxes and accessibility data of elements are left out, and so is the source lookup.
- Cursors: Python also accepts characters outside the alphabet, surrounding white space, signs, underscores and digits of other scripts in a cursor; the model refuses these.
- ReadPaging: detecting the encoding of a file and the numbered text; a file is its decoded text and the codec it is measured in.
- ReadPaging.ReadFile: a limit of lines is not reported by this reader's continuation, so its client is followed without one.
- SearchPaging: globs, regular expressions and case folding are a parameter that says whether and where a line matches; the list of files is fixed, and its sizes are the sizes read.
- SearchPaging: files that become unreadable between listing and reading.
- SemanticElements: which nodes are admissible, important or blocked is given; boxes, styles and the redaction of texts are left out.
- ShellLog: job states, processes and approvals, and the stored result's first page of 256 KiB.
- The desktop interface, screen capture, credentials, the updater and the relay server.
