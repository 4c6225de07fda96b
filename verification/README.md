# Verified models of the GB10 operations scripts

This project states and proves what seven parts of the repository do, over every crash
point, chunking, run, permutation or filesystem the code can meet.

| file | component |
|---|---|
| `ActivationTransaction.dfy` | the embedding activation transaction: three installed files, a transaction directory published by one rename, a phase automaton, rollback |
| `ManifestLength.dfy` | the four systemctl answers an activation captures, how they are parsed, and how many bytes of JSON they become in the manifest |
| `PaidLedger.dfy` | the paid-request collector: write-ahead intents, result rows, resume, a hard budget |
| `SseFramer.dfy`, `MarkerScan.dfy`, `ProcessClosure.dfy` | the loop-recovery smoke harness: the incremental event-stream framer, the chunked marker scan, process closures |
| `TrustedWalk.dfy` | the replay sandbox's bounded symlink walk, against section 4.13 of POSIX.1-2017 Base Definitions |
| `BoundedProcess.dfy`, `GenerationCleanup.dfy` | the bounded process runner and the generation-bound container cleanup |
| `RankMath.dfy`, `HeadConversion.dfy`, `ResponseNormalizer.dfy` | stable ranking, both Spearman implementations, the head rewrite, the response normaliser |
| `ReplayContract.dfy` | the replay producer and the checker that derives the same fields again |
| `Foundations.dfy` | options, bytes, step outcomes |

How failure is modelled. A step that touches the outside ends in `Ok`, `Raised` (an exception) or
`Died` (the process is gone), chosen freely, before or after its durable effect. Contracts hold for
every such choice. Where a method takes `calm`, the clauses under `calm` say what happens when nothing
outside goes wrong; they give the "exactly when" half of a statement. Fields marked `ghost` only record
history (phases and effects by transaction, fingerprints sent) so that it can be spoken about.

The centre of each part:

- Activation. `Host.Valid` says that a visible transaction is complete, still holds the exact prior
  bytes, mode or absence of all three files, that each installed file is its prior or the source, and
  that the history of phases and effects is sound; every step keeps it in every outcome. On top of it,
  `Rollback` and `Activate` are atomic seen past a pending rollback, `RunMany` lifts that to any sequence
  of activations that fail or die anywhere, and `RecoverMany` says exactly when interrupted recovery ends.
  Methods take the length of the manifest as a function of the prior files; `ManifestLength` gives it for
  every captured answer.
- Ledger. A fingerprint that was sent is guarded by its durable intent in every later state of the
  files, torn writes included, so nothing is sent twice over any number of runs; and because an answer
  without its row blocks every later run, all runs together overspend by at most one over-report.
- Framer. Feeding any chunking equals folding the line handler over the whole stream; a second,
  independent parser into events says exactly which streams are accepted, and gives meaning to the
  counters and to the client's flag.

Where the code does less than its documentation suggests, the model follows the code and the exact
condition is proved:

- For any list of markers, any file and any chunking, the scan counts nothing if and only if no marker occurs in
  the file with every piece written as many times in a row as that marker is listed
  (`MarkerScan.NothingCountedIff`). So a file in which no marker occurs is reported when a marker listed twice
  runs from its end on into its start (`MarkerScan.RepeatAlarm`). Counts are exact, for lists of unbordered
  markers, if and only if no marker of two or more bytes is repeated (`MarkerScan.ExactIffNoLongRepeat`); for one
  marker, if and only if it has no proper border (`MarkerScan.ExactIffUnbordered`).
- Exit 0 of the collector does not by itself mean a complete ledger. Together with a total within the budget it
  does if and only if nothing was left to send, or both files could be appended to, the labels of what was left
  are text, and neither these texts nor what is kept of the answers holds U+0085, U+2028 or U+2029
  (`PaidLedger.ExitZeroMeansComplete`). These three characters are written raw, and the line reader splits at
  them: such a row, from a document identifier, the instruction or the provider's request identifier, is in pieces when
  it is read back (`PaidLedger.SeparatorInLabelLost`, `PaidLedger.SeparatorInReplyLost`). A file without its last
  newline still loads, and the next append tears it (`PaidLedger.UnterminatedRowLost`); labels that are not text
  are stored and refused on reading (`PaidLedger.NonTextPlanLost`). Each of these runs exits 0 with a ledger no
  later run can load. A row with a status outside 100 to 599 blocks every later resume, and a complete ledger
  whose last response over-reported is not an exit 0.
- A rollback cannot end when the transaction's pending receipt differs from an older public receipt,
  or when the manifest is longer than it may be when read back; no recovery changes that
  (`ActivationTransaction.RecoverMany`). The first happens with ordinary inputs (`StuckByOlderReceipt`). The
  second cannot in production as long as the systemctl answers hold only printable ASCII other than quotes and
  backslashes (`ManifestLength.PlainManifestFits`, and `ActivationTransaction.RunMany` for all runs). It does with
  answers that each keep to their own limit and are full of any one-byte character that JSON escapes, be it a
  quote (`ManifestLength.SwollenManifest`, `StuckByLongManifest`).
- An error while the input of a command is closed, in the handler of another error, skips the reaping of its
  processes (`BoundedProcess.RunCommand`, `Cleanup.Skipped`); in every other case a command that is broken off is
  reaped.
- Exit code 0 of an activation is returned exactly when the flag that follows the commit was set and either
  nothing was raised after it or the handler could read the committed phase again. An error between the rename
  that makes the commit durable and that flag, and only that on an otherwise undisturbed host, makes it return
  1 although the commit stands (`ActivationTransaction.CommittedButOne`).
- The attested final path is the resolved path if and only if its root is its own resolved path; with an
  undeclared link above a root it is not (`TrustedWalk.UndeclaredLinkKept`).
- `make_encoding_record` accepts an empty prompt on the candidate track that the checker refuses
  (`ReplayContract.EmptyPromptIsRefused`). A batch ranked by scores finer than a stored cell is refused if and
  only if a row scores less than a later one and both are stored as the same number
  (`ReplayContract.SurvivesIffApart`, with a float32-sized case in `ReplayContract.FinerScoresRefused`).

## Model

| member | source | states |
|---|---|---|
| `ActivationTransaction.CommittedHistory` | scripts/gb10_embedding_activation_storage.py:157-166 | a legal phase history containing committed is exactly prepared, installed, reloaded, restarted, verified, committed |
| `ActivationTransaction.CommittedIsFinal` | scripts/gb10_embedding_activation_storage.py:258-262 | over a whole log: a transaction that ever committed went straight there, none of its backups was ever restored, and its durable phase is still committed |
| `ActivationTransaction.LogPhased` | scripts/gb10_embedding_activation_storage.py:258-262 | a legal phase write keeps every transaction's history legal and every committed one sealed |
| `ActivationTransaction.FaithfulLoads` | scripts/gb10_embedding_activation_storage.py:302-387 | a directory holding exact priors, sources and manifest passes the loader if and only if the manifest is within the read limit |
| `ActivationTransaction.LoadedIsWhole` | scripts/gb10_embedding_activation_storage.py:302-387 | whatever the loader accepts is whole: every source copy and every prior backup, or its absence, is what the manifest says, and the completeness receipt is the manifest's own |
| `ActivationTransaction.StagedIsFaithful` | scripts/gb10_embedding_activation_storage.py:402-455 | the staged directory, once complete, holds the exact prior or absence and the source of every file, in phase prepared |
| `ActivationTransaction.Host.SetPhase` | scripts/gb10_embedding_activation_storage.py:258-262 | refuses an illegal transition without effect; otherwise the new directory differs in the phase only, and the invariant is kept in every outcome |
| `ActivationTransaction.Host.InstallFile` | scripts/gb10_embedding_activation_storage.py:93-127 | one atomic replacement by the transaction's source: old file or new file, never another, invariant kept |
| `ActivationTransaction.Host.InstallSources` | scripts/gb10_embedding_activation_storage.py:512-537 | success installs all three sources; in every outcome the unit is only changed once core and wrapper are in place |
| `ActivationTransaction.SourceFilesAre` | scripts/gb10_embedding_activation_storage.py:212-217 | the installed sources have mode 0o644 for unit and core and 0o755 for the wrapper |
| `ActivationTransaction.Host.RestoreFile` | scripts/gb10_embedding_activation_storage.py:548-600 | one file gets exactly its prior bytes and mode or its absence, others stay |
| `ActivationTransaction.Host.RestoreAll` | scripts/gb10_embedding_activation.py:485-557 | success means all three installed files equal the prior; in every outcome core and wrapper are not put back before the unit is |
| `ActivationTransaction.Host.CleanupTransaction` | scripts/gb10_embedding_activation_storage.py:606-614 | the directory disappears at once or not at all; an existing tombstone refuses |
| `ActivationTransaction.Host.Prepare` | scripts/gb10_embedding_activation_storage.py:402-455 | a transaction becomes visible only complete, with the installed files as its prior; success exactly (on a calm host) for acceptable inputs |
| `ActivationTransaction.Host.WithdrawReceipts` | scripts/gb10_embedding_activation.py:558-591 | only a public receipt equal to the pending one is removed; a different one refuses |
| `ActivationTransaction.Host.Rollback` | scripts/gb10_embedding_activation.py:476-605 | whatever fails: a committed transaction is untouched; otherwise the transaction stays with the same prior and prospects, or it is gone and all three files are exactly as before; True only in the latter case; the public receipt is withdrawn only if it is the transaction's own, and no receipt changes before the prior files are back |
| `ActivationTransaction.Host.Forward` | scripts/gb10_embedding_activation.py:646-783 | in every outcome: a private receipt only from the verified phase on, a public one only beside the private one, and a durable commit only with both; the committed flag implies the durable phase; an error before the flag, on an otherwise calm host, leaves the commit without it |
| `ActivationTransaction.Host.Handle` | scripts/gb10_embedding_activation.py:784-801 | the exception path returns 0 if and only if this attempt set the flag and the phase could be read again, and never changes the settled files |
| `ActivationTransaction.Host.Activate` | scripts/gb10_embedding_activation.py:614-805 | changes nothing or installs all three sources, seen past a pending rollback; a commit of this attempt always has its public receipt; 0 if and only if the flag was set and nothing was raised after it or the handler read the phase again; on a calm host a commit happens exactly for acceptable inputs and is reported as 0 exactly when no error came before the flag; a stale transaction is only ever rolled back |
| `ActivationTransaction.RunMany` | scripts/gb10_embedding_activation.py:614-805 | over any sequence of activations failing or dying anywhere, the settled files are those of the last committed job; every exit 0 is such a job; the log stays sound; the public receipt is that of the last committed job, or withdrawn, or the pending one of a rollback still to do; with plain systemctl answers in production only conflicting receipts can stand in the way of a pending rollback |
| `ActivationTransaction.RecoverMany` | scripts/gb10_embedding_activation.py:632-645 | after any number of interrupted recoveries an undisturbed one restores the exact prior if and only if the manifest is readable and receipts do not conflict; otherwise the transaction stays forever |
| `ActivationTransaction.StuckByOlderReceipt` | scripts/gb10_embedding_activation.py:558-573 | a reachable state, from any acceptable inputs with plain answers, in which recovery can never end |
| `ActivationTransaction.StuckByLongManifest` | scripts/gb10_embedding_activation_storage.py:433-455 | for any production configuration and sources, and any one-byte character that JSON escapes, four accepted answers full of it give a published manifest that cannot be read back, in a state no recovery can end |
| `ManifestLength.ParseExactFields` | scripts/gb10_embedding_activation_checks.py:138-151 | takes an answer if and only if it is within 128 KiB, without NUL, and its lines are the expected fields, each once; the result maps each to its value |
| `ManifestLength.FittingParses` | scripts/gb10_embedding_activation_checks.py:138-151 | lines of just the expected properties, each once, short enough and without NUL, are taken, with every value as it stands |
| `ManifestLength.ManifestBound` | scripts/gb10_embedding_activation.py:389-436 | for every accepted capture in production, the manifest has at most 256 KiB more than the escaped text of its four answers |
| `ManifestLength.PlainManifestFits` | scripts/gb10_embedding_activation_storage.py:433-455 | in production, with answers of printable ASCII other than quotes and backslashes, a manifest that can be read back is written if and only if the answers are taken |
| `ManifestLength.SwollenManifest` | scripts/gb10_embedding_activation_checks.py:138-151 | for any production configuration and any one-byte character that JSON escapes and no line break is made of, there are accepted answers whose manifest is over the read limit |
| `ActivationTransaction.CommittedButOne` | scripts/gb10_embedding_activation.py:777-801 | from any settled state and acceptable sources, activate itself, with one error between commit and flag, leaves all three sources installed and committed and returns 1 |
| `PaidLedger.AppendDurable` | scripts/collect_reranker_cloud_baseline.py:263-300 | the write loop, taking any number of bytes at a time and stopping anywhere: success appends the whole record, any interruption leaves nothing, a fragment, all but the newline, or all of it |
| `PaidLedger.LoadResumeState` | scripts/collect_reranker_cloud_baseline.py:318-469 | accepts exactly loadable ledgers, every intent answered by a row, and returns their completed set, total and failures |
| `PaidLedger.ForeignRowRefused` | scripts/collect_reranker_cloud_baseline.py:341-429 | a row that differs from its plan in query, labels, pairs, estimate or fingerprint, or has a negative charge or a status outside 100 to 599, is refused |
| `PaidLedger.ForeignIntentRefused` | scripts/collect_reranker_cloud_baseline.py:431-469 | an intent of no plan, or that differs from its plan in query or estimate, is refused |
| `PaidLedger.BuildPlans` | scripts/collect_reranker_cloud_baseline.py:520-563 | accepts if and only if there is a group, none is empty and no two share a fingerprint under either schema; then the index agrees with the plans |
| `PaidLedger.GuardStays` | scripts/collect_reranker_cloud_baseline.py:431-469 | whatever an interrupted append leaves, a fingerprint's intent or the torn line in its place still blocks resending |
| `PaidLedger.SentIsCompleted` | scripts/collect_reranker_cloud_baseline.py:431-469 | in a loadable state a guarded fingerprint is completed, so its plan is skipped |
| `PaidLedger.Collector.Exchange` | scripts/collect_reranker_cloud_baseline.py:631-727 | the intent is whole and durable before the send, a row is begun only after an answer; what each outcome leaves in both files is stated; when nothing outside goes wrong the answer is recorded |
| `PaidLedger.Collector.Turn` | scripts/collect_reranker_cloud_baseline.py:631-760 | an answer of another status, with an unusable token count or invalid scores stops the run; one that has none of these faults stops it only when the rest no longer fits the budget; the charge is the reported count if it is positive and the estimate otherwise |
| `PaidLedger.Collector.TurnAll` | scripts/collect_reranker_cloud_baseline.py:615-760 | the loop ends early exactly by such a stop: while it goes on, every answer so far was good |
| `PaidLedger.EstimateMeaning` | scripts/collect_reranker_cloud_baseline.py:158-180 | every pair adds its query, its document, the instruction and 256 to the estimate, wherever it stands |
| `PaidLedger.Prepare` | scripts/collect_reranker_cloud_baseline.py:503-624 | a run is refused exactly for the first of: limits out of order, a plan or ledgers that cannot be used, a projected cost beyond the budget, a dry run, no key |
| `PaidLedger.Collector.Run` | scripts/collect_reranker_cloud_baseline.py:503-788 | a refused run changes nothing and exits 2, or after a dry run by its earlier failures; any other run satisfies RanTo, keeps sends distinct and guarded, and exits 0 exactly when it finished without earlier failures; a finished run has only answers of status 200 with a usable token count and valid scores, and a run stopped for an answer ends with one that is not; when nothing outside goes wrong it ends only finished, for an answer or for the budget |
| `PaidLedger.RunMany` | scripts/collect_reranker_cloud_baseline.py:503-788 | over any runs and crashes on one output path no fingerprint is sent twice |
| `PaidLedger.BudgetIsCapacity` | scripts/collect_reranker_cloud_baseline.py:586-597 | comparing tokens with the capacity is comparing their cost with the budget |
| `PaidLedger.SpendingBounded` | scripts/collect_reranker_cloud_baseline.py:682-748 | before every send, charged plus unfinished estimates cost at most the budget; the final cost exceeds it by at most the last response's over-report |
| `PaidLedger.RunExperiment` | scripts/collect_reranker_cloud_baseline.py:503-788 | over any runs of one experiment with one budget and price, dying anywhere, what was held at first and all charges ever sent cost at most the budget plus the over-report of a single response |
| `PaidLedger.EffectAccounts` | scripts/collect_reranker_cloud_baseline.py:431-469 | however one request ends, if the ledgers can be resumed their rows add up to everything charged |
| `PaidLedger.ResumeRefinesContinuing` | scripts/collect_reranker_cloud_baseline.py:292-429 | after a run whose requests were all answered the ledgers load if and only if what was sent was storable and every answer is readable, on one line and of a status from 100 to 599, and then hold exactly the live completed set, total and failures |
| `PaidLedger.ExitZeroMeansComplete` | scripts/collect_reranker_cloud_baseline.py:664-788 | every plan has a row and every row has status 200, an absent or numeric token count and valid scores, with a charged total within the budget, if and only if the run finished without failures, before it nothing was left to send or what was left could be stored on one line and read back, and what is kept of each answer stays on one line |
| `PaidLedger.CompleteByState` | scripts/collect_reranker_cloud_baseline.py:405-428 | a loadable ledger is complete in this sense if and only if the state a resume computes from it has every plan completed and no failure |
| `PaidLedger.UnterminatedRowLost` | scripts/collect_reranker_cloud_baseline.py:292-315 | for any two plans, a row left without its newline is resumed from, and the next answer gives a finished run without failures whose ledger never loads again |
| `PaidLedger.NonTextPlanLost` | scripts/collect_reranker_cloud_baseline.py:366-369 | for every plan whose labels are not text, a good answer gives a finished run without failures whose ledger never loads again |
| `PaidLedger.UnstorableAnswerLost` | scripts/collect_reranker_cloud_baseline.py:292-315 | for every plan and good answer of which one cannot be stored on one line and read back, the run finishes without failures and its ledger never loads again |
| `PaidLedger.SeparatorInLabelLost` | scripts/reranker_cloud_evidence.py:27-34 | the same at the label a U+2028 b, which is text and is written raw |
| `PaidLedger.SeparatorInReplyLost` | scripts/collect_reranker_cloud_baseline.py:472-484 | the same at a provider's field a U+2028 b, over any storable plan |
| `PaidLedger.StorableBeforehand` | scripts/collect_reranker_cloud_baseline.py:631-727 | for a finished run, what was sent was storable if and only if files, labels and kept texts show it before the run starts |
| `PaidLedger.CompleteButOverBudget` | scripts/collect_reranker_cloud_baseline.py:730-748 | a run stopped for the budget with a complete ledger has charged more than the budget |
| `PaidLedger.UnterminatedAppendBlocks` | scripts/collect_reranker_cloud_baseline.py:263-300 | appending to a nonempty file without its last newline makes it unloadable |
| `PaidLedger.StatusBlocksResume` | scripts/collect_reranker_cloud_baseline.py:341-429 | an appended row with a status outside 100 to 599 makes any ledger unloadable |
| `SseFramer.Framer.Feed` | scripts/llm_guard_proxy_loop_recovery_smoke.py:1796-1810 | the loop consumes exactly the complete lines of old buffer plus chunk, keeping a final CR |
| `SseFramer.ConsumeSplits` | scripts/llm_guard_proxy_loop_recovery_smoke.py:1796-1810 | consuming a prefix first and the rest later equals consuming the whole, also when cut between CR and LF |
| `SseFramer.FlushIsFold` | scripts/llm_guard_proxy_loop_recovery_smoke.py:1812-1820 | consuming a stream and flushing the tail equals folding over all its lines |
| `SseFramer.FrameChunks` | scripts/llm_guard_proxy_loop_recovery_smoke.py:1796-1820 | for every stream and chunking, feed and finish give the state of the whole stream split at CRLF, CR or LF |
| `SseFramer.SplitLinesMeaning` | scripts/llm_guard_proxy_loop_recovery_smoke.py:1796-1820 | for every text without CR and LF: a following CRLF, LF, or CR not before LF ends exactly this line; a tail without any is a line if it is not empty |
| `SseFramer.FieldLines` | scripts/llm_guard_proxy_loop_recovery_smoke.py:1784-1795 | event and data lines set type and data to what follows the colon, one space left out |
| `SseFramer.DataJoined` | scripts/llm_guard_proxy_loop_recovery_smoke.py:1697-1703 | several data lines make one text with line feeds between them |
| `SseFramer.Heartbeats` | scripts/llm_guard_proxy_loop_recovery_smoke.py:1755-1768 | a comment counts as a heartbeat when it starts with that word, with or without a space before it, and otherwise only as a comment |
| `SseFramer.OneEventAccepted` | scripts/llm_guard_proxy_loop_recovery_smoke.py:1697-1754 | a stream of one final event with an object, its lines ended by CRLF, is accepted with that payload; one error event is accepted as a failure |
| `SseFramer.DeltaContent` | scripts/llm_guard_proxy_loop_recovery_smoke.py:1697-1754 | the content of a delta of an ordinary event is kept |
| `SseFramer.FirstErrorStays` | scripts/llm_guard_proxy_loop_recovery_smoke.py:1693-1794 | the first protocol error survives every line and dispatch |
| `SseFramer.AcceptedStreamShape` | scripts/llm_guard_proxy_loop_recovery_smoke.py:1693-1794 | without protocol error: at most one final or error, final excludes DONE, only one DONE after an error follows a terminal, counters are the numbers of such events |
| `SseFramer.AcceptedIffWellFormed` | scripts/llm_guard_proxy_loop_recovery_smoke.py:1693-1794 | no protocol error if and only if the stream is only comments and plain events, or these, one intact terminal, and after it only empty lines and, after an error, one DONE line |
| `SseFramer.FlagMeansErrorThenDone` | scripts/llm_guard_proxy_loop_recovery_smoke.py:1935-1942 | for every stream the flag holds if and only if the stream is accepted and ends with one error object then one DONE after only comments and plain events |
| `MarkerScan.ScanCountMeaning` | scripts/llm_guard_proxy_loop_recovery_smoke.py:3704-3720 | for every chunking, zero if and only if the marker does not occur, and exact for an unbordered marker |
| `MarkerScan.OccurrencesAreCounted` | scripts/llm_guard_proxy_loop_recovery_smoke.py:3716-3720 | the number meant by exact is that of the positions at which the marker stands |
| `MarkerScan.ExactIffUnbordered` | scripts/llm_guard_proxy_loop_recovery_smoke.py:3716-3720 | exact on all files and chunkings if and only if the marker has no proper border |
| `MarkerScan.BorderedMiscount` | scripts/llm_guard_proxy_loop_recovery_smoke.py:3716-3720 | a bordered marker's own overlap counts once though it occurs twice |
| `MarkerScan.PiecesMeaning` | scripts/llm_guard_proxy_loop_recovery_smoke.py:3704-3720 | when no marker of two or more bytes is repeated, the shared dictionary of tails counts every marker as if scanned alone |
| `MarkerScan.LongRepeatMiscounts` | scripts/llm_guard_proxy_loop_recovery_smoke.py:3705-3720 | any list with a repeated marker of two or more bytes counts some file too high |
| `MarkerScan.ExactIffNoLongRepeat` | scripts/llm_guard_proxy_loop_recovery_smoke.py:3705-3720 | for any list of unbordered markers, all files and chunkings are counted exactly if and only if no marker of two or more bytes is listed twice |
| `MarkerScan.RepeatedMarkerFalseAlarm` | scripts/llm_guard_proxy_loop_recovery_smoke.py:3705-3720 | every marker of two or more bytes, listed twice, is reported in some file that lacks it |
| `MarkerScan.NothingCountedIff` | scripts/llm_guard_proxy_loop_recovery_smoke.py:3704-3720 | for any list, repeats and borders included, any file and any chunking: the count is zero if and only if no marker occurs in the file with every piece repeated as often as the marker is listed |
| `MarkerScan.RepeatAlarm` | scripts/llm_guard_proxy_loop_recovery_smoke.py:3705-3720 | whatever else is listed, a file in which no marker occurs is reported if a marker listed twice occurs in the file followed by itself |
| `MarkerScan.ScanFile` | scripts/llm_guard_proxy_loop_recovery_smoke.py:3704-3730 | a returned count covers exactly the stat size; it is zero if and only if no marker is seen in its repetition of the pieces, which without repeated long markers is the file itself; exact when also unbordered; growth, truncation and a changed file are refused |
| `ProcessClosure.DescendantProcesses` | scripts/llm_guard_proxy_loop_recovery_smoke.py:2806-2821 | on every table, cyclic or not, exactly the processes with a nonempty parent chain to the identity-checked root |
| `ProcessClosure.OwnedClosure` | scripts/llm_guard_proxy_loop_recovery_smoke.py:1432-1438 | the least set containing the seeds and closed under children |
| `ProcessClosure.OwnedProcesses` | scripts/llm_guard_proxy_loop_recovery_smoke.py:1405-1438 | the least set closed under children that holds every remembered or root process still the same by pid and start time, and every child of a supervisor |
| `TrustedWalk.Compose` | scripts/querit_replay_sandbox.py:183-276 | resolutions compose: a prefix's destination, then the rest, is the whole |
| `TrustedWalk.FollowLink` | scripts/querit_replay_sandbox.py:223-256 | a link is followed if and only if its text is in order and it stays under its root or is a declared last crossing to an attested root; following keeps the walk in step with ordinary resolution |
| `TrustedWalk.StepOf` | scripts/querit_replay_sandbox.py:214-276 | one name: refused, found, or passed exactly as the specification of where the names lead, staying in step with ordinary resolution |
| `TrustedWalk.Walk` | scripts/querit_replay_sandbox.py:204-276 | terminates by unused links then pending names; it ends exactly where trusted directories and at most eight distinct, permitted links lead, and that is where ordinary resolution leads; crossings declared, directories trusted |
| `TrustedWalk.AttestPythonPath` | scripts/querit_replay_sandbox.py:125-276 | accepted if and only if the declaration is sound, the root is attested, and from it the launcher reaches a trusted executable through trusted directories by at most eight distinct owned links, relative or absolute, each with canonical text and staying under its root or being a declared last crossing to an attested root; then launcher and final path resolve to the same executable through trusted directories, final is the resolved path if and only if its root is, and roots are crossed only by declared links |
| `TrustedWalk.LeadsIffRouted` | scripts/querit_replay_sandbox.py:204-276 | the walk finds a trusted executable at a path if and only if there is a list of hops to it: stretches of trusted directories joined by links that may be followed |
| `TrustedWalk.RelativeLinkRouted` | scripts/querit_replay_sandbox.py:223-256 | a launcher that is a relative link to a trusted executable in its own directory is accepted with that executable as final path |
| `TrustedWalk.RouteEnds` | scripts/querit_replay_sandbox.py:264-276 | what stands at the end of such a list is a regular file of an expected owner, executable, not writable by others, with one link and of 1 byte to 128 MiB |
| `TrustedWalk.DeclaredMeans` | scripts/querit_replay_sandbox.py:133-178 | a sound declaration has separate canonical roots, ancestors above them, and links from one root to another, none twice |
| `TrustedWalk.ReachesMeans` | scripts/querit_replay_sandbox.py:204-276 | ordinary resolution, with any number of steps, arrives nowhere else and goes through allowed directories only |
| `TrustedWalk.UndeclaredLinkKept` | scripts/querit_replay_sandbox.py:186-203 | a filesystem on which the accepted final path is not the resolved one |
| `BoundedProcess.Capture.Append` | scripts/gb10_bounded_process.py:271-284 | the capture is the stream's prefix up to the limit, flagged if and only if the stream is longer |
| `BoundedProcess.Pipe.Drain` | scripts/gb10_bounded_process.py:301-318 | a ready pipe yields between one byte and the read size, or closes at its end; otherwise nothing changes |
| `BoundedProcess.Command` | scripts/gb10_bounded_process.py:1747-1850 | returns only with all of stdout, both streams ended, exit zero and an empty last census; each failure only for its reason: output beyond the bound, processes left after both streams ended, the deadline, a nonzero exit, or text that is not UTF-8 |
| `BoundedProcess.SignalCleanup` | scripts/gb10_bounded_process.py:345-367 | the group and the scope, or without a scope the group and the descendants, each get just the given signal, the scope first if and only if it is killed; every attempt is made whatever fails, and the error of the first that failed is raised |
| `BoundedProcess.BoundedReap` | scripts/gb10_bounded_process.py:369-477 | under any errors SIGKILL is attempted on the group and on the scope or the descendants unless an unscoped TERM phase completed; survivors give a containment error naming the earliest error, else the earliest error of all steps is raised, else it returns normally |
| `BoundedProcess.EarliestMeaning` | scripts/gb10_bounded_process.py:381-383 | the earliest error is the first step that raised one |
| `BoundedProcess.RunCommand` | scripts/gb10_bounded_process.py:1720-1850 | the command with its nested handlers: the caller gets the first containment error if any step raised one, else the error of the final closing, else the latest error of loop and cleanups, else the result; a failure is cleaned up once, or twice exactly when the first cleanup raised, and is always reaped; reaping is skipped only after an error of the loop, when closing the input fails |
| `BoundedProcess.ContainmentIsFinal` | scripts/gb10_bounded_process.py:1799-1832 | a containment error reaches the caller if and only if the loop or a cleanup raised one: no later error hides it |
| `BoundedProcess.EndingCases` | scripts/gb10_bounded_process.py:1799-1848 | without a containment error the caller gets the closing error, else the cleanup's, else the loop's, else the failure |
| `BoundedProcess.OutputMeansNothingRaised` | scripts/gb10_bounded_process.py:1747-1850 | output is returned if and only if the run succeeded and neither loop, cleanups nor closing raised anything |
| `GenerationCleanup.Host.Cleanup` | scripts/gb10_verify_vllm_no_swap_core.py:1068-1147 | touches only the container whose full ID the cidfile holds; an irregular or shared cidfile changes nothing; no change before the stop; success leaves no name, ID or cidfile; succeeds (calm) exactly from ready states, which every outcome keeps |
| `GenerationCleanup.StillBoundOrGone` | scripts/gb10_verify_vllm_no_swap_core.py:1110-1147 | a stop or removal that touches nothing else leaves the container bound to its name, or all names free |
| `GenerationCleanup.InterruptedThenRerun` | scripts/gb10_verify_vllm_no_swap_core.py:1068-1147 | after any number of interrupted runs from a ready state an undisturbed one succeeds |
| `Ranking.StableOrderUnique` | scripts/embedding_endpoint_equivalence.py:173-178 | any descending order stable in the index is the same one |
| `Spearman.PermutationIdentity` | scripts/querit_legacy_canary_equivalence.py:704-712 | for a permutation, squared displacements from identity and from reversal add up to n(n*n-1)/3 |
| `Spearman.LegacyBounds` | scripts/querit_legacy_canary_equivalence.py:704-712 | on any two rankings of the same two or more distinct items the value is in [-1, 1], 1 iff equal, -1 iff reversed |
| `Spearman.LegacyIsCorrelation` | scripts/querit_legacy_canary_equivalence.py:704-712 | on any two rankings of the same two or more distinct items the value is the correlation of the two rankings |
| `Spearman.ImplementationsAgree` | scripts/embedding_endpoint_equivalence.py:180-187 | both implementations give the same value on all permutations |
| `Spearman.DocumentRankingsCompare` | scripts/embedding_endpoint_equivalence.py:173-187 | document rankings are permutations, so their coefficient is in range and 1 iff they are equal |
| `HeadConversion.ConversionPreservesMeaning` | scripts/querit_checkpoint_convert.py:98-134 | for every hidden vector the new sigmoid is the old second softmax component, and 2s-1 of it the legacy p1-p0 |
| `HeadConversion.ConversionKeepsOrder` | scripts/querit_openai_rerank_server.py:212-231 | both heads order any two documents alike, ties included |
| `HeadConversion.RewriteAccepts` | scripts/querit_checkpoint_convert.py:98-134 | exactly the BF16 heads of the two-class shapes without score tensors are rewritten, to a BF16 scalar head; every other tensor is kept |
| `HeadConversion.IndexIsRenamed` | scripts/querit_checkpoint_convert.py:61-95 | the rewritten index holds every old entry under its new name and no other |
| `HeadConversion.IndexAccepts` | scripts/querit_checkpoint_convert.py:61-95 | an index is rewritten exactly when it has the pinned total and both head tensors in the shard; the result has the other pinned total |
| `HeadConversion.RewritesStayInStep` | scripts/querit_checkpoint_convert.py:61-134 | index and shard keys that agreed before still agree after |
| `HeadConversion.SizeDeltaIsExact` | scripts/querit_checkpoint_convert.py:98-134 | the bytes removed are the difference of the two pinned totals |
| `HeadConversion.TotalStaysRight` | scripts/querit_checkpoint_convert.py:61-134 | an index whose total was the size of all tensors still has their size after both rewrites |
| `ResponseNormalizer.Pigeonhole` | scripts/querit_legacy_canary_equivalence.py:524-555 | n distinct positions below n leave none out |
| `ResponseNormalizer.ParseRows` | scripts/querit_legacy_canary_equivalence.py:524-555 | accepted if and only if cardinality, ranges, aliases and distinctness hold; every score stands at its index; the missing-position error cannot occur |
| `ResponseNormalizer.AcceptedRow` | scripts/querit_legacy_canary_equivalence.py:524-555 | a row is accepted if and only if one position below the count and one score in [-1, 1] account for all its fields |
| `ResponseNormalizer.NormalizeLegacy` | scripts/querit_legacy_canary_equivalence.py:513-562 | succeeds if and only if every list present is accepted and both agree document by document, with every score at its index |
| `ResponseNormalizer.RoundTrip` | scripts/querit_openai_rerank_server.py:323-340 | for every score list in [-1, 1] and every ranking permutation, normalising the rendered rows returns the list |
| `ResponseNormalizer.ServerRoundTrip` | scripts/querit_openai_rerank_server.py:323-340 | the same for the server's own stable ranking |
| `ResponseNormalizer.TruncatedRoundTrip` | scripts/querit_openai_rerank_server.py:323-334 | fewer rows than documents are always refused |
| `ResponseNormalizer.RenderedInOrder` | scripts/querit_openai_rerank_server.py:323-334 | rendered rows stand by descending score, equal scores by index, each under its own document's index and score |
| `ReplayContract.AcceptedIffMade` | scripts/querit_replay_schema.py:603-644 | a record passes the checker if and only if it is what the maker makes of its ids, uint32 on both sides, and a positive count |
| `ReplayContract.EncodedPasses` | scripts/querit_replay_runtime.py:248-269 | everything the runtime encodes passes, whatever the tokenizer returns |
| `ReplayContract.EncodeAccepts` | scripts/querit_replay_runtime.py:248-269 | the runtime encodes if and only if the packed ids end with the postprocessor's, have the length truncation gives and are uint32; the candidate track gets its anchor at the end |
| `ReplayContract.EmptyPromptIsRefused` | scripts/querit_offline_replay.py:220-239 | the maker accepts an empty candidate prompt that the checker refuses |
| `ReplayContract.ValidateEncodings` | scripts/querit_replay_schema.py:586-644 | accepts if and only if there are exactly 80 records, each right and of a known case, and none repeats; returns them by ID |
| `ReplayContract.Infer` | scripts/querit_replay_runtime.py:271-334 | width is the longest encoding; padding, positions and selected ids follow the track; an empty batch is an error |
| `ReplayContract.ExecuteSchedule` | scripts/querit_offline_replay.py:290-347 | succeeds if and only if no batch or row is refused and there are exactly 680 rows, and then gives every batch's rows in order, numbered throughout |
| `ReplayContract.ObservedNumbers` | scripts/querit_offline_replay.py:318-345 | a record stores the rounded logits and probabilities class by class and the rounded scores, under the batch, case, encoding and row they belong to |
| `ReplayContract.ValidateObservations` | scripts/querit_replay_schema.py:664-749 | accepts if and only if there are exactly 680 records with distinct IDs, every record is right in itself, and every group by batch ID passes |
| `ReplayContract.AcceptedRecord` | scripts/querit_replay_schema.py:664-722 | an accepted record has a known case and encoding, two logits, two probabilities in [0, 1], scores in [-1, 1], exact bits and a width that holds its ids |
| `ReplayContract.RecordIsDetermined` | scripts/querit_replay_schema.py:694-719 | identity, width, position, numbers and ranks leave nothing else of an accepted record open |
| `ReplayContract.BatchAcceptedIff` | scripts/querit_replay_schema.py:723-749 | a produced batch passes if and only if it has at most eight rows and rounding keeps their order |
| `ReplayContract.CollisionRefused` | scripts/querit_replay_schema.py:736-749 | for any scores, a collision makes the checker rank differently from the producer |
| `ReplayContract.SurvivesIffApart` | scripts/querit_replay_schema.py:736-749 | rounding keeps the stable order if and only if no earlier row scores less than a later one with both stored as the same number |
| `ReplayContract.GroupingIff` | scripts/querit_replay_schema.py:720-749 | grouping by ID finds each batch again; all pass if and only if IDs are distinct and each batch passes |
| `ReplayContract.ProducerMeetsChecker` | scripts/querit_replay_schema.py:664-749 | for any encodings, batches and widths every produced record passes; all together if and only if batch IDs are distinct, sizes at most eight, and no two scores of a batch collide when stored |
| `ReplayContract.ReplayAndCheck` | scripts/querit_offline_replay.py:290-347 | inferring, recording and checking any computed schedule: unless the producer refuses, the checker accepts if and only if the schedule is acceptable |
| `ReplayContract.Float32ScoresApart` | scripts/querit_replay_runtime.py:312-316 | scores that are float32 numbers never collide |
| `ReplayContract.FinerScoresRefused` | scripts/querit_replay_schema.py:148-155 | on the grid of float32 numbers from one half to one, one half and a quarter step above it collide |

## Left out

- JSON, SHA-256, regular expressions, shlex and float formatting: parsing and encoding are given functions, a digest stands for its content, ledgers are sequences of records, torn lines and missing newlines.
- systemd, Docker, cgroups, /proc, sockets and HTTP: free success or failure of a step; containers are a small state map in which a lookup by name or by full ID is exact.
- Power loss: `os.replace` is taken as durable once done; a raised fsync after it is modelled, a lost rename is not.
- Writers other than the activation itself to the installed files or the state directory while it holds its lock.
- Mode and owner checks of activation paths, verifier authority, generation and neighbour comparisons, and the verification receipt's contents: each is one free check at the place where the code makes it.
- Temporary-file cleanup completeness in the activation: staging and tombstone only; leftover `.tmp` files of single writes are not modelled.
- Host.Prepare: an unexpected staging directory of the same process id is refused as in the code, but directories of other process ids are one staging slot.
- The rounding of BF16, float32 and Python floats: exact reals; in the replay contract rounding is any idempotent, monotone function that fixes -1, 0 and 1.
- Collector.Run: cost is exact arithmetic on a price per million tokens, not floating point.
- RunCommand: writing the input and the progress callback, which are errors of the loop when they fail; refusals before the child is started; what the cleanup drains from the streams, which only shows in the text of an error.
- ParseExactFields: cutting an answer into lines and a line at its first equals sign; an answer is its lines, each ended by a newline, and a line of any other key is refused like one without an equals sign.
- PlainManifestFits: a configuration in production has four authority files, paths shorter than PATH_MAX and stat numbers of at most 29 digits; file names that are not UTF-8 are not modelled.
- BoundedReap: each poll advances the clock; PID reuse inside `_ProcessTree.scan` is not modelled, so a census is whatever the scan returned.
- AttestPythonPath: hashing of the executable, the time between check and use, and paths with a leading double slash.
- ExecuteSchedule: the opaque legacy score, which the checker ignores and which can also be refused.
- ValidateEncodings: the prompt digest and length fields, which are constants of the case.
- ScanFile: the deadline checks and the size limits across files.
- FaithfulLoads: the loader's checks of paths, identities and verifier authority against the configuration, which does not change within the model.
- RunExperiment: a request that was sent and never answered is charged nothing, since the collector never learns its charge.
- Cleanup: the refusal of unsafe container names and of unsafe cidfile paths; ready states are those of a safe name and path.
- NormalizeLegacy: the identifier and model fields of the response, which are one flag.
- Health checks, black-box logger, hang guard, image preparation, native-1024 canary, corpus download: plumbing that would only add easy members.
