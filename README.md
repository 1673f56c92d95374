# Configuration drift detection and self-remediation, modelled in Dafny

This project models the two parts of the platform that make decisions.

**The drift detector.** Each run compares what the detector observes now with the state saved by the previous run:
- checksums of the monitored files;
- `systemctl is-active` statuses of the monitored services;
- the installed packages;
- the `getent passwd` accounts.

It emits one detection per change, with a severity and a category. It then counts the detections by severity and by category. Its exit code says whether anything drifted.

**The remediation engine.** It reads the latest detection report and groups the detections by node. It remediates a canary subset of the nodes first. For each node it does the following:
- takes a backup;
- validates the node;
- dispatches each drift to the file, service, package or user handler;
- validates again, and rolls back on failure.

If the canaries' success rate reaches the threshold, the engine remediates the remaining nodes. Finally it aggregates its event log into a report.

Commands are treated as answers from the outside world. This covers `systemctl`, `apt`/`yum`/`dnf`, `id`, `userdel`, `useradd`, `cp`, `ansible-playbook`, `df` and `free`. The answers form a record (`Env`) of total functions, fixed per key (node, phase, service, command). Every command that changes the system is recorded in a `commands` trace, under the node of the drift it serves (most of them run on the engine's own host; see below). Later properties refer to this trace. Three examples:
- no admin user is ever deleted;
- an unmanaged file is never touched;
- an aborted node runs nothing.

Layout, one module per file:
- `wrappers.dfy` (`Wrappers`): `Option`.
- `seqs.dfy` (`Seqs`): two generic sequence facts the proofs share.
- `text.dfy` (`Text`): `startswith`, `split`, `strip` and `split(':')[0]` on strings.
- `tally.dfy` (`Tally`): the `d[k] = d.get(k, 0) + 1` counting loop, used by both programs.
- `drift_detector.dfy` (`DriftDetector`): the comparison functions, and the class `Detector`, whose methods append to `detections` and record the current state.
- `remediation_model.dfy` (`RemediationModel`): configuration, events, actions, the oracle record and the engine's state.
- `remediation_handlers.dfy` (`RemediationHandlers`): `create_backup`, `validate_node`, the four handlers, `rollback_node` and the dispatch of one drift, each as a function of the state.
- `remediation_node.dfy` (`RemediationNode`): `remediate_node` as a function of the state, with its properties.
- `remediation_rollout.dfy` (`RemediationRollout`), which covers:
  - grouping by node;
  - canary selection, the canary phase and its gate;
  - the full phase and `run`;
  - the report;
  - run-wide properties (admins kept, safe mode inert, each node remediated once).
- `remediation_engine.dfy` (`RemediationEngine`): the class `Engine`, with the engine's fields. Each method is proved to produce exactly the state and the return value that the matching function gives.
- `integration.dfy` (`Integration`): the detector's report read back by the engine.

## Code as written

Where the repository's design notes and the code disagree, the model follows the code.
- **Canary count truncates.** It is `max(1, int(n * pct / 100))` (`remediation_engine.py:101`), not a ceiling.
- **`failed_nodes` is never appended.** Python initialises it (`:39`) and nothing adds to it. So `total_nodes_failed` is always 0, and `run` returns True whenever the canary gate passes or there is nothing to do. This is proved by `RunOutcome` and `NoManualInterventionAfterRun`.
- **Zero-success nodes still count as remediated.** A node where no handler succeeded is still appended to `remediated_nodes` (`:449`), although `remediate_node` returns False. A node whose drifts were all of unknown types returns True.
- **`--safe-mode` does nothing.** It sets `config['remediation']['safe_mode']` (`:692`), and no code reads that key. `RunIgnoresSafeMode` proves that a run with the flag issues the same commands as a run without it.
- **Detections carry no node.** The detector never writes a `node` key, so the engine files every detection under `"unknown"` (`Integration.DetectionsGroupUnderUnknown`). On a detector report, `run` remediates that one node, or none (`Integration.RunOnDetectorReport`).
- **Handler commands run on the engine's own host.** Only `ansible-playbook` targets the node (`--limit node`, `remediation_engine.py:239`). `cp`, `systemctl`, `apt`/`yum`/`dnf`, `id`, `userdel` and `useradd` (`:230`, `:259-283`, `:308-330`, `:347-364`) run locally. The model keys each command and each answer by the drift's node, as the events are. So drifts on N nodes appear as commands on N nodes, where the code acts N times on one host.
- **The file handler backs up from the engine's own host.** `create_backup` copies local paths, not the node's. So "the backup holds this file" is an oracle answer `backedUp(node, path)`. It is consulted only once the backup directory of this run exists.

## Model

In the table, R stands for `control-VM/ansible-config-drift/remediation-system/scripts/remediation_engine.py` and D for `control-VM/ansible-config-drift/detection-system/scripts/drift_detector.py`. The source cells spell the paths out.

| member | source | states |
|---|---|---|
| Text.AnyPrefix | control-VM/ansible-config-drift/remediation-system/scripts/remediation_engine.py:219-220 | true iff some prefix of the list starts the string (`any(file_path.startswith(dir) ...)`) |
| Text.Split | control-VM/ansible-config-drift/detection-system/scripts/drift_detector.py:273 | `str.split` on one character: at least one part, no part holds the separator, and joining the parts with it gives the input back |
| Text.Before | control-VM/ansible-config-drift/detection-system/scripts/drift_detector.py:273 | `line.split(':')[0]`: a prefix of the line holding no `:`, which stops at the first `:` when there is one |
| Tally.HistogramCounts | control-VM/ansible-config-drift/remediation-system/scripts/remediation_engine.py:560-563 | the counting dictionary has exactly the values met as keys, and each count is the value's number of occurrences |
| Tally.Count | control-VM/ansible-config-drift/detection-system/scripts/drift_detector.py:357-368 | the counting loop leaves exactly the histogram of its input: keys are the values met, counts are their occurrences |
| DriftDetector.AssessSeverity | control-VM/ansible-config-drift/detection-system/scripts/drift_detector.py:314-338 | critical iff some critical prefix matches; high iff none does and some high prefix matches; medium iff neither kind matches |
| DriftDetector.Delta | control-VM/ansible-config-drift/detection-system/scripts/drift_detector.py:219-225 | added is exactly the names in current and not in previous; removed is exactly the names in previous and not in current; the two are disjoint; both are empty iff the sets are equal |
| DriftDetector.UsernamesAreFirstFields | control-VM/ansible-config-drift/detection-system/scripts/drift_detector.py:273 | the user names are exactly the text before the first `:` of the non-empty lines of the stripped output, and none holds `:` or a line break |
| DriftDetector.ExitCode | control-VM/ansible-config-drift/detection-system/scripts/drift_detector.py:623-626 | 1 iff at least one detection was produced, else 0 |
| DriftDetector.FileDetectionsExact | control-VM/ansible-config-drift/detection-system/scripts/drift_detector.py:111-131 | one detection per readable scanned file whose previous checksum exists and differs, carrying both checksums and the path's severity; no other detection |
| DriftDetector.RecordFilesKeys | control-VM/ansible-config-drift/detection-system/scripts/drift_detector.py:134-141 | every readable scanned file is recorded whatever the comparison said, and nothing else is added |
| DriftDetector.FileRecorded | control-VM/ansible-config-drift/detection-system/scripts/drift_detector.py:137-141 | every readable scanned file is recorded in the current state |
| DriftDetector.RecordedFromScan | control-VM/ansible-config-drift/detection-system/scripts/drift_detector.py:137-141 | a newly recorded checksum is one the scan met for that path |
| DriftDetector.ServiceDetectionsExact | control-VM/ansible-config-drift/detection-system/scripts/drift_detector.py:152-177 | one detection per service whose `systemctl` call did not raise and whose previous status exists and differs; its severity is high when the current status is not `active`, else medium |
| DriftDetector.RecordedStatus | control-VM/ansible-config-drift/detection-system/scripts/drift_detector.py:179-186 | a newly recorded status is one the check met for that service |
| DriftDetector.MembershipExact | control-VM/ansible-config-drift/detection-system/scripts/drift_detector.py:222-225 | the detections of a set difference are one per added name of the added kind and one per removed name of the removed kind, each once |
| DriftDetector.PackageDetectionsExact | control-VM/ansible-config-drift/detection-system/scripts/drift_detector.py:219-249 | `package_added` (medium) for exactly the current packages not previously installed, `package_removed` (high) for exactly the previous ones no longer installed, each once |
| DriftDetector.UserDetectionsExact | control-VM/ansible-config-drift/detection-system/scripts/drift_detector.py:273-303 | `user_added` (high) for exactly the new accounts, `user_removed` (critical) for exactly the vanished ones, each once |
| DriftDetector.FirstRunReportsOnlyAdditions | control-VM/ansible-config-drift/detection-system/scripts/drift_detector.py:117-303 | with no saved state, file and service checks report nothing, and every current package and user (when they could be read) is reported as added |
| DriftDetector.FirstRunExitCode | control-VM/ansible-config-drift/detection-system/scripts/drift_detector.py:623-626 | on a first run `main` returns 1 iff some package was listed or `getent` named some account |
| DriftDetector.NoFileDetections | control-VM/ansible-config-drift/detection-system/scripts/drift_detector.py:119 | no file changed against the saved checksums gives no file detection |
| DriftDetector.NoServiceDetections | control-VM/ansible-config-drift/detection-system/scripts/drift_detector.py:164 | no service changed against the saved statuses gives no service detection |
| DriftDetector.RescanFindsNoFileChange | control-VM/ansible-config-drift/detection-system/scripts/drift_detector.py:117-141 | comparing a scan with the checksums it recorded itself finds no change |
| DriftDetector.RecheckFindsNoServiceChange | control-VM/ansible-config-drift/detection-system/scripts/drift_detector.py:162-186 | comparing statuses with the ones recorded from them finds no change |
| DriftDetector.UnchangedSystemReportsNothing | control-VM/ansible-config-drift/detection-system/scripts/drift_detector.py:65-73 | a second run on an unchanged system, against the state the first run saved, detects nothing |
| DriftDetector.ServiceRecorded | control-VM/ansible-config-drift/detection-system/scripts/drift_detector.py:179-186 | every service whose `systemctl` call did not raise is recorded in the current state |
| DriftDetector.SeverityCountsAddUp | control-VM/ansible-config-drift/detection-system/scripts/drift_detector.py:357-361 | the critical, high and medium counts add up to the number of detections |
| DriftDetector.CategoryCountsAddUp | control-VM/ansible-config-drift/detection-system/scripts/drift_detector.py:364-368 | the four category counts add up to the number of detections |
| DriftDetector.SummaryAddsUp | control-VM/ansible-config-drift/detection-system/scripts/drift_detector.py:354-368 | the `by_severity` counts and the `by_category` counts each add up to `total_detections` |
| DriftDetector.Severities | control-VM/ansible-config-drift/detection-system/scripts/drift_detector.py:358-360 | the `severity` of each detection, position by position |
| DriftDetector.Categories | control-VM/ansible-config-drift/detection-system/scripts/drift_detector.py:365-367 | the `category` of each detection, position by position |
| DriftDetector.Detector.constructor | control-VM/ansible-config-drift/detection-system/scripts/drift_detector.py:30-52 | no detections, empty summary and recorded state, the given previous state |
| DriftDetector.Detector.CheckFileChanges | control-VM/ansible-config-drift/detection-system/scripts/drift_detector.py:94-146 | appends exactly the file detections of the scan, in scan order, and records every readable file |
| DriftDetector.Detector.CheckServiceStatus | control-VM/ansible-config-drift/detection-system/scripts/drift_detector.py:148-189 | appends exactly the service detections, in configuration order, and records every status read; a service whose `systemctl` call raised is neither detected nor recorded |
| DriftDetector.Detector.ReportMembers | control-VM/ansible-config-drift/detection-system/scripts/drift_detector.py:227-237 | the `for name in names` loop appends one detection per name, in some order, keeping what was there |
| DriftDetector.Detector.ReportDelta | control-VM/ansible-config-drift/detection-system/scripts/drift_detector.py:222-249 | the added loop then the removed loop: earlier detections kept, and exactly the detections of the set difference appended, as a multiset |
| DriftDetector.Detector.CheckPackageChanges | control-VM/ansible-config-drift/detection-system/scripts/drift_detector.py:191-259 | keeps earlier detections and appends exactly the package detections as a multiset; nothing at all when the package list could not be read |
| DriftDetector.Detector.CheckUserAccounts | control-VM/ansible-config-drift/detection-system/scripts/drift_detector.py:261-312 | keeps earlier detections, appends exactly the user detections as a multiset, and records the accounts; when `getent` raised, nothing is appended and `users` is not written |
| DriftDetector.Detector.RunChecks | control-VM/ansible-config-drift/detection-system/scripts/drift_detector.py:344-348 | the four checks in order: file and service detections first in order, then a block of the package detections and then a block of the user detections, each as a multiset |
| DriftDetector.ChecksAppendExpected | control-VM/ansible-config-drift/detection-system/scripts/drift_detector.py:340-348 | altogether the four checks append exactly the expected detections |
| DriftDetector.Detector.Summarize | control-VM/ansible-config-drift/detection-system/scripts/drift_detector.py:353-368 | `total_detections` is the number of detections; `by_severity` and `by_category` are their histograms |
| DriftDetector.Detector.RunDetection | control-VM/ansible-config-drift/detection-system/scripts/drift_detector.py:340-380 | the detections are exactly what the four comparisons give, the recorded state is the observed one, the summary counts them, and on a fresh detector the state saved for the next run is `SavedAfter` of the observations |
| RemediationHandlers.CreateBackupSpec | control-VM/ansible-config-drift/remediation-system/scripts/remediation_engine.py:109-142 | the backup directory exists afterwards even when the copy fails; `backup_created` iff the copy succeeds, else `backup_failed`; no command is run |
| RemediationHandlers.ValidateSpec | control-VM/ansible-config-drift/remediation-system/scripts/remediation_engine.py:144-213 | passes iff nothing raised, the results file was written and every required service is active (disk and memory never fail it); `None` iff a command raised or the write failed; the log gains `validation_{type}` unless a command raised, then `validation_failed` iff the result is `None` |
| RemediationHandlers.FileSpec | control-VM/ansible-config-drift/remediation-system/scripts/remediation_engine.py:215-253 | outside the five managed directories: False, no command; inside: exactly one command, the backup copy when this run's backup holds the file, else the content playbook, and True iff it succeeds |
| RemediationHandlers.ServiceSpec | control-VM/ansible-config-drift/remediation-system/scripts/remediation_engine.py:255-300 | already in the desired state: True, no command; otherwise True iff both transition commands succeed and the re-read status is the desired one; only those two commands can be run |
| RemediationHandlers.FirstSuccess | control-VM/ansible-config-drift/remediation-system/scripts/remediation_engine.py:313-316 | the index of the first manager whose command succeeds: every earlier one failed, and that one succeeded when it is in range |
| RemediationHandlers.FirstSuccessWins | control-VM/ansible-config-drift/remediation-system/scripts/remediation_engine.py:313-318 | the manager loop runs the commands up to and including the first success, changes nothing else, and succeeds iff some manager did |
| RemediationHandlers.PackageSpec | control-VM/ansible-config-drift/remediation-system/scripts/remediation_engine.py:302-340 | only appends to the log and the command trace |
| RemediationHandlers.PackageOutcome | control-VM/ansible-config-drift/remediation-system/scripts/remediation_engine.py:307-336 | True iff one of apt, yum, dnf succeeds; one to three commands are run, all of the requested kind for that package |
| RemediationHandlers.UserSpec | control-VM/ansible-config-drift/remediation-system/scripts/remediation_engine.py:342-370 | removal of a missing user or of a preserved admin: True without `userdel`; otherwise exactly one `userdel`/`useradd`, and True iff it succeeds |
| RemediationHandlers.RollbackSpec | control-VM/ansible-config-drift/remediation-system/scripts/remediation_engine.py:452-481 | fails without a backup directory; otherwise restores, and succeeds iff the restore does; one rollback event |
| RemediationHandlers.Dispatch | control-VM/ansible-config-drift/remediation-system/scripts/remediation_engine.py:393-416 | a result iff the type is one of the six known ones; only the log and the command trace grow |
| RemediationHandlers.DispatchMapping | control-VM/ansible-config-drift/remediation-system/scripts/remediation_engine.py:396-412 | `package_added` only removes, `package_removed` only installs, `user_added` only deletes, `user_removed` only adds, services are only started and enabled, unknown types run nothing |
| RemediationHandlers.DispatchKeepsAdmins | control-VM/ansible-config-drift/remediation-system/scripts/remediation_engine.py:352-356 | dispatching a drift never deletes a preserved admin user |
| RemediationNode.DriftsSpec | control-VM/ansible-config-drift/remediation-system/scripts/remediation_engine.py:393-422 | the drift loop only appends to the log and the command trace |
| RemediationNode.Successes | control-VM/ansible-config-drift/remediation-system/scripts/remediation_engine.py:440 | the success count is at most the number of results |
| RemediationNode.SuccessesCounts | control-VM/ansible-config-drift/remediation-system/scripts/remediation_engine.py:440 | `success_count` equals the number of results iff every result succeeded, and is positive iff some result succeeded |
| RemediationNode.ResultsFollowDrifts | control-VM/ansible-config-drift/remediation-system/scripts/remediation_engine.py:414-422 | one result per drift of a known type, in input order; none for unknown types |
| RemediationNode.DriftsKeepAdmins | control-VM/ansible-config-drift/remediation-system/scripts/remediation_engine.py:409-412 | the drift loop never deletes a preserved admin user |
| RemediationNode.Finish | control-VM/ansible-config-drift/remediation-system/scripts/remediation_engine.py:440-450 | the node is appended to `remediated_nodes` whatever the successes; True iff all or at least one result succeeded; `remediation_complete` iff all did |
| RemediationNode.FinishOutcome | control-VM/ansible-config-drift/remediation-system/scripts/remediation_engine.py:440-450 | the bookkeeping returns True iff there were no results or at least one drift was fixed |
| RemediationNode.FailedValidation | control-VM/ansible-config-drift/remediation-system/scripts/remediation_engine.py:427-433 | returns False with the results gathered, and only appends to the log and commands |
| RemediationNode.PreStage | control-VM/ansible-config-drift/remediation-system/scripts/remediation_engine.py:376-388 | the backup and pre-validation run no command, only grow the log and can add only this node's backup directory |
| RemediationNode.PostStage | control-VM/ansible-config-drift/remediation-system/scripts/remediation_engine.py:424-450 | post-validation, rollback and bookkeeping add at most this node to `remediated_nodes` and leave canary and failed lists unchanged |
| RemediationNode.NodeSpec | control-VM/ansible-config-drift/remediation-system/scripts/remediation_engine.py:372-450 | the node is started once; `remediated_nodes` gains at most that node; canary and failed lists are unchanged; log and commands only grow; only this node's backup directory can appear |
| RemediationNode.AbortRunsNothing | control-VM/ansible-config-drift/remediation-system/scripts/remediation_engine.py:377-388 | a failed backup or pre-validation returns False before any handler: no command, no result, `remediated_nodes` unchanged, last event `remediation_aborted` |
| RemediationNode.NodeResults | control-VM/ansible-config-drift/remediation-system/scripts/remediation_engine.py:390-422 | past the pre-checks, the results are the known drifts, in order |
| RemediationNode.PostValidationFailure | control-VM/ansible-config-drift/remediation-system/scripts/remediation_engine.py:425-433 | a failed post-validation returns False, leaves `remediated_nodes` alone, and rolls back iff `automatic_on_failure` |
| RemediationNode.NodeBookkeeping | control-VM/ansible-config-drift/remediation-system/scripts/remediation_engine.py:440-450 | otherwise the node is appended exactly once, and the result is True iff all or at least one drift succeeded |
| RemediationNode.AllUnknownSucceeds | control-VM/ansible-config-drift/remediation-system/scripts/remediation_engine.py:443-446 | a node whose drifts are all of unknown types and that passes its checks returns True with no result |
| RemediationNode.NodeKeepsAdmins | control-VM/ansible-config-drift/remediation-system/scripts/remediation_engine.py:353-356 | `remediate_node`, rollback included, never deletes a preserved admin user |
| RemediationRollout.FindNode | control-VM/ansible-config-drift/remediation-system/scripts/remediation_engine.py:637-639 | the position of the node in the grouping, or past the end when it is not yet a key; no earlier entry has that node |
| RemediationRollout.GroupingCorrect | control-VM/ansible-config-drift/remediation-system/scripts/remediation_engine.py:633-639 | one entry per node in order of first appearance, each holding exactly that node's detections in report order, none empty; a missing `node` is `unknown` |
| RemediationRollout.GroupsAreDistinctAndNonEmpty | control-VM/ansible-config-drift/remediation-system/scripts/remediation_engine.py:637-639 | the grouping's keys are distinct and every group has a detection |
| RemediationRollout.TruncDiv | control-VM/ansible-config-drift/remediation-system/scripts/remediation_engine.py:101 | `int()` of the quotient: truncation toward zero for either sign |
| RemediationRollout.CanaryCount | control-VM/ansible-config-drift/remediation-system/scripts/remediation_engine.py:101 | the canary count is at least 1 |
| RemediationRollout.SelectCanaryNodes | control-VM/ansible-config-drift/remediation-system/scripts/remediation_engine.py:95-107 | a prefix of the nodes: all of them when canary is disabled, else of length `min(n, max(1, int(n*pct/100)))`; non-empty for non-empty input |
| RemediationRollout.CanaryLoop | control-VM/ansible-config-drift/remediation-system/scripts/remediation_engine.py:494-508 | canaries without drifts are skipped and not counted; successes never exceed attempts; exactly the canaries with drifts are remediated |
| RemediationRollout.CanaryStep | control-VM/ansible-config-drift/remediation-system/scripts/remediation_engine.py:495-504 | a canary without drifts is logged and not counted; otherwise it is remediated (started once) and counted as attempted, its success counted at most once |
| RemediationRollout.CanaryStepCounts | control-VM/ansible-config-drift/remediation-system/scripts/remediation_engine.py:503-507 | a canary is counted as a success iff it had drifts and `remediate_node` returned True for it |
| RemediationRollout.GateIsRate | control-VM/ansible-config-drift/remediation-system/scripts/remediation_engine.py:509-515 | with attempts, the integer gate `s*100 >= threshold*t` is the percentage comparison `s/t*100 >= threshold` |
| RemediationRollout.CanarySpec | control-VM/ansible-config-drift/remediation-system/scripts/remediation_engine.py:483-520 | empty input: True, nothing changed; otherwise `canary_nodes` is the selection, exactly its nodes with drifts are remediated, and the result is the gate on the loop's success and attempt counts, logged as `canary_success` or `canary_failed` |
| RemediationRollout.CanaryGateBounds | control-VM/ansible-config-drift/remediation-system/scripts/remediation_engine.py:506-515 | on a report's grouping at least one canary is remediated, so a threshold of at most 0 always passes and one above 100 never does |
| RemediationRollout.FullLoop | control-VM/ansible-config-drift/remediation-system/scripts/remediation_engine.py:534-535 | `remediate_node` is called on exactly the given groups, in order |
| RemediationRollout.RemainingExact | control-VM/ansible-config-drift/remediation-system/scripts/remediation_engine.py:525-526 | the remaining groups are exactly the groups whose node is not a canary |
| RemediationRollout.RunSpec | control-VM/ansible-config-drift/remediation-system/scripts/remediation_engine.py:618-671 | `failed_nodes` is never changed by a run |
| RemediationRollout.RunOutcome | control-VM/ansible-config-drift/remediation-system/scripts/remediation_engine.py:622-671 | `run` returns True iff remediation is enabled, a report was loaded, and either nothing was detected or the canary gate passed |
| RemediationRollout.NoDetectionsNoChange | control-VM/ansible-config-drift/remediation-system/scripts/remediation_engine.py:641-643 | a report without detections changes nothing and returns True |
| RemediationRollout.GateFailureStopsRollout | control-VM/ansible-config-drift/remediation-system/scripts/remediation_engine.py:648-653 | when the gate fails, `run` returns False and only the canaries were remediated |
| RemediationRollout.CanariesHaveDrifts | control-VM/ansible-config-drift/remediation-system/scripts/remediation_engine.py:495-500 | on the grouping of a report, no canary is skipped for lack of drifts |
| RemediationRollout.FullAfterCanaries | control-VM/ansible-config-drift/remediation-system/scripts/remediation_engine.py:522-538 | after the canary phase, the full phase remediates exactly the nodes after the canaries, in map order, so no canary twice |
| RemediationRollout.RunRemediatesEachNodeOnce | control-VM/ansible-config-drift/remediation-system/scripts/remediation_engine.py:647-662 | when the gate passes, every node of the report is remediated exactly once, canaries first, in map order |
| RemediationRollout.RunKeepsAdmins | control-VM/ansible-config-drift/remediation-system/scripts/remediation_engine.py:352-356 | no command of a whole run deletes a user in `preserve_admin_users` |
| RemediationRollout.RunIgnoresSafeMode | control-VM/ansible-config-drift/remediation-system/scripts/remediation_engine.py:690-692 | a run with `safe_mode` set leaves the same state, commands included, and returns the same value as a run without it |
| RemediationRollout.ReportContents | control-VM/ansible-config-drift/remediation-system/scripts/remediation_engine.py:560-584 | `events_by_type` counts each event type of the log; `manual_intervention` iff nodes failed; `review_validation_thresholds` iff some `remediation_failed_validation` event was logged |
| RemediationRollout.NoManualInterventionAfterRun | control-VM/ansible-config-drift/remediation-system/scripts/remediation_engine.py:572-577 | a report after a run never asks for manual intervention |
| RemediationEngine.Engine.constructor | control-VM/ansible-config-drift/remediation-system/scripts/remediation_engine.py:30-46 | empty log and node lists, the given configuration and report |
| RemediationEngine.Engine.LogEvent | control-VM/ansible-config-drift/remediation-system/scripts/remediation_engine.py:67-93 | appends one event and changes nothing else |
| RemediationEngine.Engine.RunCommand | control-VM/ansible-config-drift/remediation-system/scripts/remediation_engine.py:215-370 | a handler's `subprocess.run` of a changing command: the command is appended to the trace and its success is the environment's answer |
| RemediationEngine.Engine.CreateBackup | control-VM/ansible-config-drift/remediation-system/scripts/remediation_engine.py:109-142 | new state and result are those of `CreateBackupSpec` |
| RemediationEngine.Engine.ValidateNode | control-VM/ansible-config-drift/remediation-system/scripts/remediation_engine.py:144-213 | the services loop computes that all required services are active; a failed write of the results file gives `None` after `validation_{type}`; new state and result are those of `ValidateSpec` |
| RemediationEngine.Engine.RemediateFileChanges | control-VM/ansible-config-drift/remediation-system/scripts/remediation_engine.py:215-253 | new state and result are those of `FileSpec` |
| RemediationEngine.Engine.RemediateServiceStatus | control-VM/ansible-config-drift/remediation-system/scripts/remediation_engine.py:255-300 | new state and result are those of `ServiceSpec` |
| RemediationEngine.Engine.RemediateUnauthorizedPackage | control-VM/ansible-config-drift/remediation-system/scripts/remediation_engine.py:302-340 | the loop over apt, yum, dnf stops at the first success; new state and result are those of `PackageSpec` |
| RemediationEngine.Engine.RemediateUnauthorizedUser | control-VM/ansible-config-drift/remediation-system/scripts/remediation_engine.py:342-370 | new state and result are those of `UserSpec` |
| RemediationEngine.Engine.RollbackNode | control-VM/ansible-config-drift/remediation-system/scripts/remediation_engine.py:452-481 | new state and result are those of `RollbackSpec` |
| RemediationEngine.Engine.RemediateDrift | control-VM/ansible-config-drift/remediation-system/scripts/remediation_engine.py:393-416 | one iteration of the drift loop: new state and result are those of `Dispatch` |
| RemediationEngine.Engine.PrepareNode | control-VM/ansible-config-drift/remediation-system/scripts/remediation_engine.py:376-388 | the backup and pre-validation stage, false when the node is aborted |
| RemediationEngine.Engine.CloseNode | control-VM/ansible-config-drift/remediation-system/scripts/remediation_engine.py:424-450 | the post-validation, rollback and bookkeeping stage |
| RemediationEngine.Engine.RemediateNode | control-VM/ansible-config-drift/remediation-system/scripts/remediation_engine.py:372-450 | the drift loop gathers the results of `DriftsSpec`; new state and result are those of `NodeSpec` |
| RemediationEngine.Engine.RemediateCanary | control-VM/ansible-config-drift/remediation-system/scripts/remediation_engine.py:495-504 | one canary: logged and not counted without drifts, else remediated and counted |
| RemediationEngine.Engine.RunCanaryRemediation | control-VM/ansible-config-drift/remediation-system/scripts/remediation_engine.py:483-520 | the canary loop's success and attempt counts and the gate on them; new state and result are those of `CanarySpec` |
| RemediationEngine.Engine.RunFullRemediation | control-VM/ansible-config-drift/remediation-system/scripts/remediation_engine.py:522-538 | the remaining nodes in map order, as `FullSpec`; always returns True |
| RemediationEngine.Engine.RemediateRemaining | control-VM/ansible-config-drift/remediation-system/scripts/remediation_engine.py:535 | one `remediate_node` call of the full phase, its result unused |
| RemediationEngine.Engine.RemediateGroups | control-VM/ansible-config-drift/remediation-system/scripts/remediation_engine.py:534-535 | the full-phase loop leaves exactly the state of `FullLoop` on the remaining groups |
| RemediationEngine.Engine.GroupDetections | control-VM/ansible-config-drift/remediation-system/scripts/remediation_engine.py:633-639 | the loop that builds `nodes_with_drifts` in place gives exactly `GroupByNode` |
| RemediationEngine.Engine.GenerateRemediationReport | control-VM/ansible-config-drift/remediation-system/scripts/remediation_engine.py:540-584 | the summary, the `events_by_type` histogram of the log and the recommendations of `ReportSpec`, without changing the state |
| RemediationEngine.Engine.Run | control-VM/ansible-config-drift/remediation-system/scripts/remediation_engine.py:618-671 | new state and result are those of `RunSpec` |
| Integration.ToDrift | control-VM/ansible-config-drift/detection-system/scripts/drift_detector.py:121-129 | a detection read back by the engine: its `type`, no `node`, and the one key (`file`, `service`, `package`, `user`) its type writes |
| Integration.AllUnderUnknown | control-VM/ansible-config-drift/remediation-system/scripts/remediation_engine.py:636 | drifts without a node form at most one group, `unknown`, holding all of them in order |
| Integration.DetectionsGroupUnderUnknown | control-VM/ansible-config-drift/remediation-system/scripts/remediation_engine.py:633-639 | the detector's detections all group under `unknown` |
| Integration.AllDetectionsKnown | control-VM/ansible-config-drift/remediation-system/scripts/remediation_engine.py:396-412 | every detector type is one the engine dispatches, so each detection yields a result |
| Integration.RunOnDetectorReport | control-VM/ansible-config-drift/remediation-system/scripts/remediation_engine.py:618-671 | on the detector's report, `run` calls `remediate_node` once, on `unknown`, when there are detections, and never otherwise |

## Left out

- External commands are replaced by oracle answers that are fixed per key. These are `systemctl`, the package managers, `id`, `userdel`, `useradd`, `cp`, `ansible-playbook`, `df`, `free`, `dpkg`/`rpm` and `getent`. Asking twice gives the same answer.
- File-system work is left out, because it is I/O:
  - the `copytree` backup and the `os.walk` restore;
  - `load_latest_detection` (which report is loaded is a parameter);
  - the `rglob` scan (the scanned files are a parameter);
  - checksums (opaque strings);
  - every JSON, Markdown and HTML file written;
  - logging.
- Time is not modelled:
  - the timestamps, remediation ids and free-text details of events;
  - the report's `metadata` and `duration_minutes`;
  - `time.sleep` after a service transition and before the full rollout (`wait_time_minutes`).
- The `--test` option of `main` is left out. It runs a fixed canary phase on sample data.
- `dpkg -l` / `rpm -qa` output parsing is left out. The installed packages are given as a list, or as `None` when no supported manager exists or reading them failed.
- Configuration values are integers where Python may read floats (`percentage`, `success_threshold`).
- RemediationRollout.GateIsRate: the gate is decided in exact arithmetic. Python's float division can differ at exact boundary ratios: `0.29 * 100` is below `29` in floating point.
- RemediationHandlers.FileSpec: a failure to launch `ansible-playbook` (the `file_remediation_error` path when the program is missing) is not modelled. A non-zero `cp` is.
- RemediationHandlers.ServiceSpec: a failure to launch `systemctl is-active` is not modelled. Non-zero `start`/`enable` commands are.
- RemediationHandlers.PackageSpec: a failure to launch a package command (`package_remediation_error`) is not modelled. Each command either returns 0 or not.
- RemediationHandlers.UserSpec: a failure to launch `id` is not modelled. A non-zero `userdel`/`useradd` is.
- A KeyError on a detection without `type` (or a `file_change` without `file`) is not modelled. The model takes both keys as present.
- The `previous_checksum` argument of `remediate_file_changes` is not modelled, because the handler never reads it.
- The detector's per-file exception handler around `stat()` is not modelled. It could record a detection but not the file. A scanned file is readable or not.
- The other scripts of the repository are not part of this model: the report API, the git audit trail, the simulators, the analysis script and the remediation validator.
