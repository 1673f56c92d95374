/** `remediate_node`: backup, pre-validation, one handler per drift,
    post-validation with an optional rollback, and the bookkeeping into
    `remediated_nodes`. */
module RemediationNode {
  import opened Wrappers
  import opened RemediationModel
  import opened RemediationHandlers

  /** One entry of `remediation_results`. */
  datatype DriftResult = DriftResult(drift: Drift, success: bool)

  /** The `for drift in drifts` loop. */
  function DriftsSpec(cfg: Config, env: Env, st: State, node: string, drifts: seq<Drift>): (r: (State, seq<DriftResult>))
    ensures OnlyAppends(st, r.0)
    decreases |drifts|
  {
    if drifts == [] then (st, [])
    else
      var (st1, results) := DriftsSpec(cfg, env, st, node, drifts[..|drifts| - 1]);
      var (st2, success) := Dispatch(cfg, env, st1, node, drifts[|drifts| - 1]);
      (st2, if success.Some? then results + [DriftResult(drifts[|drifts| - 1], success.value)] else results)
  }

  /** The drifts of the six known types, in input order. */
  function KnownDrifts(drifts: seq<Drift>): (r: seq<Drift>)
    ensures |r| <= |drifts|
    ensures forall d :: d in r <==> d in drifts && Known(d.kind)
  {
    if drifts == [] then []
    else KnownDrifts(drifts[..|drifts| - 1]) + (if Known(drifts[|drifts| - 1].kind) then [drifts[|drifts| - 1]] else [])
  }

  function ResultDrifts(results: seq<DriftResult>): seq<Drift> {
    seq(|results|, i requires 0 <= i < |results| => results[i].drift)
  }

  /** `sum(1 for r in remediation_results if r['success'])`. */
  function Successes(results: seq<DriftResult>): (n: nat)
    ensures n <= |results|
  {
    if results == [] then 0
    else Successes(results[..|results| - 1]) + (if results[|results| - 1].success then 1 else 0)
  }

  /** The count is the number of successful results: it is the length iff
      every result succeeded, and positive iff some result did. */
  lemma {:induction false} SuccessesCounts(results: seq<DriftResult>)
    ensures Successes(results) == |results| <==> forall i :: 0 <= i < |results| ==> results[i].success
    ensures Successes(results) > 0 <==> exists i :: 0 <= i < |results| && results[i].success
  {
    if results != [] {
      var init := results[..|results| - 1];
      SuccessesCounts(init);
      forall i | 0 <= i < |init| ensures init[i] == results[i] { }
    }
  }

  /** Every drift of a known type yields exactly one result, in input order,
      and unknown types yield none. */
  lemma {:induction false} ResultsFollowDrifts(cfg: Config, env: Env, st: State, node: string, drifts: seq<Drift>)
    ensures ResultDrifts(DriftsSpec(cfg, env, st, node, drifts).1) == KnownDrifts(drifts)
    decreases |drifts|
  {
    if drifts != [] {
      var init := drifts[..|drifts| - 1];
      ResultsFollowDrifts(cfg, env, st, node, init);
      var (st1, results) := DriftsSpec(cfg, env, st, node, init);
      var last := drifts[|drifts| - 1];
      var (st2, success) := Dispatch(cfg, env, st1, node, last);
      if success.Some? {
        assert ResultDrifts(results + [DriftResult(last, success.value)]) == ResultDrifts(results) + [last];
      }
    }
  }

  /** The loop never deletes an admin user. */
  lemma {:induction false} DriftsKeepAdmins(cfg: Config, env: Env, st: State, node: string, drifts: seq<Drift>)
    requires NoAdminDeleted(cfg, st.commands)
    ensures NoAdminDeleted(cfg, DriftsSpec(cfg, env, st, node, drifts).0.commands)
    decreases |drifts|
  {
    if drifts != [] {
      DriftsKeepAdmins(cfg, env, st, node, drifts[..|drifts| - 1]);
      var st1 := DriftsSpec(cfg, env, st, node, drifts[..|drifts| - 1]).0;
      DispatchKeepsAdmins(cfg, env, st1, node, drifts[|drifts| - 1]);
    }
  }

  // ---------------------------------------------------------------------------
  // The node pipeline

  /** The value `remediate_node` returns, the state after it, and the
      `remediation_results` it gathered. */
  datatype NodeOutcome = NodeOutcome(state: State, ok: bool, results: seq<DriftResult>)

  /** Backup, when configured. */
  function BackupStage(cfg: Config, env: Env, st: State, node: string): Outcome {
    if cfg.backupBeforeRemediation then CreateBackupSpec(env, st, node) else Outcome(st, true)
  }

  /** A validation, when configured; `Some(true)` means it passed. */
  function ValidationStage(enabled: bool, cfg: Config, env: Env, st: State, node: string, phase: Phase): (State, Option<bool>) {
    if enabled then ValidateSpec(cfg, env, st, node, phase) else (st, Some(true))
  }

  /** The closing bookkeeping: the node is appended to `remediated_nodes`
      whatever the successes; it counts as a success when every result, or at
      least one, succeeded. */
  function Finish(st: State, node: string, results: seq<DriftResult>): (r: NodeOutcome)
    ensures r.state.remediatedNodes == st.remediatedNodes + [node]
    ensures r.ok <==> Successes(results) == |results| || Successes(results) > 0
    ensures r.results == results
    ensures r.state.log == st.log + [if Successes(results) == |results| then Event("remediation_complete", node, Info) else Event("remediation_partial", node, Warning)]
    ensures r.state.commands == st.commands && r.state.canaryNodes == st.canaryNodes && r.state.failedNodes == st.failedNodes
    ensures r.state.started == st.started && r.state.backupDirs == st.backupDirs
  {
    var successCount := Successes(results);
    if successCount == |results| then
      NodeOutcome(Log(st, "remediation_complete", node, Info).(remediatedNodes := st.remediatedNodes + [node]), true, results)
    else
      NodeOutcome(Log(st, "remediation_partial", node, Warning).(remediatedNodes := st.remediatedNodes + [node]), successCount > 0, results)
  }

  /** The closing bookkeeping returns True iff there were no results or at
      least one drift was fixed. */
  lemma FinishOutcome(st: State, node: string, results: seq<DriftResult>)
    ensures Finish(st, node, results).ok <==> results == [] || exists i :: 0 <= i < |results| && results[i].success
  {
    SuccessesCounts(results);
  }

  /** After a failed post-validation: the event, then the rollback when
      `automatic_on_failure` is set. */
  function FailedValidation(cfg: Config, env: Env, st: State, node: string, results: seq<DriftResult>): (r: NodeOutcome)
    ensures OnlyAppends(st, r.state) && !r.ok && r.results == results
  {
    var failed := Log(st, "remediation_failed_validation", node, Error);
    NodeOutcome(if cfg.automaticOnFailure then RollbackSpec(env, failed, node).state else failed, false, results)
  }

  /** The checks before any handler runs: the backup and the
      pre-validation, when configured; `false` means the node was aborted. */
  function PreStage(cfg: Config, env: Env, st: State, node: string): (r: Outcome)
    ensures st.log <= r.state.log && r.state.commands == st.commands
    ensures r.state.canaryNodes == st.canaryNodes && r.state.failedNodes == st.failedNodes
    ensures r.state.remediatedNodes == st.remediatedNodes && r.state.started == st.started
    ensures st.backupDirs <= r.state.backupDirs <= st.backupDirs + {node}
  {
    var backup := BackupStage(cfg, env, st, node);
    if !backup.ok then Outcome(Log(backup.state, "remediation_aborted", node, Error), false)
    else
      var (st1, pre) := ValidationStage(cfg.preValidation, cfg, env, backup.state, node, PreRemediation);
      if pre != Some(true) then Outcome(Log(st1, "remediation_aborted", node, Error), false)
      else Outcome(st1, true)
  }

  /** The post-validation, and what follows it. */
  function PostStage(cfg: Config, env: Env, st: State, node: string, results: seq<DriftResult>): (r: NodeOutcome)
    ensures st.log <= r.state.log && st.commands <= r.state.commands
    ensures r.state.canaryNodes == st.canaryNodes && r.state.failedNodes == st.failedNodes
    ensures r.state.remediatedNodes in [st.remediatedNodes, st.remediatedNodes + [node]]
    ensures r.state.started == st.started && r.state.backupDirs == st.backupDirs
  {
    var (st1, post) := ValidationStage(cfg.postValidation, cfg, env, st, node, PostRemediation);
    if post != Some(true) then FailedValidation(cfg, env, st1, node, results)
    else Finish(st1, node, results)
  }

  /** `remediate_node`. */
  function NodeSpec(cfg: Config, env: Env, st: State, node: string, drifts: seq<Drift>): (r: NodeOutcome)
    ensures r.state.started == st.started + [node]
    ensures r.state.remediatedNodes in [st.remediatedNodes, st.remediatedNodes + [node]]
    ensures r.state.canaryNodes == st.canaryNodes && r.state.failedNodes == st.failedNodes
    ensures st.log <= r.state.log && st.commands <= r.state.commands
    ensures st.backupDirs <= r.state.backupDirs <= st.backupDirs + {node}
  {
    var pre := PreStage(cfg, env, st.(started := st.started + [node]), node);
    if !pre.ok then NodeOutcome(pre.state, false, [])
    else
      var (st1, results) := DriftsSpec(cfg, env, pre.state, node, drifts);
      PostStage(cfg, env, st1, node, results)
  }

  /** The configured validation of `phase` fails on `node`, or raises. */
  predicate ValidationFails(enabled: bool, cfg: Config, env: Env, node: string, phase: Phase) {
    enabled && (env.validationRaises(node, phase) || !env.resultsSaved(node, phase) || !AllActive(env, node, phase, cfg.requiredServices))
  }

  /** The node is given up before any handler runs. */
  predicate Aborts(cfg: Config, env: Env, node: string) {
    (cfg.backupBeforeRemediation && !env.backupSucceeds(node)) || ValidationFails(cfg.preValidation, cfg, env, node, PreRemediation)
  }

  /** A failed backup or a failed pre-validation returns False before any
      handler runs: no command is issued, no result is gathered, the node is
      not added to `remediated_nodes`, and the last event is
      `remediation_aborted`. */
  lemma AbortRunsNothing(cfg: Config, env: Env, st: State, node: string, drifts: seq<Drift>)
    requires Aborts(cfg, env, node)
    ensures var r := NodeSpec(cfg, env, st, node, drifts);
      && !r.ok && r.results == []
      && r.state.commands == st.commands
      && r.state.remediatedNodes == st.remediatedNodes
      && r.state.log[|r.state.log| - 1] == Event("remediation_aborted", node, Error)
  {
  }

  /** Past the pre-checks, the results are the known drifts in order. */
  lemma NodeResults(cfg: Config, env: Env, st: State, node: string, drifts: seq<Drift>)
    requires !Aborts(cfg, env, node)
    ensures ResultDrifts(NodeSpec(cfg, env, st, node, drifts).results) == KnownDrifts(drifts)
  {
    ResultsFollowDrifts(cfg, env, PreStage(cfg, env, st.(started := st.started + [node]), node).state, node, drifts);
  }

  /** A failed post-validation returns False and leaves `remediated_nodes`
      alone; the rollback runs iff `automatic_on_failure` is set, seen in the
      last event. */
  lemma PostValidationFailure(cfg: Config, env: Env, st: State, node: string, drifts: seq<Drift>)
    requires !Aborts(cfg, env, node) && ValidationFails(cfg.postValidation, cfg, env, node, PostRemediation)
    ensures var r := NodeSpec(cfg, env, st, node, drifts);
      && !r.ok
      && r.state.remediatedNodes == st.remediatedNodes
      && (cfg.automaticOnFailure <==> r.state.log[|r.state.log| - 1].kind in {"rollback_failed", "rollback_complete", "rollback_error"})
      && (!cfg.automaticOnFailure ==> r.state.log[|r.state.log| - 1] == Event("remediation_failed_validation", node, Error))
  {
  }

  /** Otherwise the node is appended to `remediated_nodes` exactly once, and
      `remediate_node` returns True iff every result or at least one succeeded. */
  lemma NodeBookkeeping(cfg: Config, env: Env, st: State, node: string, drifts: seq<Drift>)
    requires !Aborts(cfg, env, node) && !ValidationFails(cfg.postValidation, cfg, env, node, PostRemediation)
    ensures var r := NodeSpec(cfg, env, st, node, drifts);
      && r.state.remediatedNodes == st.remediatedNodes + [node]
      && (r.ok <==> Successes(r.results) == |r.results| || Successes(r.results) > 0)
  {
  }

  /** A node whose drifts are all of unknown types, and that passes its
      checks, counts as a success with no result. */
  lemma AllUnknownSucceeds(cfg: Config, env: Env, st: State, node: string, drifts: seq<Drift>)
    requires !Aborts(cfg, env, node) && !ValidationFails(cfg.postValidation, cfg, env, node, PostRemediation)
    requires forall i :: 0 <= i < |drifts| ==> !Known(drifts[i].kind)
    ensures NodeSpec(cfg, env, st, node, drifts).ok
    ensures NodeSpec(cfg, env, st, node, drifts).results == []
  {
    NodeResults(cfg, env, st, node, drifts);
    NoKnownDrifts(drifts);
    assert |NodeSpec(cfg, env, st, node, drifts).results| == |KnownDrifts(drifts)|;
  }

  lemma {:induction false} NoKnownDrifts(drifts: seq<Drift>)
    requires forall i :: 0 <= i < |drifts| ==> !Known(drifts[i].kind)
    ensures KnownDrifts(drifts) == []
  {
    if drifts != [] {
      NoKnownDrifts(drifts[..|drifts| - 1]);
    }
  }

  /** `remediate_node` never deletes an admin user. */
  lemma NodeKeepsAdmins(cfg: Config, env: Env, st: State, node: string, drifts: seq<Drift>)
    requires NoAdminDeleted(cfg, st.commands)
    ensures NoAdminDeleted(cfg, NodeSpec(cfg, env, st, node, drifts).state.commands)
  {
    var pre := PreStage(cfg, env, st.(started := st.started + [node]), node);
    if pre.ok {
      DriftsKeepAdmins(cfg, env, pre.state, node, drifts);
      var st2 := DriftsSpec(cfg, env, pre.state, node, drifts).0;
      var (st3, post) := ValidationStage(cfg.postValidation, cfg, env, st2, node, PostRemediation);
      if post != Some(true) && cfg.automaticOnFailure {
        var failed := Log(st3, "remediation_failed_validation", node, Error);
        var r := RollbackSpec(env, failed, node);
        forall i | 0 <= i < |r.state.commands| ensures !DeletesAdmin(cfg, r.state.commands[i]) {
          if i < |failed.commands| {
            assert r.state.commands[i] == failed.commands[i];
          }
        }
      }
    }
  }
}
