/** The class `RemediationEngine` of
    remediation-system/scripts/remediation_engine.py, its fields updated in
    place. Each method is proved to leave the state, and to return the value,
    that the matching function of `RemediationHandlers`, `RemediationNode` and
    `RemediationRollout` describes; the properties are proved about those
    functions. */
module RemediationEngine {
  import opened Wrappers
  import opened Text
  import opened RemediationModel
  import opened RemediationHandlers
  import opened RemediationNode
  import opened RemediationRollout
  import Tally

  class Engine {
    /** The loaded `remediation_config.yaml`. */
    const cfg: Config
    /** The answers of the commands the engine runs. */
    const env: Env
    /** What `load_latest_detection` returned. */
    const detectionReport: Option<Report>

    var remediationLog: seq<Event>
    var canaryNodes: seq<string>
    var remediatedNodes: seq<string>
    var failedNodes: seq<string>
    /** The node-changing commands run so far. */
    var commands: seq<Command>
    /** The nodes whose backup directory exists. */
    var backupDirs: set<string>
    /** The nodes `remediate_node` was called on. */
    var started: seq<string>

    function Current(): State
      reads this
    {
      State(remediationLog, canaryNodes, remediatedNodes, failedNodes, commands, backupDirs, started)
    }

    /** `__init__`: empty log and node lists. */
    constructor(cfg: Config, env: Env, detectionReport: Option<Report>)
      ensures this.cfg == cfg && this.env == env && this.detectionReport == detectionReport
      ensures Current() == Initial
    {
      this.cfg := cfg;
      this.env := env;
      this.detectionReport := detectionReport;
      remediationLog := [];
      canaryNodes := [];
      remediatedNodes := [];
      failedNodes := [];
      commands := [];
      backupDirs := {};
      started := [];
    }

    /** `log_event`. */
    method LogEvent(kind: string, node: string, level: Level)
      modifies this
      ensures Current() == Log(old(Current()), kind, node, level)
    {
      remediationLog := remediationLog + [Event(kind, node, level)];
    }

    /** Running a node-changing command: it is recorded, and its answer comes
        from the environment. */
    method RunCommand(node: string, action: Action) returns (ok: bool)
      modifies this
      ensures Current() == Issue(old(Current()), node, action)
      ensures ok == env.succeeds(Command(node, action))
    {
      commands := commands + [Command(node, action)];
      ok := env.succeeds(Command(node, action));
    }

    /** `create_backup`. */
    method CreateBackup(node: string) returns (ok: bool)
      modifies this
      ensures Outcome(Current(), ok) == CreateBackupSpec(env, old(Current()), node)
    {
      backupDirs := backupDirs + {node};
      if env.backupSucceeds(node) {
        LogEvent("backup_created", node, Info);
        ok := true;
      } else {
        LogEvent("backup_failed", node, Error);
        ok := false;
      }
    }

    /** `validate_node`: `None` when a command raised or the results file could
        not be written, otherwise whether the validation passed. */
    method ValidateNode(node: string, phase: Phase) returns (passed: Option<bool>)
      modifies this
      ensures (Current(), passed) == ValidateSpec(cfg, env, old(Current()), node, phase)
    {
      if env.validationRaises(node, phase) {
        LogEvent("validation_failed", node, Error);
        return None;
      }
      var services := cfg.requiredServices;
      var allPassed := true;
      var i := 0;
      while i < |services|
        invariant 0 <= i <= |services|
        invariant allPassed == AllActive(env, node, phase, services[..i])
      {
        var isActive := env.activeStatus(node, phase, services[i]) == "active";
        if !isActive {
          allPassed := false;
        }
        i := i + 1;
      }
      assert services[..i] == services;
      LogEvent("validation_" + phase.Name(), node, Info);
      if !env.resultsSaved(node, phase) {
        LogEvent("validation_failed", node, Error);
        return None;
      }
      passed := Some(allPassed);
    }

    /** `remediate_file_changes`. */
    method RemediateFileChanges(node: string, path: string) returns (ok: bool)
      modifies this
      ensures Outcome(Current(), ok) == FileSpec(cfg, env, old(Current()), node, path)
    {
      if !AnyPrefix(path, ManagedDirs) {
        LogEvent("skip_remediation", node, Warning);
        return false;
      }
      if node in backupDirs && env.backedUp(node, path) {
        ok := RunCommand(node, CopyFromBackup(path));
        if ok {
          LogEvent("file_restored", node, Info);
        } else {
          LogEvent("file_remediation_error", node, Error);
        }
        return;
      }
      ok := RunCommand(node, ContentPlaybook(cfg));
      if ok {
        LogEvent("file_remediated", node, Info);
      } else {
        LogEvent("file_remediation_failed", node, Error);
      }
    }

    /** `remediate_service_status`. */
    method RemediateServiceStatus(node: string, service: string, desired: string) returns (ok: bool)
      modifies this
      ensures Outcome(Current(), ok) == ServiceSpec(env, old(Current()), node, service, desired)
    {
      if env.serviceStatus(node, service) == desired {
        LogEvent("service_already_ok", node, Info);
        return true;
      }
      var (first, second) := Transition(service, desired);
      ok := RunCommand(node, first);
      if !ok {
        LogEvent("service_remediation_error", node, Error);
        return;
      }
      ok := RunCommand(node, second);
      if !ok {
        LogEvent("service_remediation_error", node, Error);
        return;
      }
      if env.settledStatus(node, service) == desired {
        LogEvent("service_remediated", node, Info);
        ok := true;
      } else {
        LogEvent("service_remediation_failed", node, Error);
        ok := false;
      }
    }

    /** `remediate_unauthorized_package`: apt, yum and dnf in turn until one
        returns 0. */
    method RemediateUnauthorizedPackage(node: string, package: string, remove: bool) returns (ok: bool)
      modifies this
      ensures Outcome(Current(), ok) == PackageSpec(env, old(Current()), node, package, remove)
    {
      ghost var tried := TryManagers(env, Current(), node, package, remove, Managers);
      var i := 0;
      assert Managers[i..] == Managers;
      while i < |Managers|
        invariant 0 <= i <= |Managers|
        invariant tried == TryManagers(env, Current(), node, package, remove, Managers[i..])
      {
        assert Managers[i..][1..] == Managers[i + 1..];
        var succeeded := RunCommand(node, PackageAction(remove, Managers[i], package));
        if succeeded {
          LogEvent(if remove then "package_removed" else "package_installed", node, Info);
          return true;
        }
        i := i + 1;
      }
      LogEvent(if remove then "package_removal_failed" else "package_install_failed", node, Warning);
      ok := false;
    }

    /** `remediate_unauthorized_user`. */
    method RemediateUnauthorizedUser(node: string, user: string, remove: bool) returns (ok: bool)
      modifies this
      ensures Outcome(Current(), ok) == UserSpec(cfg, env, old(Current()), node, user, remove)
    {
      if remove {
        if !env.userExists(node, user) {
          LogEvent("user_not_found", node, Info);
          return true;
        }
        if user in cfg.adminUsers {
          LogEvent("user_preserved", node, Info);
          return true;
        }
        ok := RunCommand(node, DeleteUser(user));
        if ok {
          LogEvent("user_removed", node, Info);
        } else {
          LogEvent("user_remediation_error", node, Error);
        }
      } else {
        ok := RunCommand(node, AddUser(user));
        if ok {
          LogEvent("user_added", node, Info);
        } else {
          LogEvent("user_remediation_error", node, Error);
        }
      }
    }

    /** `rollback_node`. */
    method RollbackNode(node: string) returns (ok: bool)
      modifies this
      ensures Outcome(Current(), ok) == RollbackSpec(env, old(Current()), node)
    {
      if node !in backupDirs {
        LogEvent("rollback_failed", node, Error);
        return false;
      }
      ok := RunCommand(node, Restore);
      if ok {
        LogEvent("rollback_complete", node, Info);
      } else {
        LogEvent("rollback_error", node, Error);
      }
    }

    /** One iteration of the `for drift in drifts` loop of `remediate_node`:
        the handler's success, or `None` for an unknown type. */
    method RemediateDrift(node: string, drift: Drift) returns (success: Option<bool>)
      modifies this
      ensures (Current(), success) == Dispatch(cfg, env, old(Current()), node, drift)
    {
      var ok: bool;
      if drift.kind == "file_change" {
        ok := RemediateFileChanges(node, drift.file);
      } else if drift.kind == "service_status_change" {
        ok := RemediateServiceStatus(node, drift.service.GetOr(""), "active");
      } else if drift.kind == "package_added" || drift.kind == "package_removed" {
        ok := RemediateUnauthorizedPackage(node, drift.package.GetOr(""), drift.kind == "package_added");
      } else if drift.kind == "user_added" || drift.kind == "user_removed" {
        ok := RemediateUnauthorizedUser(node, drift.user.GetOr(""), drift.kind == "user_added");
      } else {
        LogEvent("unknown_drift_type", node, Warning);
        return None;
      }
      success := Some(ok);
    }

    /** The start of `remediate_node`: the backup and the pre-validation,
        when configured; `false` means the node was aborted. */
    method PrepareNode(node: string) returns (ok: bool)
      modifies this
      ensures Outcome(Current(), ok) == PreStage(cfg, env, old(Current()), node)
    {
      if cfg.backupBeforeRemediation {
        var backedUp := CreateBackup(node);
        if !backedUp {
          LogEvent("remediation_aborted", node, Error);
          return false;
        }
      }
      if cfg.preValidation {
        var validation := ValidateNode(node, PreRemediation);
        if validation != Some(true) {
          LogEvent("remediation_aborted", node, Error);
          return false;
        }
      }
      ok := true;
    }

    /** The end of `remediate_node`: the post-validation with its rollback,
        or the bookkeeping. */
    method CloseNode(node: string, results: seq<DriftResult>) returns (ok: bool)
      modifies this
      ensures Current() == PostStage(cfg, env, old(Current()), node, results).state
      ensures ok == PostStage(cfg, env, old(Current()), node, results).ok
    {
      if cfg.postValidation {
        var validation := ValidateNode(node, PostRemediation);
        if validation != Some(true) {
          LogEvent("remediation_failed_validation", node, Error);
          if cfg.automaticOnFailure {
            var rolledBack := RollbackNode(node);
          }
          return false;
        }
      }
      var successCount := Successes(results);
      if successCount == |results| {
        LogEvent("remediation_complete", node, Info);
        remediatedNodes := remediatedNodes + [node];
        ok := true;
      } else {
        LogEvent("remediation_partial", node, Warning);
        remediatedNodes := remediatedNodes + [node];
        ok := successCount > 0;
      }
    }

    /** `remediate_node`. */
    method RemediateNode(node: string, drifts: seq<Drift>) returns (ok: bool)
      modifies this
      ensures Current() == NodeSpec(cfg, env, old(Current()), node, drifts).state
      ensures ok == NodeSpec(cfg, env, old(Current()), node, drifts).ok
    {
      started := started + [node];
      ok := PrepareNode(node);
      if !ok {
        return;
      }
      ghost var st1 := Current();
      var results: seq<DriftResult> := [];
      var i := 0;
      while i < |drifts|
        invariant 0 <= i <= |drifts|
        invariant (Current(), results) == DriftsSpec(cfg, env, st1, node, drifts[..i])
      {
        assert drifts[..i + 1][..i] == drifts[..i];
        var success := RemediateDrift(node, drifts[i]);
        if success.Some? {
          results := results + [DriftResult(drifts[i], success.value)];
        }
        i := i + 1;
      }
      assert drifts[..i] == drifts;
      ok := CloseNode(node, results);
    }

    /** One iteration of the canary loop: a canary without drifts is only
        logged; otherwise it is remediated and counted. */
    method RemediateCanary(groups: seq<Group>, node: string, succeeded: nat, total: nat) returns (succeeded': nat, total': nat)
      modifies this
      ensures (Current(), succeeded', total') == CanaryStep(cfg, env, (old(Current()), succeeded, total), groups, node)
    {
      var drifts := DriftsOf(groups, node);
      if drifts == [] {
        LogEvent("no_drifts", node, Info);
        return succeeded, total;
      }
      var success := RemediateNode(node, drifts);
      succeeded' := if success then succeeded + 1 else succeeded;
      total' := total + 1;
    }

    /** `run_canary_remediation`. */
    method RunCanaryRemediation(groups: seq<Group>) returns (passed: bool)
      modifies this
      ensures (Current(), passed) == CanarySpec(cfg, env, old(Current()), groups)
    {
      if groups == [] {
        return true;
      }
      canaryNodes := SelectCanaryNodes(cfg, Keys(groups));
      ghost var st0 := Current();
      var canary := canaryNodes;
      var succeeded: nat, total: nat := 0, 0;
      var i := 0;
      while i < |canary|
        invariant 0 <= i <= |canary|
        invariant (Current(), succeeded, total) == CanaryLoop(cfg, env, st0, groups, canary[..i])
      {
        assert canary[..i + 1][..i] == canary[..i];
        succeeded, total := RemediateCanary(groups, canary[i], succeeded, total);
        i := i + 1;
      }
      assert canary[..i] == canary;
      if Gate(succeeded, total, cfg.successThreshold) {
        LogEvent("canary_success", "all", Info);
        passed := true;
      } else {
        LogEvent("canary_failed", "all", Error);
        passed := false;
      }
    }

    /** One iteration of the full-phase loop (its result is not used). */
    method RemediateRemaining(g: Group)
      modifies this
      ensures Current() == FullStep(cfg, env, old(Current()), g)
    {
      var success := RemediateNode(g.node, g.drifts);
    }

    /** `run_full_remediation`: every non-canary node, in map order. */
    method RunFullRemediation(groups: seq<Group>) returns (done: bool)
      modifies this
      ensures Current() == FullSpec(cfg, env, old(Current()), groups)
      ensures done
    {
      var remaining := Remaining(groups, canaryNodes);
      RemediateGroups(remaining);
      done := true;
    }

    /** The `for node, drifts in remaining_nodes.items()` loop. */
    method RemediateGroups(remaining: seq<Group>)
      modifies this
      ensures Current() == FullLoop(cfg, env, old(Current()), remaining)
    {
      ghost var st0 := Current();
      for i := 0 to |remaining|
        invariant Current() == FullLoop(cfg, env, st0, remaining[..i])
      {
        FullLoopSnoc(cfg, env, st0, remaining[..i], remaining[i]);
        assert remaining[..i] + [remaining[i]] == remaining[..i + 1];
        RemediateRemaining(remaining[i]);
      }
      assert remaining[..|remaining|] == remaining;
    }

    /** The grouping loop of `run`: `nodes_with_drifts`, in insertion order. */
    method GroupDetections(detections: seq<Drift>) returns (groups: seq<Group>)
      ensures groups == GroupByNode(detections)
    {
      groups := [];
      var i := 0;
      while i < |detections|
        invariant 0 <= i <= |detections|
        invariant groups == GroupByNode(detections[..i])
      {
        assert detections[..i + 1][..i] == detections[..i];
        var detection := detections[i];
        var node := NodeOf(detection);
        var k := FindNode(groups, node);
        if k == |groups| {
          groups := groups + [Group(node, [])];
          assert groups[k].drifts + [detection] == [detection];
        }
        groups := groups[k := Group(node, groups[k].drifts + [detection])];
        i := i + 1;
      }
      assert detections[..i] == detections;
    }

    /** `generate_remediation_report` (the saved JSON and Markdown files are
        left out). */
    method GenerateRemediationReport() returns (report: RemediationReport)
      ensures report == ReportSpec(Current())
    {
      var eventsByType := Tally.Count(EventKinds(remediationLog));
      report := RemediationReport(|remediatedNodes|, |failedNodes|, canaryNodes, remediatedNodes, failedNodes,
                                  eventsByType, Recommendations(failedNodes, eventsByType));
    }

    /** `run`. */
    method Run() returns (ok: bool)
      modifies this
      ensures (Current(), ok) == RunSpec(cfg, env, old(Current()), detectionReport)
    {
      if !cfg.enabled {
        return false;
      }
      if !Present(detectionReport) {
        return false;
      }
      var groups := GroupDetections(Detections(detectionReport));
      if groups == [] {
        return true;
      }
      var canarySuccess := RunCanaryRemediation(groups);
      if !canarySuccess {
        var report := GenerateRemediationReport();
        return false;
      }
      var done := RunFullRemediation(groups);
      var report := GenerateRemediationReport();
      ok := |failedNodes| == 0;
    }
  }
}
