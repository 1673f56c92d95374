/** What each step of the remediation engine does to the state, as functions:
    `create_backup`, `validate_node`, the four `remediate_*` handlers,
    `rollback_node`, and the dispatch of one drift by its `type`. The methods
    of `RemediationEngine.Engine` are proved to do exactly this. */
module RemediationHandlers {
  import Seqs
  import opened Wrappers
  import opened Text
  import opened RemediationModel

  /** The directories whose files the file handler may restore. */
  const ManagedDirs: seq<string> := ["/var/www", "/etc/nginx", "/etc/apache2", "/etc/httpd", "/etc/ansible-managed"]

  /** The playbook the file handler runs when there is no backup copy. */
  function ContentPlaybook(cfg: Config): Action {
    Playbook(cfg.inventoryPath, cfg.playbooksPath + "webserver-deploy.yml")
  }

  // ---------------------------------------------------------------------------
  // Backup and validation

  /** `create_backup`: the backup directory is made before anything can fail,
      then the backup either succeeds or is reported failed. */
  function CreateBackupSpec(env: Env, st: State, node: string): (r: Outcome)
    ensures r.state.backupDirs == st.backupDirs + {node}
    ensures r.state.log == st.log + [if r.ok then Event("backup_created", node, Info) else Event("backup_failed", node, Error)]
    ensures r.ok <==> env.backupSucceeds(node)
    ensures r.state.commands == st.commands && r.state.remediatedNodes == st.remediatedNodes && r.state.started == st.started
  {
    var made := st.(backupDirs := st.backupDirs + {node});
    if env.backupSucceeds(node) then Outcome(Log(made, "backup_created", node, Info), true)
    else Outcome(Log(made, "backup_failed", node, Error), false)
  }

  /** Every required service answers `active`. */
  predicate AllActive(env: Env, node: string, phase: Phase, services: seq<string>) {
    forall i :: 0 <= i < |services| ==> env.activeStatus(node, phase, services[i]) == "active"
  }

  /** `validate_node`: `None` when a command raised, or when the results file
      could not be written (after `validation_{type}` was logged); otherwise
      whether every required service is active (disk and memory checks always
      pass). */
  function ValidateSpec(cfg: Config, env: Env, st: State, node: string, phase: Phase): (r: (State, Option<bool>))
    ensures OnlyAppends(st, r.0) && r.0.commands == st.commands
    ensures r.1 == Some(true) <==>
      !env.validationRaises(node, phase) && env.resultsSaved(node, phase) && AllActive(env, node, phase, cfg.requiredServices)
    ensures r.1 == None <==> env.validationRaises(node, phase) || !env.resultsSaved(node, phase)
    ensures r.0.log == st.log
      + (if env.validationRaises(node, phase) then [] else [Event("validation_" + phase.Name(), node, Info)])
      + (if r.1 == None then [Event("validation_failed", node, Error)] else [])
  {
    if env.validationRaises(node, phase) then (Log(st, "validation_failed", node, Error), None)
    else
      var logged := Log(st, "validation_" + phase.Name(), node, Info);
      if !env.resultsSaved(node, phase) then (Log(logged, "validation_failed", node, Error), None)
      else (logged, Some(AllActive(env, node, phase, cfg.requiredServices)))
  }

  // ---------------------------------------------------------------------------
  // The four handlers

  /** `remediate_file_changes`: only files under a managed directory are
      touched; a backup copy is preferred to the content playbook. */
  function FileSpec(cfg: Config, env: Env, st: State, node: string, path: string): (r: Outcome)
    ensures OnlyAppends(st, r.state)
    ensures !AnyPrefix(path, ManagedDirs) ==> !r.ok && r.state.commands == st.commands
    ensures AnyPrefix(path, ManagedDirs) ==>
      var action := if node in st.backupDirs && env.backedUp(node, path) then CopyFromBackup(path) else ContentPlaybook(cfg);
      r.state.commands == st.commands + [Command(node, action)] && (r.ok <==> env.succeeds(Command(node, action)))
  {
    if !AnyPrefix(path, ManagedDirs) then
      Outcome(Log(st, "skip_remediation", node, Warning), false)
    else if node in st.backupDirs && env.backedUp(node, path) then
      var copied := Issue(st, node, CopyFromBackup(path));
      if env.succeeds(Command(node, CopyFromBackup(path))) then Outcome(Log(copied, "file_restored", node, Info), true)
      else Outcome(Log(copied, "file_remediation_error", node, Error), false)
    else
      var ran := Issue(st, node, ContentPlaybook(cfg));
      if env.succeeds(Command(node, ContentPlaybook(cfg))) then Outcome(Log(ran, "file_remediated", node, Info), true)
      else Outcome(Log(ran, "file_remediation_failed", node, Error), false)
  }

  /** The two commands that bring a service to `desired`. */
  function Transition(service: string, desired: string): (Action, Action) {
    if desired == "active" then (Start(service), Enable(service)) else (Stop(service), Disable(service))
  }

  /** `remediate_service_status`: nothing is run when the service is already in
      the desired state; otherwise the two transition commands run (the second
      only when the first succeeded) and the status is read again. */
  function ServiceSpec(env: Env, st: State, node: string, service: string, desired: string): (r: Outcome)
    ensures OnlyAppends(st, r.state)
    ensures env.serviceStatus(node, service) == desired ==> r.ok && r.state.commands == st.commands
    ensures r.ok <==>
      env.serviceStatus(node, service) == desired ||
      (env.succeeds(Command(node, Transition(service, desired).0)) &&
       env.succeeds(Command(node, Transition(service, desired).1)) &&
       env.settledStatus(node, service) == desired)
    ensures forall i :: |st.commands| <= i < |r.state.commands| ==>
      r.state.commands[i] in [Command(node, Transition(service, desired).0), Command(node, Transition(service, desired).1)]
  {
    if env.serviceStatus(node, service) == desired then
      Outcome(Log(st, "service_already_ok", node, Info), true)
    else
      var (first, second) := Transition(service, desired);
      var st1 := Issue(st, node, first);
      if !env.succeeds(Command(node, first)) then Outcome(Log(st1, "service_remediation_error", node, Error), false)
      else
        var st2 := Issue(st1, node, second);
        if !env.succeeds(Command(node, second)) then Outcome(Log(st2, "service_remediation_error", node, Error), false)
        else if env.settledStatus(node, service) == desired then Outcome(Log(st2, "service_remediated", node, Info), true)
        else Outcome(Log(st2, "service_remediation_failed", node, Error), false)
  }

  /** The package command of one manager. */
  function PackageAction(remove: bool, manager: Manager, package: string): Action {
    if remove then RemovePackage(manager, package) else InstallPackage(manager, package)
  }

  /** The index of the first manager whose command succeeds, or `|ms|`. */
  function FirstSuccess(env: Env, node: string, package: string, remove: bool, ms: seq<Manager>): (k: nat)
    ensures k <= |ms|
    ensures forall j :: 0 <= j < k ==> !env.succeeds(Command(node, PackageAction(remove, ms[j], package)))
    ensures k < |ms| ==> env.succeeds(Command(node, PackageAction(remove, ms[k], package)))
  {
    if ms == [] then 0
    else if env.succeeds(Command(node, PackageAction(remove, ms[0], package))) then 0
    else 1 + FirstSuccess(env, node, package, remove, ms[1..])
  }

  /** The commands of a list of managers. */
  function PackageCommands(node: string, package: string, remove: bool, ms: seq<Manager>): seq<Command> {
    seq(|ms|, i requires 0 <= i < |ms| => Command(node, PackageAction(remove, ms[i], package)))
  }

  /** The `for cmd in commands` loop: run each manager's command until one
      returns 0. */
  function TryManagers(env: Env, st: State, node: string, package: string, remove: bool, ms: seq<Manager>): (r: Outcome)
    decreases |ms|
  {
    if ms == [] then Outcome(st, false)
    else
      var st1 := Issue(st, node, PackageAction(remove, ms[0], package));
      if env.succeeds(Command(node, PackageAction(remove, ms[0], package))) then Outcome(st1, true)
      else TryManagers(env, st1, node, package, remove, ms[1..])
  }

  /** The managers the loop runs: up to and including the first success. */
  function Tried(env: Env, node: string, package: string, remove: bool, ms: seq<Manager>): seq<Manager> {
    if ms == [] then []
    else if env.succeeds(Command(node, PackageAction(remove, ms[0], package))) then [ms[0]]
    else [ms[0]] + Tried(env, node, package, remove, ms[1..])
  }

  /** The tried managers are the prefix of `ms` that ends at the first success
      (all of `ms` when none succeeds). */
  lemma {:induction false} TriedPrefix(env: Env, node: string, package: string, remove: bool, ms: seq<Manager>)
    ensures var k := FirstSuccess(env, node, package, remove, ms);
      Tried(env, node, package, remove, ms) == ms[..if k < |ms| then k + 1 else k]
  {
    if ms != [] && !env.succeeds(Command(node, PackageAction(remove, ms[0], package))) {
      var tail := ms[1..];
      TriedPrefix(env, node, package, remove, tail);
      var k := FirstSuccess(env, node, package, remove, tail);
      var n := if k < |tail| then k + 1 else k;
      assert FirstSuccess(env, node, package, remove, ms) == k + 1 && |ms| == |tail| + 1;
      Seqs.ConsPrefix(ms, n);
    }
  }

  /** The commands of `[m] + ms` are the command of `m`, then those of `ms`. */
  lemma PackageCommandsCons(node: string, package: string, remove: bool, m: Manager, ms: seq<Manager>)
    ensures PackageCommands(node, package, remove, [m] + ms)
      == [Command(node, PackageAction(remove, m, package))] + PackageCommands(node, package, remove, ms)
  {
  }

  /** The first success wins: the loop runs the tried managers' commands and
      succeeds iff one of them does; nothing else changes. */
  lemma FirstSuccessWins(env: Env, st: State, node: string, package: string, remove: bool, ms: seq<Manager>)
    ensures var r := TryManagers(env, st, node, package, remove, ms);
      && r.state == st.(commands := r.state.commands)
      && r.state.commands == st.commands + PackageCommands(node, package, remove, Tried(env, node, package, remove, ms))
      && (r.ok <==> FirstSuccess(env, node, package, remove, ms) < |ms|)
  {
    TryManagersCommands(env, st, node, package, remove, ms);
    TryManagersOk(env, st, node, package, remove, ms);
  }

  lemma {:induction false} TryManagersCommands(env: Env, st: State, node: string, package: string, remove: bool, ms: seq<Manager>)
    ensures var r := TryManagers(env, st, node, package, remove, ms);
      && r.state == st.(commands := r.state.commands)
      && r.state.commands == st.commands + PackageCommands(node, package, remove, Tried(env, node, package, remove, ms))
    decreases |ms|
  {
    if ms != [] {
      var c := Command(node, PackageAction(remove, ms[0], package));
      var st1 := Issue(st, node, PackageAction(remove, ms[0], package));
      if !env.succeeds(c) {
        TryManagersCommands(env, st1, node, package, remove, ms[1..]);
        var rest := Tried(env, node, package, remove, ms[1..]);
        PackageCommandsCons(node, package, remove, ms[0], rest);
        assert st1.commands + PackageCommands(node, package, remove, rest)
          == st.commands + ([c] + PackageCommands(node, package, remove, rest));
      } else {
        assert PackageCommands(node, package, remove, [ms[0]]) == [c];
      }
    }
  }

  lemma {:induction false} TryManagersOk(env: Env, st: State, node: string, package: string, remove: bool, ms: seq<Manager>)
    ensures TryManagers(env, st, node, package, remove, ms).ok <==> FirstSuccess(env, node, package, remove, ms) < |ms|
    decreases |ms|
  {
    if ms != [] && !env.succeeds(Command(node, PackageAction(remove, ms[0], package))) {
      TryManagersOk(env, Issue(st, node, PackageAction(remove, ms[0], package)), node, package, remove, ms[1..]);
    }
  }

  /** `remediate_unauthorized_package`: `remove` for an added package,
      otherwise install. */
  function PackageSpec(env: Env, st: State, node: string, package: string, remove: bool): (r: Outcome)
    ensures OnlyAppends(st, r.state)
  {
    var tried := TryManagers(env, st, node, package, remove, Managers);
    FirstSuccessWins(env, st, node, package, remove, Managers);
    if tried.ok then Outcome(Log(tried.state, if remove then "package_removed" else "package_installed", node, Info), true)
    else Outcome(Log(tried.state, if remove then "package_removal_failed" else "package_install_failed", node, Warning), false)
  }

  /** The package handler succeeds iff one of apt, yum and dnf does, and runs
      only package commands of the requested kind. */
  lemma PackageOutcome(env: Env, st: State, node: string, package: string, remove: bool)
    ensures var r := PackageSpec(env, st, node, package, remove);
      && (r.ok <==> exists m :: m in Managers && env.succeeds(Command(node, PackageAction(remove, m, package))))
      && 1 <= |r.state.commands| - |st.commands| <= 3
      && forall i :: |st.commands| <= i < |r.state.commands| ==>
           r.state.commands[i].node == node && r.state.commands[i].action == PackageAction(remove, r.state.commands[i].action.manager, package)
  {
    FirstSuccessWins(env, st, node, package, remove, Managers);
    TriedPrefix(env, node, package, remove, Managers);
    var k := FirstSuccess(env, node, package, remove, Managers);
    var r := PackageSpec(env, st, node, package, remove);
    if exists m :: m in Managers && env.succeeds(Command(node, PackageAction(remove, m, package))) {
      var m :| m in Managers && env.succeeds(Command(node, PackageAction(remove, m, package)));
      assert m == Managers[0] || m == Managers[1] || m == Managers[2];
    }
    var n := if k < |Managers| then k + 1 else k;
    var cs := PackageCommands(node, package, remove, Managers[..n]);
    assert r.state.commands == st.commands + cs;
    forall i | |st.commands| <= i < |r.state.commands|
      ensures r.state.commands[i].node == node && r.state.commands[i].action == PackageAction(remove, r.state.commands[i].action.manager, package)
    {
      assert r.state.commands[i] == cs[i - |st.commands|];
    }
  }

  /** `remediate_unauthorized_user`: removal is skipped for a missing user and
      for a preserved admin user; adding always runs `useradd`. */
  function UserSpec(cfg: Config, env: Env, st: State, node: string, user: string, remove: bool): (r: Outcome)
    ensures OnlyAppends(st, r.state)
    ensures remove && (!env.userExists(node, user) || user in cfg.adminUsers) ==> r.ok && r.state.commands == st.commands
    ensures remove && env.userExists(node, user) && user !in cfg.adminUsers ==>
      r.state.commands == st.commands + [Command(node, DeleteUser(user))] && (r.ok <==> env.succeeds(Command(node, DeleteUser(user))))
    ensures !remove ==> r.state.commands == st.commands + [Command(node, AddUser(user))] && (r.ok <==> env.succeeds(Command(node, AddUser(user))))
  {
    if remove then
      if !env.userExists(node, user) then Outcome(Log(st, "user_not_found", node, Info), true)
      else if user in cfg.adminUsers then Outcome(Log(st, "user_preserved", node, Info), true)
      else
        var st1 := Issue(st, node, DeleteUser(user));
        if env.succeeds(Command(node, DeleteUser(user))) then Outcome(Log(st1, "user_removed", node, Info), true)
        else Outcome(Log(st1, "user_remediation_error", node, Error), false)
    else
      var st1 := Issue(st, node, AddUser(user));
      if env.succeeds(Command(node, AddUser(user))) then Outcome(Log(st1, "user_added", node, Info), true)
      else Outcome(Log(st1, "user_remediation_error", node, Error), false)
  }

  // ---------------------------------------------------------------------------
  // Rollback

  /** `rollback_node`: fails when there is no backup directory; otherwise the
      backup is copied back. */
  function RollbackSpec(env: Env, st: State, node: string): (r: Outcome)
    ensures OnlyAppends(st, r.state) && |r.state.log| == |st.log| + 1
    ensures r.state.log[|st.log|].kind in {"rollback_failed", "rollback_complete", "rollback_error"}
    ensures r.ok <==> node in st.backupDirs && env.succeeds(Command(node, Restore))
    ensures r.state.commands == if node in st.backupDirs then st.commands + [Command(node, Restore)] else st.commands
  {
    if node !in st.backupDirs then Outcome(Log(st, "rollback_failed", node, Error), false)
    else
      var st1 := Issue(st, node, Restore);
      if env.succeeds(Command(node, Restore)) then Outcome(Log(st1, "rollback_complete", node, Info), true)
      else Outcome(Log(st1, "rollback_error", node, Error), false)
  }

  // ---------------------------------------------------------------------------
  // Dispatch of one drift

  /** The six drift types `remediate_node` knows. */
  predicate Known(kind: string) {
    kind in {"file_change", "service_status_change", "package_added", "package_removed", "user_added", "user_removed"}
  }

  /** The body of the `for drift in drifts` loop: the handler's success, or
      `None` for an unknown type, which is logged and skipped. */
  function Dispatch(cfg: Config, env: Env, st: State, node: string, drift: Drift): (r: (State, Option<bool>))
    ensures OnlyAppends(st, r.0)
    ensures r.1.Some? <==> Known(drift.kind)
  {
    if drift.kind == "file_change" then
      var o := FileSpec(cfg, env, st, node, drift.file); (o.state, Some(o.ok))
    else if drift.kind == "service_status_change" then
      var o := ServiceSpec(env, st, node, drift.service.GetOr(""), "active"); (o.state, Some(o.ok))
    else if drift.kind == "package_added" || drift.kind == "package_removed" then
      var o := PackageSpec(env, st, node, drift.package.GetOr(""), drift.kind == "package_added"); (o.state, Some(o.ok))
    else if drift.kind == "user_added" || drift.kind == "user_removed" then
      var o := UserSpec(cfg, env, st, node, drift.user.GetOr(""), drift.kind == "user_added"); (o.state, Some(o.ok))
    else
      (Log(st, "unknown_drift_type", node, Warning), None)
  }

  /** The handler each type is sent to, seen in the commands it may run:
      added packages are only removed and removed ones only installed, added
      users are never added and removed users never deleted, and service
      drifts only start and enable the service (the desired state is always
      `active`); an unknown type runs nothing. */
  lemma DispatchMapping(cfg: Config, env: Env, st: State, node: string, drift: Drift)
    ensures var r := Dispatch(cfg, env, st, node, drift);
      forall i :: |st.commands| <= i < |r.0.commands| ==>
        var a := r.0.commands[i].action;
        && r.0.commands[i].node == node
        && (drift.kind == "package_added" ==> a.RemovePackage? && a.package == drift.package.GetOr(""))
        && (drift.kind == "package_removed" ==> a.InstallPackage? && a.package == drift.package.GetOr(""))
        && (drift.kind == "user_added" ==> a == DeleteUser(drift.user.GetOr("")))
        && (drift.kind == "user_removed" ==> a == AddUser(drift.user.GetOr("")))
        && (drift.kind == "service_status_change" ==> a in [Start(drift.service.GetOr("")), Enable(drift.service.GetOr(""))])
        && (drift.kind == "file_change" ==> a == CopyFromBackup(drift.file) || a == ContentPlaybook(cfg))
        && Known(drift.kind)
  {
    if drift.kind == "package_added" || drift.kind == "package_removed" {
      PackageOutcome(env, st, node, drift.package.GetOr(""), drift.kind == "package_added");
    }
  }

  // ---------------------------------------------------------------------------
  // Admin users are never deleted

  /** A command that deletes a preserved admin user. */
  predicate DeletesAdmin(cfg: Config, c: Command) {
    c.action.DeleteUser? && c.action.user in cfg.adminUsers
  }

  predicate NoAdminDeleted(cfg: Config, cs: seq<Command>) {
    forall i :: 0 <= i < |cs| ==> !DeletesAdmin(cfg, cs[i])
  }

  /** Dispatching a drift never deletes an admin user. */
  lemma DispatchKeepsAdmins(cfg: Config, env: Env, st: State, node: string, drift: Drift)
    requires NoAdminDeleted(cfg, st.commands)
    ensures NoAdminDeleted(cfg, Dispatch(cfg, env, st, node, drift).0.commands)
  {
    var r := Dispatch(cfg, env, st, node, drift);
    DispatchMapping(cfg, env, st, node, drift);
    forall i | 0 <= i < |r.0.commands|
      ensures !DeletesAdmin(cfg, r.0.commands[i])
    {
      if i < |st.commands| {
        assert r.0.commands[i] == st.commands[i];
      }
    }
  }
}
