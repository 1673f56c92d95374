/** The data the remediation engine
    (remediation-system/scripts/remediation_engine.py) works on: its
    configuration, the answers of the commands it runs, the events it logs and
    the state its methods update.

    Every external command (`systemctl`, `apt`/`yum`/`dnf`, `id`, `userdel`,
    `useradd`, `cp`, `ansible-playbook`) and every file-system test is replaced
    by an answer drawn from `Env`; the commands that change a node are recorded
    in the state's `commands` trace, so that what the engine did to a node can
    be stated. */
module RemediationModel {
  import opened Wrappers

  /** The `status` of a logged event. */
  datatype Level = Info | Warning | Error

  /** One entry of `remediation_log`: its `type`, `node` and `status` (the
      timestamp, the remediation id and the free-text details are left out). */
  datatype Event = Event(kind: string, node: string, level: Level)

  /** The `validation_type` argument of `validate_node`. */
  datatype Phase = PreRemediation | PostRemediation
  {
    function Name(): string {
      match this
      case PreRemediation => "pre_remediation"
      case PostRemediation => "post_remediation"
    }
  }

  /** The package managers, in the order the package handler tries them. */
  datatype Manager = Apt | Yum | Dnf

  const Managers: seq<Manager> := [Apt, Yum, Dnf]

  /** A command that changes a node (read-only commands such as `id`,
      `systemctl is-active`, `df` and `free` are only asked, not recorded). */
  datatype Action =
    | CopyFromBackup(path: string)                 // sudo cp <backup file> <path>
    | Playbook(inventory: string, playbook: string) // ansible-playbook -i .. .. --limit node --tags content
    | Start(service: string)
    | Enable(service: string)
    | Stop(service: string)
    | Disable(service: string)
    | RemovePackage(manager: Manager, package: string)
    | InstallPackage(manager: Manager, package: string)
    | DeleteUser(user: string)                     // sudo userdel -r
    | AddUser(user: string)                        // sudo useradd -m -s /bin/bash
    | Restore                                      // copy the backup directory back

  datatype Command = Command(node: string, action: Action)

  /** The keys of `remediation_config.yaml` the engine reads. Percentages and
      thresholds are integers here. `safeMode` is the key `main` sets for
      `--safe-mode`. */
  datatype Config = Config(
    enabled: bool,
    canaryEnabled: bool,
    canaryPercentage: int,
    successThreshold: int,
    backupBeforeRemediation: bool,
    automaticOnFailure: bool,
    preValidation: bool,
    postValidation: bool,
    requiredServices: seq<string>,
    playbooksPath: string,
    inventoryPath: string,
    adminUsers: seq<string>,
    safeMode: bool)

  /** The answers of the outside world, each fixed per key:
      - `backupSucceeds(node)`: copying the backup paths raises nothing;
      - `validationRaises(node, phase)`: a validation command raises;
      - `resultsSaved(node, phase)`: writing `validation_{type}_{node}.json` raises nothing;
      - `activeStatus(node, phase, service)`: stripped `systemctl is-active` output during validation;
      - `backedUp(node, path)`: the backup holds a copy of `path`;
      - `serviceStatus(node, service)` / `settledStatus(node, service)`: the
        stripped `systemctl is-active` output before and after the transition;
      - `userExists(node, user)`: `id user` returns 0;
      - `succeeds(command)`: the command returns 0 (for `check=True` commands:
        raises nothing). */
  datatype Env = Env(
    backupSucceeds: string -> bool,
    validationRaises: (string, Phase) -> bool,
    resultsSaved: (string, Phase) -> bool,
    activeStatus: (string, Phase, string) -> string,
    backedUp: (string, string) -> bool,
    serviceStatus: (string, string) -> string,
    settledStatus: (string, string) -> string,
    userExists: (string, string) -> bool,
    succeeds: Command -> bool)

  /** One detection of the report, as `remediate_node` reads it: its `type`,
      and its optional `node`, `service`, `package` and `user` keys. `file` is
      read with `drift['file']`, which the model takes as present. */
  datatype Drift = Drift(
    kind: string,
    node: Option<string>,
    file: string,
    service: Option<string>,
    package: Option<string>,
    user: Option<string>)

  /** The engine's state: the fields `remediation_log`, `canary_nodes`,
      `remediated_nodes` and `failed_nodes`, plus
      - `commands`: the node-changing commands run so far;
      - `backupDirs`: the nodes whose backup directory `create_backup` made;
      - `started`: the nodes `remediate_node` was called on ("Starting
        remediation on node" in the log). */
  datatype State = State(
    log: seq<Event>,
    canaryNodes: seq<string>,
    remediatedNodes: seq<string>,
    failedNodes: seq<string>,
    commands: seq<Command>,
    backupDirs: set<string>,
    started: seq<string>)

  const Initial := State([], [], [], [], [], {}, [])

  /** `log_event`. */
  function Log(st: State, kind: string, node: string, level: Level): State {
    st.(log := st.log + [Event(kind, node, level)])
  }

  /** Running a node-changing command. */
  function Issue(st: State, node: string, action: Action): State {
    st.(commands := st.commands + [Command(node, action)])
  }

  /** A step that only appends to the log and to the command trace. */
  predicate OnlyAppends(st: State, st': State) {
    && st.log <= st'.log
    && st.commands <= st'.commands
    && st'.canaryNodes == st.canaryNodes
    && st'.remediatedNodes == st.remediatedNodes
    && st'.failedNodes == st.failedNodes
    && st'.backupDirs == st.backupDirs
    && st'.started == st.started
  }

  /** The state after a step together with the value it returned. */
  datatype Outcome = Outcome(state: State, ok: bool)
}
