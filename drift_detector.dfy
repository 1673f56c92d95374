/** The comparison logic of the drift detector
    (detection-system/scripts/drift_detector.py): each check compares what it
    observes now with the state saved by the previous run, appends one
    detection per change and records the current state for the next run.

    What the checks observe (file checksums, `systemctl is-active` output, the
    installed-package list and the output of `getent passwd`) is given as
    `Observations`; the previous state is a `Snapshot`. */
module DriftDetector {
  import Seqs
  import opened Wrappers
  import opened Text
  import Tally

  datatype Severity = Critical | High | Medium

  datatype Category = FileIntegrity | ServiceHealth | PackageManagement | UserManagement

  /** The `type` of a detection. */
  datatype Kind = FileChange | ServiceStatusChange | PackageAdded | PackageRemoved | UserAdded | UserRemoved
  {
    /** The string written to the detection's `type` key. */
    function TypeName(): string {
      match this
      case FileChange => "file_change"
      case ServiceStatusChange => "service_status_change"
      case PackageAdded => "package_added"
      case PackageRemoved => "package_removed"
      case UserAdded => "user_added"
      case UserRemoved => "user_removed"
    }

    /** The string written to the detection's `category` key. */
    function Category(): Category {
      match this
      case FileChange => FileIntegrity
      case ServiceStatusChange => ServiceHealth
      case PackageAdded => PackageManagement
      case PackageRemoved => PackageManagement
      case UserAdded => UserManagement
      case UserRemoved => UserManagement
    }
  }

  /** One entry of `detections`. `subject` is the file, service, package or
      user; `previous` and `current` are the two checksums or the two statuses
      (empty for packages and users, which carry an `action` instead). */
  datatype Detection = Detection(kind: Kind, subject: string, previous: string, current: string, severity: Severity)

  /** The part of the previous run's saved report the checks read
      (`previous_state`): file checksums, service statuses, installed packages
      and user accounts. A missing key reads as empty. */
  datatype Snapshot = Snapshot(
    files: map<string, string>,
    services: map<string, string>,
    packages: set<string>,
    users: set<string>)

  /** `load_previous_state` when there is no saved state. */
  const NoPreviousState := Snapshot(map[], map[], {}, {})

  /** One file met by the scan of the monitored paths, with its checksum
      (`None` when it could not be read). */
  datatype FileObservation = FileObservation(path: string, checksum: Option<string>)

  /** One monitored service with the stripped output of `systemctl is-active`
      (`None` when running it raised). */
  datatype ServiceObservation = ServiceObservation(service: string, status: Option<string>)

  /** Everything one detection run observes. `packages` is `None` when neither
      dpkg nor rpm is installed; `passwd` is the output of `getent passwd`
      (`None` when running it raised). */
  datatype Observations = Observations(
    files: seq<FileObservation>,
    services: seq<ServiceObservation>,
    packages: Option<seq<string>>,
    passwd: Option<string>)

  // ---------------------------------------------------------------------------
  // Severity of a file change

  const CriticalPaths: seq<string> :=
    ["/etc/passwd", "/etc/shadow", "/etc/sudoers", "/etc/ssh/sshd_config", "/root/", "/etc/cron"]

  const HighPaths: seq<string> :=
    ["/etc/nginx/", "/etc/apache2/", "/etc/httpd/", "/var/www/", "/etc/ansible-managed/"]

  /** `assess_severity`: critical prefixes are tried first, then high ones. */
  function AssessSeverity(path: string): (r: Severity)
    ensures r == Critical <==> exists i :: 0 <= i < |CriticalPaths| && StartsWith(path, CriticalPaths[i])
    ensures r == High <==>
      (forall i :: 0 <= i < |CriticalPaths| ==> !StartsWith(path, CriticalPaths[i])) &&
      (exists i :: 0 <= i < |HighPaths| && StartsWith(path, HighPaths[i]))
    ensures r == Medium <==>
      (forall i :: 0 <= i < |CriticalPaths| ==> !StartsWith(path, CriticalPaths[i])) &&
      (forall i :: 0 <= i < |HighPaths| ==> !StartsWith(path, HighPaths[i]))
  {
    if AnyPrefix(path, CriticalPaths) then Critical
    else if AnyPrefix(path, HighPaths) then High
    else Medium
  }

  // ---------------------------------------------------------------------------
  // Files and services: a change is a previous value that exists, is not
  // empty (Python treats "" and None alike as false) and differs.

  /** `d.get(key)` with a missing key read as "" (both are false in the test). */
  function Lookup(m: map<string, string>, key: string): string {
    if key in m then m[key] else ""
  }

  predicate ChangedSince(previous: map<string, string>, key: string, now: string) {
    Lookup(previous, key) != "" && Lookup(previous, key) != now
  }

  /** `if not checksum: continue`. */
  predicate Readable(checksum: Option<string>) {
    checksum.Some? && checksum.value != ""
  }

  /** `d` is the detection a scanned file gives: the file was read, its
      previous checksum exists and differs, and `d` carries both checksums and
      the path's severity. */
  predicate DetectsFile(previous: map<string, string>, obs: FileObservation, d: Detection) {
    && Readable(obs.checksum)
    && ChangedSince(previous, obs.path, obs.checksum.value)
    && d == Detection(FileChange, obs.path, previous[obs.path], obs.checksum.value, AssessSeverity(obs.path))
  }

  /** The detection one scanned file contributes: none or one. */
  function CompareFile(previous: map<string, string>, obs: FileObservation): seq<Detection> {
    if Readable(obs.checksum) && ChangedSince(previous, obs.path, obs.checksum.value) then
      [Detection(FileChange, obs.path, Lookup(previous, obs.path), obs.checksum.value, AssessSeverity(obs.path))]
    else []
  }

  /** The detections `check_file_changes` appends for a scan, in scan order. */
  function FileDetections(previous: map<string, string>, scan: seq<FileObservation>): seq<Detection>
    decreases |scan|
  {
    if scan == [] then []
    else FileDetections(previous, scan[..|scan| - 1]) + CompareFile(previous, scan[|scan| - 1])
  }

  /** `report_data['files']` after the scan: every readable file, whatever the comparison said. */
  function RecordFiles(files: map<string, string>, scan: seq<FileObservation>): map<string, string>
    decreases |scan|
  {
    if scan == [] then files
    else
      var m := RecordFiles(files, scan[..|scan| - 1]);
      var obs := scan[|scan| - 1];
      if Readable(obs.checksum) then m[obs.path := obs.checksum.value] else m
  }

  /** The severity `check_service_status` gives a status change. */
  function ServiceSeverity(current: string): Severity {
    if current != "active" then High else Medium
  }

  /** The detection one checked service contributes: none when `systemctl`
      raised or the status did not change. */
  function CompareService(previous: map<string, string>, obs: ServiceObservation): seq<Detection> {
    if obs.status.Some? && ChangedSince(previous, obs.service, obs.status.value) then
      [Detection(ServiceStatusChange, obs.service, Lookup(previous, obs.service), obs.status.value, ServiceSeverity(obs.status.value))]
    else []
  }

  /** The detections `check_service_status` appends, in configuration order. */
  function ServiceDetections(previous: map<string, string>, observed: seq<ServiceObservation>): seq<Detection>
    decreases |observed|
  {
    if observed == [] then []
    else ServiceDetections(previous, observed[..|observed| - 1]) + CompareService(previous, observed[|observed| - 1])
  }

  /** `report_data['services']` after the check: every service whose
      `systemctl` call did not raise. */
  function RecordServices(services: map<string, string>, observed: seq<ServiceObservation>): map<string, string>
    decreases |observed|
  {
    if observed == [] then services
    else
      var m := RecordServices(services, observed[..|observed| - 1]);
      var obs := observed[|observed| - 1];
      if obs.status.Some? then m[obs.service := obs.status.value] else m
  }

  // ---------------------------------------------------------------------------
  // Packages and users: set differences

  /** (added, removed) = (current - previous, previous - current). */
  function Delta(current: set<string>, previous: set<string>): (r: (set<string>, set<string>))
    ensures forall x :: x in r.0 <==> x in current && x !in previous
    ensures forall x :: x in r.1 <==> x in previous && x !in current
    ensures r.0 !! r.1
    ensures r.0 + r.1 == {} <==> current == previous
  {
    (current - previous, previous - current)
  }

  /** The severity of a package or user detection. */
  function MemberSeverity(kind: Kind): Severity {
    match kind
    case PackageAdded => Medium
    case PackageRemoved => High
    case UserAdded => High
    case UserRemoved => Critical
    case _ => Medium
  }

  function MemberDetection(kind: Kind, name: string): Detection {
    Detection(kind, name, "", "", MemberSeverity(kind))
  }

  function MemberDetections(names: set<string>, kind: Kind): set<Detection> {
    set n | n in names :: MemberDetection(kind, n)
  }

  /** What the two loops over `added` and `removed` append, in an order Python
      leaves unspecified: so a multiset. */
  function MembershipDetections(current: set<string>, previous: set<string>, added: Kind, removed: Kind): multiset<Detection> {
    var (a, r) := Delta(current, previous);
    multiset(MemberDetections(a, added)) + multiset(MemberDetections(r, removed))
  }

  function Installed(packages: seq<string>): set<string> {
    set p | p in packages
  }

  /** `result.stdout.strip().split('\n')`. */
  function PasswdLines(output: string): seq<string> {
    Split(Strip(output), '\n')
  }

  /** `set(line.split(':')[0] for line in ... if line)`. */
  function Usernames(output: string): set<string> {
    set l | l in PasswdLines(output) && l != "" :: Before(l, ':')
  }

  /** The user names are exactly the first fields of the non-empty lines of the
      `getent passwd` output, and none holds a `:` or a line break. */
  lemma UsernamesAreFirstFields(output: string)
    ensures forall u :: u in Usernames(output) ==> ':' !in u && '\n' !in u
    ensures forall l :: l in PasswdLines(output) && l != "" ==> Before(l, ':') in Usernames(output)
    ensures forall u :: u in Usernames(output) ==> exists l :: l in PasswdLines(output) && l != "" && u == Before(l, ':')
  {
    var lines := PasswdLines(output);
    forall l | l in lines ensures '\n' !in Before(l, ':') {
      var u := Before(l, ':');
      forall k | 0 <= k < |u| ensures u[k] != '\n' {
        assert u[k] == l[k];
      }
    }
  }

  // ---------------------------------------------------------------------------
  // The whole run

  /** What `check_package_changes` reports; nothing when the package list
      could not be read. */
  function PackageDetections(previous: Snapshot, installed: Option<seq<string>>): multiset<Detection> {
    if installed.Some? then
      MembershipDetections(Installed(installed.value), previous.packages, PackageAdded, PackageRemoved)
    else multiset{}
  }

  /** What `check_user_accounts` reports; nothing when `getent` raised. */
  function UserDetections(previous: Snapshot, passwd: Option<string>): multiset<Detection> {
    if passwd.Some? then MembershipDetections(Usernames(passwd.value), previous.users, UserAdded, UserRemoved)
    else multiset{}
  }

  /** Everything one run detects, as a multiset. */
  function ExpectedDetections(previous: Snapshot, obs: Observations): multiset<Detection> {
    multiset(FileDetections(previous.files, obs.files))
    + multiset(ServiceDetections(previous.services, obs.services))
    + PackageDetections(previous, obs.packages)
    + UserDetections(previous, obs.passwd)
  }

  /** The state `save_current_state` writes and the next run reads back. */
  function SavedAfter(obs: Observations): Snapshot {
    Snapshot(
      RecordFiles(map[], obs.files),
      RecordServices(map[], obs.services),
      if obs.packages.Some? then Installed(obs.packages.value) else {},
      if obs.passwd.Some? then Usernames(obs.passwd.value) else {})
  }

  /** The `severity` values of the detections, in order. */
  function Severities(ds: seq<Detection>): (r: seq<Severity>)
    ensures |r| == |ds|
    ensures forall i :: 0 <= i < |ds| ==> r[i] == ds[i].severity
  {
    if ds == [] then [] else Severities(ds[..|ds| - 1]) + [ds[|ds| - 1].severity]
  }

  /** The `category` values of the detections, in order. */
  function Categories(ds: seq<Detection>): (r: seq<Category>)
    ensures |r| == |ds|
    ensures forall i :: 0 <= i < |ds| ==> r[i] == ds[i].kind.Category()
  {
    if ds == [] then [] else Categories(ds[..|ds| - 1]) + [ds[|ds| - 1].kind.Category()]
  }

  /** The exit status of `main`: 1 when anything was detected. */
  function ExitCode(detections: seq<Detection>): (code: int)
    ensures code == 0 || code == 1
    ensures code == 1 <==> |detections| > 0
  {
    if |detections| > 0 then 1 else 0
  }

  // ---------------------------------------------------------------------------
  // Properties

  /** A file detection is emitted for exactly the readable scanned files whose
      previous checksum exists and differs; it carries both checksums and the
      path's severity. */
  lemma FileDetectionsExact(previous: map<string, string>, scan: seq<FileObservation>)
    ensures |FileDetections(previous, scan)| <= |scan|
    ensures forall d :: d in FileDetections(previous, scan) <==>
      exists i :: 0 <= i < |scan| && DetectsFile(previous, scan[i], d)
  {
    FileDetectionsSound(previous, scan);
    FileDetectionsComplete(previous, scan);
  }

  lemma {:induction false} FileDetectionsSound(previous: map<string, string>, scan: seq<FileObservation>)
    ensures |FileDetections(previous, scan)| <= |scan|
    ensures forall d :: d in FileDetections(previous, scan) ==>
      exists i :: 0 <= i < |scan| && DetectsFile(previous, scan[i], d)
  {
    if scan != [] {
      var n := |scan| - 1;
      var init := scan[..n];
      FileDetectionsSound(previous, init);
      forall d | d in FileDetections(previous, scan)
        ensures exists i :: 0 <= i < |scan| && DetectsFile(previous, scan[i], d)
      {
        if d in FileDetections(previous, init) {
          var i :| 0 <= i < |init| && DetectsFile(previous, init[i], d);
          assert scan[i] == init[i];
        } else {
          CompareFileExact(previous, scan[n], d);
        }
      }
    }
  }

  lemma FileDetectionsComplete(previous: map<string, string>, scan: seq<FileObservation>)
    ensures forall i, d :: 0 <= i < |scan| && DetectsFile(previous, scan[i], d) ==> d in FileDetections(previous, scan)
  {
    forall i, d | 0 <= i < |scan| && DetectsFile(previous, scan[i], d)
      ensures d in FileDetections(previous, scan)
    {
      FileDetectionAt(previous, scan, i, d);
    }
  }

  lemma {:induction false} FileDetectionAt(previous: map<string, string>, scan: seq<FileObservation>, i: nat, d: Detection)
    requires i < |scan| && DetectsFile(previous, scan[i], d)
    ensures d in FileDetections(previous, scan)
    decreases |scan|
  {
    var n := |scan| - 1;
    if i < n {
      FileDetectionAt(previous, scan[..n], i, d);
    } else {
      CompareFileExact(previous, scan[n], d);
    }
  }

  lemma CompareFileExact(previous: map<string, string>, obs: FileObservation, d: Detection)
    ensures d in CompareFile(previous, obs) <==> DetectsFile(previous, obs, d)
  {
  }

  /** Every readable scanned file is recorded, and nothing else is added. */
  lemma {:induction false} RecordFilesKeys(files: map<string, string>, scan: seq<FileObservation>)
    ensures RecordFiles(files, scan).Keys ==
      files.Keys + set i | 0 <= i < |scan| && Readable(scan[i].checksum) :: scan[i].path
  {
    if scan != [] {
      var init := scan[..|scan| - 1];
      RecordFilesKeys(files, init);
      var n := |scan| - 1;
      assert (set i | 0 <= i < |scan| && Readable(scan[i].checksum) :: scan[i].path) ==
        (set i | 0 <= i < |init| && Readable(init[i].checksum) :: init[i].path) +
        (if Readable(scan[n].checksum) then {scan[n].path} else {});
    }
  }

  /** A readable scanned file is recorded. */
  lemma {:induction false} FileRecorded(scan: seq<FileObservation>, i: nat)
    requires i < |scan| && Readable(scan[i].checksum)
    ensures scan[i].path in RecordFiles(map[], scan)
  {
    var n := |scan| - 1;
    if i < n {
      FileRecorded(scan[..n], i);
    }
  }

  /** A recorded checksum is one the scan met for that path. */
  lemma {:induction false} RecordedFromScan(files: map<string, string>, scan: seq<FileObservation>, path: string)
    requires path in RecordFiles(files, scan) && path !in files
    ensures exists j :: 0 <= j < |scan| && scan[j].path == path && scan[j].checksum == Some(RecordFiles(files, scan)[path])
  {
    var n := |scan| - 1;
    var init := scan[..n];
    if Readable(scan[n].checksum) && scan[n].path == path {
    } else {
      RecordedFromScan(files, init, path);
      var j :| 0 <= j < |init| && init[j].path == path && init[j].checksum == Some(RecordFiles(files, init)[path]);
      assert scan[j] == init[j];
    }
  }

  /** A service detection is emitted for exactly the services whose previous
      status exists and differs; its severity is high unless the service is
      now active. */
  lemma {:induction false} ServiceDetectionsExact(previous: map<string, string>, observed: seq<ServiceObservation>)
    ensures |ServiceDetections(previous, observed)| <= |observed|
    ensures forall d :: d in ServiceDetections(previous, observed) <==>
      exists i :: 0 <= i < |observed| && observed[i].status.Some? &&
        ChangedSince(previous, observed[i].service, observed[i].status.value) &&
        d == Detection(ServiceStatusChange, observed[i].service, previous[observed[i].service], observed[i].status.value,
                       if observed[i].status.value != "active" then High else Medium)
  {
    if observed != [] {
      var init := observed[..|observed| - 1];
      ServiceDetectionsExact(previous, init);
      forall i | 0 <= i < |init| ensures init[i] == observed[i] { }
    }
  }

  /** A recorded status is one the check met for that service. */
  lemma {:induction false} RecordedStatus(services: map<string, string>, observed: seq<ServiceObservation>, service: string)
    requires service in RecordServices(services, observed) && service !in services
    ensures exists j :: 0 <= j < |observed| && observed[j].service == service && observed[j].status == Some(RecordServices(services, observed)[service])
  {
    var n := |observed| - 1;
    var init := observed[..n];
    if observed[n].status.None? || observed[n].service != service {
      RecordedStatus(services, init, service);
      var j :| 0 <= j < |init| && init[j].service == service && init[j].status == Some(RecordServices(services, init)[service]);
      assert observed[j] == init[j];
    }
  }

  /** The detections of a set difference: one per added name, of the added
      kind, and one per removed name, of the removed kind, each once. */
  lemma MembershipExact(current: set<string>, previous: set<string>, added: Kind, removed: Kind)
    requires added != removed
    ensures forall d :: d in MembershipDetections(current, previous, added, removed) <==>
      (d == MemberDetection(added, d.subject) && d.subject in current && d.subject !in previous) ||
      (d == MemberDetection(removed, d.subject) && d.subject in previous && d.subject !in current)
    ensures forall d :: MembershipDetections(current, previous, added, removed)[d] <= 1
  {
    var (a, r) := Delta(current, previous);
    var da, dr := MemberDetections(a, added), MemberDetections(r, removed);
    assert da !! dr by {
      forall d | d in da ensures d !in dr {
        assert d.kind == added;
      }
    }
    forall d ensures MembershipDetections(current, previous, added, removed)[d] <= 1 {
      if d in da {
        assert d !in dr;
      }
    }
  }

  /** `check_package_changes`: added packages are reported at medium
      severity, removed ones at high, each once. */
  lemma PackageDetectionsExact(previous: Snapshot, installed: seq<string>)
    ensures forall d :: d in PackageDetections(previous, Some(installed)) <==>
      (d == Detection(PackageAdded, d.subject, "", "", Medium) && d.subject in installed && d.subject !in previous.packages) ||
      (d == Detection(PackageRemoved, d.subject, "", "", High) && d.subject in previous.packages && d.subject !in installed)
    ensures forall d :: PackageDetections(previous, Some(installed))[d] <= 1
  {
    MembershipExact(Installed(installed), previous.packages, PackageAdded, PackageRemoved);
  }

  /** `check_user_accounts`: added users are reported at high severity,
      removed ones at critical, each once. */
  lemma UserDetectionsExact(previous: Snapshot, passwd: string)
    ensures forall d :: d in UserDetections(previous, Some(passwd)) <==>
      (d == Detection(UserAdded, d.subject, "", "", High) && d.subject in Usernames(passwd) && d.subject !in previous.users) ||
      (d == Detection(UserRemoved, d.subject, "", "", Critical) && d.subject in previous.users && d.subject !in Usernames(passwd))
    ensures forall d :: UserDetections(previous, Some(passwd))[d] <= 1
  {
    MembershipExact(Usernames(passwd), previous.users, UserAdded, UserRemoved);
  }

  /** On a first run (no saved state) file and service checks report nothing,
      and every current package and user is reported as added. */
  lemma FirstRunReportsOnlyAdditions(obs: Observations)
    ensures FileDetections(map[], obs.files) == []
    ensures ServiceDetections(map[], obs.services) == []
    ensures ExpectedDetections(NoPreviousState, obs) ==
      (if obs.packages.Some? then multiset(MemberDetections(Installed(obs.packages.value), PackageAdded)) else multiset{})
      + (if obs.passwd.Some? then multiset(MemberDetections(Usernames(obs.passwd.value), UserAdded)) else multiset{})
  {
    NoFileDetections(map[], obs.files);
    NoServiceDetections(map[], obs.services);
    assert MemberDetections({}, PackageRemoved) == {};
    assert MemberDetections({}, UserRemoved) == {};
  }

  /** On a first run `main` exits 1 iff some package or some user exists. */
  lemma FirstRunExitCode(obs: Observations, detections: seq<Detection>)
    requires multiset(detections) == ExpectedDetections(NoPreviousState, obs)
    ensures ExitCode(detections) == 1 <==>
      (obs.packages.Some? && obs.packages.value != []) || (obs.passwd.Some? && Usernames(obs.passwd.value) != {})
  {
    FirstRunReportsOnlyAdditions(obs);
    if obs.packages.Some? && obs.packages.value != [] {
      var p := obs.packages.value[0];
      assert MemberDetection(PackageAdded, p) in MemberDetections(Installed(obs.packages.value), PackageAdded);
    }
    if obs.passwd.Some? && Usernames(obs.passwd.value) != {} {
      var u :| u in Usernames(obs.passwd.value);
      assert MemberDetection(UserAdded, u) in MemberDetections(Usernames(obs.passwd.value), UserAdded);
    }
    if obs.packages.Some? && obs.packages.value == [] {
      assert Installed(obs.packages.value) == {};
    }
    assert |multiset(detections)| == |detections|;
  }

  /** The observations name each file and each service with one value. */
  predicate Consistent(obs: Observations) {
    && (forall i, j :: 0 <= i < |obs.files| && 0 <= j < |obs.files| && obs.files[i].path == obs.files[j].path ==>
          obs.files[i].checksum == obs.files[j].checksum)
    && (forall i, j :: 0 <= i < |obs.services| && 0 <= j < |obs.services| && obs.services[i].service == obs.services[j].service ==>
          obs.services[i].status == obs.services[j].status)
  }

  /** No scanned file changed: no file detections. */
  lemma {:induction false} NoFileDetections(previous: map<string, string>, scan: seq<FileObservation>)
    requires forall i :: 0 <= i < |scan| && Readable(scan[i].checksum) ==> !ChangedSince(previous, scan[i].path, scan[i].checksum.value)
    ensures FileDetections(previous, scan) == []
  {
    if scan != [] {
      var init := scan[..|scan| - 1];
      forall i | 0 <= i < |init| ensures init[i] == scan[i] { }
      NoFileDetections(previous, init);
    }
  }

  /** No service changed: no service detections. */
  lemma {:induction false} NoServiceDetections(previous: map<string, string>, observed: seq<ServiceObservation>)
    requires forall i :: 0 <= i < |observed| && observed[i].status.Some? ==> !ChangedSince(previous, observed[i].service, observed[i].status.value)
    ensures ServiceDetections(previous, observed) == []
  {
    if observed != [] {
      var init := observed[..|observed| - 1];
      forall i | 0 <= i < |init| ensures init[i] == observed[i] { }
      NoServiceDetections(previous, init);
    }
  }

  /** Comparing a scan with the checksums it recorded itself finds nothing. */
  lemma RescanFindsNoFileChange(scan: seq<FileObservation>)
    requires forall i, j :: 0 <= i < |scan| && 0 <= j < |scan| && scan[i].path == scan[j].path ==> scan[i].checksum == scan[j].checksum
    ensures FileDetections(RecordFiles(map[], scan), scan) == []
  {
    var saved := RecordFiles(map[], scan);
    forall i | 0 <= i < |scan| && Readable(scan[i].checksum)
      ensures Lookup(saved, scan[i].path) == scan[i].checksum.value
    {
      FileRecorded(scan, i);
      RecordedFromScan(map[], scan, scan[i].path);
    }
    NoFileDetections(saved, scan);
  }

  /** Comparing service statuses with the ones recorded from them finds nothing. */
  lemma RecheckFindsNoServiceChange(observed: seq<ServiceObservation>)
    requires forall i, j :: 0 <= i < |observed| && 0 <= j < |observed| && observed[i].service == observed[j].service ==> observed[i].status == observed[j].status
    ensures ServiceDetections(RecordServices(map[], observed), observed) == []
  {
    var saved := RecordServices(map[], observed);
    forall i | 0 <= i < |observed| && observed[i].status.Some?
      ensures Lookup(saved, observed[i].service) == observed[i].status.value
    {
      ServiceRecorded(observed, i);
      RecordedStatus(map[], observed, observed[i].service);
    }
    NoServiceDetections(saved, observed);
  }

  /** Running the detector again on an unchanged system, against the state the
      first run saved, detects nothing. */
  lemma UnchangedSystemReportsNothing(obs: Observations)
    requires Consistent(obs)
    ensures ExpectedDetections(SavedAfter(obs), obs) == multiset{}
  {
    RescanFindsNoFileChange(obs.files);
    RecheckFindsNoServiceChange(obs.services);
    assert MemberDetections({}, PackageAdded) == {} && MemberDetections({}, PackageRemoved) == {};
    assert MemberDetections({}, UserAdded) == {} && MemberDetections({}, UserRemoved) == {};
  }

  /** A service whose `systemctl` call did not raise is recorded. */
  lemma {:induction false} ServiceRecorded(observed: seq<ServiceObservation>, i: nat)
    requires i < |observed| && observed[i].status.Some?
    ensures observed[i].service in RecordServices(map[], observed)
  {
    var n := |observed| - 1;
    if i < n {
      ServiceRecorded(observed[..n], i);
    }
  }

  lemma {:induction false} SeverityCountsAddUp(s: seq<Severity>)
    ensures multiset(s)[Critical] + multiset(s)[High] + multiset(s)[Medium] == |s|
  {
    if s != [] {
      var last := s[|s| - 1];
      if last == Critical { } else if last == High { } else { }
      SeverityCountsAddUp(s[..|s| - 1]);
      Seqs.Snoc(s);
      assert multiset(s) == multiset(s[..|s| - 1]) + multiset{s[|s| - 1]};
    }
  }

  lemma {:induction false} CategoryCountsAddUp(s: seq<Category>)
    ensures multiset(s)[FileIntegrity] + multiset(s)[ServiceHealth] + multiset(s)[PackageManagement] + multiset(s)[UserManagement] == |s|
  {
    if s != [] {
      var last := s[|s| - 1];
      if last == FileIntegrity { } else if last == ServiceHealth { } else if last == PackageManagement { } else { }
      CategoryCountsAddUp(s[..|s| - 1]);
      Seqs.Snoc(s);
      assert multiset(s) == multiset(s[..|s| - 1]) + multiset{s[|s| - 1]};
    }
  }

  /** The `by_severity` and `by_category` counts each add up to
      `total_detections`. */
  lemma SummaryAddsUp(ds: seq<Detection>)
    ensures var h := Tally.Histogram(Severities(ds));
      Tally.Get(h, Critical) + Tally.Get(h, High) + Tally.Get(h, Medium) == |ds|
    ensures var h := Tally.Histogram(Categories(ds));
      Tally.Get(h, FileIntegrity) + Tally.Get(h, ServiceHealth) + Tally.Get(h, PackageManagement) + Tally.Get(h, UserManagement) == |ds|
  {
    Tally.HistogramCounts(Severities(ds));
    SeverityCountsAddUp(Severities(ds));
    Tally.HistogramCounts(Categories(ds));
    CategoryCountsAddUp(Categories(ds));
  }

  // ---------------------------------------------------------------------------
  // The detector object

  /** `DriftDetector`: `detections` and the parts of `report_data` the checks write. */
  class Detector {
    const previous: Snapshot
    var detections: seq<Detection>
    var files: map<string, string>
    var services: map<string, string>
    var packages: Option<set<string>>
    var users: Option<set<string>>
    var totalDetections: nat
    var bySeverity: map<Severity, nat>
    var byCategory: map<Category, nat>

    constructor (previous: Snapshot)
      ensures this.previous == previous
      ensures detections == [] && files == map[] && services == map[]
      ensures packages == None && users == None
      ensures totalDetections == 0 && bySeverity == map[] && byCategory == map[]
    {
      this.previous := previous;
      detections, files, services := [], map[], map[];
      packages, users := None, None;
      totalDetections, bySeverity, byCategory := 0, map[], map[];
    }

    /** The state this run saves for the next one. */
    function Saved(): Snapshot
      reads this
    {
      Snapshot(files, services, packages.GetOr({}), users.GetOr({}))
    }

    method CheckFileChanges(scan: seq<FileObservation>)
      modifies this`detections, this`files
      ensures detections == old(detections) + FileDetections(previous.files, scan)
      ensures files == RecordFiles(old(files), scan)
    {
      for i := 0 to |scan|
        invariant detections == old(detections) + FileDetections(previous.files, scan[..i])
        invariant files == RecordFiles(old(files), scan[..i])
      {
        assert scan[..i + 1][..i] == scan[..i];
        var obs := scan[i];
        if obs.checksum.None? || obs.checksum.value == "" {
          continue;
        }
        var checksum := obs.checksum.value;
        var previousChecksum := Lookup(previous.files, obs.path);
        if previousChecksum != "" && previousChecksum != checksum {
          detections := detections + [Detection(FileChange, obs.path, previousChecksum, checksum, AssessSeverity(obs.path))];
        }
        files := files[obs.path := checksum];
      }
      assert scan[..|scan|] == scan;
    }

    method CheckServiceStatus(observed: seq<ServiceObservation>)
      modifies this`detections, this`services
      ensures detections == old(detections) + ServiceDetections(previous.services, observed)
      ensures services == RecordServices(old(services), observed)
    {
      for i := 0 to |observed|
        invariant detections == old(detections) + ServiceDetections(previous.services, observed[..i])
        invariant services == RecordServices(old(services), observed[..i])
      {
        assert observed[..i + 1][..i] == observed[..i];
        var obs := observed[i];
        if obs.status.None? {
          continue;
        }
        var currentStatus := obs.status.value;
        var previousStatus := Lookup(previous.services, obs.service);
        if previousStatus != "" && previousStatus != currentStatus {
          var severity := if currentStatus != "active" then High else Medium;
          detections := detections + [Detection(ServiceStatusChange, obs.service, previousStatus, currentStatus, severity)];
        }
        services := services[obs.service := currentStatus];
      }
      assert observed[..|observed|] == observed;
    }

    /** One `for name in names: self.detections.append(...)` loop. */
    method ReportMembers(names: set<string>, kind: Kind)
      modifies this`detections
      ensures |detections| == |old(detections)| + |names|
      ensures detections[..|old(detections)|] == old(detections)
      ensures multiset(detections[|old(detections)|..]) == multiset(MemberDetections(names, kind))
    {
      var n0 := |detections|;
      var remaining := names;
      ghost var done: set<string> := {};
      while remaining != {}
        invariant remaining !! done && remaining + done == names
        invariant |detections| == n0 + |done|
        invariant detections[..n0] == old(detections)
        invariant multiset(detections[n0..]) == multiset(MemberDetections(done, kind))
        decreases |remaining|
      {
        var name :| name in remaining;
        MemberDetectionsGrow(done, name, kind);
        assert (detections + [MemberDetection(kind, name)])[n0..] == detections[n0..] + [MemberDetection(kind, name)];
        detections := detections + [MemberDetection(kind, name)];
        remaining, done := remaining - {name}, done + {name};
      }
    }

    /** The added loop and then the removed loop of a package or user check. */
    method ReportDelta(current: set<string>, previousNames: set<string>, addedKind: Kind, removedKind: Kind)
      modifies this`detections
      ensures |detections| >= |old(detections)| && detections[..|old(detections)|] == old(detections)
      ensures multiset(detections[|old(detections)|..]) == MembershipDetections(current, previousNames, addedKind, removedKind)
    {
      var (added, removed) := Delta(current, previousNames);
      ghost var before := detections;
      ReportMembers(added, addedKind);
      ghost var mid := detections;
      ReportMembers(removed, removedKind);
      assert detections[..|mid|] == mid;
      assert detections[|before|..|before| + |added|] == mid[|before|..];
      AppendedPart(added, removed, addedKind, removedKind, before, detections);
    }

    method CheckPackageChanges(installed: Option<seq<string>>)
      modifies this`detections, this`packages
      ensures |detections| >= |old(detections)| && detections[..|old(detections)|] == old(detections)
      ensures multiset(detections[|old(detections)|..]) == PackageDetections(previous, installed)
      ensures installed.None? ==> detections == old(detections) && packages == old(packages)
      ensures installed.Some? ==> packages == Some(Installed(installed.value))
    {
      if installed.None? {
        assert detections[|detections|..] == [];
        return;
      }
      var current := Installed(installed.value);
      ReportDelta(current, previous.packages, PackageAdded, PackageRemoved);
      packages := Some(current);
    }

    method CheckUserAccounts(passwd: Option<string>)
      modifies this`detections, this`users
      ensures |detections| >= |old(detections)| && detections[..|old(detections)|] == old(detections)
      ensures multiset(detections[|old(detections)|..]) == UserDetections(previous, passwd)
      ensures passwd.None? ==> detections == old(detections) && users == old(users)
      ensures passwd.Some? ==> users == Some(Usernames(passwd.value))
    {
      if passwd.None? {
        assert detections[|detections|..] == [];
        return;
      }
      var current := Usernames(passwd.value);
      ReportDelta(current, previous.users, UserAdded, UserRemoved);
      users := Some(current);
    }

    /** `run_detection`: the four checks, then the summary counts. On a fresh
        detector, what `save_current_state` writes is `SavedAfter(obs)`. */
    method RunDetection(obs: Observations)
      modifies this
      ensures old(files) == map[] && old(services) == map[] && old(packages) == None && old(users) == None ==>
        Saved() == SavedAfter(obs)
      ensures ChecksAppended(old(detections), detections, previous, obs)
      ensures files == RecordFiles(old(files), obs.files)
      ensures services == RecordServices(old(services), obs.services)
      ensures packages == if obs.packages.Some? then Some(Installed(obs.packages.value)) else old(packages)
      ensures users == if obs.passwd.Some? then Some(Usernames(obs.passwd.value)) else old(users)
      ensures totalDetections == |detections|
      ensures bySeverity == Tally.Histogram(Severities(detections))
      ensures byCategory == Tally.Histogram(Categories(detections))
    {
      RunChecks(obs);
      Summarize();
    }

    /** The four checks of `run_detection`, in order. */
    method RunChecks(obs: Observations)
      modifies this`detections, this`files, this`services, this`packages, this`users
      ensures ChecksAppended(old(detections), detections, previous, obs)
      ensures files == RecordFiles(old(files), obs.files)
      ensures services == RecordServices(old(services), obs.services)
      ensures packages == if obs.packages.Some? then Some(Installed(obs.packages.value)) else old(packages)
      ensures users == if obs.passwd.Some? then Some(Usernames(obs.passwd.value)) else old(users)
    {
      ghost var d0 := detections;
      ghost var recordedFiles := RecordFiles(files, obs.files);
      ghost var recordedServices := RecordServices(services, obs.services);
      CheckFileChanges(obs.files);
      CheckServiceStatus(obs.services);
      assert files == recordedFiles && services == recordedServices;
      ghost var beforeSets := detections;
      CheckPackageChanges(obs.packages);
      ghost var afterPackages := detections;
      CheckUserAccounts(obs.passwd);
      CombineParts(d0, beforeSets, afterPackages, detections, previous, obs);
    }

    /** The summary counts of `run_detection`. */
    method Summarize()
      modifies this`totalDetections, this`bySeverity, this`byCategory
      ensures totalDetections == |detections|
      ensures bySeverity == Tally.Histogram(Severities(detections))
      ensures byCategory == Tally.Histogram(Categories(detections))
    {
      totalDetections := |detections|;
      bySeverity := Tally.Count(Severities(detections));
      byCategory := Tally.Count(Categories(detections));
    }
  }

  /** What the four checks of one run append to `detections`: the file and
      service detections first, in order, then a block holding the package
      detections in some order, then a block holding the user detections in
      some order. */
  predicate ChecksAppended(before: seq<Detection>, after: seq<Detection>, previous: Snapshot, obs: Observations) {
    var ordered := before + FileDetections(previous.files, obs.files) + ServiceDetections(previous.services, obs.services);
    var k := |ordered| + |PackageDetections(previous, obs.packages)|;
    && k <= |after| && after[..|ordered|] == ordered
    && multiset(after[|ordered|..k]) == PackageDetections(previous, obs.packages)
    && multiset(after[k..]) == UserDetections(previous, obs.passwd)
  }

  /** Altogether the checks append exactly the expected detections. */
  lemma ChecksAppendExpected(before: seq<Detection>, after: seq<Detection>, previous: Snapshot, obs: Observations)
    requires ChecksAppended(before, after, previous, obs)
    ensures multiset(after) == multiset(before) + ExpectedDetections(previous, obs)
  {
    var fs, ss := FileDetections(previous.files, obs.files), ServiceDetections(previous.services, obs.services);
    var p, u := PackageDetections(previous, obs.packages), UserDetections(previous, obs.passwd);
    AppendedBlocks(before, fs, ss, after, p, u);
    assert ExpectedDetections(previous, obs) == multiset(fs) + multiset(ss) + p + u;
  }

  lemma AppendedBlocks(before: seq<Detection>, fs: seq<Detection>, ss: seq<Detection>, after: seq<Detection>,
                       p: multiset<Detection>, u: multiset<Detection>)
    requires |before + fs + ss| + |p| <= |after| && after[..|before + fs + ss|] == before + fs + ss
    requires multiset(after[|before + fs + ss|..|before + fs + ss| + |p|]) == p
    requires multiset(after[|before + fs + ss| + |p|..]) == u
    ensures multiset(after) == multiset(before) + (multiset(fs) + multiset(ss) + p + u)
  {
    var n := |before + fs + ss|;
    assert after == (before + fs + ss) + after[n..n + |p|] + after[n + |p|..];
  }

  /** The four checks' appended parts add up to the expected detections. */
  lemma CombineParts(d0: seq<Detection>, beforeSets: seq<Detection>, afterPackages: seq<Detection>, final: seq<Detection>,
                     previous: Snapshot, obs: Observations)
    requires beforeSets == d0 + FileDetections(previous.files, obs.files) + ServiceDetections(previous.services, obs.services)
    requires |beforeSets| <= |afterPackages| && afterPackages[..|beforeSets|] == beforeSets
    requires |afterPackages| <= |final| && final[..|afterPackages|] == afterPackages
    requires multiset(afterPackages[|beforeSets|..]) == PackageDetections(previous, obs.packages)
    requires multiset(final[|afterPackages|..]) == UserDetections(previous, obs.passwd)
    ensures ChecksAppended(d0, final, previous, obs)
  {
    CombineBlocks(beforeSets, afterPackages, final, PackageDetections(previous, obs.packages), UserDetections(previous, obs.passwd));
  }

  /** Two appended blocks, seen from the final sequence. */
  lemma CombineBlocks(ordered: seq<Detection>, afterPackages: seq<Detection>, final: seq<Detection>,
                      p: multiset<Detection>, u: multiset<Detection>)
    requires |ordered| <= |afterPackages| && afterPackages[..|ordered|] == ordered
    requires |afterPackages| <= |final| && final[..|afterPackages|] == afterPackages
    requires multiset(afterPackages[|ordered|..]) == p
    requires multiset(final[|afterPackages|..]) == u
    ensures |ordered| + |p| == |afterPackages| && final[..|ordered|] == ordered
    ensures multiset(final[|ordered|..|afterPackages|]) == p
    ensures multiset(final[|afterPackages|..]) == u
  {
    assert |afterPackages[|ordered|..]| == |p|;
    assert final[..|ordered|] == afterPackages[..|ordered|];
    assert final[|ordered|..|afterPackages|] == afterPackages[|ordered|..];
  }

  /** What one package or user check appended, as a multiset. */
  lemma AppendedPart(added: set<string>, removed: set<string>, addedKind: Kind, removedKind: Kind,
                     before: seq<Detection>, after: seq<Detection>)
    requires |after| == |before| + |added| + |removed|
    requires after[..|before|] == before
    requires multiset(after[|before|..|before| + |added|]) == multiset(MemberDetections(added, addedKind))
    requires multiset(after[|before| + |added|..]) == multiset(MemberDetections(removed, removedKind))
    ensures multiset(after[|before|..]) == multiset(MemberDetections(added, addedKind)) + multiset(MemberDetections(removed, removedKind))
  {
    PartsMultiset(after, |before|, |added|);
  }

  /** Adding a fresh name adds exactly its one detection. */
  lemma MemberDetectionsGrow(done: set<string>, name: string, kind: Kind)
    requires name !in done
    ensures multiset(MemberDetections(done + {name}, kind)) == multiset(MemberDetections(done, kind)) + multiset{MemberDetection(kind, name)}
  {
    var d := MemberDetection(kind, name);
    assert MemberDetections(done + {name}, kind) == MemberDetections(done, kind) + {d};
    assert d !in MemberDetections(done, kind);
  }

  lemma PartsMultiset(b: seq<Detection>, from: nat, k: nat)
    requires from + k <= |b|
    ensures multiset(b[from..]) == multiset(b[from..from + k]) + multiset(b[from + k..])
  {
    assert b[from..] == b[from..from + k] + b[from + k..];
  }
}
