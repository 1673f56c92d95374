/** The hand-off from the detector to the remediation engine: the engine
    reads the detections of the detector's saved report. A detection carries
    `type` and one of `file`, `service`, `package` or `user`, but no `node`
    key, so the engine files every detection under the node "unknown". */
module Integration {
  import Seqs
  import opened Wrappers
  import DriftDetector
  import opened RemediationModel
  import opened RemediationHandlers
  import opened RemediationNode
  import opened RemediationRollout

  /** A detector detection, as the engine reads it back from the report. */
  function ToDrift(d: DriftDetector.Detection): (r: Drift)
    ensures r.kind == d.kind.TypeName() && Known(r.kind)
    ensures r.node == None
    ensures d.kind.FileChange? ==> r.file == d.subject
    ensures d.kind.ServiceStatusChange? <==> r.service == Some(d.subject)
    ensures (d.kind.PackageAdded? || d.kind.PackageRemoved?) <==> r.package == Some(d.subject)
    ensures (d.kind.UserAdded? || d.kind.UserRemoved?) <==> r.user == Some(d.subject)
  {
    Drift(d.kind.TypeName(), None,
          if d.kind.FileChange? then d.subject else "",
          if d.kind.ServiceStatusChange? then Some(d.subject) else None,
          if d.kind.PackageAdded? || d.kind.PackageRemoved? then Some(d.subject) else None,
          if d.kind.UserAdded? || d.kind.UserRemoved? then Some(d.subject) else None)
  }

  function ToDrifts(ds: seq<DriftDetector.Detection>): seq<Drift> {
    seq(|ds|, i requires 0 <= i < |ds| => ToDrift(ds[i]))
  }

  /** The detector's saved report: it always has other keys (metadata and
      summary) besides `detections`. */
  function FromDetector(ds: seq<DriftDetector.Detection>): Option<Report> {
    Some(Report(Some(ToDrifts(ds)), true))
  }

  /** Drifts without a node form at most one group, "unknown", holding all
      of them in order. */
  lemma {:induction false} AllUnderUnknown(xs: seq<Drift>)
    requires forall i :: 0 <= i < |xs| ==> xs[i].node == None
    ensures GroupByNode(xs) == if xs == [] then [] else [Group("unknown", xs)]
    decreases |xs|
  {
    if xs != [] {
      var init := xs[..|xs| - 1];
      AllUnderUnknown(init);
      Seqs.Snoc(xs);
    }
  }

  /** Every detection of the detector's report is grouped under "unknown". */
  lemma DetectionsGroupUnderUnknown(ds: seq<DriftDetector.Detection>)
    ensures GroupByNode(Detections(FromDetector(ds))) == if ds == [] then [] else [Group("unknown", ToDrifts(ds))]
  {
    AllUnderUnknown(ToDrifts(ds));
  }

  lemma {:induction false} KnownKept(xs: seq<Drift>)
    requires forall i :: 0 <= i < |xs| ==> Known(xs[i].kind)
    ensures KnownDrifts(xs) == xs
    decreases |xs|
  {
    if xs != [] {
      KnownKept(xs[..|xs| - 1]);
      Seqs.Snoc(xs);
    }
  }

  /** Every detection is of a type the engine knows, so each yields a
      result entry. */
  lemma AllDetectionsKnown(ds: seq<DriftDetector.Detection>)
    ensures KnownDrifts(ToDrifts(ds)) == ToDrifts(ds)
  {
    KnownKept(ToDrifts(ds));
  }

  /** On the detector's report, `run` calls `remediate_node` once, on
      "unknown", when there are detections (the single group is always a
      canary, whatever the percentage), and not at all otherwise. */
  lemma RunOnDetectorReport(cfg: Config, env: Env, st: State, ds: seq<DriftDetector.Detection>)
    requires cfg.enabled
    ensures RunSpec(cfg, env, st, FromDetector(ds)).0.started == st.started + (if ds == [] then [] else ["unknown"])
  {
    var report := FromDetector(ds);
    DetectionsGroupUnderUnknown(ds);
    if ds == [] {
      assert Detections(report) == [];
      NoDetectionsNoChange(cfg, env, st, report);
    } else {
      var gs := GroupByNode(Detections(report));
      assert Keys(gs) == ["unknown"];
      if CanarySpec(cfg, env, st, gs).1 {
        RunRemediatesEachNodeOnce(cfg, env, st, report);
      } else {
        GateFailureStopsRollout(cfg, env, st, report);
      }
    }
  }
}
