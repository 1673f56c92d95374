/** The rollout of the remediation engine: grouping the report's detections by
    node, the canary phase and its gate, the full phase, the outcome of `run`,
    and the counting part of `generate_remediation_report`. */
module RemediationRollout {
  import Seqs
  import opened Wrappers
  import opened RemediationModel
  import opened RemediationHandlers
  import opened RemediationNode
  import Tally

  // ---------------------------------------------------------------------------
  // Grouping by node

  /** One entry of `nodes_with_drifts`, a dictionary that keeps insertion order. */
  datatype Group = Group(node: string, drifts: seq<Drift>)

  function Keys(gs: seq<Group>): seq<string> {
    seq(|gs|, i requires 0 <= i < |gs| => gs[i].node)
  }

  predicate DistinctKeys(gs: seq<Group>) {
    forall i, j :: 0 <= i < j < |gs| ==> gs[i].node != gs[j].node
  }

  /** `detection.get('node', 'unknown')`. */
  function NodeOf(d: Drift): string {
    d.node.GetOr("unknown")
  }

  function Nodes(ds: seq<Drift>): seq<string> {
    seq(|ds|, i requires 0 <= i < |ds| => NodeOf(ds[i]))
  }

  /** The position of `node` among the keys, or `|gs|`. */
  function FindNode(gs: seq<Group>, node: string): (i: nat)
    ensures i <= |gs|
    ensures i < |gs| ==> gs[i].node == node
    ensures forall j :: 0 <= j < i ==> gs[j].node != node
  {
    if gs == [] then 0
    else if gs[0].node == node then 0
    else 1 + FindNode(gs[1..], node)
  }

  /** `nodes_with_drifts.get(node, [])`. */
  function DriftsOf(gs: seq<Group>, node: string): seq<Drift> {
    var i := FindNode(gs, node);
    if i < |gs| then gs[i].drifts else []
  }

  /** One iteration of the grouping loop of `run`. */
  function AddDetection(gs: seq<Group>, d: Drift): seq<Group> {
    var i := FindNode(gs, NodeOf(d));
    if i == |gs| then gs + [Group(NodeOf(d), [d])]
    else gs[i := Group(NodeOf(d), gs[i].drifts + [d])]
  }

  /** The grouping loop of `run`. */
  function GroupByNode(ds: seq<Drift>): seq<Group>
    decreases |ds|
  {
    if ds == [] then [] else AddDetection(GroupByNode(ds[..|ds| - 1]), ds[|ds| - 1])
  }

  /** The detections of one node, in report order (independent reference). */
  function ForNode(ds: seq<Drift>, node: string): seq<Drift>
    decreases |ds|
  {
    if ds == [] then []
    else ForNode(ds[..|ds| - 1], node) + (if NodeOf(ds[|ds| - 1]) == node then [ds[|ds| - 1]] else [])
  }

  /** Each value once, at its first appearance (independent reference). */
  function FirstAppearances(ns: seq<string>): seq<string>
    decreases |ns|
  {
    if ns == [] then []
    else
      var f := FirstAppearances(ns[..|ns| - 1]);
      if ns[|ns| - 1] in f then f else f + [ns[|ns| - 1]]
  }

  /** Grouping keeps one entry per node, in order of first appearance; each
      entry holds exactly that node's detections in report order, and none is
      empty. */
  lemma GroupingCorrect(ds: seq<Drift>)
    ensures var gs := GroupByNode(ds);
      && DistinctKeys(gs)
      && Keys(gs) == FirstAppearances(Nodes(ds))
      && (forall i :: 0 <= i < |gs| ==> gs[i].drifts == ForNode(ds, gs[i].node) && gs[i].drifts != [])
      && (forall n :: n !in Keys(gs) ==> ForNode(ds, n) == [])
  {
    GroupingKeys(ds);
    GroupingContents(ds);
  }

  lemma {:induction false} GroupingKeys(ds: seq<Drift>)
    ensures DistinctKeys(GroupByNode(ds)) && Keys(GroupByNode(ds)) == FirstAppearances(Nodes(ds))
    decreases |ds|
  {
    if ds != [] {
      var init := ds[..|ds| - 1];
      var d := ds[|ds| - 1];
      GroupingKeys(init);
      assert Nodes(ds)[..|ds| - 1] == Nodes(init);
      KeysAdd(GroupByNode(init), d);
    }
  }

  /** One grouping step adds the node as a new key iff it was not one yet. */
  lemma KeysAdd(gs: seq<Group>, d: Drift)
    ensures Keys(AddDetection(gs, d)) == if NodeOf(d) in Keys(gs) then Keys(gs) else Keys(gs) + [NodeOf(d)]
    ensures DistinctKeys(gs) ==> DistinctKeys(AddDetection(gs, d))
  {
    var n := NodeOf(d);
    var i := FindNode(gs, n);
    var gs' := AddDetection(gs, d);
    if i == |gs| {
      assert n !in Keys(gs);
      assert Keys(gs') == Keys(gs) + [n];
    } else {
      assert Keys(gs)[i] == n;
      assert Keys(gs') == Keys(gs);
    }
  }

  lemma {:induction false} GroupingContents(ds: seq<Drift>)
    ensures var gs := GroupByNode(ds);
      && (forall i :: 0 <= i < |gs| ==> gs[i].drifts == ForNode(ds, gs[i].node) && gs[i].drifts != [])
      && (forall n :: n !in Keys(gs) ==> ForNode(ds, n) == [])
    decreases |ds|
  {
    if ds != [] {
      var init := ds[..|ds| - 1];
      var d := ds[|ds| - 1];
      GroupingKeys(init);
      GroupingContents(init);
      var gs := GroupByNode(init);
      KeysAdd(gs, d);
      var n := NodeOf(d);
      var k := FindNode(gs, n);
      var gs' := AddDetection(gs, d);
      assert GroupByNode(ds) == gs';
      forall m ensures ForNode(ds, m) == ForNode(init, m) + (if m == n then [d] else []) {
      }
      forall j | 0 <= j < |gs'| ensures gs'[j].drifts == ForNode(ds, gs'[j].node) && gs'[j].drifts != [] {
        if j == k {
          assert gs'[j] == Group(n, ForNode(init, n) + [d]);
        } else {
          assert gs'[j] == gs[j] && Keys(gs)[j] == gs[j].node;
        }
      }
      forall m | m !in Keys(gs') ensures ForNode(ds, m) == [] {
        assert m != n && m !in Keys(gs);
      }
    }
  }

  /** The part of `GroupingCorrect` the rollout relies on. */
  lemma GroupsAreDistinctAndNonEmpty(ds: seq<Drift>)
    ensures DistinctKeys(GroupByNode(ds))
    ensures forall i :: 0 <= i < |GroupByNode(ds)| ==> GroupByNode(ds)[i].drifts != []
  {
    GroupingCorrect(ds);
  }

  /** `FirstAppearances` holds each value of its input exactly once. */
  lemma {:induction false} FirstAppearancesDistinct(ns: seq<string>)
    ensures forall i, j :: 0 <= i < j < |FirstAppearances(ns)| ==> FirstAppearances(ns)[i] != FirstAppearances(ns)[j]
    ensures forall n :: n in FirstAppearances(ns) <==> n in ns
    decreases |ns|
  {
    if ns != [] {
      var init := ns[..|ns| - 1];
      var x := ns[|ns| - 1];
      FirstAppearancesDistinct(init);
      assert ns == init + [x];
      var f := FirstAppearances(init);
      if x !in f {
        var f' := f + [x];
        forall i, j | 0 <= i < j < |f'| ensures f'[i] != f'[j] {
          assert f'[i] == f[i] && f[i] in f;
        }
      }
    }
  }

  // ---------------------------------------------------------------------------
  // Canary selection

  /** Python's `int()` of a quotient: division truncating toward zero. */
  function TruncDiv(a: int, b: int): (q: int)
    requires b > 0
    ensures a >= 0 ==> q * b <= a < (q + 1) * b
    ensures a < 0 ==> (q - 1) * b < a <= q * b
  {
    if a >= 0 then a / b else -((-a) / b)
  }

  function Min(a: int, b: int): int {
    if a <= b then a else b
  }

  /** `max(1, int(len(all_nodes) * canary_percentage / 100))`. */
  function CanaryCount(cfg: Config, n: nat): (k: int)
    ensures k >= 1
  {
    var q := TruncDiv(n * cfg.canaryPercentage, 100);
    if q >= 1 then q else 1
  }

  /** `select_canary_nodes`: all nodes when canary is disabled, otherwise the
      first `CanaryCount` of them (all, when there are fewer). */
  function SelectCanaryNodes(cfg: Config, nodes: seq<string>): (r: seq<string>)
    ensures r <= nodes
    ensures !cfg.canaryEnabled ==> r == nodes
    ensures cfg.canaryEnabled ==> |r| == Min(|nodes|, CanaryCount(cfg, |nodes|))
    ensures nodes != [] ==> r != []
  {
    if !cfg.canaryEnabled then nodes
    else nodes[..Min(|nodes|, CanaryCount(cfg, |nodes|))]
  }

  // ---------------------------------------------------------------------------
  // The canary phase

  /** The canaries that have drifts to remediate. */
  function WithDrifts(gs: seq<Group>, ns: seq<string>): seq<string>
    decreases |ns|
  {
    if ns == [] then []
    else WithDrifts(gs, ns[..|ns| - 1]) + (if DriftsOf(gs, ns[|ns| - 1]) != [] then [ns[|ns| - 1]] else [])
  }

  /** One iteration of the `for node in self.canary_nodes` loop, on the
      state and the two counts. */
  function CanaryStep(cfg: Config, env: Env, acc: (State, nat, nat), gs: seq<Group>, node: string): (r: (State, nat, nat))
    ensures r.2 == acc.2 + (if DriftsOf(gs, node) != [] then 1 else 0)
    ensures r.1 <= acc.1 + (r.2 - acc.2)
    ensures r.0.started == acc.0.started + (if DriftsOf(gs, node) != [] then [node] else [])
    ensures r.0.canaryNodes == acc.0.canaryNodes && r.0.failedNodes == acc.0.failedNodes
  {
    var (st, succeeded, total) := acc;
    if DriftsOf(gs, node) == [] then (Log(st, "no_drifts", node, Info), succeeded, total)
    else
      var o := NodeSpec(cfg, env, st, node, DriftsOf(gs, node));
      (o.state, succeeded + (if o.ok then 1 else 0), total + 1)
  }

  /** A canary counts as a success exactly when it had drifts and
      `remediate_node` returned True for it. */
  lemma CanaryStepCounts(cfg: Config, env: Env, acc: (State, nat, nat), gs: seq<Group>, node: string)
    ensures CanaryStep(cfg, env, acc, gs, node).1 ==
      acc.1 + (if DriftsOf(gs, node) != [] && NodeSpec(cfg, env, acc.0, node, DriftsOf(gs, node)).ok then 1 else 0)
  {
  }

  /** The `for node in self.canary_nodes` loop: the state, the successes and
      the number of canaries remediated. Canaries without drifts are logged
      and not counted. */
  function CanaryLoop(cfg: Config, env: Env, st: State, gs: seq<Group>, canary: seq<string>): (r: (State, nat, nat))
    ensures r.1 <= r.2 == |WithDrifts(gs, canary)|
    ensures r.0.started == st.started + WithDrifts(gs, canary)
    ensures r.0.canaryNodes == st.canaryNodes && r.0.failedNodes == st.failedNodes
    decreases |canary|
  {
    if canary == [] then (st, 0, 0)
    else CanaryStep(cfg, env, CanaryLoop(cfg, env, st, gs, canary[..|canary| - 1]), gs, canary[|canary| - 1])
  }

  /** The canary gate: `successful / total * 100 >= threshold`, with a rate of
      0 when no canary was remediated, in exact arithmetic. */
  predicate Gate(succeeded: nat, total: nat, threshold: int) {
    if total > 0 then succeeded * 100 >= threshold * total else 0 >= threshold
  }

  /** The gate compares the success percentage with the threshold. */
  lemma GateIsRate(succeeded: nat, total: nat, threshold: int)
    requires total > 0
    ensures Gate(succeeded, total, threshold) <==> (succeeded as real) / (total as real) * 100.0 >= threshold as real
  {
    var rate := (succeeded as real) / (total as real);
    assert rate * (total as real) == succeeded as real;
    assert rate * 100.0 * (total as real) == (succeeded * 100) as real;
    if Gate(succeeded, total, threshold) {
      assert rate * 100.0 * (total as real) >= (threshold as real) * (total as real);
    } else {
      assert rate * 100.0 * (total as real) < (threshold as real) * (total as real);
    }
  }

  /** `run_canary_remediation`. */
  function CanarySpec(cfg: Config, env: Env, st: State, gs: seq<Group>): (r: (State, bool))
    ensures r.0.failedNodes == st.failedNodes
    ensures gs == [] ==> r == (st, true)
    ensures gs != [] ==> r.0.canaryNodes == SelectCanaryNodes(cfg, Keys(gs))
    ensures gs != [] ==> r.0.started == st.started + WithDrifts(gs, SelectCanaryNodes(cfg, Keys(gs)))
    ensures gs != [] ==>
      var canary := SelectCanaryNodes(cfg, Keys(gs));
      var l := CanaryLoop(cfg, env, st.(canaryNodes := canary), gs, canary);
      && (r.1 <==> Gate(l.1, l.2, cfg.successThreshold))
      && r.0.log == l.0.log + [if r.1 then Event("canary_success", "all", Info) else Event("canary_failed", "all", Error)]
  {
    if gs == [] then (st, true)
    else
      var canary := SelectCanaryNodes(cfg, Keys(gs));
      var (st1, succeeded, total) := CanaryLoop(cfg, env, st.(canaryNodes := canary), gs, canary);
      if Gate(succeeded, total, cfg.successThreshold) then (Log(st1, "canary_success", "all", Info), true)
      else (Log(st1, "canary_failed", "all", Error), false)
  }

  // ---------------------------------------------------------------------------
  // The full phase

  /** `{node: drifts for node, drifts in nodes_with_drifts.items() if node not in self.canary_nodes}`. */
  function Remaining(gs: seq<Group>, canary: seq<string>): seq<Group>
    decreases |gs|
  {
    if gs == [] then []
    else Remaining(gs[..|gs| - 1], canary) + (if gs[|gs| - 1].node !in canary then [gs[|gs| - 1]] else [])
  }

  /** The `for node, drifts in remaining_nodes.items()` loop. */
  function FullLoop(cfg: Config, env: Env, st: State, rs: seq<Group>): (r: State)
    ensures r.started == st.started + Keys(rs)
    ensures r.canaryNodes == st.canaryNodes && r.failedNodes == st.failedNodes
    decreases |rs|
  {
    if rs == [] then st
    else
      KeysSnoc(rs);
      FullStep(cfg, env, FullLoop(cfg, env, st, rs[..|rs| - 1]), rs[|rs| - 1])
  }

  /** One iteration of the full-phase loop. */
  function FullStep(cfg: Config, env: Env, st: State, g: Group): (r: State)
    ensures r.started == st.started + [g.node]
    ensures r.canaryNodes == st.canaryNodes && r.failedNodes == st.failedNodes
  {
    NodeSpec(cfg, env, st, g.node, g.drifts).state
  }

  lemma FullLoopSnoc(cfg: Config, env: Env, st: State, rs: seq<Group>, g: Group)
    ensures FullLoop(cfg, env, st, rs + [g]) == FullStep(cfg, env, FullLoop(cfg, env, st, rs), g)
  {
    assert (rs + [g])[..|rs|] == rs;
  }

  lemma KeysSnoc(rs: seq<Group>)
    requires rs != []
    ensures Keys(rs) == Keys(rs[..|rs| - 1]) + [rs[|rs| - 1].node]
  {
  }

  /** `run_full_remediation` (which always returns True). */
  function FullSpec(cfg: Config, env: Env, st: State, gs: seq<Group>): State {
    FullLoop(cfg, env, st, Remaining(gs, st.canaryNodes))
  }

  /** The full phase remediates exactly the non-canary nodes, in map order, so
      no canary is remediated twice. */
  lemma {:induction false} RemainingExact(gs: seq<Group>, canary: seq<string>)
    ensures var rs := Remaining(gs, canary);
      && (forall g :: g in rs <==> g in gs && g.node !in canary)
      && |rs| <= |gs|
    decreases |gs|
  {
    if gs != [] {
      RemainingExact(gs[..|gs| - 1], canary);
      Seqs.Snoc(gs);
    }
  }

  /** When the canaries are the first `k` keys (and keys are distinct), the
      remaining groups are the ones after them. */
  lemma {:induction false} RemainingSuffix(gs: seq<Group>, canary: seq<string>, k: nat)
    requires k <= |gs|
    requires forall j :: 0 <= j < |gs| ==> (gs[j].node in canary <==> j < k)
    ensures Remaining(gs, canary) == gs[k..]
    decreases |gs|
  {
    if gs != [] {
      var init := gs[..|gs| - 1];
      var k' := Min(k, |init|);
      RemainingSuffix(init, canary, k');
      if k < |gs| {
        assert gs[k..] == init[k..] + [gs[|gs| - 1]];
      }
    }
  }

  /** Canaries that all have drifts are all remediated. */
  lemma {:induction false} WithDriftsAll(gs: seq<Group>, ns: seq<string>)
    requires forall i :: 0 <= i < |ns| ==> DriftsOf(gs, ns[i]) != []
    ensures WithDrifts(gs, ns) == ns
    decreases |ns|
  {
    if ns != [] {
      var init, last := ns[..|ns| - 1], ns[|ns| - 1];
      assert forall i :: 0 <= i < |init| ==> init[i] == ns[i];
      WithDriftsAll(gs, init);
      assert DriftsOf(gs, last) != [];
      Seqs.Snoc(ns);
    }
  }

  // ---------------------------------------------------------------------------
  // run

  /** The loaded detection report: its `detections` list when the key is
      there, and whether it has other keys (an empty dictionary is false). */
  datatype Report = Report(detections: Option<seq<Drift>>, otherKeys: bool)

  /** `if not self.detection_report`. */
  predicate Present(report: Option<Report>) {
    report.Some? && (report.value.detections.Some? || report.value.otherKeys)
  }

  function Detections(report: Option<Report>): seq<Drift> {
    if report.Some? then report.value.detections.GetOr([]) else []
  }

  /** `run`: the state afterwards and the value returned. */
  function RunSpec(cfg: Config, env: Env, st: State, report: Option<Report>): (r: (State, bool))
    ensures r.0.failedNodes == st.failedNodes
  {
    if !cfg.enabled || !Present(report) then (st, false)
    else
      var gs := GroupByNode(Detections(report));
      if gs == [] then (st, true)
      else
        var (st1, passed) := CanarySpec(cfg, env, st, gs);
        if !passed then (st1, false)
        else
          var st2 := FullSpec(cfg, env, st1, gs);
          (st2, |st2.failedNodes| == 0)
  }

  /** `failed_nodes` is never appended to, so a run that starts with none
      succeeds iff remediation is enabled, a report was loaded, and either the
      report has no detections or the canary gate passes. */
  lemma RunOutcome(cfg: Config, env: Env, st: State, report: Option<Report>)
    requires st.failedNodes == []
    ensures var gs := GroupByNode(Detections(report));
      RunSpec(cfg, env, st, report).1 <==>
        cfg.enabled && Present(report) && (gs == [] || CanarySpec(cfg, env, st, gs).1)
  {
  }

  /** A report without detections changes nothing and succeeds. */
  lemma NoDetectionsNoChange(cfg: Config, env: Env, st: State, report: Option<Report>)
    requires cfg.enabled && Present(report) && Detections(report) == []
    ensures RunSpec(cfg, env, st, report) == (st, true)
  {
  }

  /** When the gate fails, only the canaries were remediated: the full phase
      did not run. */
  lemma GateFailureStopsRollout(cfg: Config, env: Env, st: State, report: Option<Report>)
    requires cfg.enabled && Present(report)
    requires var gs := GroupByNode(Detections(report)); gs != [] && !CanarySpec(cfg, env, st, gs).1
    ensures var gs := GroupByNode(Detections(report));
      var r := RunSpec(cfg, env, st, report);
      !r.1 && r.0.started == st.started + SelectCanaryNodes(cfg, Keys(gs))
  {
    var gs := GroupByNode(Detections(report));
    GroupsAreDistinctAndNonEmpty(Detections(report));
    CanariesHaveDrifts(cfg, gs);
  }

  /** On grouped detections at least one canary is remediated, so the gate
      compares a true percentage: a threshold of at most 0 always passes and
      one above 100 never does. */
  lemma CanaryGateBounds(cfg: Config, env: Env, st: State, ds: seq<Drift>)
    requires GroupByNode(ds) != []
    ensures cfg.successThreshold <= 0 ==> CanarySpec(cfg, env, st, GroupByNode(ds)).1
    ensures cfg.successThreshold > 100 ==> !CanarySpec(cfg, env, st, GroupByNode(ds)).1
  {
    var gs := GroupByNode(ds);
    GroupsAreDistinctAndNonEmpty(ds);
    CanariesHaveDrifts(cfg, gs);
    var canary := SelectCanaryNodes(cfg, Keys(gs));
    var l := CanaryLoop(cfg, env, st.(canaryNodes := canary), gs, canary);
    assert 0 < |canary| == l.2 && l.1 <= l.2;
    GateBounds(l.1, l.2, cfg.successThreshold);
  }

  lemma GateBounds(succeeded: nat, total: nat, threshold: int)
    requires 0 < total && succeeded <= total
    ensures threshold <= 0 ==> Gate(succeeded, total, threshold)
    ensures threshold > 100 ==> !Gate(succeeded, total, threshold)
  {
  }

  /** Every selected canary has drifts. */
  lemma CanariesHaveDrifts(cfg: Config, gs: seq<Group>)
    requires DistinctKeys(gs) && forall i :: 0 <= i < |gs| ==> gs[i].drifts != []
    ensures WithDrifts(gs, SelectCanaryNodes(cfg, Keys(gs))) == SelectCanaryNodes(cfg, Keys(gs))
  {
    var canary := SelectCanaryNodes(cfg, Keys(gs));
    forall i | 0 <= i < |canary| ensures DriftsOf(gs, canary[i]) != [] {
      assert canary[i] == gs[i].node;
      assert FindNode(gs, canary[i]) == i;
    }
    WithDriftsAll(gs, canary);
  }

  /** After the canary phase, the full phase remediates the keys that follow
      the canaries. */
  lemma FullAfterCanaries(cfg: Config, env: Env, st: State, gs: seq<Group>)
    requires DistinctKeys(gs)
    requires st.canaryNodes == SelectCanaryNodes(cfg, Keys(gs))
    ensures FullSpec(cfg, env, st, gs).started == st.started + Keys(gs)[|st.canaryNodes|..]
  {
    var canary := st.canaryNodes;
    forall j | 0 <= j < |gs| ensures gs[j].node in canary <==> j < |canary| {
      if gs[j].node in canary {
        var m :| 0 <= m < |canary| && canary[m] == gs[j].node;
        assert canary[m] == Keys(gs)[m];
      }
      if j < |canary| {
        assert canary[j] == Keys(gs)[j];
      }
    }
    RemainingSuffix(gs, canary, |canary|);
    assert Keys(gs[|canary|..]) == Keys(gs)[|canary|..];
  }

  /** When the gate passes, `remediate_node` is called exactly once on every
      node of the report, canaries first, in map order. */
  lemma RunRemediatesEachNodeOnce(cfg: Config, env: Env, st: State, report: Option<Report>)
    requires cfg.enabled && Present(report)
    requires var gs := GroupByNode(Detections(report)); gs != [] && CanarySpec(cfg, env, st, gs).1
    ensures RunSpec(cfg, env, st, report).0.started == st.started + Keys(GroupByNode(Detections(report)))
  {
    GroupsAreDistinctAndNonEmpty(Detections(report));
    RunAfterCanaries(cfg, env, st, report);
    BothPhasesCoverKeys(cfg, env, st, GroupByNode(Detections(report)));
  }

  /** The canary phase followed by the full phase remediates every key once,
      in order. */
  lemma BothPhasesCoverKeys(cfg: Config, env: Env, st: State, gs: seq<Group>)
    requires gs != [] && DistinctKeys(gs) && forall i :: 0 <= i < |gs| ==> gs[i].drifts != []
    ensures FullSpec(cfg, env, CanarySpec(cfg, env, st, gs).0, gs).started == st.started + Keys(gs)
  {
    var canary := SelectCanaryNodes(cfg, Keys(gs));
    var st1 := CanarySpec(cfg, env, st, gs).0;
    CanaryPhaseStarts(cfg, env, st, gs);
    FullAfterCanaries(cfg, env, st1, gs);
    SplitKeys(Keys(gs), canary);
    StartedChain(st.started, st1.started, FullSpec(cfg, env, st1, gs).started, canary, Keys(gs)[|canary|..], Keys(gs));
  }

  /** Two phases that each append their nodes append the keys of both. */
  lemma StartedChain(s0: seq<string>, s1: seq<string>, s2: seq<string>, first: seq<string>, rest: seq<string>, keys: seq<string>)
    requires s1 == s0 + first && s2 == s1 + rest && keys == first + rest
    ensures s2 == s0 + keys
  {
  }

  /** The canary phase remediates every canary, in order. */
  lemma CanaryPhaseStarts(cfg: Config, env: Env, st: State, gs: seq<Group>)
    requires gs != [] && DistinctKeys(gs) && forall i :: 0 <= i < |gs| ==> gs[i].drifts != []
    ensures CanarySpec(cfg, env, st, gs).0.started == st.started + SelectCanaryNodes(cfg, Keys(gs))
    ensures CanarySpec(cfg, env, st, gs).0.canaryNodes == SelectCanaryNodes(cfg, Keys(gs))
  {
    CanariesHaveDrifts(cfg, gs);
  }

  lemma SplitKeys(ks: seq<string>, prefix: seq<string>)
    requires prefix <= ks
    ensures ks == prefix + ks[|prefix|..]
  {
  }

  /** A run whose gate passes is the canary phase followed by the full phase. */
  lemma RunAfterCanaries(cfg: Config, env: Env, st: State, report: Option<Report>)
    requires cfg.enabled && Present(report)
    requires var gs := GroupByNode(Detections(report)); gs != [] && CanarySpec(cfg, env, st, gs).1
    ensures var gs := GroupByNode(Detections(report));
      RunSpec(cfg, env, st, report).0 == FullSpec(cfg, env, CanarySpec(cfg, env, st, gs).0, gs)
  {
  }

  // ---------------------------------------------------------------------------
  // Admin users are never deleted, over a whole run

  lemma {:induction false} CanaryLoopKeepsAdmins(cfg: Config, env: Env, st: State, gs: seq<Group>, canary: seq<string>)
    requires NoAdminDeleted(cfg, st.commands)
    ensures NoAdminDeleted(cfg, CanaryLoop(cfg, env, st, gs, canary).0.commands)
    decreases |canary|
  {
    if canary != [] {
      CanaryLoopKeepsAdmins(cfg, env, st, gs, canary[..|canary| - 1]);
      var st1 := CanaryLoop(cfg, env, st, gs, canary[..|canary| - 1]).0;
      var node := canary[|canary| - 1];
      if DriftsOf(gs, node) != [] {
        NodeKeepsAdmins(cfg, env, st1, node, DriftsOf(gs, node));
      }
    }
  }

  lemma {:induction false} FullLoopKeepsAdmins(cfg: Config, env: Env, st: State, rs: seq<Group>)
    requires NoAdminDeleted(cfg, st.commands)
    ensures NoAdminDeleted(cfg, FullLoop(cfg, env, st, rs).commands)
    decreases |rs|
  {
    if rs != [] {
      FullLoopKeepsAdmins(cfg, env, st, rs[..|rs| - 1]);
      NodeKeepsAdmins(cfg, env, FullLoop(cfg, env, st, rs[..|rs| - 1]), rs[|rs| - 1].node, rs[|rs| - 1].drifts);
    }
  }

  /** No command of a run deletes a user listed in `preserve_admin_users`. */
  lemma RunKeepsAdmins(cfg: Config, env: Env, st: State, report: Option<Report>)
    requires NoAdminDeleted(cfg, st.commands)
    ensures NoAdminDeleted(cfg, RunSpec(cfg, env, st, report).0.commands)
  {
    if cfg.enabled && Present(report) {
      var gs := GroupByNode(Detections(report));
      if gs != [] {
        var canary := SelectCanaryNodes(cfg, Keys(gs));
        CanaryLoopKeepsAdmins(cfg, env, st.(canaryNodes := canary), gs, canary);
        var st1 := CanarySpec(cfg, env, st, gs).0;
        FullLoopKeepsAdmins(cfg, env, st1, Remaining(gs, st1.canaryNodes));
      }
    }
  }

  // ---------------------------------------------------------------------------
  // Safe mode changes nothing

  /** The configuration with `safe_mode` set as `--safe-mode` sets it. */
  function SafeMode(cfg: Config): Config {
    cfg.(safeMode := true)
  }

  lemma {:induction false} DriftsIgnoreSafeMode(cfg: Config, env: Env, st: State, node: string, drifts: seq<Drift>)
    ensures DriftsSpec(SafeMode(cfg), env, st, node, drifts) == DriftsSpec(cfg, env, st, node, drifts)
    decreases |drifts|
  {
    if drifts != [] {
      DriftsIgnoreSafeMode(cfg, env, st, node, drifts[..|drifts| - 1]);
    }
  }

  lemma PreStageIgnoresSafeMode(cfg: Config, env: Env, st: State, node: string)
    ensures PreStage(SafeMode(cfg), env, st, node) == PreStage(cfg, env, st, node)
  {
    assert BackupStage(SafeMode(cfg), env, st, node) == BackupStage(cfg, env, st, node);
  }

  lemma PostStageIgnoresSafeMode(cfg: Config, env: Env, st: State, node: string, results: seq<DriftResult>)
    ensures PostStage(SafeMode(cfg), env, st, node, results) == PostStage(cfg, env, st, node, results)
  {
    assert ValidationStage(cfg.postValidation, SafeMode(cfg), env, st, node, PostRemediation)
        == ValidationStage(cfg.postValidation, cfg, env, st, node, PostRemediation);
  }

  lemma NodeIgnoresSafeMode(cfg: Config, env: Env, st: State, node: string, drifts: seq<Drift>)
    ensures NodeSpec(SafeMode(cfg), env, st, node, drifts) == NodeSpec(cfg, env, st, node, drifts)
  {
    var st0 := st.(started := st.started + [node]);
    PreStageIgnoresSafeMode(cfg, env, st0, node);
    var pre := PreStage(cfg, env, st0, node);
    if pre.ok {
      DriftsIgnoreSafeMode(cfg, env, pre.state, node, drifts);
      var (st1, results) := DriftsSpec(cfg, env, pre.state, node, drifts);
      PostStageIgnoresSafeMode(cfg, env, st1, node, results);
    }
  }

  lemma {:induction false} CanaryLoopIgnoresSafeMode(cfg: Config, env: Env, st: State, gs: seq<Group>, canary: seq<string>)
    ensures CanaryLoop(SafeMode(cfg), env, st, gs, canary) == CanaryLoop(cfg, env, st, gs, canary)
    decreases |canary|
  {
    if canary != [] {
      CanaryLoopIgnoresSafeMode(cfg, env, st, gs, canary[..|canary| - 1]);
      CanaryStepIgnoresSafeMode(cfg, env, CanaryLoop(cfg, env, st, gs, canary[..|canary| - 1]), gs, canary[|canary| - 1]);
    }
  }

  lemma CanaryStepIgnoresSafeMode(cfg: Config, env: Env, acc: (State, nat, nat), gs: seq<Group>, node: string)
    ensures CanaryStep(SafeMode(cfg), env, acc, gs, node) == CanaryStep(cfg, env, acc, gs, node)
  {
    NodeIgnoresSafeMode(cfg, env, acc.0, node, DriftsOf(gs, node));
  }

  lemma {:induction false} FullLoopIgnoresSafeMode(cfg: Config, env: Env, st: State, rs: seq<Group>)
    ensures FullLoop(SafeMode(cfg), env, st, rs) == FullLoop(cfg, env, st, rs)
    decreases |rs|
  {
    if rs != [] {
      FullLoopIgnoresSafeMode(cfg, env, st, rs[..|rs| - 1]);
      NodeIgnoresSafeMode(cfg, env, FullLoop(cfg, env, st, rs[..|rs| - 1]), rs[|rs| - 1].node, rs[|rs| - 1].drifts);
    }
  }

  lemma CanaryIgnoresSafeMode(cfg: Config, env: Env, st: State, gs: seq<Group>)
    ensures CanarySpec(SafeMode(cfg), env, st, gs) == CanarySpec(cfg, env, st, gs)
  {
    if gs != [] {
      var canary := SelectCanaryNodes(cfg, Keys(gs));
      assert SelectCanaryNodes(SafeMode(cfg), Keys(gs)) == canary;
      CanaryLoopIgnoresSafeMode(cfg, env, st.(canaryNodes := canary), gs, canary);
    }
  }

  lemma FullSpecIgnoresSafeMode(cfg: Config, env: Env, st: State, gs: seq<Group>)
    ensures FullSpec(SafeMode(cfg), env, st, gs) == FullSpec(cfg, env, st, gs)
  {
    FullLoopIgnoresSafeMode(cfg, env, st, Remaining(gs, st.canaryNodes));
  }

  /** Nothing reads `safe_mode`: a run with it set does exactly what a run
      without it does, commands included. */
  lemma RunIgnoresSafeMode(cfg: Config, env: Env, st: State, report: Option<Report>)
    ensures RunSpec(SafeMode(cfg), env, st, report) == RunSpec(cfg, env, st, report)
  {
    if cfg.enabled && Present(report) {
      var gs := GroupByNode(Detections(report));
      if gs != [] {
        CanaryIgnoresSafeMode(cfg, env, st, gs);
        FullSpecIgnoresSafeMode(cfg, env, CanarySpec(cfg, env, st, gs).0, gs);
      }
    }
  }

  // ---------------------------------------------------------------------------
  // The report

  datatype Recommendation = Recommendation(priority: string, action: string)

  /** The `summary`, `events_by_type` and `recommendations` parts of the
      report (metadata, timestamps and the free-text details are left out). */
  datatype RemediationReport = RemediationReport(
    totalNodesRemediated: nat,
    totalNodesFailed: nat,
    canaryNodes: seq<string>,
    remediatedNodes: seq<string>,
    failedNodes: seq<string>,
    eventsByType: map<string, nat>,
    recommendations: seq<Recommendation>)

  const ManualIntervention := Recommendation("high", "manual_intervention")
  const ReviewThresholds := Recommendation("medium", "review_validation_thresholds")

  function EventKinds(log: seq<Event>): seq<string> {
    seq(|log|, i requires 0 <= i < |log| => log[i].kind)
  }

  function Recommendations(failedNodes: seq<string>, eventsByType: map<string, nat>): seq<Recommendation> {
    (if failedNodes != [] then [ManualIntervention] else [])
    + (if Tally.Get(eventsByType, "remediation_failed_validation") > 0 then [ReviewThresholds] else [])
  }

  /** `generate_remediation_report`, as a function of the state. */
  function ReportSpec(st: State): RemediationReport {
    var counts := Tally.Histogram(EventKinds(st.log));
    RemediationReport(|st.remediatedNodes|, |st.failedNodes|, st.canaryNodes, st.remediatedNodes, st.failedNodes,
                      counts, Recommendations(st.failedNodes, counts))
  }

  /** `events_by_type` counts each event type of the log, and the two
      recommendations appear exactly when nodes failed and when some node
      failed its post-validation. */
  lemma ReportContents(st: State)
    ensures forall k :: k in ReportSpec(st).eventsByType <==> k in EventKinds(st.log)
    ensures forall k :: Tally.Get(ReportSpec(st).eventsByType, k) == multiset(EventKinds(st.log))[k]
    ensures ManualIntervention in ReportSpec(st).recommendations <==> st.failedNodes != []
    ensures ReviewThresholds in ReportSpec(st).recommendations <==>
      exists i :: 0 <= i < |st.log| && st.log[i].kind == "remediation_failed_validation"
  {
    var kinds := EventKinds(st.log);
    Tally.HistogramCounts(kinds);
    if exists i :: 0 <= i < |st.log| && st.log[i].kind == "remediation_failed_validation" {
      var i :| 0 <= i < |st.log| && st.log[i].kind == "remediation_failed_validation";
      assert kinds[i] == "remediation_failed_validation";
    }
    if "remediation_failed_validation" in kinds {
      var i :| 0 <= i < |kinds| && kinds[i] == "remediation_failed_validation";
      assert st.log[i].kind == "remediation_failed_validation";
    }
  }

  /** As written, a report after a run never asks for manual intervention:
      `failed_nodes` stays empty. */
  lemma NoManualInterventionAfterRun(cfg: Config, env: Env, report: Option<Report>)
    ensures ManualIntervention !in ReportSpec(RunSpec(cfg, env, Initial, report).0).recommendations
  {
    ReportContents(RunSpec(cfg, env, Initial, report).0);
  }
}
