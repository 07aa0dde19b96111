/**
 * The resiliency score of a completed experiment run: the weight table of the revision the
 * run executed, the fault each chaos-engine node stands for, the weighted sum of probe
 * success percentages and the verdict counters. The fault a node stands for is the weight
 * key contained in its engine name that a map iteration of unspecified order meets last,
 * so it is modelled as a choice among the matching keys.
 */
module Scoring {
  import opened Outcomes
  import opened Strconv
  import opened GoStrings
  import opened ExperimentModel
  import opened Weights
  import opened Records

  /** The chaos data of an engine node of a run. */
  datatype ChaosData = ChaosData(engineName: string, probeSuccessPercentage: string, faultVerdict: string)

  /** A node of an executed workflow; `chaosData` is None when the node carries none. */
  datatype Node = Node(nodeType: string, chaosData: Option<ChaosData>)

  /** What a finished run reports: the revision it executed and its nodes, in order. */
  datatype ExecutionData = ExecutionData(revisionId: string, nodes: seq<Node>)

  /**
   * The resiliency score before the final division: `Unscored` (score 0) when the weights
   * sum to zero, else the weighted probe sum over the weight sum.
   */
  datatype Score = Unscored | Fraction(totalTestResult: int, weightSum: int)

  /** The counters of a run's nodes: one per verdict, and the weighted probe sum. */
  datatype Tally = Tally(passed: nat, failed: nat, awaited: nat, stopped: nat, notApplicable: nat, totalTestResult: int)

  /** The metrics a completed run gets. */
  datatype RunMetrics = RunMetrics(totalExperiments: nat, passed: nat, failed: nat, awaited: nat, stopped: nat,
                                   notApplicable: nat, score: Score)

  const ChaosEngineNode := "ChaosEngine"

  /** The weightages of every revision with identifier `revisionId`, in history order. */
  function MatchingWeightages(revs: seq<Revision>, revisionId: string): (r: seq<Weightage>)
    ensures forall w | w in r :: exists i | 0 <= i < |revs| :: revs[i].revisionId == revisionId && w in revs[i].weightages
    ensures forall i, w | 0 <= i < |revs| && revs[i].revisionId == revisionId && w in revs[i].weightages :: w in r
  {
    if revs == [] then []
    else
      MatchingWeightages(revs[..|revs| - 1], revisionId) +
      if revs[|revs| - 1].revisionId == revisionId then revs[|revs| - 1].weightages else []
  }

  /** A node that takes part in the score: an engine node that carries chaos data. */
  predicate Counted(n: Node) {
    n.nodeType == ChaosEngineNode && n.chaosData.Some?
  }

  /**
   * A fault name the key scan may settle on for an engine name: a weight key the engine
   * name contains, or the empty name when no key is contained.
   */
  predicate ValidPick(weights: map<string, Int64>, engineName: string, pick: string) {
    (pick in weights && Contains(engineName, pick)) ||
    (pick == "" && forall k | k in weights :: !Contains(engineName, k))
  }

  /** One pick per node: a valid one for every counted node, the empty name for the others. */
  predicate ValidPicks(weights: map<string, Int64>, nodes: seq<Node>, picks: seq<string>) {
    |picks| == |nodes| &&
    forall i | 0 <= i < |nodes| ::
      if Counted(nodes[i]) then ValidPick(weights, nodes[i].chaosData.value.engineName, picks[i])
      else picks[i] == ""
  }

  /** What a counted node adds to the weighted sum: its weight times its probe percentage, if it has a weight. */
  function Contribution(weights: map<string, Int64>, data: ChaosData, pick: string): (c: int)
    ensures pick !in weights ==> c == 0
    ensures ParseDecimal(data.probeSuccessPercentage).None? && !ScanOverflows(data.probeSuccessPercentage) ==> c == 0
    ensures pick in weights && Atoi(data.probeSuccessPercentage).Some? ==>
      c == weights[pick] * Atoi(data.probeSuccessPercentage).value
    ensures pick in weights && ScanOverflows(data.probeSuccessPercentage) ==>
      c == weights[pick] * (if data.probeSuccessPercentage[0] == '-' then MinInt64 else MaxInt64)
  {
    if pick in weights then weights[pick] * AtoiValue(data.probeSuccessPercentage) else 0
  }

  /** The verdicts that raise a counter; any other verdict only adds to the weighted sum. */
  const Verdicts: set<string> := {"Pass", "Fail", "Awaited", "Stopped", "N/A", ""}

  /** A counted node whose verdict is one of `verdicts`. */
  predicate HasVerdict(n: Node, verdicts: set<string>) {
    Counted(n) && n.chaosData.value.faultVerdict in verdicts
  }

  /** The number of counted nodes whose verdict is one of `verdicts`. */
  function VerdictCount(nodes: seq<Node>, verdicts: set<string>): nat {
    if nodes == [] then 0
    else VerdictCount(nodes[..|nodes| - 1], verdicts) + if HasVerdict(nodes[|nodes| - 1], verdicts) then 1 else 0
  }

  /** The verdict count is the number of positions holding a counted node with one of the verdicts. */
  lemma {:induction false} VerdictCountPositions(nodes: seq<Node>, verdicts: set<string>)
    ensures VerdictCount(nodes, verdicts) == |set i | 0 <= i < |nodes| && HasVerdict(nodes[i], verdicts)|
  {
    if nodes != [] {
      var n := |nodes| - 1;
      var init := nodes[..n];
      VerdictCountPositions(init, verdicts);
      var before := set i | 0 <= i < n && HasVerdict(init[i], verdicts);
      assert (set i | 0 <= i < |nodes| && HasVerdict(nodes[i], verdicts))
          == before + if HasVerdict(nodes[n], verdicts) then {n} else {};
    }
  }

  /** The weighted probe sum: every counted node's contribution for its pick, added up. */
  function WeightedSum(weights: map<string, Int64>, nodes: seq<Node>, picks: seq<string>): int
    requires |picks| == |nodes|
  {
    if nodes == [] then 0
    else
      WeightedSum(weights, nodes[..|nodes| - 1], picks[..|picks| - 1]) +
      if Counted(nodes[|nodes| - 1]) then Contribution(weights, nodes[|nodes| - 1].chaosData.value, picks[|picks| - 1]) else 0
  }

  /** The counters after one more node. */
  function Step(t: Tally, weights: map<string, Int64>, n: Node, pick: string): (r: Tally)
    ensures !Counted(n) ==> r == t
    ensures Counted(n) ==>
      var v := n.chaosData.value.faultVerdict;
      var sum := t.totalTestResult + Contribution(weights, n.chaosData.value, pick);
      && (v == "Pass" ==> r == t.(passed := t.passed + 1, totalTestResult := sum))
      && (v == "Fail" ==> r == t.(failed := t.failed + 1, totalTestResult := sum))
      && (v == "Awaited" ==> r == t.(awaited := t.awaited + 1, totalTestResult := sum))
      && (v == "Stopped" ==> r == t.(stopped := t.stopped + 1, totalTestResult := sum))
      && (v == "N/A" || v == "" ==> r == t.(notApplicable := t.notApplicable + 1, totalTestResult := sum))
      && (v !in Verdicts ==> r == t.(totalTestResult := sum))
    ensures Counted(n) ==>
      r.totalTestResult == t.totalTestResult + Contribution(weights, n.chaosData.value, pick) &&
      t.passed + t.failed + t.awaited + t.stopped + t.notApplicable
        <= r.passed + r.failed + r.awaited + r.stopped + r.notApplicable
        <= t.passed + t.failed + t.awaited + t.stopped + t.notApplicable + 1
  {
    if !Counted(n) then t
    else
      var d := n.chaosData.value;
      Tally(t.passed + (if d.faultVerdict == "Pass" then 1 else 0),
            t.failed + (if d.faultVerdict == "Fail" then 1 else 0),
            t.awaited + (if d.faultVerdict == "Awaited" then 1 else 0),
            t.stopped + (if d.faultVerdict == "Stopped" then 1 else 0),
            t.notApplicable + (if d.faultVerdict == "N/A" || d.faultVerdict == "" then 1 else 0),
            t.totalTestResult + Contribution(weights, d, pick))
  }

  /**
   * The counters over `nodes` with their picks. Each counted node raises at most one
   * verdict counter and other nodes raise none.
   */
  function Tallied(weights: map<string, Int64>, nodes: seq<Node>, picks: seq<string>): (t: Tally)
    requires |picks| == |nodes|
    ensures t.passed == VerdictCount(nodes, {"Pass"}) && t.failed == VerdictCount(nodes, {"Fail"})
    ensures t.awaited == VerdictCount(nodes, {"Awaited"}) && t.stopped == VerdictCount(nodes, {"Stopped"})
    ensures t.notApplicable == VerdictCount(nodes, {"N/A", ""})
    ensures t.totalTestResult == WeightedSum(weights, nodes, picks)
    ensures t.passed + t.failed + t.awaited + t.stopped + t.notApplicable <= CountedNodes(nodes)
  {
    if nodes == [] then Tally(0, 0, 0, 0, 0, 0)
    else Step(Tallied(weights, nodes[..|nodes| - 1], picks[..|picks| - 1]), weights, nodes[|nodes| - 1], picks[|picks| - 1])
  }

  /** The metrics of a run given the picks the key scan made. */
  function Metrics(revs: seq<Revision>, exec: ExecutionData, picks: seq<string>): (m: RunMetrics)
    requires |picks| == |exec.nodes|
    ensures var ws := MatchingWeightages(revs, exec.revisionId);
      && m.totalExperiments == |set i | 0 <= i < |ws| :: ws[i].faultName|
      && m.passed + m.failed + m.awaited + m.stopped + m.notApplicable <= CountedNodes(exec.nodes)
      && (m.score.Unscored? <==> WeightSum(ws) == 0)
      && (m.score.Fraction? ==> m.score.weightSum == WeightSum(ws))
      && (m.score.Fraction? ==> m.score.totalTestResult == WeightedSum(WeightMapOf(ws), exec.nodes, picks))
    ensures m.passed == VerdictCount(exec.nodes, {"Pass"}) && m.failed == VerdictCount(exec.nodes, {"Fail"})
    ensures m.awaited == VerdictCount(exec.nodes, {"Awaited"}) && m.stopped == VerdictCount(exec.nodes, {"Stopped"})
    ensures m.notApplicable == VerdictCount(exec.nodes, {"N/A", ""})
  {
    var ws := MatchingWeightages(revs, exec.revisionId);
    WeightMapKeys(ws);
    var weights := WeightMapOf(ws);
    var t := Tallied(weights, exec.nodes, picks);
    RunMetrics(|weights.Keys|, t.passed, t.failed, t.awaited, t.stopped, t.notApplicable,
               if WeightSum(ws) != 0 then Fraction(t.totalTestResult, WeightSum(ws)) else Unscored)
  }

  /** The number of counted nodes among `nodes`. */
  function CountedNodes(nodes: seq<Node>): nat {
    if nodes == [] then 0
    else CountedNodes(nodes[..|nodes| - 1]) + if Counted(nodes[|nodes| - 1]) then 1 else 0
  }

  /**
   * The scan over the weight keys for one engine name, in an order the caller does not
   * control: the last key met that the name contains wins.
   */
  method PickFault(weights: map<string, Int64>, engineName: string) returns (pick: string)
    ensures ValidPick(weights, engineName, pick)
  {
    pick := "";
    var remaining := weights.Keys;
    while remaining != {}
      invariant remaining <= weights.Keys
      invariant (pick in weights && Contains(engineName, pick)) ||
                (pick == "" && forall k | k in weights && k !in remaining :: !Contains(engineName, k))
      decreases |remaining|
    {
      var key :| key in remaining;
      if Contains(engineName, key) {
        pick := key;
      }
      remaining := remaining - {key};
    }
  }

  /** Reading one more entry of `ws` adds it to the map and to the sum. */
  lemma AppendOneWeight(prefix: seq<Weightage>, ws: seq<Weightage>, j: nat)
    requires j < |ws|
    ensures WeightMapOf(prefix + ws[..j + 1]) == WeightMapOf(prefix + ws[..j])[ws[j].faultName := ws[j].weightage]
    ensures WeightSum(prefix + ws[..j + 1]) == WeightSum(prefix + ws[..j]) + ws[j].weightage
  {
    assert (prefix + ws[..j + 1])[..|prefix| + j] == prefix + ws[..j];
  }

  /** The inner loop over one revision's weightages: each entry is put in the map and added to the sum. */
  method AccumulateWeights(ghost prefix: seq<Weightage>, weightMap: map<string, Int64>, weightSum: int, ws: seq<Weightage>)
    returns (newMap: map<string, Int64>, newSum: int)
    requires weightMap == WeightMapOf(prefix) && weightSum == WeightSum(prefix)
    ensures newMap == WeightMapOf(prefix + ws) && newSum == WeightSum(prefix + ws)
  {
    newMap, newSum := weightMap, weightSum;
    var j := 0;
    assert prefix + ws[..j] == prefix;
    while j < |ws|
      invariant 0 <= j <= |ws|
      invariant newMap == WeightMapOf(prefix + ws[..j]) && newSum == WeightSum(prefix + ws[..j])
    {
      AppendOneWeight(prefix, ws, j);
      newMap := newMap[ws[j].faultName := ws[j].weightage];
      newSum := newSum + ws[j].weightage;
      j := j + 1;
    }
    assert ws[..j] == ws;
  }

  /** The weight table of the run's revision, read into a map while the weights are summed. */
  method ReadRevisionWeights(revs: seq<Revision>, revisionId: string)
    returns (weightMap: map<string, Int64>, weightSum: int)
    ensures weightMap == WeightMapOf(MatchingWeightages(revs, revisionId))
    ensures weightSum == WeightSum(MatchingWeightages(revs, revisionId))
  {
    weightMap, weightSum := map[], 0;
    var i := 0;
    while i < |revs|
      invariant 0 <= i <= |revs|
      invariant weightMap == WeightMapOf(MatchingWeightages(revs[..i], revisionId))
      invariant weightSum == WeightSum(MatchingWeightages(revs[..i], revisionId))
    {
      assert revs[..i + 1][..i] == revs[..i] && revs[..i + 1][i] == revs[i];
      if revs[i].revisionId == revisionId {
        weightMap, weightSum :=
          AccumulateWeights(MatchingWeightages(revs[..i], revisionId), weightMap, weightSum, revs[i].weightages);
      } else {
        assert MatchingWeightages(revs[..i + 1], revisionId) == MatchingWeightages(revs[..i], revisionId);
      }
      i := i + 1;
    }
    assert revs[..i] == revs;
  }

  /** The counters after one more node of the run, and the key the scan settled on for it. */
  method CountNode(weightMap: map<string, Int64>, node: Node, t: Tally) returns (next: Tally, pick: string)
    ensures if Counted(node) then ValidPick(weightMap, node.chaosData.value.engineName, pick) else pick == ""
    ensures next == Step(t, weightMap, node, pick)
  {
    next, pick := t, "";
    if node.nodeType == ChaosEngineNode && node.chaosData.Some? {
      var d := node.chaosData.value;
      pick := PickFault(weightMap, d.engineName);
      if pick in weightMap {
        next := next.(totalTestResult := next.totalTestResult + weightMap[pick] * AtoiValue(d.probeSuccessPercentage));
      }
      assert next == t.(totalTestResult := t.totalTestResult + Contribution(weightMap, d, pick));
      if d.faultVerdict == "Pass" { next := next.(passed := next.passed + 1); }
      if d.faultVerdict == "Fail" { next := next.(failed := next.failed + 1); }
      if d.faultVerdict == "Awaited" { next := next.(awaited := next.awaited + 1); }
      if d.faultVerdict == "Stopped" { next := next.(stopped := next.stopped + 1); }
      if d.faultVerdict == "N/A" || d.faultVerdict == "" { next := next.(notApplicable := next.notApplicable + 1); }
    }
  }

  /** Extending the nodes and their picks by one extends the counters by one step. */
  lemma TalliedSnoc(weights: map<string, Int64>, nodes: seq<Node>, picks: seq<string>, k: nat, pick: string)
    requires k < |nodes| && |picks| == k
    requires ValidPicks(weights, nodes[..k], picks)
    requires if Counted(nodes[k]) then ValidPick(weights, nodes[k].chaosData.value.engineName, pick) else pick == ""
    ensures ValidPicks(weights, nodes[..k + 1], picks + [pick])
    ensures Tallied(weights, nodes[..k + 1], picks + [pick]) == Step(Tallied(weights, nodes[..k], picks), weights, nodes[k], pick)
  {
    assert nodes[..k + 1][..k] == nodes[..k];
    assert (picks + [pick])[..k] == picks;
  }

  /**
   * The scoring of a completed run over the revisions of its experiment; `picks` records
   * which key the scan settled on for each node. Whatever the picks, the number of
   * experiments is the number of distinct faults of the run's revision, each counted node
   * raises at most one verdict counter, and the run is scored exactly when its weights do
   * not sum to zero.
   */
  method ComputeRunMetrics(revs: seq<Revision>, exec: ExecutionData) returns (m: RunMetrics, ghost picks: seq<string>)
    ensures ValidPicks(WeightMapOf(MatchingWeightages(revs, exec.revisionId)), exec.nodes, picks)
    ensures m == Metrics(revs, exec, picks)
    ensures var ws := MatchingWeightages(revs, exec.revisionId);
      m.totalExperiments == |set i | 0 <= i < |ws| :: ws[i].faultName|
    ensures m.passed + m.failed + m.awaited + m.stopped + m.notApplicable <= CountedNodes(exec.nodes)
    ensures m.score.Unscored? <==> WeightSum(MatchingWeightages(revs, exec.revisionId)) == 0
    ensures m.score.Fraction? ==> m.score.weightSum == WeightSum(MatchingWeightages(revs, exec.revisionId))
  {
    var weightMap, weightSum := ReadRevisionWeights(revs, exec.revisionId);
    var t := Tally(0, 0, 0, 0, 0, 0);
    var nodes := exec.nodes;
    picks := [];
    var k := 0;
    while k < |nodes|
      invariant 0 <= k <= |nodes| && |picks| == k
      invariant ValidPicks(weightMap, nodes[..k], picks)
      invariant Tallied(weightMap, nodes[..k], picks) == t
    {
      var pick;
      t, pick := CountNode(weightMap, nodes[k], t);
      TalliedSnoc(weightMap, nodes, picks, k, pick);
      picks := picks + [pick];
      k := k + 1;
    }
    assert nodes[..k] == nodes;
    var score := Unscored;
    if weightSum != 0 {
      score := Fraction(t.totalTestResult, weightSum);
    }
    m := RunMetrics(|weightMap.Keys|, t.passed, t.failed, t.awaited, t.stopped, t.notApplicable, score);
  }

  /** Without a weight table, every node contributes nothing to the weighted sum. */
  lemma {:induction false} NoWeightsNoSum(nodes: seq<Node>, picks: seq<string>)
    requires |picks| == |nodes|
    ensures Tallied(map[], nodes, picks).totalTestResult == 0
  {
    if nodes != [] {
      NoWeightsNoSum(nodes[..|nodes| - 1], picks[..|picks| - 1]);
    }
  }

  /** No revision with the identifier means no weightages. */
  lemma {:induction false} NoMatchingRevision(revs: seq<Revision>, revisionId: string)
    requires forall j | 0 <= j < |revs| :: revs[j].revisionId != revisionId
    ensures MatchingWeightages(revs, revisionId) == []
  {
    if revs != [] {
      NoMatchingRevision(revs[..|revs| - 1], revisionId);
    }
  }

  /**
   * A run of a revision the experiment does not have is not an error: it has no faults,
   * no score and a zero weighted sum, while its verdicts are still counted.
   */
  lemma UnknownRevisionScoresZero(revs: seq<Revision>, exec: ExecutionData, picks: seq<string>)
    requires |picks| == |exec.nodes|
    requires forall j | 0 <= j < |revs| :: revs[j].revisionId != exec.revisionId
    ensures Metrics(revs, exec, picks).score == Unscored && Metrics(revs, exec, picks).totalExperiments == 0
    ensures Tallied(WeightMapOf(MatchingWeightages(revs, exec.revisionId)), exec.nodes, picks).totalTestResult == 0
  {
    NoMatchingRevision(revs, exec.revisionId);
    NoWeightsNoSum(exec.nodes, picks);
  }

  /** With non-negative weights and probe percentages, the weighted sum is non-negative. */
  lemma ScoreNonNegative(weights: map<string, Int64>, nodes: seq<Node>, picks: seq<string>)
    requires |picks| == |nodes|
    requires forall k | k in weights :: weights[k] >= 0
    requires forall i | 0 <= i < |nodes| && Counted(nodes[i]) :: AtoiValue(nodes[i].chaosData.value.probeSuccessPercentage) >= 0
    ensures Tallied(weights, nodes, picks).totalTestResult >= 0
  {
    WeightedSumNonNegative(weights, nodes, picks);
  }

  /** A node with a non-negative weight and percentage contributes a non-negative amount. */
  lemma ContributionNonNegative(weights: map<string, Int64>, data: ChaosData, pick: string)
    requires forall k | k in weights :: weights[k] >= 0
    requires AtoiValue(data.probeSuccessPercentage) >= 0
    ensures Contribution(weights, data, pick) >= 0
  {
    if pick in weights {
      var w: int, x: int := weights[pick], AtoiValue(data.probeSuccessPercentage);
      assert Contribution(weights, data, pick) == w * x;
      ProductNonNegative(w, x);
    }
  }

  /** Sign of a product, kept apart so the nonlinear step is proved without the scoring context. */
  lemma ProductNonNegative(a: int, b: int)
    requires a >= 0 && b >= 0
    ensures a * b >= 0
  {
  }

  /** The induction behind ScoreNonNegative, over the weighted sum itself. */
  lemma {:induction false} WeightedSumNonNegative(weights: map<string, Int64>, nodes: seq<Node>, picks: seq<string>)
    requires |picks| == |nodes|
    requires forall k | k in weights :: weights[k] >= 0
    requires forall i | 0 <= i < |nodes| && Counted(nodes[i]) :: AtoiValue(nodes[i].chaosData.value.probeSuccessPercentage) >= 0
    ensures WeightedSum(weights, nodes, picks) >= 0
  {
    if nodes != [] {
      var n := |nodes| - 1;
      var init := nodes[..n];
      forall i | 0 <= i < |init| && Counted(init[i])
        ensures AtoiValue(init[i].chaosData.value.probeSuccessPercentage) >= 0
      {
        assert init[i] == nodes[i];
      }
      WeightedSumNonNegative(weights, init, picks[..n]);
      if Counted(nodes[n]) {
        ContributionNonNegative(weights, nodes[n].chaosData.value, picks[n]);
      }
    }
  }

  /**
   * When two weight keys are both contained in an engine name, either may be picked, so
   * the node's contribution depends on the map iteration order.
   */
  lemma SubstringAmbiguity()
    ensures var weights := map["pod" := 10 as Int64, "pod-kill" := 30 as Int64];
      var data := ChaosData("pod-kill-x", "100", "Pass");
      ValidPick(weights, data.engineName, "pod") && ValidPick(weights, data.engineName, "pod-kill") &&
      Contribution(weights, data, "pod") == 1000 && Contribution(weights, data, "pod-kill") == 3000
  {
    assert Contains("pod-kill-x", "pod");
    assert Contains("pod-kill-x", "pod-kill");
    ProbeHundred();
  }

  /** The percentage "100" reads as 100, and "0" as 0. */
  lemma ProbeHundred()
    ensures AtoiValue("100") == 100 && AtoiValue("0") == 0
  {
    assert DecimalDigits(100) == "100" by {
      assert DecimalDigits(10) == "10" by { assert DecimalDigits(1) == "1"; }
    }
    AtoiItoa(100);
    assert Itoa(100) == "100";
    assert DecimalDigits(0) == "0";
    AtoiItoa(0);
    assert Itoa(0) == "0";
  }

  /** The weight table of the worked run below: 10 for "a", 30 for "b". */
  const ExampleWeightages: seq<Weightage> := [Weightage("a", 10), Weightage("b", 30)]
  /** The nodes of the worked run: an engine for "a" with all probes passing, one for "b" with none, and a pod. */
  const ExampleNodes: seq<Node> := [Node(ChaosEngineNode, Some(ChaosData("a-1", "100", "Pass"))),
                                    Node(ChaosEngineNode, Some(ChaosData("b-1", "0", "Fail"))),
                                    Node("Pod", None)]

  lemma ExampleWeightTable()
    ensures MatchingWeightages([Revision("r1", Malformed, 0, ExampleWeightages)], "r1") == ExampleWeightages
    ensures WeightMapOf(ExampleWeightages) == map["a" := 10 as Int64, "b" := 30 as Int64]
    ensures WeightSum(ExampleWeightages) == 40
  {
    var revs := [Revision("r1", Malformed, 0, ExampleWeightages)];
    assert revs[..0] == [];
    var ws := ExampleWeightages;
    assert ws[..1] == [Weightage("a", 10)] && ws[..1][..0] == [];
    assert WeightMapOf(ws[..1]) == map["a" := 10 as Int64];
  }

  /** The only picks the key scan can make in the worked run. */
  lemma ExamplePicks(picks: seq<string>)
    requires ValidPicks(map["a" := 10 as Int64, "b" := 30 as Int64], ExampleNodes, picks)
    ensures picks == ["a", "b", ""]
  {
    assert "a-1"[1..] == "b-1"[1..] == "-1" && "-1"[1..] == "1" && "1"[1..] == "";
    assert !Contains("", "a") && !Contains("", "b");
    assert "a"[0] != "1"[0] && "b"[0] != "1"[0];
    assert !("a" <= "1") && !("b" <= "1");
    assert !Contains("1", "a") && !Contains("1", "b");
    assert !Contains("-1", "a") && !Contains("-1", "b");
    assert !Contains("a-1", "b") && !Contains("b-1", "a");
    assert Contains("a-1", "a") && Contains("b-1", "b");
    assert ValidPick(map["a" := 10 as Int64, "b" := 30 as Int64], "a-1", picks[0]);
    assert ValidPick(map["a" := 10 as Int64, "b" := 30 as Int64], "b-1", picks[1]);
  }

  /** The worked run node by node: a pass adding 10 * 100, a fail adding 30 * 0, and a pod. */
  lemma ExampleSteps()
    ensures var weights := map["a" := 10 as Int64, "b" := 30 as Int64];
      && Step(Tally(0, 0, 0, 0, 0, 0), weights, ExampleNodes[0], "a") == Tally(1, 0, 0, 0, 0, 1000)
      && Step(Tally(1, 0, 0, 0, 0, 1000), weights, ExampleNodes[1], "b") == Tally(1, 1, 0, 0, 0, 1000)
      && Step(Tally(1, 1, 0, 0, 0, 1000), weights, ExampleNodes[2], "") == Tally(1, 1, 0, 0, 0, 1000)
  {
    ProbeHundred();
  }

  lemma ExampleTally()
    ensures Tallied(map["a" := 10 as Int64, "b" := 30 as Int64], ExampleNodes, ["a", "b", ""]) == Tally(1, 1, 0, 0, 0, 1000)
  {
    var weights := map["a" := 10 as Int64, "b" := 30 as Int64];
    var nodes := ExampleNodes;
    var picks := ["a", "b", ""];
    ExampleSteps();
    assert nodes[..1][..0] == [] && picks[..1][..0] == [];
    assert Tallied(weights, nodes[..1], picks[..1]) == Tally(1, 0, 0, 0, 0, 1000);
    assert nodes[..2][..1] == nodes[..1] && picks[..2][..1] == picks[..1];
    assert Tallied(weights, nodes[..2], picks[..2]) == Tally(1, 1, 0, 0, 0, 1000);
    assert nodes[..3] == nodes && picks[..3] == picks;
  }

  /**
   * A worked run: two experiments, one pass, one fail, and a score of 1000/40, whatever
   * order the key scan took.
   */
  lemma ScoreExample(picks: seq<string>)
    requires ValidPicks(map["a" := 10 as Int64, "b" := 30 as Int64], ExampleNodes, picks)
    ensures Metrics([Revision("r1", Malformed, 0, ExampleWeightages)], ExecutionData("r1", ExampleNodes), picks)
            == RunMetrics(2, 1, 1, 0, 0, 0, Fraction(1000, 40))
  {
    ExampleWeightTable();
    ExamplePicks(picks);
    ExampleTally();
    assert map["a" := 10 as Int64, "b" := 30 as Int64].Keys == {"a", "b"};
  }
}
