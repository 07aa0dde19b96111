/**
 * The manifest reconciler, as functions: identity labels, fault discovery and the
 * three-way weight rule of the four manifest kinds, and the gatekeeping and kind dispatch
 * of ProcessExperiment. The methods in module Requests are proved against these.
 */
module Reconcile {
  import opened Outcomes
  import opened Strconv
  import opened GoStrings
  import opened ExperimentModel
  import opened Weights

  const WorkflowIdLabel := "workflow_id"
  const InfraIdLabel := "infra_id"
  const RevisionIdLabel := "revision_id"
  const ControllerInstanceIdLabel := "workflows.argoproj.io/controller-instanceid"
  const TypeLabel := "type"
  const StandaloneWorkflow := "standalone_workflow"
  const WeightLabel := "weight"
  const DefaultWeight: Int64 := 10
  const DefaultWeightText := "10"

  /** The root label keys set on the two workflow kinds (and on a cron workflow's workflow metadata). */
  const WorkflowIdentityKeys: set<string> := {WorkflowIdLabel, InfraIdLabel, ControllerInstanceIdLabel, RevisionIdLabel}
  /** The root label keys set on chaos engines and chaos schedules. */
  const EngineIdentityKeys: set<string> := {WorkflowIdLabel, InfraIdLabel, TypeLabel, RevisionIdLabel}

  /** The identities stamped on a manifest: experiment, infrastructure and revision. */
  datatype Identity = Identity(experimentId: string, infraId: string, revisionId: string)

  /** The manifest kinds ProcessExperiment dispatches on. */
  datatype ManifestKind = WorkflowKind | CronWorkflowKind | ChaosEngineKind | ChaosScheduleKind

  // ---------------------------------------------------------------- labels

  /** Identity labels of a workflow or cron workflow: existing labels stay, four keys are overwritten. */
  function WorkflowIdentityLabels(labels: Labels, id: Identity): (r: Labels)
    ensures r.Keys == labels.Keys + WorkflowIdentityKeys
    ensures r[WorkflowIdLabel] == id.experimentId && r[InfraIdLabel] == id.infraId
    ensures r[ControllerInstanceIdLabel] == id.infraId && r[RevisionIdLabel] == id.revisionId
    ensures forall k | k in labels && k !in WorkflowIdentityKeys :: r[k] == labels[k]
  {
    labels[WorkflowIdLabel := id.experimentId][InfraIdLabel := id.infraId]
      [ControllerInstanceIdLabel := id.infraId][RevisionIdLabel := id.revisionId]
  }

  /** Identity labels of a chaos engine or schedule: existing labels stay, four keys are overwritten. */
  function EngineIdentityLabels(labels: Labels, id: Identity): (r: Labels)
    ensures r.Keys == labels.Keys + EngineIdentityKeys
    ensures r[WorkflowIdLabel] == id.experimentId && r[InfraIdLabel] == id.infraId
    ensures r[TypeLabel] == StandaloneWorkflow && r[RevisionIdLabel] == id.revisionId
    ensures forall k | k in labels && k !in EngineIdentityKeys :: r[k] == labels[k]
  {
    labels[WorkflowIdLabel := id.experimentId][InfraIdLabel := id.infraId]
      [TypeLabel := StandaloneWorkflow][RevisionIdLabel := id.revisionId]
  }

  // ---------------------------------------------------------------- faults and weights

  /**
   * What the reconciler finds in one template of a workflow kind: nothing (no artifact, no
   * raw data, empty data, or an embedded document of another kind), the name of the fault
   * the embedded chaos engine generates, or an error.
   */
  function TemplateFault(t: Template, decode: string -> Option<EngineMeta>): (r: Result<Option<string>, Error>)
    ensures r.Ok? && r.value.Some? ==> |r.value.value| > 0
    ensures (|t.artifacts| == 0 || t.artifacts[0].raw.None? || t.artifacts[0].raw.value == "") ==> r == Ok(None)
    ensures |t.artifacts| > 0 && t.artifacts[0].raw.Some? && t.artifacts[0].raw.value != "" ==>
      var engine := decode(StripTemplateDelimiters(t.artifacts[0].raw.value));
      && (engine.None? ==> r == Err(EngineUnreadable))
      && (engine.Some? && ToLower(engine.value.kind) != "chaosengine" ==> r == Ok(None))
      && (engine.Some? && ToLower(engine.value.kind) == "chaosengine" && engine.value.experiments == [] ==>
            r == Err(NoExperiments(engine.value.name)))
      && (engine.Some? && ToLower(engine.value.kind) == "chaosengine" && engine.value.experiments != [] ==>
            r == if engine.value.generateName == "" then Err(EmptyFaultName) else Ok(Some(engine.value.generateName)))
  {
    if |t.artifacts| == 0 || t.artifacts[0].raw.None? || |t.artifacts[0].raw.value| == 0 then Ok(None)
    else
      match decode(StripTemplateDelimiters(t.artifacts[0].raw.value))
      case None => Err(EngineUnreadable)
      case Some(engine) =>
        if ToLower(engine.kind) != "chaosengine" then Ok(None)
        else if |engine.experiments| == 0 then Err(NoExperiments(engine.name))
        else if |engine.generateName| == 0 then Err(EmptyFaultName)
        else Ok(Some(engine.generateName))
  }

  /** A label map after the weight rule, and the weights the rule inferred (none or one). */
  datatype Weighed = Weighed(labels: Labels, inferred: seq<Weightage>)

  lemma DefaultWeightParses()
    ensures Atoi(DefaultWeightText) == Some(DefaultWeight)
  {
    assert DecimalDigits(1) == "1";
    assert Itoa(DefaultWeight) == DefaultWeightText;
    AtoiItoa(DefaultWeight);
  }

  /**
   * The weight rule for a fault found in a template: a declared weight wins, else an
   * existing weight label is read, else the default applies. Whenever a weight is stamped,
   * the template's label map is replaced by the single weight label.
   */
  function WeighTemplate(name: string, labels: Labels, declared: map<string, Int64>): (r: Result<Weighed, Error>)
    ensures r.Err? <==> name !in declared && WeightLabel in labels && Atoi(labels[WeightLabel]).None?
    ensures r.Err? ==> r.error == WeightNotNumeric
    ensures r.Ok? ==> WeightLabel in r.value.labels && Atoi(r.value.labels[WeightLabel]).Some?
    ensures r.Ok? && name in declared ==>
      r.value.labels == map[WeightLabel := Itoa(declared[name])] && r.value.inferred == [] &&
      Atoi(r.value.labels[WeightLabel]) == Some(declared[name])
    ensures r.Ok? && name !in declared ==>
      r.value.inferred == [Weightage(name, Atoi(r.value.labels[WeightLabel]).value)]
    ensures r.Ok? && name !in declared && WeightLabel in labels ==> r.value.labels == labels
    ensures name !in declared && WeightLabel !in labels ==>
      r == Ok(Weighed(map[WeightLabel := DefaultWeightText], [Weightage(name, DefaultWeight)]))
  {
    if name in declared then
      AtoiItoa(declared[name]);
      Ok(Weighed(map[WeightLabel := Itoa(declared[name])], []))
    else if WeightLabel in labels then
      match Atoi(labels[WeightLabel])
      case None => Err(WeightNotNumeric)
      case Some(v) => Ok(Weighed(labels, [Weightage(name, v)]))
    else
      DefaultWeightParses();
      Ok(Weighed(map[WeightLabel := DefaultWeightText], [Weightage(name, DefaultWeight)]))
  }

  /**
   * The weight rule for the single fault of a chaos engine or schedule: as for templates,
   * but the weight label is set in the root labels and every other label stays.
   */
  function WeighRoot(name: string, labels: Labels, declared: map<string, Int64>): (r: Result<Weighed, Error>)
    ensures r.Err? <==> name !in declared && WeightLabel in labels && Atoi(labels[WeightLabel]).None?
    ensures r.Err? ==> r.error == WeightNotNumeric
    ensures r.Ok? ==> WeightLabel in r.value.labels && Atoi(r.value.labels[WeightLabel]).Some?
    ensures r.Ok? ==> r.value.labels.Keys == labels.Keys + {WeightLabel}
    ensures r.Ok? ==> forall k | k in labels && k != WeightLabel :: r.value.labels[k] == labels[k]
    ensures r.Ok? && name in declared ==>
      r.value.inferred == [] && r.value.labels[WeightLabel] == Itoa(declared[name]) &&
      Atoi(r.value.labels[WeightLabel]) == Some(declared[name])
    ensures r.Ok? && name !in declared ==>
      r.value.inferred == [Weightage(name, Atoi(r.value.labels[WeightLabel]).value)]
    ensures r.Ok? && name !in declared && WeightLabel in labels ==> r.value.labels == labels
    ensures name !in declared && WeightLabel !in labels ==>
      r == Ok(Weighed(labels[WeightLabel := DefaultWeightText], [Weightage(name, DefaultWeight)]))
  {
    if name in declared then
      AtoiItoa(declared[name]);
      Ok(Weighed(labels[WeightLabel := Itoa(declared[name])], []))
    else if WeightLabel in labels then
      match Atoi(labels[WeightLabel])
      case None => Err(WeightNotNumeric)
      case Some(v) => Ok(Weighed(labels, [Weightage(name, v)]))
    else
      DefaultWeightParses();
      Ok(Weighed(labels[WeightLabel := DefaultWeightText], [Weightage(name, DefaultWeight)]))
  }

  /** One template after reconciliation, with the weights it inferred. */
  function ReconciledTemplate(t: Template, declared: map<string, Int64>, decode: string -> Option<EngineMeta>)
    : (r: Result<(Template, seq<Weightage>), Error>)
    ensures TemplateFault(t, decode).Err? ==> r == Err(TemplateFault(t, decode).error)
    ensures TemplateFault(t, decode) == Ok(None) ==> r == Ok((t, []))
    ensures TemplateFault(t, decode).Ok? && TemplateFault(t, decode).value.Some? &&
            WeighTemplate(TemplateFault(t, decode).value.value, t.labels, declared).Err? ==>
      r == Err(WeightNotNumeric)
    ensures r.Ok? ==> r.value.0.artifacts == t.artifacts && |r.value.1| <= 1
  {
    match TemplateFault(t, decode)
    case Err(e) => Err(e)
    case Ok(None) => Ok((t, []))
    case Ok(Some(name)) =>
      match WeighTemplate(name, t.labels, declared)
      case Err(e) => Err(e)
      case Ok(w) => Ok((t.(labels := w.labels), w.inferred))
  }

  /** All templates reconciled in order; the first template that fails decides the error. */
  function ReconciledTemplates(ts: seq<Template>, declared: map<string, Int64>, decode: string -> Option<EngineMeta>)
    : (r: Result<(seq<Template>, seq<Weightage>), Error>)
    ensures r.Ok? ==> |r.value.0| == |ts| && |r.value.1| <= |ts|
  {
    if ts == [] then Ok(([], []))
    else
      match ReconciledTemplates(ts[..|ts| - 1], declared, decode)
      case Err(e) => Err(e)
      case Ok((done, inferred)) =>
        match ReconciledTemplate(ts[|ts| - 1], declared, decode)
        case Err(e) => Err(e)
        case Ok((t, w)) => Ok((done + [t], inferred + w))
  }

  /** The names of the faults found in `ts`, in template order. */
  function DiscoveredFaults(ts: seq<Template>, decode: string -> Option<EngineMeta>): (r: seq<string>)
    ensures |r| <= |ts| && forall i | 0 <= i < |r| :: |r[i]| > 0
  {
    if ts == [] then []
    else
      DiscoveredFaults(ts[..|ts| - 1], decode) +
      match TemplateFault(ts[|ts| - 1], decode)
      case Ok(Some(name)) => [name]
      case _ => []
  }

  /** The names of `names` that have no declared weight, in order. */
  function Undeclared(names: seq<string>, declared: map<string, Int64>): (r: seq<string>)
    ensures |r| <= |names| && forall i | 0 <= i < |r| :: r[i] !in declared
  {
    if names == [] then []
    else
      Undeclared(names[..|names| - 1], declared) +
      if names[|names| - 1] in declared then [] else [names[|names| - 1]]
  }

  // ---------------------------------------------------------------- manifests

  /**
   * A manifest after reconciliation, with the weights it inferred: identity labels, then
   * the weight rule on every fault. A document of no known shape cannot be decoded.
   */
  function ReconciledManifest(m: Manifest, declared: map<string, Int64>, id: Identity, decode: string -> Option<EngineMeta>)
    : (r: Result<(Manifest, seq<Weightage>), Error>)
    ensures m.Other? ==> r == Err(ManifestDecodeFailed)
    ensures r.Ok? ==> r.value.0.meta.kind == m.meta.kind && r.value.0.meta.name == m.meta.name
    ensures r.Ok? ==> r.value.0.Workflow? == m.Workflow? && r.value.0.CronWorkflow? == m.CronWorkflow? &&
                      r.value.0.ChaosEngine? == m.ChaosEngine? && r.value.0.ChaosSchedule? == m.ChaosSchedule?
    ensures (m.Workflow? || m.CronWorkflow?) ==>
      var t := ReconciledTemplates(m.templates, declared, decode);
      && (t.Err? ==> r == Err(t.error))
      && (t.Ok? ==> r.Ok? && r.value.0.templates == t.value.0 && r.value.1 == t.value.1)
    ensures m.CronWorkflow? && r.Ok? ==> r.value.0.schedule == m.schedule
    ensures (m.ChaosEngine? || m.ChaosSchedule?) && r.Ok? ==> r.value.0.experiments == m.experiments
    ensures (m.ChaosEngine? || m.ChaosSchedule?) && m.experiments == [] ==> r == Err(NoExperiments(m.meta.name))
    ensures (m.ChaosEngine? || m.ChaosSchedule?) && m.experiments != [] && m.experiments[0] == "" ==>
      r == Err(EmptyFaultName)
    ensures (m.ChaosEngine? || m.ChaosSchedule?) && m.experiments != [] && m.experiments[0] != "" ==>
      var w := WeighRoot(m.experiments[0], EngineIdentityLabels(m.meta.labels, id), declared);
      && ManifestFaults(m, decode) == [m.experiments[0]]
      && (w.Err? ==> r == Err(w.error))
      && (w.Ok? ==> r.Ok?)
      && (w.Ok? ==> r.value.1 == w.value.inferred && r.value.0.meta.labels == w.value.labels)
  {
    match m
    case Workflow(meta, ts) =>
      var labels := WorkflowIdentityLabels(meta.labels, id);
      (match ReconciledTemplates(ts, declared, decode)
       case Err(e) => Err(e)
       case Ok((ts', inferred)) => Ok((Workflow(meta.(labels := labels), ts'), inferred)))
    case CronWorkflow(meta, workflowMetadata, ts, schedule) =>
      var labels := WorkflowIdentityLabels(meta.labels, id);
      var metadataLabels := WorkflowIdentityLabels(workflowMetadata.GetOr(map[]), id);
      (match ReconciledTemplates(ts, declared, decode)
       case Err(e) => Err(e)
       case Ok((ts', inferred)) =>
         Ok((CronWorkflow(meta.(labels := labels), Some(metadataLabels), ts', schedule), inferred)))
    case ChaosEngine(meta, experiments) =>
      var labels := EngineIdentityLabels(meta.labels, id);
      if |experiments| == 0 then Err(NoExperiments(meta.name))
      else if |experiments[0]| == 0 then Err(EmptyFaultName)
      else
        (match WeighRoot(experiments[0], labels, declared)
         case Err(e) => Err(e)
         case Ok(w) => Ok((ChaosEngine(meta.(labels := w.labels), experiments), w.inferred)))
    case ChaosSchedule(meta, experiments) =>
      var labels := EngineIdentityLabels(meta.labels, id);
      if |experiments| == 0 then Err(NoExperiments(meta.name))
      else if |experiments[0]| == 0 then Err(EmptyFaultName)
      else
        (match WeighRoot(experiments[0], labels, declared)
         case Err(e) => Err(e)
         case Ok(w) => Ok((ChaosSchedule(meta.(labels := w.labels), experiments), w.inferred)))
    case Other(_) => Err(ManifestDecodeFailed)
  }

  /** The fault names the reconciler finds in a manifest, in order. */
  function ManifestFaults(m: Manifest, decode: string -> Option<EngineMeta>): (r: seq<string>)
    ensures forall i | 0 <= i < |r| :: r[i] != ""
    ensures (m.Workflow? || m.CronWorkflow?) ==> |r| <= |m.templates|
    ensures !(m.Workflow? || m.CronWorkflow?) ==> |r| <= 1
  {
    match m
    case Workflow(_, ts) => DiscoveredFaults(ts, decode)
    case CronWorkflow(_, _, ts, _) => DiscoveredFaults(ts, decode)
    case ChaosEngine(_, experiments) => if |experiments| > 0 && experiments[0] != "" then [experiments[0]] else []
    case ChaosSchedule(_, experiments) => if |experiments| > 0 && experiments[0] != "" then [experiments[0]] else []
    case Other(_) => []
  }

  /** The lower-case kind name that selects the reconciler of `k`. */
  function KindName(k: ManifestKind): string {
    match k
    case WorkflowKind => "workflow"
    case CronWorkflowKind => "cronworkflow"
    case ChaosEngineKind => "chaosengine"
    case ChaosScheduleKind => "chaosschedule"
  }

  /** The reconciler ProcessExperiment selects for a lower-cased kind, if any. */
  function KindOf(lowerKind: string): (r: Option<ManifestKind>)
    ensures r.Some? ==> KindName(r.value) == lowerKind
    ensures r.None? ==> forall k: ManifestKind :: KindName(k) != lowerKind
  {
    if lowerKind == "workflow" then Some(WorkflowKind)
    else if lowerKind == "cronworkflow" then Some(CronWorkflowKind)
    else if lowerKind == "chaosengine" then Some(ChaosEngineKind)
    else if lowerKind == "chaosschedule" then Some(ChaosScheduleKind)
    else None
  }

  /** The experiment type recorded for a kind; engines and schedules share one. */
  function TypeOf(k: ManifestKind): (r: ExperimentType)
    ensures r == NonCronExperiment <==> k == WorkflowKind
    ensures r == CronExperiment <==> k == CronWorkflowKind
    ensures r == ChaosEngineExperiment <==> k == ChaosEngineKind || k == ChaosScheduleKind
  {
    match k
    case WorkflowKind => NonCronExperiment
    case CronWorkflowKind => CronExperiment
    case ChaosEngineKind => ChaosEngineExperiment
    case ChaosScheduleKind => ChaosEngineExperiment
  }

  /** The typed decoder of kind `k` can read manifest `m`. */
  predicate Fits(m: Manifest, k: ManifestKind)
    ensures Fits(m, k) ==> !m.Other?
  {
    match k
    case WorkflowKind => m.Workflow?
    case CronWorkflowKind => m.CronWorkflow?
    case ChaosEngineKind => m.ChaosEngine?
    case ChaosScheduleKind => m.ChaosSchedule?
  }

  /**
   * The effect of the reconciler for kind `k` on a request: on success the manifest is
   * replaced by its reconciled form, the inferred weights are appended and, for a cron
   * workflow, the cron syntax becomes the schedule. On failure the request is unchanged.
   */
  function KindReconciled(s: RequestState, k: ManifestKind, declared: map<string, Int64>, revisionId: string,
                          decode: string -> Option<EngineMeta>): (r: Result<RequestState, Error>)
    requires s.experimentId.Some?
    ensures s.manifest.Malformed? || !Fits(s.manifest.manifest, k) ==> r == Err(ManifestDecodeFailed)
    ensures r.Ok? ==> r.value.(manifest := s.manifest, weightages := s.weightages, cronSyntax := s.cronSyntax) == s
    ensures r.Ok? ==> |s.weightages| <= |r.value.weightages| && r.value.weightages[..|s.weightages|] == s.weightages
  {
    match s.manifest
    case Malformed => Err(ManifestDecodeFailed)
    case Parsed(m) =>
      if !Fits(m, k) then Err(ManifestDecodeFailed)
      else
        match ReconciledManifest(m, declared, Identity(s.experimentId.value, s.infraId, revisionId), decode)
        case Err(e) => Err(e)
        case Ok((m', inferred)) =>
          Ok(s.(manifest := Parsed(m'), weightages := s.weightages + inferred,
                cronSyntax := if k == CronWorkflowKind then m'.schedule else s.cronSyntax))
  }

  /** The request after ProcessExperiment, and what it returned. */
  datatype Processed = Processed(state: RequestState, result: Result<ExperimentType, Error>)

  /** The identifier ProcessExperiment gives a request: its own, unless missing or empty. */
  function WithExperimentId(s: RequestState, freshId: string): (r: RequestState)
    ensures r.(experimentId := s.experimentId) == s
    ensures s.experimentId.Some? && s.experimentId.value != "" ==> r == s
    ensures s.experimentId.None? || s.experimentId.value == "" ==> r.experimentId == Some(freshId)
  {
    if s.experimentId.None? || s.experimentId.value == "" then s.(experimentId := Some(freshId)) else s
  }

  /**
   * ProcessExperiment: gatekeeping on the infrastructure, identifier assignment, the name
   * check, and dispatch on the lower-cased kind to one of the four reconcilers.
   */
  function ExperimentProcessed(s: RequestState, projectId: string, revisionId: string, infra: Result<Infra, string>,
                               freshId: string, decode: string -> Option<EngineMeta>): (r: Processed)
    ensures r.result.Ok? ==> infra.Ok? && infra.value.isActive && infra.value.projectId == projectId
    ensures r.result.Ok? ==> r.state.experimentId.Some? && r.state.experimentName == s.experimentName
    ensures r.state.infraId == s.infraId && r.state.description == s.description && r.state.tags == s.tags
  {
    match infra
    case Err(cause) => Processed(s, Err(InfraLookupFailed(cause)))
    case Ok(target) =>
      if !target.isActive then Processed(s, Err(InfraInactive))
      else if target.projectId != projectId then Processed(s, Err(InfraProjectMismatch))
      else
        var declared := WeightMapOf(s.weightages);
        var s1 := WithExperimentId(s, freshId);
        match s1.manifest
        case Malformed => Processed(s1, Err(ManifestUnreadable))
        case Parsed(m) =>
          if s1.experimentName != m.meta.name then Processed(s1, Err(NameMismatch(m.meta.kind)))
          else
            match KindOf(ToLower(m.meta.kind))
            case None => Processed(s1, Err(UnsupportedKind))
            case Some(k) =>
              match KindReconciled(s1, k, declared, revisionId, decode)
              case Err(e) => Processed(s1, Err(e))
              case Ok(s2) => Processed(s2, Ok(TypeOf(k)))
  }
}
