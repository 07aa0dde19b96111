/**
 * The experiment request as the service mutates it, and the four manifest reconcilers
 * that rewrite it in place. Each method is proved against its specification function in
 * module Reconcile: on success the request becomes the reconciled state, on failure it is
 * left as it was and the error is the one the specification names.
 */
module Requests {
  import opened Outcomes
  import opened Strconv
  import opened GoStrings
  import opened ExperimentModel
  import opened Weights
  import opened Reconcile
  import opened ReconcileProperties

  /** A create or update request, whose fields the reconcilers overwrite. */
  class ExperimentRequest {
    var experimentId: Option<string>
    var experimentName: string
    var description: string
    var tags: seq<string>
    var infraId: string
    var isCustom: bool
    var manifest: Document
    var weightages: seq<Weightage>
    var cronSyntax: string

    /** The request's fields as one value. */
    function State(): RequestState
      reads this
    {
      RequestState(experimentId, experimentName, description, tags, infraId, isCustom, manifest, weightages, cronSyntax)
    }

    constructor (s: RequestState)
      ensures State() == s
    {
      experimentId := s.experimentId;
      experimentName := s.experimentName;
      description := s.description;
      tags := s.tags;
      infraId := s.infraId;
      isCustom := s.isCustom;
      manifest := s.manifest;
      weightages := s.weightages;
      cronSyntax := s.cronSyntax;
    }
  }

  /** Whether the request and the returned error agree with the specification's outcome. */
  ghost predicate Agrees(expected: Result<RequestState, Error>, before: RequestState, after: RequestState, err: Option<Error>) {
    if expected.Ok? then err.None? && after == expected.value
    else err == Some(expected.error) && after == before
  }

  /**
   * The body of the template loop: the template's embedded chaos engine is read and, for
   * a fault, the weight label stamped or the weight inferred.
   */
  method ReconcileTemplate(t: Template, declared: map<string, Int64>, decode: string -> Option<EngineMeta>)
    returns (res: Result<(Template, seq<Weightage>), Error>)
    ensures res == ReconciledTemplate(t, declared, decode)
  {
    var found := TemplateFault(t, decode);
    if found.Err? {
      return Err(found.error);
    }
    if found.value.None? {
      return Ok((t, []));
    }
    var name := found.value.value;
    if name in declared {
      res := Ok((t.(labels := map[WeightLabel := Itoa(declared[name])]), []));
    } else if WeightLabel in t.labels {
      var weight := Atoi(t.labels[WeightLabel]);
      if weight.None? {
        return Err(WeightNotNumeric);
      }
      res := Ok((t, [Weightage(name, weight.value)]));
    } else {
      res := Ok((t.(labels := map[WeightLabel := DefaultWeightText]), [Weightage(name, DefaultWeight)]));
    }
  }

  /**
   * The template loop of the workflow and cron reconcilers: templates are reconciled in
   * order and rewritten in place, inferred weights collected, and the first failure ends
   * the loop.
   */
  method ReconcileTemplates(ts: seq<Template>, declared: map<string, Int64>, decode: string -> Option<EngineMeta>)
    returns (res: Result<(seq<Template>, seq<Weightage>), Error>)
    ensures res == ReconciledTemplates(ts, declared, decode)
  {
    var templates := new Template[|ts|](i requires 0 <= i < |ts| => ts[i]);
    var newWeights: seq<Weightage> := [];
    var i := 0;
    while i < |ts|
      invariant 0 <= i <= |ts| && templates.Length == |ts|
      invariant ReconciledTemplates(ts[..i], declared, decode) == Ok((templates[..i], newWeights))
      invariant forall j | i <= j < |ts| :: templates[j] == ts[j]
    {
      var r := ReconcileTemplate(templates[i], declared, decode);
      TemplatesSnoc(ts, i, declared, decode);
      if r.Err? {
        TemplatesErrorPersists(ts, i + 1, declared, decode);
        return Err(r.error);
      }
      templates[i] := r.value.0;
      newWeights := newWeights + r.value.1;
      assert templates[..i + 1] == templates[..i] + [r.value.0];
      i := i + 1;
    }
    assert ts[..i] == ts && templates[..i] == templates[..];
    res := Ok((templates[..], newWeights));
  }

  /** The reconciler of a workflow manifest. */
  method ProcessExperimentManifest(req: ExperimentRequest, declared: map<string, Int64>, revisionId: string,
                                   decode: string -> Option<EngineMeta>) returns (err: Option<Error>)
    requires req.experimentId.Some?
    modifies req
    ensures Agrees(KindReconciled(old(req.State()), WorkflowKind, declared, revisionId, decode),
                   old(req.State()), req.State(), err)
  {
    if !(req.manifest.Parsed? && req.manifest.manifest.Workflow?) {
      return Some(ManifestDecodeFailed);
    }
    var m := req.manifest.manifest;
    var labels := m.meta.labels[WorkflowIdLabel := req.experimentId.value][InfraIdLabel := req.infraId]
      [ControllerInstanceIdLabel := req.infraId][RevisionIdLabel := revisionId];
    var templates := ReconcileTemplates(m.templates, declared, decode);
    if templates.Err? {
      return Some(templates.error);
    }
    req.weightages := req.weightages + templates.value.1;
    req.manifest := Parsed(Workflow(m.meta.(labels := labels), templates.value.0));
    err := None;
  }

  /** The request a successful cron workflow reconciliation leaves, given the reconciled templates. */
  lemma CronReconciled(s: RequestState, declared: map<string, Int64>, revisionId: string,
                       decode: string -> Option<EngineMeta>, ts: seq<Template>, inferred: seq<Weightage>)
    requires s.experimentId.Some? && s.manifest.Parsed? && s.manifest.manifest.CronWorkflow?
    requires ReconciledTemplates(s.manifest.manifest.templates, declared, decode) == Ok((ts, inferred))
    ensures var m := s.manifest.manifest;
      var id := Identity(s.experimentId.value, s.infraId, revisionId);
      KindReconciled(s, CronWorkflowKind, declared, revisionId, decode)
        == Ok(s.(manifest := Parsed(CronWorkflow(m.meta.(labels := WorkflowIdentityLabels(m.meta.labels, id)),
                                                 Some(WorkflowIdentityLabels(m.workflowMetadata.GetOr(map[]), id)),
                                                 ts, m.schedule)),
                 weightages := s.weightages + inferred, cronSyntax := m.schedule))
  {
  }

  /** The reconciler of a cron workflow manifest; it also copies the schedule into the cron syntax. */
  method ProcessCronExperimentManifest(req: ExperimentRequest, declared: map<string, Int64>, revisionId: string,
                                       decode: string -> Option<EngineMeta>) returns (err: Option<Error>)
    requires req.experimentId.Some?
    modifies req
    ensures Agrees(KindReconciled(old(req.State()), CronWorkflowKind, declared, revisionId, decode),
                   old(req.State()), req.State(), err)
  {
    if !(req.manifest.Parsed? && req.manifest.manifest.CronWorkflow?) {
      return Some(ManifestDecodeFailed);
    }
    var m := req.manifest.manifest;
    var labels := m.meta.labels[WorkflowIdLabel := req.experimentId.value][InfraIdLabel := req.infraId]
      [ControllerInstanceIdLabel := req.infraId][RevisionIdLabel := revisionId];
    var metadataLabels: Labels := if m.workflowMetadata.Some? then m.workflowMetadata.value else map[];
    metadataLabels := metadataLabels[WorkflowIdLabel := req.experimentId.value][InfraIdLabel := req.infraId]
      [ControllerInstanceIdLabel := req.infraId][RevisionIdLabel := revisionId];
    var templates := ReconcileTemplates(m.templates, declared, decode);
    if templates.Err? {
      return Some(templates.error);
    }
    CronReconciled(req.State(), declared, revisionId, decode, templates.value.0, templates.value.1);
    req.weightages := req.weightages + templates.value.1;
    req.manifest := Parsed(CronWorkflow(m.meta.(labels := labels), Some(metadataLabels), templates.value.0, m.schedule));
    req.cronSyntax := m.schedule;
    err := None;
  }

  /**
   * The weight rule on the root labels of an engine or schedule whose first experiment is
   * `name`: the new labels and the inferred weights, or the failure.
   */
  method WeighRootLabels(name: string, labels: Labels, declared: map<string, Int64>)
    returns (newLabels: Labels, newWeights: seq<Weightage>, err: Option<Error>)
    ensures var w := WeighRoot(name, labels, declared);
      if w.Ok? then err.None? && newLabels == w.value.labels && newWeights == w.value.inferred
      else err == Some(w.error)
  {
    newLabels, newWeights, err := labels, [], None;
    if name in declared {
      newLabels := labels[WeightLabel := Itoa(declared[name])];
    } else if WeightLabel in labels {
      var weight := Atoi(labels[WeightLabel]);
      if weight.None? {
        return labels, [], Some(WeightNotNumeric);
      }
      newWeights := [Weightage(name, weight.value)];
    } else {
      newWeights := [Weightage(name, DefaultWeight)];
      newLabels := labels[WeightLabel := DefaultWeightText];
    }
  }

  /**
   * The shared body of the chaos engine and chaos schedule reconcilers: identity labels,
   * the first experiment as the fault, and the weight rule on the root labels.
   */
  method ReconcileEngineRoot(m: Manifest, declared: map<string, Int64>, id: Identity,
                             decode: string -> Option<EngineMeta>)
    returns (res: Result<(Manifest, seq<Weightage>), Error>)
    requires m.ChaosEngine? || m.ChaosSchedule?
    ensures res == ReconciledManifest(m, declared, id, decode)
  {
    var labels := m.meta.labels[WorkflowIdLabel := id.experimentId][InfraIdLabel := id.infraId]
      [TypeLabel := StandaloneWorkflow][RevisionIdLabel := id.revisionId];
    if |m.experiments| == 0 {
      return Err(NoExperiments(m.meta.name));
    }
    var name := m.experiments[0];
    if |name| == 0 {
      return Err(EmptyFaultName);
    }
    var newLabels, newWeights, err := WeighRootLabels(name, labels, declared);
    if err.Some? {
      return Err(err.value);
    }
    var meta := m.meta.(labels := newLabels);
    var reconciled := if m.ChaosEngine? then ChaosEngine(meta, m.experiments) else ChaosSchedule(meta, m.experiments);
    res := Ok((reconciled, newWeights));
  }

  /** The reconciler of a chaos engine manifest. */
  method ProcessChaosEngineManifest(req: ExperimentRequest, declared: map<string, Int64>, revisionId: string,
                                    decode: string -> Option<EngineMeta>) returns (err: Option<Error>)
    requires req.experimentId.Some?
    modifies req
    ensures Agrees(KindReconciled(old(req.State()), ChaosEngineKind, declared, revisionId, decode),
                   old(req.State()), req.State(), err)
  {
    if !(req.manifest.Parsed? && req.manifest.manifest.ChaosEngine?) {
      return Some(ManifestDecodeFailed);
    }
    var r := ReconcileEngineRoot(req.manifest.manifest, declared, Identity(req.experimentId.value, req.infraId, revisionId),
                                 decode);
    if r.Err? {
      return Some(r.error);
    }
    req.weightages := req.weightages + r.value.1;
    req.manifest := Parsed(r.value.0);
    err := None;
  }

  /** The reconciler of a chaos schedule manifest: the engine template's first experiment names the fault. */
  method ProcessChaosScheduleManifest(req: ExperimentRequest, declared: map<string, Int64>, revisionId: string,
                                      decode: string -> Option<EngineMeta>) returns (err: Option<Error>)
    requires req.experimentId.Some?
    modifies req
    ensures Agrees(KindReconciled(old(req.State()), ChaosScheduleKind, declared, revisionId, decode),
                   old(req.State()), req.State(), err)
  {
    if !(req.manifest.Parsed? && req.manifest.manifest.ChaosSchedule?) {
      return Some(ManifestDecodeFailed);
    }
    var r := ReconcileEngineRoot(req.manifest.manifest, declared, Identity(req.experimentId.value, req.infraId, revisionId),
                                 decode);
    if r.Err? {
      return Some(r.error);
    }
    req.weightages := req.weightages + r.value.1;
    req.manifest := Parsed(r.value.0);
    err := None;
  }
}
