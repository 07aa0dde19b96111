/**
 * What the reconciler guarantees: inferred weights are exactly the undeclared faults in
 * manifest order, declared weights survive, every fault ends up weighted, identity labels
 * are stamped while other labels stay, and reconciling a reconciled manifest again
 * changes nothing.
 */
module ReconcileProperties {
  import opened Outcomes
  import opened Strconv
  import opened GoStrings
  import opened ExperimentModel
  import opened Weights
  import opened Reconcile

  lemma {:induction false} UndeclaredAppend(a: seq<string>, b: seq<string>, declared: map<string, Int64>)
    ensures Undeclared(a + b, declared) == Undeclared(a, declared) + Undeclared(b, declared)
    decreases |b|
  {
    if b == [] {
      assert a + b == a;
    } else {
      var init := b[..|b| - 1];
      assert (a + b)[..|a + b| - 1] == a + init;
      UndeclaredAppend(a, init, declared);
    }
  }

  /** A name is undeclared-and-listed exactly when it occurs in `names` without a declared weight. */
  lemma {:induction false} UndeclaredMembers(names: seq<string>, declared: map<string, Int64>, x: string)
    ensures x in Undeclared(names, declared) <==> x in names && x !in declared
    decreases |names|
  {
    if names != [] {
      var init := names[..|names| - 1];
      UndeclaredMembers(init, declared, x);
      assert names == init + [names[|names| - 1]];
    }
  }

  lemma NamesAppend(a: seq<Weightage>, b: seq<Weightage>)
    ensures Names(a + b) == Names(a) + Names(b)
  {
  }

  /** The inferred weights of one template: none for a declared or absent fault, else one under the fault's name. */
  lemma TemplateInferred(t: Template, declared: map<string, Int64>, decode: string -> Option<EngineMeta>)
    requires ReconciledTemplate(t, declared, decode).Ok?
    ensures Names(ReconciledTemplate(t, declared, decode).value.1)
         == Undeclared(match TemplateFault(t, decode) case Ok(Some(n)) => [n] case _ => [], declared)
    ensures ReconciledTemplate(t, declared, decode).value.0.artifacts == t.artifacts
  {
    match TemplateFault(t, decode)
    case Ok(Some(n)) =>
      assert Undeclared([n], declared) == Undeclared([], declared) + (if n in declared then [] else [n]);
    case _ =>
  }

  /**
   * Reconciling a template list keeps its length, and the inferred weights name exactly the
   * discovered faults without a declared weight, in template order.
   */
  lemma {:induction false} TemplatesInferred(ts: seq<Template>, declared: map<string, Int64>, decode: string -> Option<EngineMeta>)
    requires ReconciledTemplates(ts, declared, decode).Ok?
    ensures |ReconciledTemplates(ts, declared, decode).value.0| == |ts|
    ensures Names(ReconciledTemplates(ts, declared, decode).value.1) == Undeclared(DiscoveredFaults(ts, decode), declared)
    decreases |ts|
  {
    if ts != [] {
      var init, last := ts[..|ts| - 1], ts[|ts| - 1];
      TemplatesInferred(init, declared, decode);
      var before := ReconciledTemplates(init, declared, decode).value;
      var step := ReconciledTemplate(last, declared, decode).value;
      var lastFaults := match TemplateFault(last, decode) case Ok(Some(n)) => [n] case _ => [];
      assert DiscoveredFaults(ts, decode) == DiscoveredFaults(init, decode) + lastFaults;
      UndeclaredAppend(DiscoveredFaults(init, decode), lastFaults, declared);
      TemplateInferred(last, declared, decode);
      NamesAppend(before.1, step.1);
    }
  }

  /**
   * Templates are reconciled one by one: the i-th output template is the i-th input
   * template reconciled alone, and what it inferred is among the inferred weights.
   */
  lemma {:induction false} TemplatesPointwise(ts: seq<Template>, declared: map<string, Int64>,
                                              decode: string -> Option<EngineMeta>, i: nat)
    requires ReconciledTemplates(ts, declared, decode).Ok?
    requires i < |ts|
    ensures ReconciledTemplate(ts[i], declared, decode).Ok?
    ensures |ReconciledTemplates(ts, declared, decode).value.0| == |ts|
    ensures ReconciledTemplates(ts, declared, decode).value.0[i] == ReconciledTemplate(ts[i], declared, decode).value.0
    ensures forall w | w in ReconciledTemplate(ts[i], declared, decode).value.1 ::
              w in ReconciledTemplates(ts, declared, decode).value.1
    decreases |ts|
  {
    var init := ts[..|ts| - 1];
    TemplatesInferred(init, declared, decode);
    if i < |ts| - 1 {
      TemplatesPointwise(init, declared, decode, i);
    }
  }

  /**
   * The weight label of each fault template after reconciliation: the declared weight
   * when there is one (the template's labels become that single label), otherwise a
   * readable weight that also appears among the inferred weights. Templates without a
   * fault are left as they were.
   */
  lemma TemplateWeightStamped(ts: seq<Template>, declared: map<string, Int64>,
                              decode: string -> Option<EngineMeta>, i: nat)
    requires ReconciledTemplates(ts, declared, decode).Ok?
    requires i < |ts|
    ensures var out := ReconciledTemplates(ts, declared, decode).value;
      |out.0| == |ts| && out.0[i].artifacts == ts[i].artifacts
    ensures var out := ReconciledTemplates(ts, declared, decode).value;
      var fault := TemplateFault(ts[i], decode);
      (fault.Ok? && fault.value.Some? ==>
        var f := fault.value.value;
        && WeightLabel in out.0[i].labels && Atoi(out.0[i].labels[WeightLabel]).Some?
        && (f in declared ==> out.0[i].labels == map[WeightLabel := Itoa(declared[f])] &&
                              Atoi(out.0[i].labels[WeightLabel]) == Some(declared[f]))
        && (f !in declared ==> Weightage(f, Atoi(out.0[i].labels[WeightLabel]).value) in out.1)) &&
      (fault.Ok? && fault.value.None? ==> out.0[i] == ts[i])
  {
    TemplatesPointwise(ts, declared, decode, i);
    TemplateInferred(ts[i], declared, decode);
  }

  lemma TemplateIdempotent(t: Template, declared: map<string, Int64>, decode: string -> Option<EngineMeta>)
    requires ReconciledTemplate(t, declared, decode).Ok?
    ensures var r := ReconciledTemplate(t, declared, decode).value;
      ReconciledTemplate(r.0, declared, decode) == Ok(r)
  {
  }

  /** A reconciled template list is a fixed point: reconciling it again yields it and the same inferred weights. */
  lemma {:induction false} TemplatesIdempotent(ts: seq<Template>, declared: map<string, Int64>,
                                               decode: string -> Option<EngineMeta>)
    requires ReconciledTemplates(ts, declared, decode).Ok?
    ensures var r := ReconciledTemplates(ts, declared, decode).value;
      ReconciledTemplates(r.0, declared, decode) == Ok(r)
    decreases |ts|
  {
    if ts != [] {
      var init, last := ts[..|ts| - 1], ts[|ts| - 1];
      TemplatesIdempotent(init, declared, decode);
      TemplateIdempotent(last, declared, decode);
      var before := ReconciledTemplates(init, declared, decode).value;
      var step := ReconciledTemplate(last, declared, decode).value;
      var out := before.0 + [step.0];
      assert out[..|out| - 1] == before.0;
      assert out[|out| - 1] == step.0;
    }
  }

  lemma WorkflowIdentityFixed(labels: Labels, id: Identity)
    requires forall k | k in WorkflowIdentityKeys :: k in labels
    requires labels[WorkflowIdLabel] == id.experimentId && labels[InfraIdLabel] == id.infraId
    requires labels[ControllerInstanceIdLabel] == id.infraId && labels[RevisionIdLabel] == id.revisionId
    ensures WorkflowIdentityLabels(labels, id) == labels
  {
  }

  lemma EngineIdentityFixed(labels: Labels, id: Identity)
    requires forall k | k in EngineIdentityKeys :: k in labels
    requires labels[WorkflowIdLabel] == id.experimentId && labels[InfraIdLabel] == id.infraId
    requires labels[TypeLabel] == StandaloneWorkflow && labels[RevisionIdLabel] == id.revisionId
    ensures EngineIdentityLabels(labels, id) == labels
  {
  }

  /** The root weight rule is a fixed point once applied: identities stay stamped and the weight label is re-read as is. */
  lemma RootWeightIdempotent(name: string, labels: Labels, declared: map<string, Int64>, id: Identity)
    requires WeighRoot(name, EngineIdentityLabels(labels, id), declared).Ok?
    ensures var w := WeighRoot(name, EngineIdentityLabels(labels, id), declared).value;
      EngineIdentityLabels(w.labels, id) == w.labels && WeighRoot(name, w.labels, declared) == Ok(w)
  {
    var stamped := EngineIdentityLabels(labels, id);
    var w := WeighRoot(name, stamped, declared).value;
    EngineIdentityFixed(w.labels, id);
    if name in declared {
      assert w.labels == stamped[WeightLabel := Itoa(declared[name])];
      assert w.labels[WeightLabel := Itoa(declared[name])] == w.labels;
    }
  }

  lemma WorkflowIdempotent(meta: Meta, ts: seq<Template>, declared: map<string, Int64>, id: Identity,
                           decode: string -> Option<EngineMeta>)
    requires ReconciledManifest(Workflow(meta, ts), declared, id, decode).Ok?
    ensures var r := ReconciledManifest(Workflow(meta, ts), declared, id, decode).value;
      ReconciledManifest(r.0, declared, id, decode) == Ok(r)
  {
    TemplatesIdempotent(ts, declared, decode);
    WorkflowIdentityFixed(WorkflowIdentityLabels(meta.labels, id), id);
  }

  lemma CronWorkflowIdempotent(meta: Meta, workflowMetadata: Option<Labels>, ts: seq<Template>, schedule: string,
                               declared: map<string, Int64>, id: Identity, decode: string -> Option<EngineMeta>)
    requires ReconciledTemplates(ts, declared, decode).Ok?
    ensures ReconciledManifest(CronWorkflow(meta, workflowMetadata, ts, schedule), declared, id, decode).Ok?
    ensures var r := ReconciledManifest(CronWorkflow(meta, workflowMetadata, ts, schedule), declared, id, decode).value;
      ReconciledManifest(r.0, declared, id, decode) == Ok(r)
  {
    TemplatesIdempotent(ts, declared, decode);
    WorkflowIdentityFixed(WorkflowIdentityLabels(meta.labels, id), id);
    var metadataLabels := WorkflowIdentityLabels(workflowMetadata.GetOr(map[]), id);
    WorkflowIdentityFixed(metadataLabels, id);
    assert Some(metadataLabels).GetOr(map[]) == metadataLabels;
  }

  /**
   * Reconciliation is idempotent: with the same declared weights and identities, a
   * reconciled manifest reconciles to itself and infers the same weights again.
   */
  lemma ManifestIdempotent(m: Manifest, declared: map<string, Int64>, id: Identity, decode: string -> Option<EngineMeta>)
    requires ReconciledManifest(m, declared, id, decode).Ok?
    ensures var r := ReconciledManifest(m, declared, id, decode).value;
      ReconciledManifest(r.0, declared, id, decode) == Ok(r)
  {
    match m
    case Workflow(meta, ts) => WorkflowIdempotent(meta, ts, declared, id, decode);
    case CronWorkflow(meta, workflowMetadata, ts, schedule) =>
      CronWorkflowIdempotent(meta, workflowMetadata, ts, schedule, declared, id, decode);
    case ChaosEngine(meta, experiments) =>
      RootWeightIdempotent(experiments[0], meta.labels, declared, id);
    case ChaosSchedule(meta, experiments) =>
      RootWeightIdempotent(experiments[0], meta.labels, declared, id);
  }

  /** The weights a manifest infers name exactly its undeclared faults, in order. */
  lemma ManifestInferred(m: Manifest, declared: map<string, Int64>, id: Identity, decode: string -> Option<EngineMeta>)
    requires ReconciledManifest(m, declared, id, decode).Ok?
    ensures Names(ReconciledManifest(m, declared, id, decode).value.1) == Undeclared(ManifestFaults(m, decode), declared)
  {
    match m
    case Workflow(_, ts) => TemplatesInferred(ts, declared, decode);
    case CronWorkflow(_, _, ts, _) => TemplatesInferred(ts, declared, decode);
    case ChaosEngine(_, experiments) =>
      assert Undeclared([experiments[0]], declared) == Undeclared([], declared) + (if experiments[0] in declared then [] else [experiments[0]]);
    case ChaosSchedule(_, experiments) =>
      assert Undeclared([experiments[0]], declared) == Undeclared([], declared) + (if experiments[0] in declared then [] else [experiments[0]]);
  }

  /**
   * ProcessExperiment's gatekeeping and classification: each failed check returns its own
   * error, and success means every check passed and the type follows the lower-cased kind.
   */
  lemma ProcessedClassification(s: RequestState, projectId: string, revisionId: string, infra: Result<Infra, string>,
                                freshId: string, decode: string -> Option<EngineMeta>)
    ensures var o := ExperimentProcessed(s, projectId, revisionId, infra, freshId, decode);
      && (infra.Err? ==> o == Processed(s, Err(InfraLookupFailed(infra.error))))
      && (infra.Ok? && !infra.value.isActive ==> o == Processed(s, Err(InfraInactive)))
      && (infra.Ok? && infra.value.isActive && infra.value.projectId != projectId ==>
            o == Processed(s, Err(InfraProjectMismatch)))
      && (infra.Ok? && infra.value.isActive && infra.value.projectId == projectId ==>
            && (s.manifest.Malformed? ==> o.result == Err(ManifestUnreadable))
            && (s.manifest.Parsed? && s.experimentName != s.manifest.manifest.meta.name ==>
                  o.result == Err(NameMismatch(s.manifest.manifest.meta.kind)))
            && ((s.manifest.Parsed? && s.experimentName == s.manifest.manifest.meta.name &&
                 KindOf(ToLower(s.manifest.manifest.meta.kind)).None?) ==> o.result == Err(UnsupportedKind)))
      && (o.result.Ok? ==>
            && infra.Ok? && infra.value.isActive && infra.value.projectId == projectId
            && s.manifest.Parsed? && s.experimentName == s.manifest.manifest.meta.name
            && KindOf(ToLower(s.manifest.manifest.meta.kind)).Some?
            && o.result.value == TypeOf(KindOf(ToLower(s.manifest.manifest.meta.kind)).value))
      && (o.result == Ok(NonCronExperiment) ==> ToLower(s.manifest.manifest.meta.kind) == "workflow")
      && (o.result == Ok(CronExperiment) ==> ToLower(s.manifest.manifest.meta.kind) == "cronworkflow")
      && (o.result == Ok(ChaosEngineExperiment) ==>
            ToLower(s.manifest.manifest.meta.kind) == "chaosengine" || ToLower(s.manifest.manifest.meta.kind) == "chaosschedule")
  {
  }

  /** Every inferred entry names a listed fault that has no declared weight. */
  lemma InferredAreUndeclared(inferred: seq<Weightage>, faults: seq<string>, declared: map<string, Int64>)
    requires Names(inferred) == Undeclared(faults, declared)
    ensures forall j | 0 <= j < |inferred| :: inferred[j].faultName !in declared && inferred[j].faultName in faults
  {
    forall j | 0 <= j < |inferred|
      ensures inferred[j].faultName !in declared && inferred[j].faultName in faults
    {
      assert Names(inferred)[j] == inferred[j].faultName;
      UndeclaredMembers(faults, declared, inferred[j].faultName);
    }
  }

  /**
   * On success, the request's weightages are the submitted ones followed by exactly one
   * entry per undeclared fault, in manifest order; every fault of the manifest then has a
   * weight, and every declared weight is still the one the weight table yields.
   */
  lemma ProcessedWeights(s: RequestState, projectId: string, revisionId: string, infra: Result<Infra, string>,
                         freshId: string, decode: string -> Option<EngineMeta>)
    requires ExperimentProcessed(s, projectId, revisionId, infra, freshId, decode).result.Ok?
    ensures s.manifest.Parsed?
    ensures var after := ExperimentProcessed(s, projectId, revisionId, infra, freshId, decode).state.weightages;
      var declared := WeightMapOf(s.weightages);
      var faults := ManifestFaults(s.manifest.manifest, decode);
      && |s.weightages| <= |after| && after[..|s.weightages|] == s.weightages
      && Names(after[|s.weightages|..]) == Undeclared(faults, declared)
      && (forall f | f in faults :: f in WeightMapOf(after))
      && (forall f | f in declared :: f in WeightMapOf(after) && WeightMapOf(after)[f] == declared[f])
  {
    var s1 := WithExperimentId(s, freshId);
    var m := s.manifest.manifest;
    var declared := WeightMapOf(s.weightages);
    var id := Identity(s1.experimentId.value, s1.infraId, revisionId);
    var inferred := ReconciledManifest(m, declared, id, decode).value.1;
    KindWeights(s1, KindOf(ToLower(m.meta.kind)).value, declared, revisionId, decode);
    ManifestInferred(m, declared, id, decode);
    AppendedWeights(s.weightages, inferred, ManifestFaults(m, decode));
  }

  /** A reconciler appends the weights its manifest infers to the request's weightages. */
  lemma KindWeights(s: RequestState, k: ManifestKind, declared: map<string, Int64>, revisionId: string,
                    decode: string -> Option<EngineMeta>)
    requires s.experimentId.Some? && KindReconciled(s, k, declared, revisionId, decode).Ok?
    ensures s.manifest.Parsed?
    ensures var id := Identity(s.experimentId.value, s.infraId, revisionId);
      ReconciledManifest(s.manifest.manifest, declared, id, decode).Ok? &&
      KindReconciled(s, k, declared, revisionId, decode).value.weightages
        == s.weightages + ReconciledManifest(s.manifest.manifest, declared, id, decode).value.1
  {
  }

  /**
   * Appending one entry per undeclared fault gives every fault a weight and keeps every
   * declared weight.
   */
  lemma AppendedWeights(ws: seq<Weightage>, inferred: seq<Weightage>, faults: seq<string>)
    requires Names(inferred) == Undeclared(faults, WeightMapOf(ws))
    ensures var after := ws + inferred;
      && after[..|ws|] == ws && after[|ws|..] == inferred
      && (forall f | f in faults :: f in WeightMapOf(after))
      && (forall f | f in WeightMapOf(ws) :: f in WeightMapOf(after) && WeightMapOf(after)[f] == WeightMapOf(ws)[f])
  {
    var declared := WeightMapOf(ws);
    InferredAreUndeclared(inferred, faults, declared);
    var after := ws + inferred;
    assert after[..|ws|] == ws;
    assert after[|ws|..] == inferred;
    forall f | f in declared
      ensures f in WeightMapOf(after) && WeightMapOf(after)[f] == declared[f]
    {
      WeightMapAppendOthers(ws, inferred, f);
    }
    forall f | f in faults
      ensures f in WeightMapOf(after)
    {
      if f !in declared {
        UndeclaredMembers(faults, declared, f);
        assert f in Names(inferred);
        var j :| 0 <= j < |inferred| && Names(inferred)[j] == f;
        WeightMapAppendCovers(ws, inferred, j);
      }
    }
  }

  /**
   * Once the infrastructure checks pass, the request keeps its identifier unless it was
   * missing or empty, in which case it gets the fresh one, even when a later check fails;
   * its name, description, tags, infrastructure and custom flag never change.
   */
  lemma ProcessedIdentifier(s: RequestState, projectId: string, revisionId: string, infra: Result<Infra, string>,
                            freshId: string, decode: string -> Option<EngineMeta>)
    ensures var o := ExperimentProcessed(s, projectId, revisionId, infra, freshId, decode);
      && o.state.experimentName == s.experimentName && o.state.description == s.description
      && o.state.tags == s.tags && o.state.infraId == s.infraId && o.state.isCustom == s.isCustom
      && (infra.Ok? && infra.value.isActive && infra.value.projectId == projectId ==>
            o.state.experimentId ==
              Some(if s.experimentId.None? || s.experimentId.value == "" then freshId else s.experimentId.value))
      && (o.result.Err? ==> o.state == s || o.state == WithExperimentId(s, freshId))
  {
  }

  /**
   * On success the manifest keeps its kind, name and shape; its root labels carry the
   * experiment, infrastructure and revision identifiers, the controller instance label
   * (workflow kinds) or the standalone type label (engine kinds), and every other label it
   * had. For a cron workflow the workflow metadata gets the same identifiers and the cron
   * syntax becomes the schedule.
   */
  lemma ProcessedLabels(s: RequestState, projectId: string, revisionId: string, infra: Result<Infra, string>,
                        freshId: string, decode: string -> Option<EngineMeta>)
    requires ExperimentProcessed(s, projectId, revisionId, infra, freshId, decode).result.Ok?
    ensures var o := ExperimentProcessed(s, projectId, revisionId, infra, freshId, decode);
      s.manifest.Parsed? && o.state.manifest.Parsed? && o.state.experimentId.Some?
    ensures var o := ExperimentProcessed(s, projectId, revisionId, infra, freshId, decode);
      var before := s.manifest.manifest;
      var after := o.state.manifest.manifest;
      var labels := after.meta.labels;
      && after.meta.kind == before.meta.kind && after.meta.name == before.meta.name
      && Fits(after, KindOf(ToLower(before.meta.kind)).value)
      && WorkflowIdLabel in labels && labels[WorkflowIdLabel] == o.state.experimentId.value
      && InfraIdLabel in labels && labels[InfraIdLabel] == s.infraId
      && RevisionIdLabel in labels && labels[RevisionIdLabel] == revisionId
      && (o.result.value != ChaosEngineExperiment ==>
            && ControllerInstanceIdLabel in labels && labels[ControllerInstanceIdLabel] == s.infraId
            && labels.Keys == before.meta.labels.Keys + WorkflowIdentityKeys
            && forall k | k in before.meta.labels && k !in WorkflowIdentityKeys :: labels[k] == before.meta.labels[k])
      && (o.result.value == ChaosEngineExperiment ==>
            && TypeLabel in labels && labels[TypeLabel] == StandaloneWorkflow
            && WeightLabel in labels && Atoi(labels[WeightLabel]).Some?
            && labels.Keys == before.meta.labels.Keys + EngineIdentityKeys + {WeightLabel}
            && forall k | k in before.meta.labels && k !in EngineIdentityKeys && k != WeightLabel ::
                 labels[k] == before.meta.labels[k])
      && (o.result.value == CronExperiment ==>
            && after.CronWorkflow? && o.state.cronSyntax == before.schedule
            && after.workflowMetadata ==
                 Some(WorkflowIdentityLabels(before.workflowMetadata.GetOr(map[]),
                                             Identity(o.state.experimentId.value, s.infraId, revisionId))))
      && (o.result.value != CronExperiment ==> o.state.cronSyntax == s.cronSyntax)
  {
    var s1 := WithExperimentId(s, freshId);
    var m := s1.manifest.manifest;
    var k := KindOf(ToLower(m.meta.kind)).value;
    ManifestLabels(m, k, WeightMapOf(s.weightages), Identity(s1.experimentId.value, s1.infraId, revisionId), decode);
  }

  /**
   * The labels of a reconciled manifest: the identity labels of its kind, a readable
   * weight on engines and schedules, and every other label as it was.
   */
  lemma ManifestLabels(m: Manifest, k: ManifestKind, declared: map<string, Int64>, id: Identity,
                       decode: string -> Option<EngineMeta>)
    requires Fits(m, k) && ReconciledManifest(m, declared, id, decode).Ok?
    ensures var after := ReconciledManifest(m, declared, id, decode).value.0;
      var labels := after.meta.labels;
      && after.meta.kind == m.meta.kind && after.meta.name == m.meta.name && Fits(after, k)
      && WorkflowIdLabel in labels && labels[WorkflowIdLabel] == id.experimentId
      && InfraIdLabel in labels && labels[InfraIdLabel] == id.infraId
      && RevisionIdLabel in labels && labels[RevisionIdLabel] == id.revisionId
      && (TypeOf(k) != ChaosEngineExperiment ==>
            && ControllerInstanceIdLabel in labels && labels[ControllerInstanceIdLabel] == id.infraId
            && labels.Keys == m.meta.labels.Keys + WorkflowIdentityKeys
            && forall l | l in m.meta.labels && l !in WorkflowIdentityKeys :: labels[l] == m.meta.labels[l])
      && (TypeOf(k) == ChaosEngineExperiment ==>
            && TypeLabel in labels && labels[TypeLabel] == StandaloneWorkflow
            && WeightLabel in labels && Atoi(labels[WeightLabel]).Some?
            && labels.Keys == m.meta.labels.Keys + EngineIdentityKeys + {WeightLabel}
            && forall l | l in m.meta.labels && l !in EngineIdentityKeys && l != WeightLabel ::
                 labels[l] == m.meta.labels[l])
      && (k == CronWorkflowKind ==>
            && after.CronWorkflow? && after.schedule == m.schedule
            && after.workflowMetadata == Some(WorkflowIdentityLabels(m.workflowMetadata.GetOr(map[]), id)))
  {
    match m {
      case Workflow(_, _) =>
      case CronWorkflow(_, _, _, _) =>
      case ChaosEngine(_, _) =>
      case ChaosSchedule(_, _) =>
      case Other(_) =>
    }
  }

  /**
   * Reconciling the manifest ProcessExperiment produced, with the same declared weights
   * and identifiers, leaves it as it is and infers the same weights once more.
   */
  lemma ProcessedIdempotent(s: RequestState, projectId: string, revisionId: string, infra: Result<Infra, string>,
                            freshId: string, decode: string -> Option<EngineMeta>)
    requires ExperimentProcessed(s, projectId, revisionId, infra, freshId, decode).result.Ok?
    ensures s.manifest.Parsed? && KindOf(ToLower(s.manifest.manifest.meta.kind)).Some?
    ensures var o := ExperimentProcessed(s, projectId, revisionId, infra, freshId, decode);
      var k := KindOf(ToLower(s.manifest.manifest.meta.kind)).value;
      |s.weightages| <= |o.state.weightages| && o.state.experimentId.Some? &&
      KindReconciled(o.state, k, WeightMapOf(s.weightages), revisionId, decode)
        == Ok(o.state.(weightages := o.state.weightages + o.state.weightages[|s.weightages|..]))
  {
    var s1 := WithExperimentId(s, freshId);
    var k := KindOf(ToLower(s1.manifest.manifest.meta.kind)).value;
    KindIdempotent(s1, k, WeightMapOf(s.weightages), revisionId, decode);
  }

  /**
   * Running a reconciler again on the request it produced, with the same declared
   * weights, keeps the request and appends the inferred weights once more.
   */
  lemma KindIdempotent(s: RequestState, k: ManifestKind, declared: map<string, Int64>, revisionId: string,
                       decode: string -> Option<EngineMeta>)
    requires s.experimentId.Some? && KindReconciled(s, k, declared, revisionId, decode).Ok?
    ensures var s2 := KindReconciled(s, k, declared, revisionId, decode).value;
      |s.weightages| <= |s2.weightages| && s2.experimentId.Some? &&
      KindReconciled(s2, k, declared, revisionId, decode)
        == Ok(s2.(weightages := s2.weightages + s2.weightages[|s.weightages|..]))
  {
    var m := s.manifest.manifest;
    var id := Identity(s.experimentId.value, s.infraId, revisionId);
    var r := ReconciledManifest(m, declared, id, decode).value;
    ManifestIdempotent(m, declared, id, decode);
    ManifestLabels(m, k, declared, id, decode);
    assert (s.weightages + r.1)[|s.weightages|..] == r.1;
  }

  /** One more template extends a successful fold by that template's own outcome. */
  lemma TemplatesSnoc(ts: seq<Template>, i: nat, declared: map<string, Int64>, decode: string -> Option<EngineMeta>)
    requires i < |ts| && ReconciledTemplates(ts[..i], declared, decode).Ok?
    ensures ReconciledTemplate(ts[i], declared, decode).Err? ==>
      ReconciledTemplates(ts[..i + 1], declared, decode) == Err(ReconciledTemplate(ts[i], declared, decode).error)
    ensures ReconciledTemplate(ts[i], declared, decode).Ok? ==>
      var done := ReconciledTemplates(ts[..i], declared, decode).value;
      var step := ReconciledTemplate(ts[i], declared, decode).value;
      ReconciledTemplates(ts[..i + 1], declared, decode) == Ok((done.0 + [step.0], done.1 + step.1))
  {
    assert ts[..i + 1][..i] == ts[..i];
    assert ts[..i + 1][i] == ts[i];
  }

  /** The first template that fails decides the outcome for every longer list of templates. */
  lemma {:induction false} TemplatesErrorPersists(ts: seq<Template>, n: nat, declared: map<string, Int64>,
                                                  decode: string -> Option<EngineMeta>)
    requires n <= |ts| && ReconciledTemplates(ts[..n], declared, decode).Err?
    ensures ReconciledTemplates(ts, declared, decode) == ReconciledTemplates(ts[..n], declared, decode)
    decreases |ts| - n
  {
    if n < |ts| {
      assert ts[..|ts| - 1][..n] == ts[..n];
      TemplatesErrorPersists(ts[..|ts| - 1], n, declared, decode);
    } else {
      assert ts[..n] == ts;
    }
  }
}
