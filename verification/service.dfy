/**
 * The chaos experiment service: the stores it reads and writes (infrastructures,
 * experiments, experiment runs) and the log of notifications it sends to the dispatch
 * layer. Failures of the storage layer are parameters of each operation.
 */
module Service {
  import opened Outcomes
  import opened Strconv
  import opened GoStrings
  import opened ExperimentModel
  import opened Weights
  import opened Reconcile
  import opened Requests
  import opened Records
  import opened Scoring

  /** The cause the store reports when a lookup matches no document. */
  const NoDocuments := "mongo: no documents in result"

  /**
   * The effect of an update on the experiment store. A missing identifier, or a key the
   * store does not hold, matches nothing. A normal update overwrites the descriptive
   * fields and appends the revision; the enable/disable path only matches a record that
   * holds the revision, and patches that revision's manifest.
   */
  function StoreUpdated(store: map<ExperimentKey, ExperimentRecord>, s: RequestState, projectId: string,
                        experimentType: ExperimentType, revisionId: string, updateRevision: bool,
                        username: string, now: int): (r: map<ExperimentKey, ExperimentRecord>)
    ensures r.Keys == store.Keys
    ensures forall k | k in store && (s.experimentId.None? || k != ExperimentKey(s.experimentId.value, projectId)) ::
      r[k] == store[k]
  {
    if s.experimentId.None? then store
    else
      var key := ExperimentKey(s.experimentId.value, projectId);
      if key !in store then store
      else if !updateRevision then
        store[key := RecordUpdated(store[key], s, experimentType, Revision(revisionId, s.manifest, now, s.weightages), username, now)]
      else if FirstRevision(store[key].revisions, revisionId) < |store[key].revisions| then
        store[key := RevisionPatched(store[key], revisionId, s.manifest, username, now)]
      else store
  }

  /** Updates keep every record under its key and with at least one revision. */
  lemma StoreUpdatedValid(store: map<ExperimentKey, ExperimentRecord>, s: RequestState, projectId: string,
                          experimentType: ExperimentType, revisionId: string, updateRevision: bool,
                          username: string, now: int)
    requires ValidStore(store)
    ensures ValidStore(StoreUpdated(store, s, projectId, experimentType, revisionId, updateRevision, username, now))
  {
  }

  /**
   * The revision history under an update: a normal update appends exactly one revision
   * after the existing ones; the enable/disable path keeps the count, the order, the
   * identifiers and the weight tables, changes at most the first revision with the given
   * identifier, and changes nothing at all when there is none.
   */
  lemma UpdateHistory(store: map<ExperimentKey, ExperimentRecord>, s: RequestState, projectId: string,
                      experimentType: ExperimentType, revisionId: string, updateRevision: bool,
                      username: string, now: int)
    requires s.experimentId.Some? && ExperimentKey(s.experimentId.value, projectId) in store
    ensures var key := ExperimentKey(s.experimentId.value, projectId);
      var before := store[key].revisions;
      var updated := StoreUpdated(store, s, projectId, experimentType, revisionId, updateRevision, username, now);
      var after := updated[key].revisions;
      && (!updateRevision ==> after == before + [Revision(revisionId, s.manifest, now, s.weightages)])
      && (updateRevision ==>
            && |after| == |before|
            && (forall j | 0 <= j < |before| ::
                  after[j].revisionId == before[j].revisionId && after[j].weightages == before[j].weightages)
            && (forall j | 0 <= j < |before| && after[j] != before[j] ::
                  j == FirstRevision(before, revisionId) && after[j] == before[j].(manifest := s.manifest, updatedAt := now)))
      && (updateRevision && (forall j | 0 <= j < |before| :: before[j].revisionId != revisionId) ==> updated == store)
  {
  }

  /** The service with its stores. */
  class ChaosExperimentService {
    var infras: map<string, Infra>
    var experiments: map<ExperimentKey, ExperimentRecord>
    var runs: map<string, RunRecord>
    ghost var notifications: seq<Notification>

    /** Every experiment is stored under its own key and has at least one revision. */
    ghost predicate Valid()
      reads this
    {
      ValidStore(experiments)
    }

    constructor (infras: map<string, Infra>)
      ensures Valid() && this.infras == infras
      ensures experiments == map[] && runs == map[] && notifications == []
    {
      this.infras := infras;
      experiments := map[];
      runs := map[];
      notifications := [];
    }

    /** The infrastructure lookup: the failure it reports, or the stored infrastructure. */
    function InfraLookup(infraId: string, fault: Option<string>): (r: Result<Infra, string>)
      reads this
      ensures fault.Some? ==> r == Err(fault.value)
      ensures fault.None? ==> (r.Ok? <==> infraId in infras)
      ensures r.Ok? ==> infraId in infras && r.value == infras[infraId]
    {
      if fault.Some? then Err(fault.value)
      else if infraId in infras then Ok(infras[infraId])
      else Err(NoDocuments)
    }

    /**
     * ProcessExperiment: checks the target infrastructure, assigns the identifier, checks
     * the name and reconciles the manifest by its kind, rewriting the request in place.
     */
    method ProcessExperiment(req: ExperimentRequest, projectId: string, revisionId: string, lookupFault: Option<string>,
                             freshId: string, decode: string -> Option<EngineMeta>)
      returns (result: Result<ExperimentType, Error>)
      modifies req
      ensures ExperimentProcessed(old(req.State()), projectId, revisionId, InfraLookup(old(req.infraId), lookupFault),
                                  freshId, decode) == Processed(req.State(), result)
    {
      var infra := InfraLookup(req.infraId, lookupFault);
      if infra.Err? {
        return Err(InfraLookupFailed(infra.error));
      }
      if !infra.value.isActive {
        return Err(InfraInactive);
      }
      if infra.value.projectId != projectId {
        return Err(InfraProjectMismatch);
      }
      ghost var before := req.State();
      var experimentType := NonCronExperiment;
      var weights := BuildWeightMap(req.weightages);
      if req.experimentId.None? || req.experimentId.value == "" {
        req.experimentId := Some(freshId);
      }
      assert req.State() == WithExperimentId(before, freshId);
      if req.manifest.Malformed? {
        return Err(ManifestUnreadable);
      }
      var meta := req.manifest.manifest.meta;
      if req.experimentName != meta.name {
        return Err(NameMismatch(meta.kind));
      }
      var kind := ToLower(meta.kind);
      var err: Option<Error>;
      if kind == "workflow" {
        err := ProcessExperimentManifest(req, weights, revisionId, decode);
      } else if kind == "cronworkflow" {
        experimentType := CronExperiment;
        err := ProcessCronExperimentManifest(req, weights, revisionId, decode);
      } else if kind == "chaosengine" {
        experimentType := ChaosEngineExperiment;
        err := ProcessChaosEngineManifest(req, weights, revisionId, decode);
      } else if kind == "chaosschedule" {
        experimentType := ChaosEngineExperiment;
        err := ProcessChaosScheduleManifest(req, weights, revisionId, decode);
      } else {
        return Err(UnsupportedKind);
      }
      if err.Some? {
        return Err(err.value);
      }
      result := Ok(experimentType);
    }

    /**
     * ProcessExperimentCreation: stores a new record with one revision and, when a
     * dispatch channel is given, notifies it. The store refuses a key it already holds.
     */
    method ProcessExperimentCreation(input: ExperimentRequest, username: string, projectId: string,
                                     experimentType: ExperimentType, revisionId: string, now: int,
                                     insertFault: Option<string>, dispatch: bool)
      returns (err: Option<Error>)
      requires input.experimentId.Some? && Valid()
      modifies this
      ensures Valid() && infras == old(infras) && runs == old(runs)
      ensures var key := ExperimentKey(input.experimentId.value, projectId);
        && (err.None? <==> insertFault.None? && key !in old(experiments))
        && (insertFault.Some? ==> err == Some(Storage(insertFault.value)))
        && (insertFault.None? && key in old(experiments) ==> err == Some(DuplicateExperiment))
        && (err.None? ==>
              && experiments == old(experiments)[key := NewRecord(input.State(), projectId, experimentType, revisionId, username, now)]
              && notifications == old(notifications) +
                   if dispatch then [Notification(Create, projectId, input.infraId, username, None, Some(input.State()))] else [])
        && (err.Some? ==> experiments == old(experiments) && notifications == old(notifications))
    {
      var record := NewRecord(input.State(), projectId, experimentType, revisionId, username, now);
      if insertFault.Some? {
        return Some(Storage(insertFault.value));
      }
      if KeyOf(record) in experiments {
        return Some(DuplicateExperiment);
      }
      experiments := experiments[KeyOf(record) := record];
      if dispatch {
        notifications := notifications + [Notification(Create, projectId, input.infraId, username, None, Some(input.State()))];
      }
      err := None;
    }

    /**
     * ProcessExperimentUpdate: writes the update (a new revision, or the patch of an
     * existing one on the enable/disable path), then checks that the manifest is readable
     * and, when a dispatch channel is given, notifies it.
     */
    method ProcessExperimentUpdate(req: ExperimentRequest, username: string, experimentType: ExperimentType,
                                   revisionId: string, updateRevision: bool, projectId: string, now: int,
                                   updateFault: Option<string>, dispatch: bool)
      returns (err: Option<Error>)
      requires Valid()
      modifies this
      ensures Valid() && infras == old(infras) && runs == old(runs)
      ensures updateFault.Some? ==>
        err == Some(Storage(updateFault.value)) && experiments == old(experiments) && notifications == old(notifications)
      ensures updateFault.None? ==>
        experiments == StoreUpdated(old(experiments), req.State(), projectId, experimentType, revisionId, updateRevision, username, now)
      ensures updateFault.None? && req.manifest.Malformed? ==>
        err == Some(ManifestUnreadable) && notifications == old(notifications)
      ensures updateFault.None? && req.manifest.Parsed? ==>
        err.None? &&
        notifications == old(notifications) +
          if dispatch then [Notification(Update, projectId, req.infraId, username, None, Some(req.State()))] else []
    {
      var revision := Revision(revisionId, req.manifest, now, req.weightages);
      StoreUpdatedValid(experiments, req.State(), projectId, experimentType, revisionId, updateRevision, username, now);
      if updateFault.Some? {
        return Some(Storage(updateFault.value));
      }
      if req.experimentId.Some? {
        var key := ExperimentKey(req.experimentId.value, projectId);
        if key in experiments {
          var record := experiments[key];
          if !updateRevision {
            experiments := experiments[key := RecordUpdated(record, req.State(), experimentType, revision, username, now)];
          } else if FirstRevision(record.revisions, revisionId) < |record.revisions| {
            experiments := experiments[key := RevisionPatched(record, revisionId, req.manifest, username, now)];
          }
        }
      }
      if req.manifest.Malformed? {
        return Some(ManifestUnreadable);
      }
      if dispatch {
        notifications := notifications + [Notification(Update, projectId, req.infraId, username, None, Some(req.State()))];
      }
      err := None;
    }

    /**
     * ProcessExperimentDelete: in one transaction, marks the matched experiment and every
     * run of the experiment removed. The writes become visible only on commit; any failure
     * aborts the transaction and leaves both stores as they were.
     */
    method ProcessExperimentDelete(query: ExperimentKey, workflow: ExperimentRecord, username: string, now: int,
                                   faults: TxnFaults, dispatch: bool)
      returns (err: Option<Error>)
      requires Valid()
      modifies this
      ensures Valid() && infras == old(infras)
      ensures err == DeleteError(faults)
      ensures err.None? ==>
        && experiments == (if query in old(experiments)
                           then old(experiments)[query := SoftDeleted(old(experiments)[query], username, now)]
                           else old(experiments))
        && runs == RunsSoftDeleted(old(runs), workflow.experimentId, username, now)
        && notifications == old(notifications) +
             if dispatch then [Notification(WorkflowDelete, workflow.projectId, workflow.infraId, username,
                                            Some(workflow.experimentId), None)] else []
      ensures err.Some? ==> experiments == old(experiments) && runs == old(runs) && notifications == old(notifications)
    {
      if faults.startSession.Some? {
        return Some(Storage(faults.startSession.value));
      }
      var pendingExperiments, pendingRuns := experiments, runs;
      var failure: Option<string> := None;
      if faults.startTransaction.Some? {
        failure := faults.startTransaction;
      } else if faults.experimentWrite.Some? {
        failure := faults.experimentWrite;
      } else {
        if query in pendingExperiments {
          pendingExperiments := pendingExperiments[query := SoftDeleted(pendingExperiments[query], username, now)];
        }
        if faults.runsWrite.Some? {
          failure := faults.runsWrite;
        } else {
          pendingRuns := RunsSoftDeleted(pendingRuns, workflow.experimentId, username, now);
          if faults.commit.Some? {
            failure := faults.commit;
          }
        }
      }
      if failure.Some? {
        if faults.abort.Some? {
          return Some(Storage(faults.abort.value));
        }
        return Some(Storage(failure.value));
      }
      experiments, runs := pendingExperiments, pendingRuns;
      if dispatch {
        notifications := notifications +
          [Notification(WorkflowDelete, workflow.projectId, workflow.infraId, username, Some(workflow.experimentId), None)];
      }
      err := None;
    }

    /**
     * ProcessExperimentRunDelete: sets the run's removed flag to the one supplied, with the
     * user and time, and notifies the dispatch channel when one is given.
     */
    method ProcessExperimentRunDelete(runId: string, workflowRunId: Option<string>, experimentRun: RunRecord,
                                      workflow: ExperimentRecord, username: string, now: int,
                                      updateFault: Option<string>, dispatch: bool)
      returns (err: Option<Error>)
      requires Valid()
      modifies this
      ensures Valid() && infras == old(infras) && experiments == old(experiments)
      ensures updateFault.Some? ==>
        err == Some(Storage(updateFault.value)) && runs == old(runs) && notifications == old(notifications)
      ensures updateFault.None? ==>
        && err.None?
        && runs == (if runId in old(runs)
                    then old(runs)[runId := old(runs)[runId].(isRemoved := experimentRun.isRemoved,
                                                             updatedAt := now, updatedBy := username)]
                    else old(runs))
        && notifications == old(notifications) +
             if dispatch then [Notification(WorkflowRunDelete, experimentRun.projectId, workflow.infraId, username,
                                            workflowRunId, None)] else []
    {
      if updateFault.Some? {
        return Some(Storage(updateFault.value));
      }
      if runId in runs {
        runs := runs[runId := runs[runId].(isRemoved := experimentRun.isRemoved, updatedAt := now, updatedBy := username)];
      }
      if dispatch {
        notifications := notifications +
          [Notification(WorkflowRunDelete, experimentRun.projectId, workflow.infraId, username, workflowRunId, None)];
      }
      err := None;
    }

    /**
     * ProcessCompletedExperimentRun: looks the experiment up by identifier alone and scores
     * the run against the revisions of the record it finds. Only the lookup can fail.
     */
    method ProcessCompletedExperimentRun(exec: ExecutionData, experimentId: string, lookupFault: Option<string>)
      returns (res: Result<RunMetrics, Error>, ghost found: ExperimentKey, ghost picks: seq<string>)
      ensures lookupFault.Some? ==> res == Err(ExperimentLookupFailed(lookupFault.value))
      ensures lookupFault.None? ==>
        (res.Ok? <==> exists k | k in experiments :: k.experimentId == experimentId)
      ensures lookupFault.None? && res.Err? ==> res.error == ExperimentLookupFailed(NoDocuments)
      ensures res.Ok? ==>
        && found in experiments && found.experimentId == experimentId
        && ValidPicks(WeightMapOf(MatchingWeightages(experiments[found].revisions, exec.revisionId)), exec.nodes, picks)
        && res.value == Metrics(experiments[found].revisions, exec, picks)
    {
      found, picks := ExperimentKey(experimentId, ""), [];
      if lookupFault.Some? {
        return Err(ExperimentLookupFailed(lookupFault.value)), found, picks;
      }
      if !(exists k | k in experiments :: k.experimentId == experimentId) {
        return Err(ExperimentLookupFailed(NoDocuments)), found, picks;
      }
      var key :| key in experiments && key.experimentId == experimentId;
      found := key;
      var metrics;
      metrics, picks := ComputeRunMetrics(experiments[key].revisions, exec);
      res := Ok(metrics);
    }
  }
}
