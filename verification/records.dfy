/**
 * The persisted shapes of the service: experiment records with their revision history,
 * experiment runs, and the notifications sent to the dispatch layer; with the pure
 * effects of each write the service performs on them.
 */
module Records {
  import opened Outcomes
  import opened Strconv
  import opened ExperimentModel

  /** Audit stamps of a record; times are Unix milliseconds. */
  datatype Audit = Audit(createdAt: int, updatedAt: int, createdBy: string, updatedBy: string, isRemoved: bool)

  /** One revision of an experiment: its manifest and weight table at one edit. */
  datatype Revision = Revision(revisionId: string, manifest: Document, updatedAt: int, weightages: seq<Weightage>)

  /** A stored experiment. `recentRunDetails` holds the identifiers of its recent runs. */
  datatype ExperimentRecord = ExperimentRecord(
    experimentId: string,
    projectId: string,
    experimentType: ExperimentType,
    cronSyntax: string,
    isCustom: bool,
    infraId: string,
    name: string,
    description: string,
    tags: seq<string>,
    audit: Audit,
    revisions: seq<Revision>,
    recentRunDetails: seq<string>)

  /** The fields a stored experiment is looked up by. */
  datatype ExperimentKey = ExperimentKey(experimentId: string, projectId: string)

  /** A stored experiment run, with the fields the service reads or writes. */
  datatype RunRecord = RunRecord(experimentId: string, projectId: string, isRemoved: bool, updatedAt: int, updatedBy: string)

  /** The request kinds sent to the dispatch layer. */
  datatype Intent = Create | Update | WorkflowDelete | WorkflowRunDelete

  /**
   * A message to the dispatch layer: intent, project, target infrastructure, acting user,
   * the referenced experiment or run, and the request it carries (None when it carries
   * only the infrastructure).
   */
  datatype Notification = Notification(intent: Intent, projectId: string, infraId: string, username: string,
                                       reference: Option<string>, request: Option<RequestState>)

  /** The key a record is stored under. */
  function KeyOf(r: ExperimentRecord): ExperimentKey {
    ExperimentKey(r.experimentId, r.projectId)
  }

  /** A well-formed stored experiment: it has at least one revision. */
  predicate ValidRecord(r: ExperimentRecord) {
    |r.revisions| > 0
  }

  /** A well-formed store: every record is stored under its own key and is well-formed. */
  predicate ValidStore(store: map<ExperimentKey, ExperimentRecord>) {
    forall k | k in store :: KeyOf(store[k]) == k && ValidRecord(store[k])
  }

  /** The record a creation stores: one revision, fresh audit stamps and no runs. */
  function NewRecord(s: RequestState, projectId: string, experimentType: ExperimentType, revisionId: string,
                     username: string, now: int): (r: ExperimentRecord)
    requires s.experimentId.Some?
    ensures ValidRecord(r) && KeyOf(r) == ExperimentKey(s.experimentId.value, projectId)
    ensures r.revisions == [Revision(revisionId, s.manifest, now, s.weightages)]
    ensures r.audit.createdAt == r.audit.updatedAt == now && !r.audit.isRemoved
    ensures r.audit.createdBy == r.audit.updatedBy == username
    ensures r.recentRunDetails == []
    ensures r.name == s.experimentName && r.description == s.description && r.tags == s.tags
    ensures r.infraId == s.infraId && r.isCustom == s.isCustom && r.cronSyntax == s.cronSyntax
    ensures r.experimentType == experimentType
  {
    ExperimentRecord(s.experimentId.value, projectId, experimentType, s.cronSyntax, s.isCustom, s.infraId,
                     s.experimentName, s.description, s.tags, Audit(now, now, username, username, false),
                     [Revision(revisionId, s.manifest, now, s.weightages)], [])
  }

  /** A normal update: the descriptive fields are overwritten and the revision is appended. */
  function RecordUpdated(r: ExperimentRecord, s: RequestState, experimentType: ExperimentType, revision: Revision,
                         username: string, now: int): (u: ExperimentRecord)
    ensures KeyOf(u) == KeyOf(r)
    ensures u.revisions == r.revisions + [revision] && u.recentRunDetails == r.recentRunDetails
    ensures u.audit == r.audit.(updatedAt := now, updatedBy := username)
    ensures u.name == s.experimentName && u.description == s.description && u.tags == s.tags
    ensures u.infraId == s.infraId && u.isCustom == s.isCustom && u.cronSyntax == s.cronSyntax
    ensures u.experimentType == experimentType
  {
    r.(experimentType := experimentType, cronSyntax := s.cronSyntax, name := s.experimentName, tags := s.tags,
       infraId := s.infraId, description := s.description, isCustom := s.isCustom,
       audit := r.audit.(updatedAt := now, updatedBy := username), revisions := r.revisions + [revision])
  }

  /** The position of the first revision with identifier `id`, or `|revs|` when there is none. */
  function FirstRevision(revs: seq<Revision>, id: string): (i: nat)
    ensures i <= |revs|
    ensures i < |revs| ==> revs[i].revisionId == id
    ensures forall j | 0 <= j < i :: revs[j].revisionId != id
  {
    if revs == [] then 0
    else if revs[0].revisionId == id then 0
    else 1 + FirstRevision(revs[1..], id)
  }

  /**
   * The positional update of a revision: the first revision with identifier `id` gets the
   * manifest and time; every other revision, and the count and order, stay.
   */
  function PatchedRevisions(revs: seq<Revision>, id: string, manifest: Document, now: int): (r: seq<Revision>)
    ensures |r| == |revs|
    ensures forall j | 0 <= j < |revs| && j != FirstRevision(revs, id) :: r[j] == revs[j]
    ensures FirstRevision(revs, id) < |revs| ==>
      r[FirstRevision(revs, id)] == revs[FirstRevision(revs, id)].(manifest := manifest, updatedAt := now)
  {
    if revs == [] then []
    else if revs[0].revisionId == id then [revs[0].(manifest := manifest, updatedAt := now)] + revs[1..]
    else [revs[0]] + PatchedRevisions(revs[1..], id, manifest, now)
  }

  /** The update of the enable/disable path on a record that holds revision `id`. */
  function RevisionPatched(r: ExperimentRecord, id: string, manifest: Document, username: string, now: int): (u: ExperimentRecord)
    ensures KeyOf(u) == KeyOf(r) && (ValidRecord(r) ==> ValidRecord(u))
    ensures |u.revisions| == |r.revisions|
    ensures forall j | 0 <= j < |r.revisions| :: u.revisions[j].revisionId == r.revisions[j].revisionId
    ensures u.audit == r.audit.(updatedAt := now, updatedBy := username)
    ensures u.revisions == PatchedRevisions(r.revisions, id, manifest, now)
    ensures u.(audit := r.audit, revisions := r.revisions) == r
  {
    r.(audit := r.audit.(updatedAt := now, updatedBy := username), revisions := PatchedRevisions(r.revisions, id, manifest, now))
  }

  /** The soft delete of a record: removed, with the deleting user and time. */
  function SoftDeleted(r: ExperimentRecord, username: string, now: int): (u: ExperimentRecord)
    ensures u.audit.isRemoved && u.audit.updatedBy == username && u.audit.updatedAt == now
    ensures u.audit.createdAt == r.audit.createdAt && u.audit.createdBy == r.audit.createdBy
    ensures u.(audit := r.audit) == r
  {
    r.(audit := r.audit.(isRemoved := true, updatedBy := username, updatedAt := now))
  }

  /** The soft delete of every run of experiment `experimentId`; other runs stay. */
  function RunsSoftDeleted(runs: map<string, RunRecord>, experimentId: string, username: string, now: int)
    : (r: map<string, RunRecord>)
    ensures r.Keys == runs.Keys
    ensures forall k | k in runs && runs[k].experimentId == experimentId ::
      r[k] == runs[k].(isRemoved := true, updatedBy := username, updatedAt := now)
    ensures forall k | k in runs && runs[k].experimentId != experimentId :: r[k] == runs[k]
  {
    map k | k in runs :: if runs[k].experimentId == experimentId
                         then runs[k].(isRemoved := true, updatedBy := username, updatedAt := now)
                         else runs[k]
  }

  /** The failures that can stop the delete transaction, at each step in order; and the abort. */
  datatype TxnFaults = TxnFaults(
    startSession: Option<string>,
    startTransaction: Option<string>,
    experimentWrite: Option<string>,
    runsWrite: Option<string>,
    commit: Option<string>,
    abort: Option<string>)

  /**
   * What the delete reports: the session failure as is; otherwise the first failure inside
   * the transaction (start, experiment write, runs write, commit, in that order), unless the
   * abort that follows it fails too, whose error then wins.
   */
  function DeleteError(f: TxnFaults): (e: Option<Error>)
    ensures f.startSession.Some? ==> e == Some(Storage(f.startSession.value))
    ensures e.None? <==>
      (f.startSession.None? && f.startTransaction.None? && f.experimentWrite.None? &&
       f.runsWrite.None? && f.commit.None?)
    ensures (f.startSession.None? && f.abort.Some? &&
             (f.startTransaction.Some? || f.experimentWrite.Some? || f.runsWrite.Some? || f.commit.Some?))
      ==> e == Some(Storage(f.abort.value))
    ensures f.startSession.None? && f.abort.None? ==>
      e == (if f.startTransaction.Some? then Some(Storage(f.startTransaction.value))
            else if f.experimentWrite.Some? then Some(Storage(f.experimentWrite.value))
            else if f.runsWrite.Some? then Some(Storage(f.runsWrite.value))
            else if f.commit.Some? then Some(Storage(f.commit.value))
            else None)
  {
    if f.startSession.Some? then Some(Storage(f.startSession.value))
    else
      var inner :=
        if f.startTransaction.Some? then f.startTransaction
        else if f.experimentWrite.Some? then f.experimentWrite
        else if f.runsWrite.Some? then f.runsWrite
        else f.commit;
      if inner.None? then None
      else if f.abort.Some? then Some(Storage(f.abort.value))
      else Some(Storage(inner.value))
  }

  /** Patching a revision that is not there changes nothing. */
  lemma {:induction false} PatchedRevisionsAbsent(revs: seq<Revision>, id: string, manifest: Document, now: int)
    requires forall j | 0 <= j < |revs| :: revs[j].revisionId != id
    ensures PatchedRevisions(revs, id, manifest, now) == revs
  {
    if revs != [] {
      PatchedRevisionsAbsent(revs[1..], id, manifest, now);
    }
  }
}
