/**
 * The entities of the chaos experiment service: manifests in their four kinds, the
 * experiment request that the API layer hands to the service, fault weights and errors.
 * Manifests are already decoded; a document the generic decoder cannot read is `Malformed`.
 */
module ExperimentModel {
  import opened Outcomes
  import opened Strconv

  type Labels = map<string, string>

  /** One entry of a weight table: the fault's name and its integer weight. */
  datatype Weightage = Weightage(faultName: string, weightage: Int64)

  /** The metadata every manifest kind shares: the `kind` and `name` fields and the root labels (a nil map is the empty map). */
  datatype Meta = Meta(kind: string, name: string, labels: Labels)

  /** An input artifact of a template; `raw` is None when the artifact has no raw data, otherwise the data string. */
  datatype Artifact = Artifact(raw: Option<string>)

  /** A workflow template: its input artifacts and its metadata labels. */
  datatype Template = Template(artifacts: seq<Artifact>, labels: Labels)

  /** The fields of an embedded chaos-engine document that the reconcilers read (experiments by name). */
  datatype EngineMeta = EngineMeta(kind: string, name: string, generateName: string, experiments: seq<string>)

  /**
   * The body shapes the four typed decoders read. `Other` is a document that decodes
   * generically but as none of the four types.
   */
  datatype Manifest =
    | Workflow(meta: Meta, templates: seq<Template>)
    | CronWorkflow(meta: Meta, workflowMetadata: Option<Labels>, templates: seq<Template>, schedule: string)
    | ChaosEngine(meta: Meta, experiments: seq<string>)
    | ChaosSchedule(meta: Meta, experiments: seq<string>)
    | Other(meta: Meta)

  /** A serialized manifest as it travels in requests and revisions. */
  datatype Document = Malformed | Parsed(manifest: Manifest)

  /** The experiment type recorded with an experiment. */
  datatype ExperimentType = NonCronExperiment | CronExperiment | ChaosEngineExperiment

  /** What the infrastructure lookup reports about the target agent. */
  datatype Infra = Infra(isActive: bool, projectId: string)

  /** The value of an experiment request (create or update) as the service sees it. */
  datatype RequestState = RequestState(
    experimentId: Option<string>,
    experimentName: string,
    description: string,
    tags: seq<string>,
    infraId: string,
    isCustom: bool,
    manifest: Document,
    weightages: seq<Weightage>,
    cronSyntax: string)

  /** The failures the service reports. */
  datatype Error =
    | InfraLookupFailed(cause: string)
    | InfraInactive
    | InfraProjectMismatch
    | ManifestUnreadable
    | NameMismatch(kind: string)
    | UnsupportedKind
    | ManifestDecodeFailed
    | EngineUnreadable
    | NoExperiments(engineName: string)
    | EmptyFaultName
    | WeightNotNumeric
    | DuplicateExperiment
    | Storage(cause: string)
    | ExperimentLookupFailed(cause: string)
}
