# Chaos experiment service — a verified model

This project models the chaos experiment service of the Litmus ChaosCenter GraphQL server
(`chaoscenter/graphql/server/pkg/chaos_experiment/service.go`) in Dafny and proves properties of it.
The service does the following:

- **ProcessExperiment.** It admits an experiment request: it checks the target chaos infrastructure (it must exist, be active and belong to the caller's project), assigns an experiment identifier, checks the manifest name and dispatches on the lower-cased manifest kind.
- **The four reconcilers.** The workflow, cron workflow, chaos engine and chaos schedule reconcilers rewrite the request in place. They stamp identity labels (`workflow_id`, `infra_id`, `revision_id`, and either `workflows.argoproj.io/controller-instanceid` or `type = standalone_workflow`). They discover the faults the manifest runs and apply the three-way weight rule: a declared weight wins, else an existing `weight` label is read, else the default 10 is used. Inferred weights are appended to the request.
- **Persistence.** It stores new experiments with one revision. An update appends a revision, or on the enable/disable path patches an existing revision in place. It soft-deletes an experiment and all its runs in one transaction, and soft-deletes single runs. Each of these notifies the dispatch layer.
- **Scoring.** It scores a completed run: the weight table of the executed revision, the fault each chaos-engine node stands for (a weight key contained in the engine name), the weighted probe sum and the verdict counters.

Module layout, following the program:

| file | module | contents |
|---|---|---|
| `outcomes.dfy` | `Outcomes` | `Option`, `Result` |
| `gostrings.dfy` | `GoStrings` | `strings.Contains`, `ToLower` (ASCII), `ReplaceAll(_, pat, "")` |
| `strconv.dfy` | `Strconv` | `Itoa`, `Atoi` over 64-bit `int`, with their round trip, and the value `Atoi` returns with an error |
| `model.dfy` | `ExperimentModel` | manifests, requests, errors |
| `weights.dfy` | `Weights` | the weight map built from a weightage list (last entry wins) |
| `reconcile.dfy` | `Reconcile` | the reconcilers and `ProcessExperiment` as functions (the specification) |
| `reconcile_properties.dfy` | `ReconcileProperties` | what the reconcilers guarantee |
| `requests.dfy` | `Requests` | the request object and the four reconcilers as in-place methods |
| `records.dfy` | `Records` | stored experiments, revisions, runs, notifications; the effect of each write |
| `scoring.dfy` | `Scoring` | the scoring loops and their properties |
| `service.dfy` | `Service` | the service class with its stores and the six operations |

The methods are proved against the functions. For example, `Service.ChaosExperimentService.ProcessExperiment` leaves the request in exactly the state `Reconcile.ExperimentProcessed` computes and returns the same result. The lemmas about `ExperimentProcessed` therefore hold for the method.

Modelling choices:

- **Manifests** are already-decoded values (`Manifest`). A document the generic decoder cannot read is `Malformed`. The Go typed decoders ignore fields their struct does not have. So a document whose kind selects a decoder is represented by that kind's own shape, with the parts it lacks left empty. For example, `kind: Workflow` with an engine-shaped body is a `Workflow` with no templates, and `kind: ChaosEngine` with a workflow body is a `ChaosEngine` with no experiments, which fails with `NoExperiments`. `Other`, and a variant that does not fit the selected kind, stand only for a typed decode that really fails, such as a field of the wrong JSON type (`ManifestDecodeFailed`).
- **Embedded chaos-engine documents** inside template artifacts stay strings. The `{{`/`}}` stripping is modelled exactly. The YAML decoder is a parameter `decode`.
- **Outside inputs** are parameters. These are the fresh identifier, the current time (one `now` per operation), whether a dispatch channel is present, and the failures of the storage layer (`Option<string>` causes, `TxnFaults` for the delete transaction).
- **Notifications** are kept in a ghost log.
- **Map iteration order.** The order in which the scorer walks the weight map is unspecified. So the key a node's engine name is matched to is a choice among the matching keys (`Scoring.PickFault`). The scorer returns its picks as a ghost output.

Two facts about the code that the model keeps:

- A revision's weight table can name a fault twice. The reconcilers append one inferred entry per template that runs an undeclared fault, and two templates can run the same fault. The weight map then keeps the last entry. `ReconcileProperties.ProcessedWeights` states the list exactly.
- The chaos schedule reconciler's "no experiments" message reads "chaos engine" where the engine reconciler's reads "chaosengine". Both are `NoExperiments(name)` here, because error texts are not modelled.

## Model

| member | source | states |
|---|---|---|
| GoStrings.Contains | chaoscenter/graphql/server/pkg/chaos_experiment/service.go:398 | `strings.Contains`: the empty pattern is contained in every string, and a contained pattern is never longer than the string |
| GoStrings.ContainsAt | chaoscenter/graphql/server/pkg/chaos_experiment/service.go:398 | the recursive `strings.Contains` holds exactly when the pattern occurs at some position of the string |
| GoStrings.ToLower | chaoscenter/graphql/server/pkg/chaos_experiment/service.go:105 | lower-casing keeps the length and leaves no ASCII capital. Each ASCII capital becomes its own lower-case letter, and every other character stays |
| GoStrings.RemoveAll | chaoscenter/graphql/server/pkg/chaos_experiment/service.go:467-468 | removing every occurrence of a pattern never lengthens the data |
| GoStrings.RemoveAllAbsent | chaoscenter/graphql/server/pkg/chaos_experiment/service.go:467-468 | data without the pattern is unchanged by the removal |
| GoStrings.RemoveAllShrinks | chaoscenter/graphql/server/pkg/chaos_experiment/service.go:467-468 | data containing the pattern loses at least one occurrence |
| GoStrings.StripTemplateDelimiters | chaoscenter/graphql/server/pkg/chaos_experiment/service.go:467-468 | removing `{{` then `}}` never lengthens the embedded document |
| GoStrings.StripWithoutDelimiters | chaoscenter/graphql/server/pkg/chaos_experiment/service.go:465-469 | an embedded engine document without `{{` or `}}` reaches the decoder unchanged |
| Strconv.ParseDecimal | chaoscenter/graphql/server/pkg/chaos_experiment/service.go:492-495 | the syntax Atoi accepts: exactly the texts whose part after one optional sign is non-empty and all digits. The value is that part's decimal value, negated after a minus, so "+5" is 5 and "-05" is -5 |
| Strconv.Atoi | chaoscenter/graphql/server/pkg/chaos_experiment/service.go:492-495 | a weight label parses exactly when it is an optional sign and digits whose value is in the 64-bit range, and then to that value |
| Strconv.Itoa | chaoscenter/graphql/server/pkg/chaos_experiment/service.go:489 | the rendering of a weight is non-empty, starts with a minus exactly for negative numbers, and is otherwise decimal digits |
| Strconv.AtoiValue | chaoscenter/graphql/server/pkg/chaos_experiment/service.go:405 | a probe percentage whose error is ignored reads as Atoi's value when Atoi succeeds, and as the nearest 64-bit bound for well-formed digits out of range. Digits already beyond the unsigned 64-bit range read as the bound of their sign, even when a non-digit follows, because Go's scan reports the range error first. Any other malformed text reads as 0 |
| Strconv.DigitPrefix | chaoscenter/graphql/server/pkg/chaos_experiment/service.go:405 | the scan reads the longest run of leading digits: all of a digit string, and up to the first non-digit otherwise |
| Strconv.OverflowIgnoresTail | chaoscenter/graphql/server/pkg/chaos_experiment/service.go:405 | digits whose value exceeds the unsigned 64-bit range read as the largest 64-bit integer, or the smallest after a minus, whatever text follows them |
| Strconv.OverflowExample | chaoscenter/graphql/server/pkg/chaos_experiment/service.go:405 | the digits of 2^64 followed by a letter read as the largest 64-bit integer, not as 0 |
| Strconv.DecimalRoundTrip | chaoscenter/graphql/server/pkg/chaos_experiment/service.go:489 | the decimal digits Itoa writes read back as the same natural number |
| Strconv.AtoiItoa | chaoscenter/graphql/server/pkg/chaos_experiment/service.go:487-495 | every 64-bit weight rendered by Itoa is parsed back to itself by Atoi, so a stamped weight label is always readable |
| Weights.WeightSum | chaoscenter/graphql/server/pkg/chaos_experiment/service.go:383 | the sum of a weight list is non-negative when every weight is |
| Weights.WeightMapOf | chaoscenter/graphql/server/pkg/chaos_experiment/service.go:85-89 | the last entry of the list always determines its name's weight |
| Weights.WeightMapKeys | chaoscenter/graphql/server/pkg/chaos_experiment/service.go:85-89 | the declared-weight map has exactly the fault names of the list as keys |
| Weights.WeightMapLastWins | chaoscenter/graphql/server/pkg/chaos_experiment/service.go:85-89 | a fault name maps to the weight of its last entry in the list |
| Weights.WeightMapAppendOthers | chaoscenter/graphql/server/pkg/chaos_experiment/service.go:515 | appending entries under other names leaves a name's presence and weight as they were |
| Weights.WeightMapAppendCovers | chaoscenter/graphql/server/pkg/chaos_experiment/service.go:515 | every appended name is a key of the map of the extended list |
| Weights.BuildWeightMap | chaoscenter/graphql/server/pkg/chaos_experiment/service.go:85-89 | the loop builds exactly the last-entry-wins map of the weightages |
| Reconcile.WorkflowIdentityLabels | chaoscenter/graphql/server/pkg/chaos_experiment/service.go:443-455 | the workflow root labels gain `workflow_id`, `infra_id`, controller instance id and `revision_id` with the request's identities, and every other label keeps its value, whether or not the map was nil |
| Reconcile.EngineIdentityLabels | chaoscenter/graphql/server/pkg/chaos_experiment/service.go:654-666 | the engine root labels gain `workflow_id`, `infra_id`, `type = standalone_workflow` and `revision_id`, and every other label keeps its value |
| Reconcile.TemplateFault | chaoscenter/graphql/server/pkg/chaos_experiment/service.go:457-486 | a template without artifacts, raw data or data runs no fault. Otherwise the stripped document is decoded: an undecodable one fails with EngineUnreadable, and a kind other than chaosengine runs no fault. A chaos engine without experiments fails with NoExperiments(its name), one with an empty GenerateName fails with EmptyFaultName, and otherwise the fault is its GenerateName |
| Reconcile.ReconciledTemplate | chaoscenter/graphql/server/pkg/chaos_experiment/service.go:457-512 | a template whose fault search fails yields that error, and one without a fault stays as it is with nothing inferred. A fault whose weight label is not a number fails with WeightNotNumeric. A reconciled template keeps its artifacts and infers at most one weight |
| Reconcile.ReconciledTemplates | chaoscenter/graphql/server/pkg/chaos_experiment/service.go:457-515 | a successful template loop keeps the template count and infers at most one weight per template |
| Reconcile.DiscoveredFaults | chaoscenter/graphql/server/pkg/chaos_experiment/service.go:457-486 | at most one fault is found per template, and every fault name found is non-empty |
| Reconcile.Undeclared | chaoscenter/graphql/server/pkg/chaos_experiment/service.go:487-509 | the faults that get an inferred weight are no more than the faults found, and none of them has a declared weight |
| Reconcile.ReconciledManifest | chaoscenter/graphql/server/pkg/chaos_experiment/service.go:432-761 | an unknown shape fails the decode. On success kind, name and shape are kept. A workflow or cron workflow fails with its template loop's error, and otherwise carries the loop's reconciled templates and infers exactly the loop's weights; a cron workflow keeps its schedule. An engine or schedule keeps its experiments. It fails with NoExperiments(its name) without experiments, and with EmptyFaultName when the first name is empty. Otherwise that experiment is its only fault, and the root weight rule on the identity-stamped labels decides the rest: its error (WeightNotNumeric) is the manifest's error, and on success its labels and inferred weights are the manifest's |
| Reconcile.ManifestFaults | chaoscenter/graphql/server/pkg/chaos_experiment/service.go:457-486 | the faults a manifest runs are all non-empty names: at most one per template for workflows (457-486), and at most the first experiment for engines and schedules (668-674) |
| Reconcile.Fits | chaoscenter/graphql/server/pkg/chaos_experiment/service.go:438-441 | no typed decoder reads a document of unknown shape; each kind's decoder reads its own shape only |
| Reconcile.KindOf | chaoscenter/graphql/server/pkg/chaos_experiment/service.go:105-141 | the switch on the lower-cased kind selects a reconciler exactly for the names workflow, cronworkflow, chaosengine and chaosschedule, and the selected kind carries that name |
| Reconcile.TypeOf | chaoscenter/graphql/server/pkg/chaos_experiment/service.go:78-132 | a workflow is recorded as a non-cron experiment and a cron workflow as a cron experiment. Engines and schedules, and only they, are recorded as chaos engine experiments |
| Reconcile.WithExperimentId | chaoscenter/graphql/server/pkg/chaos_experiment/service.go:91-93 | a missing or empty experiment identifier is replaced by the fresh one, a present one is kept, and nothing else changes |
| Reconcile.KindReconciled | chaoscenter/graphql/server/pkg/chaos_experiment/service.go:432-761 | a malformed manifest or one of another shape fails the typed decode. On success only the manifest, the weightages and the cron syntax change, and the old weightages are a prefix of the new |
| Reconcile.ExperimentProcessed | chaoscenter/graphql/server/pkg/chaos_experiment/service.go:63-145 | success requires an existing, active infrastructure of the caller's project, and leaves an identifier and the submitted name. Infra, description and tags never change |
| Reconcile.DefaultWeightParses | chaoscenter/graphql/server/pkg/chaos_experiment/service.go:496-507 | the default weight label "10" parses to the default weight 10 |
| Reconcile.WeighTemplate | chaoscenter/graphql/server/pkg/chaos_experiment/service.go:487-509 | weight rule for a template. It fails exactly when the fault is undeclared and its weight label is not a number. A declared fault gets labels `{weight: Itoa(w)}` and infers nothing. A labelled fault keeps its labels and infers its label's value. Otherwise the labels become `{weight: "10"}` and (name, 10) is inferred |
| Reconcile.WeighRoot | chaoscenter/graphql/server/pkg/chaos_experiment/service.go:675-692 | the same weight rule on root labels: it fails exactly when the fault is undeclared and has a weight label that is not a number. A declared fault's label is set to exactly Itoa(weight) and nothing is inferred. An existing readable label is kept and its value inferred. Otherwise the label becomes "10" and (name, 10) is inferred. Every other label stays |
| ReconcileProperties.UndeclaredMembers | chaoscenter/graphql/server/pkg/chaos_experiment/service.go:487-509 | a name is among the undeclared faults exactly when it is discovered and has no declared weight |
| ReconcileProperties.TemplateInferred | chaoscenter/graphql/server/pkg/chaos_experiment/service.go:457-509 | one template infers a weight only for its own undeclared fault, and its artifacts are unchanged |
| ReconcileProperties.TemplatesInferred | chaoscenter/graphql/server/pkg/chaos_experiment/service.go:457-515 | the template loop keeps the template count and infers exactly the undeclared discovered faults, in template order |
| ReconcileProperties.TemplatesPointwise | chaoscenter/graphql/server/pkg/chaos_experiment/service.go:457-512 | each output template is that template reconciled on its own, and every inferred weight it contributes is in the output |
| ReconcileProperties.TemplateWeightStamped | chaoscenter/graphql/server/pkg/chaos_experiment/service.go:487-509 | after a successful loop, a template whose fault is declared carries exactly the declared weight's label |
| ReconcileProperties.TemplatesErrorPersists | chaoscenter/graphql/server/pkg/chaos_experiment/service.go:471-495 | the first template that fails decides the error of the whole loop |
| ReconcileProperties.TemplateIdempotent | chaoscenter/graphql/server/pkg/chaos_experiment/service.go:457-509 | reconciling a reconciled template again leaves it unchanged and infers the same weights |
| ReconcileProperties.TemplatesIdempotent | chaoscenter/graphql/server/pkg/chaos_experiment/service.go:457-515 | reconciling a reconciled template list again leaves it unchanged and infers the same weights |
| ReconcileProperties.WorkflowIdentityFixed | chaoscenter/graphql/server/pkg/chaos_experiment/service.go:443-455 | stamping workflow identity labels on labels that already carry them changes nothing |
| ReconcileProperties.EngineIdentityFixed | chaoscenter/graphql/server/pkg/chaos_experiment/service.go:713-725 | stamping engine identity labels on labels that already carry them changes nothing |
| ReconcileProperties.RootWeightIdempotent | chaoscenter/graphql/server/pkg/chaos_experiment/service.go:735-752 | applying the root weight rule to its own output keeps the labels and infers the same weights |
| ReconcileProperties.WorkflowIdempotent | chaoscenter/graphql/server/pkg/chaos_experiment/service.go:432-523 | re-running the workflow reconciler on its output with the same weights and identities is the identity on the manifest |
| ReconcileProperties.CronWorkflowIdempotent | chaoscenter/graphql/server/pkg/chaos_experiment/service.go:525-641 | the same for cron workflows, including the workflow metadata labels |
| ReconcileProperties.ManifestIdempotent | chaoscenter/graphql/server/pkg/chaos_experiment/service.go:432-761 | for all four kinds, reconciling a reconciled manifest again leaves it unchanged and infers the same weights |
| ReconcileProperties.ManifestInferred | chaoscenter/graphql/server/pkg/chaos_experiment/service.go:515 | a reconciled manifest infers exactly its undeclared faults, in manifest order |
| ReconcileProperties.ProcessedClassification | chaoscenter/graphql/server/pkg/chaos_experiment/service.go:65-144 | each failed check (infra lookup, inactive, other project, unreadable manifest, name mismatch, unsupported kind) returns its own error. Success implies every check passed. The type is NonCron for `workflow`, Cron for `cronworkflow`, and ChaosEngine for `chaosengine` and `chaosschedule` |
| ReconcileProperties.InferredAreUndeclared | chaoscenter/graphql/server/pkg/chaos_experiment/service.go:487-509 | every inferred entry names a discovered fault without a declared weight |
| ReconcileProperties.ProcessedWeights | chaoscenter/graphql/server/pkg/chaos_experiment/service.go:85-89 | on success the weightages are the submitted ones followed by one entry per undeclared fault, in order. Every fault of the manifest then has a weight, and every declared weight is unchanged |
| ReconcileProperties.ProcessedIdentifier | chaoscenter/graphql/server/pkg/chaos_experiment/service.go:91-93 | once the infra checks pass, a missing or empty identifier is replaced by the fresh one, even when a later check fails. Name, description, tags, infra and custom flag never change |
| ReconcileProperties.ProcessedLabels | chaoscenter/graphql/server/pkg/chaos_experiment/service.go:536-573 | on success the root labels carry the experiment, infra and revision identities. Workflow kinds get the controller instance label; engine kinds get `type` and a readable weight. Other labels are kept. For cron, the workflow metadata gets the same labels and the cron syntax becomes the schedule |
| ReconcileProperties.AppendedWeights | chaoscenter/graphql/server/pkg/chaos_experiment/service.go:85-89 | appending one entry per undeclared fault gives every fault a weight and keeps every declared weight |
| ReconcileProperties.ManifestLabels | chaoscenter/graphql/server/pkg/chaos_experiment/service.go:443-455 | a reconciled manifest keeps its kind and name, carries its kind's identity labels (and a readable weight for engines and schedules), and keeps every other label |
| ReconcileProperties.KindIdempotent | chaoscenter/graphql/server/pkg/chaos_experiment/service.go:432-761 | running a reconciler again on the request it produced keeps the request and appends the inferred weights once more |
| ReconcileProperties.ProcessedIdempotent | chaoscenter/graphql/server/pkg/chaos_experiment/service.go:105-144 | reconciling the output of ProcessExperiment again with the same declared weights and identities changes no label and infers the same weights again |
| Requests.ReconcileTemplate | chaoscenter/graphql/server/pkg/chaos_experiment/service.go:458-511 | the loop body computes exactly the specified reconciliation of one template |
| Requests.ReconcileTemplates | chaoscenter/graphql/server/pkg/chaos_experiment/service.go:457-515 | the in-place template loop computes exactly the specified templates and inferred weights, or the first failure |
| Requests.WeighRootLabels | chaoscenter/graphql/server/pkg/chaos_experiment/service.go:675-692 | the engine weight branches compute exactly the specified root weight rule |
| Requests.ProcessExperimentManifest | chaoscenter/graphql/server/pkg/chaos_experiment/service.go:432-523 | the workflow reconciler leaves the request in the specified state, or returns the specified error and leaves the request unchanged |
| Requests.ProcessCronExperimentManifest | chaoscenter/graphql/server/pkg/chaos_experiment/service.go:525-641 | the same for cron workflows, including the workflow metadata and the cron syntax |
| Requests.ReconcileEngineRoot | chaoscenter/graphql/server/pkg/chaos_experiment/service.go:654-693 | the shared body of the engine and schedule reconcilers computes exactly the specified reconciled manifest and inferred weights, or the first failure |
| Requests.ProcessChaosEngineManifest | chaoscenter/graphql/server/pkg/chaos_experiment/service.go:643-701 | the same for chaos engines: the first experiment names the fault and an empty list or name fails |
| Requests.ProcessChaosScheduleManifest | chaoscenter/graphql/server/pkg/chaos_experiment/service.go:703-761 | the same for chaos schedules, reading the engine template's first experiment |
| Records.NewRecord | chaoscenter/graphql/server/pkg/chaos_experiment/service.go:163-193 | a created record has exactly one revision with the given id, manifest and weightages. It is not removed, has createdAt = updatedAt = now and createdBy = updatedBy = username, no run details, and the request's descriptive fields |
| Records.RecordUpdated | chaoscenter/graphql/server/pkg/chaos_experiment/service.go:222-249 | a normal update appends exactly one revision after the existing ones, overwrites the descriptive fields and the update stamps, and keeps the key |
| Records.FirstRevision | chaoscenter/graphql/server/pkg/chaos_experiment/service.go:252-265 | the position the positional operator selects is the first revision with the id, or none |
| Records.PatchedRevisions | chaoscenter/graphql/server/pkg/chaos_experiment/service.go:258-264 | the positional update changes only the manifest and time of the first matching revision and keeps the count and every other revision |
| Records.PatchedRevisionsAbsent | chaoscenter/graphql/server/pkg/chaos_experiment/service.go:253-257 | a revision id that is not in the history changes nothing |
| Records.RevisionPatched | chaoscenter/graphql/server/pkg/chaos_experiment/service.go:252-265 | the enable/disable update stamps the update time and user, replaces the revisions by their positional patch, and leaves every other field of the record as it was |
| Records.SoftDeleted | chaoscenter/graphql/server/pkg/chaos_experiment/service.go:303-309 | a deleted experiment is marked removed with the user and time, and nothing else about it changes |
| Records.RunsSoftDeleted | chaoscenter/graphql/server/pkg/chaos_experiment/service.go:316 | every run of the experiment is marked removed with the user and time, and every other run is unchanged |
| Records.DeleteError | chaoscenter/graphql/server/pkg/chaos_experiment/service.go:292-331 | the delete succeeds exactly when no step fails. A session failure is reported as is. Otherwise, when the abort succeeds, the error is the first failing step's among start, experiment write, runs write and commit; when the abort fails, its own error wins |
| Scoring.MatchingWeightages | chaoscenter/graphql/server/pkg/chaos_experiment/service.go:378-379 | the weightages read are exactly the entries of the revisions whose identifier is the run's, in both directions |
| Scoring.Counted | chaoscenter/graphql/server/pkg/chaos_experiment/service.go:391-395 | a node takes part in the score exactly when its type is ChaosEngine and it carries chaos data; every other node is skipped |
| Scoring.ValidPick | chaoscenter/graphql/server/pkg/chaos_experiment/service.go:397-401 | a key the scan can settle on for an engine name: a weight key the name contains, or the empty name exactly when the name contains no key |
| Scoring.VerdictCountPositions | chaoscenter/graphql/server/pkg/chaos_experiment/service.go:408-422 | the number of nodes a verdict counter counts is the number of positions holding a counted node with that verdict |
| Scoring.Step | chaoscenter/graphql/server/pkg/chaos_experiment/service.go:390-423 | a node that is not a chaos engine with data changes nothing. A counted node adds its contribution to the weighted sum and raises the counter of its verdict: Pass, Fail, Awaited, Stopped, or not-applicable for "N/A" and the empty verdict. Any other verdict raises no counter |
| Scoring.Tallied | chaoscenter/graphql/server/pkg/chaos_experiment/service.go:390-423 | each verdict counter of a run is the number of counted nodes with that verdict, the weighted sum is the sum of the counted nodes' contributions, and the counters together never exceed the counted nodes |
| Scoring.Metrics | chaoscenter/graphql/server/pkg/chaos_experiment/service.go:368-429 | the experiment count is the number of distinct fault names in the revision's weightages, and each verdict counter is the number of counted nodes with that verdict. The run is scored exactly when its weights do not sum to zero, as the counted nodes' summed contributions over that sum |
| Scoring.Contribution | chaoscenter/graphql/server/pkg/chaos_experiment/service.go:402-407 | an unmatched node adds 0. A matched node adds its weight times its probe percentage as Atoi reads it, or times the 64-bit bound of its sign when the digits overflow. A malformed percentage whose digits do not overflow adds 0 |
| Scoring.PickFault | chaoscenter/graphql/server/pkg/chaos_experiment/service.go:397-401 | the key scan settles on a weight key contained in the engine name, or on the empty name when none is contained |
| Scoring.AccumulateWeights | chaoscenter/graphql/server/pkg/chaos_experiment/service.go:380-383 | the inner loop extends the weight map and the weight sum by one revision's weightages |
| Scoring.ReadRevisionWeights | chaoscenter/graphql/server/pkg/chaos_experiment/service.go:378-386 | the map and the sum are those of the weightages of every revision with the run's revision id |
| Scoring.CountNode | chaoscenter/graphql/server/pkg/chaos_experiment/service.go:390-423 | one node moves the counters by the specified step; only an engine node with chaos data is counted |
| Scoring.ComputeRunMetrics | chaoscenter/graphql/server/pkg/chaos_experiment/service.go:368-429 | the metrics are those of the specification for the picks made, and every pick is valid. Whatever the picks, the experiment count is the number of distinct faults of the run's revision, the verdict counters sum to at most the counted nodes, and the run is scored exactly when its weight sum is not zero |
| Scoring.UnknownRevisionScoresZero | chaoscenter/graphql/server/pkg/chaos_experiment/service.go:378-388 | a run of an unknown revision is not an error: zero experiments, a zero weighted sum and no score |
| Scoring.ScoreNonNegative | chaoscenter/graphql/server/pkg/chaos_experiment/service.go:402-407 | with non-negative weights and percentages the weighted sum is non-negative |
| Scoring.WeightedSumNonNegative | chaoscenter/graphql/server/pkg/chaos_experiment/service.go:402-407 | the induction behind ScoreNonNegative: the summed contributions are non-negative under the same conditions |
| Scoring.SubstringAmbiguity | chaoscenter/graphql/server/pkg/chaos_experiment/service.go:397-401 | when two keys are contained in an engine name, both are valid picks with different contributions, so the score depends on map iteration order |
| Scoring.ScoreExample | chaoscenter/graphql/server/pkg/chaos_experiment/service.go:368-429 | weights 10 and 30 with probe results 100% and 0% give 2 experiments, one pass, one fail and the score 1000/40, whatever the key order |
| Service.StoreUpdated | chaoscenter/graphql/server/pkg/chaos_experiment/service.go:222-267 | an update changes at most the record of the request's key and never adds or removes a key |
| Service.StoreUpdatedValid | chaoscenter/graphql/server/pkg/chaos_experiment/service.go:222-267 | updates keep every record under its key with at least one revision |
| Service.UpdateHistory | chaoscenter/graphql/server/pkg/chaos_experiment/service.go:222-265 | a normal update appends exactly one revision at the end. The enable/disable path keeps the count, the order, the ids and the weight tables, changes at most the first matching revision, and changes nothing without one |
| Service.ChaosExperimentService.InfraLookup | chaoscenter/graphql/server/pkg/chaos_experiment/service.go:65-68 | the lookup fails with the store's error, or when the infrastructure is unknown, and otherwise returns the stored infrastructure |
| Service.ChaosExperimentService.ProcessExperiment | chaoscenter/graphql/server/pkg/chaos_experiment/service.go:63-145 | the method leaves the request in exactly the state ExperimentProcessed specifies and returns the same result |
| Service.ChaosExperimentService.ProcessExperimentCreation | chaoscenter/graphql/server/pkg/chaos_experiment/service.go:147-203 | creation succeeds exactly when the insert does not fail and the key is new. It then stores the new record and notifies only when dispatching; otherwise nothing changes and nothing is sent |
| Service.ChaosExperimentService.ProcessExperimentUpdate | chaoscenter/graphql/server/pkg/chaos_experiment/service.go:205-281 | a failed write changes nothing. Otherwise the store becomes StoreUpdated. An unreadable manifest is then reported with no notification, and a readable one is followed by the "update" notification when dispatching |
| Service.ChaosExperimentService.ProcessExperimentDelete | chaoscenter/graphql/server/pkg/chaos_experiment/service.go:283-341 | the error is DeleteError of the faults. On success the experiment and all its runs are soft-deleted and then the "workflow_delete" notification is sent; on any failure neither store changes and nothing is sent |
| Service.ChaosExperimentService.ProcessExperimentRunDelete | chaoscenter/graphql/server/pkg/chaos_experiment/service.go:343-364 | the run's removed flag becomes the supplied one with the user and time, or nothing changes when the write fails; experiments never change |
| Service.ChaosExperimentService.ProcessCompletedExperimentRun | chaoscenter/graphql/server/pkg/chaos_experiment/service.go:366-430 | only the experiment lookup fails (its error, or no document). Otherwise the metrics are those of a record with that id, for valid picks |

## Left out

- JSON and YAML decoding and encoding, including the encoding errors after a reconciler's rewrite (`json.Marshal` cannot fail on these types): manifests are decoded values and the engine decoder is a parameter.
- `strings.ToLower` folds only ASCII letters here; Go also folds non-ASCII letters (such as the Kelvin sign to `k`), which can make a non-ASCII kind match.
- `time.Now` is one `now` per operation; the code reads the clock several times in one update.
- The unused `runID` argument of `ProcessCompletedExperimentRun`.
- MongoDB sessions, read and write concerns, and `EndSession`, which the code skips on the error path. The delete transaction is modelled as writes to a copy of both stores that replace them on commit.
- The delete's experiment query is an opaque filter supplied by the caller. It is modelled as an `ExperimentKey` that matches at most one record. The run delete's query is modelled as a run identifier.
- Service.ChaosExperimentService.ProcessExperimentCreation: a duplicate identity is modelled as the store refusing a key it holds; the index that makes the store refuse it is not part of this model.
- ComputeRunMetrics: does not model 64-bit wrap-around of `weight * x` and of the two sums; they are unbounded integers here.
- Scoring.ComputeRunMetrics: the final float division and `utils.Truncate` are left out; the score is kept as the pair (weighted sum, weight sum).
- `chaos_infrastructure.SendExperimentToSubscriber` is recorded in a ghost notification log, not executed.
- `NewChaosExperimentService` wiring and `graph/resolver.go` (dependency injection and authentication) are not part of this model.
- Error messages are modelled as `Error` cases, not as their texts.
- Which JSON documents make a typed decoder fail is not modelled. The model starts from the shape a document decodes to, so the failing cases are only those represented by `Other` or a mismatched variant.
