# A model of jaeger-operator

jaeger-operator is a Kubernetes reconciler for Jaeger instances. This project models the parts of it whose
correctness spans many calls, and proves what they guarantee over every input, every order in which a Go map may be
ranged over, every failure of an API call and every interleaving with other writers.

- **Reconciliation** (`Diff`, `Inventories`, `Convergence`, `DeploymentLaws`, `OAuthProxy`, `SelectorLabels`,
  `Reconciler`, `DeploymentRuns`): the three-way diff between listed and desired objects, passes cut short at any
  write, self-stabilisation although every pass generates new proxy secrets, the order of an application of a
  strategy, and reconciliations interleaved with other writers under the API server's version check.
- **Ownership** (`Ownership`): several operators claiming one custom resource.
- **Sidecars** (`Tags`, `Sidecar`, `SidecarLaws`, `SidecarPrintings`, `InjectionLaws`, `LiveDeployment`,
  `Admission`, `AdmissionTwice`): injecting, re-injecting and cleaning the agent, and every run of webhook,
  auto-clean, revision bump and user edits.
- **Strategy** (`UiOptions`, `UiLaws`, `Strategy`, `Quiescence`): normalisation and Kafka provisioning as a fixed point, and
  whole reconciliations of the resource, strategy and upgrade together.
- **Upgrades** (`Upgrade`, `Migrations`, `MigrationLaws`, `StepLaws`, `MigrationReruns`, `AdminPort`): the version
  engine, the registered steps, what a whole upgrade keeps, and what an upgrade does that is repeated on its own
  result.
- **Values** (`Text`, `Options`, `OptionLaws`, `CommonSpec`, `MergeLaws`, `Arguments`, `ReadBack`, `Names`,
  `TlsDefaults`): options, merging, names, arguments, and the defaulter with its validator.

Conventions. A string is a sequence of characters, one per byte. A loop over a Go map picks its next key with `:|`, so
its contract holds for every order. How the calls of a reconciliation end is a parameter (`Answers`), so contracts say
exactly when it succeeds and what was called; in the systems of several writers it is a nondeterministic choice. A
failed write may still have taken effect. Code that updates state is a method or a class, proved equal to a
value-level function; the laws are lemmas about those functions. What an operation answers is also said a second
time, from the fields of what it is given and without those functions, by predicates named like `ForFits`, `HandleFits`
or `MergedFits`. None or an error constructor stands for an error return and, where said, for a panic.

Where code and comments of the repository disagree, the code is modelled: `Truncate` is announced to leave the input
alone when its fixed part is too long, but takes a hard cap (`Names.TruncatedBounds`); `Merge` never copies the
liveness probe, so merging drops it (`CommonSpec.Merge`).

Properties that turned out to hold only under a condition are stated with it, both ways:
`Options.ReparseIdentityIff`, `Tags.TagsRoundTrip`, `Names.ServiceNameIsLabel`, `CommonSpec.MergeAgainIff`,
`SidecarLaws.VolumesRestoredIff`, `SidecarPrintings.InjectionIdempotentIff`, `AdmissionTwice.HandledTwiceIff`,
`Admission.AutoCleanSparesLiveIff`, `MigrationLaws.RegisteredStep118TwiceIff`,
`MigrationReruns.RegisteredTornPatchIff`, `AdminPort.AdminPortSurvivesIff`, `ReadBack.PortReadIff`,
`TlsDefaults.OwnKeyIff`, `Quiescence.QuiescentIff`, `Convergence.PassReachesTarget`, `DeploymentLaws.CreatedSettlesIff`,
`DeploymentLaws.UpdatedSettlesIff`, `OAuthProxy.GeneratedTidyIff`, `SelectorLabels.FoundIff`. Failing inputs are
`DeploymentLaws.CookieFileIsOverwritten`, `AdminPort.TornPatchLosesAdminPort`, `Quiescence.OldTlsFlagUnsettles`,
`SidecarPrintings.LookalikeShows`, `AdmissionTwice.AgentConfigIsLost`, `Admission.LongNameIsCleaned`,
`TlsDefaults.CertificatePathMisleads`, `Ownership.BlindWritesShareOwnership` and
`Ownership.RelabelledIsClaimedAgain`.

## Model

| member | source | states |
|---|---|---|
| `Diff.MapOf` | pkg/inventory/deployment.go:68-74 | the map of a list, the last object of a key winning |
| `Diff.ListOf` | pkg/inventory/deployment.go:76-82 | lists every object of the map once, in any range order |
| `Diff.ProgressUpdate` | pkg/inventory/deployment.go:25-59 | one round of the deleting loop: a key in both maps moves to the updates and leaves the other two |
| `Diff.ProgressEnd` | pkg/inventory/deployment.go:61-65 | at the end the two maps hold what is only desired and what only exists |
| `Inventories.ForDeployments` | pkg/inventory/deployment.go:20-66 | for every range order: creates exactly what is only desired, deletes exactly what only exists, and updates each common key so that the desired replica count (or else the existing one), the existing selector, the desired rest of the specification and owners, the entries of both label and annotation maps with the desired ones winning, and the desired containers but for their cookies are what is written |
| `Inventories.MergeFits` | pkg/inventory/deployment.go:27-55 | the same of one merge, field by field, the stored cookie standing for every cookie-like argument of a proxy |
| `Inventories.InventorySays` | pkg/inventory/deployment.go:20-66 | of any kind of objects: an inventory is these creates, updates and deletes, read off the two lists |
| `Inventories.PropagateOAuthCookieSecret` | pkg/inject/oauth_proxy.go:113-132 | the cookie of the first proxy container replaces every cookie-like argument of every desired proxy container |
| `Inventories.Overwrite` | pkg/inventory/deployment.go:47-53 | entry-by-entry overwriting is the union with the desired entries winning |
| `Inventories.DeploymentKeyInjective` | pkg/inventory/deployment.go:71 | for namespaces without a dot, two deployments share a key exactly when namespace and name agree |
| `Inventories.ForServices` | pkg/inventory/service.go:19-59 | the same partition for services; an update takes the desired specification, labels, annotations and owners and keeps an assigned cluster address |
| `Arguments.ReplaceArgument` | pkg/util/util.go:222-231 | in place, every argument with the prefix and no other becomes the new value; the count is positive exactly when there was one |
| `Convergence.ExecCreates` | pkg/controller/jaeger/deployment.go:47-57 | creating absent objects in any order adds exactly them |
| `Convergence.ExecCreatesBlocked` | pkg/controller/jaeger/deployment.go:54-56 | a create of something that exists makes the whole batch fail |
| `Convergence.PassReachesTarget` | pkg/controller/jaeger/deployment.go:46-96 | all writes of a pass are accepted if and only if what exists at a desired key is visible to the List, and then lead to the desired objects merged with what was there |
| `Convergence.TargetIsDesired` | pkg/controller/jaeger/deployment.go:30-46 | at that goal exactly the desired keys are selected and foreign objects are untouched |
| `Convergence.PassAtRest` | pkg/controller/jaeger/deployment.go:42-96 | once merging changes nothing, a pass plans no create, no delete and only identity updates |
| `Convergence.AbortedPass` | pkg/controller/jaeger/deployment.go:47-94 | a pass cut short after any write keeps what exists at any key visible and never touches an object the List does not show |
| `Convergence.PassesKeep` | pkg/controller/jaeger/deployment.go:25-97 | so does any sequence of such passes, each for its own desired objects |
| `Convergence.UnlistedStay` | pkg/controller/jaeger/deployment.go:30-57 | objects the List does not show stay as they are over any sequence of passes, even for desired objects it would not show either |
| `Convergence.SelfStabilising` | pkg/controller/jaeger/deployment.go:25-97 | after any number of aborted passes one pass without failures gets through if and only if the desired keys were visible at the start, and then exactly the desired keys are selected |
| `DeploymentLaws.DeploymentsReachGoal` | pkg/controller/jaeger/deployment.go:25-97 | the goal of that pass, field by field: every desired deployment exists, as desired if it did not exist and else with the desired values over what existed; what is selected otherwise is gone, and the rest stays |
| `DeploymentLaws.ServicesReachGoal` | pkg/controller/jaeger/service.go:15-70 | the same for services |
| `DeploymentLaws.DeploymentsLawful` | pkg/inventory/deployment.go:37-53 | merging deployments keeps key, namespace and selector labels, as Convergence asks |
| `DeploymentLaws.ServicesLawful` | pkg/inventory/service.go:34-47 | the same for services |
| `DeploymentLaws.CookieKept` | pkg/inject/oauth_proxy.go:113-132 | the stored cookie wins exactly where the first desired proxy container has a cookie-like argument |
| `DeploymentLaws.CreatedSettlesIff` | pkg/inventory/deployment.go:27-55 | a deployment just created is left as it is by the next reconciliation, whose secret is new, if and only if all its cookie-like arguments are its cookie |
| `DeploymentLaws.UpdatedSettlesIff` | pkg/inventory/deployment.go:27-55 | an updated one if and only if that holds or a cookie was stored before |
| `DeploymentLaws.ThirdPassSettles` | pkg/inventory/deployment.go:27-55 | from the third reconciliation on nothing changes in any case |
| `DeploymentLaws.CookieStays` | pkg/inject/oauth_proxy.go:112-132 | the cookie left by one reconciliation is the one found after the next |
| `DeploymentLaws.CookieFileIsOverwritten` | pkg/inject/oauth_proxy.go:124-129 | the failing input: a cookie file beside the generated cookie is replaced by the cookie in the second reconciliation |
| `DeploymentLaws.FirstSecretSurvives` | pkg/inject/oauth_proxy.go:112-132 | any number of reconciliations ends with what the second one made, with the cookie of the first, and with what the first one made if and only if a cookie was stored before or the wishes are tidy |
| `DeploymentLaws.SecondPassIsVoidIff` | pkg/controller/jaeger/deployment.go:42-96 | the pass after a failure-free pass creates and deletes nothing, and changes no deployment if and only if each had a cookie before or is tidy |
| `DeploymentLaws.ThirdPassIsVoid` | pkg/controller/jaeger/deployment.go:42-96 | the pass after that changes nothing in any case |
| `DeploymentLaws.DeploymentsConverge` | pkg/controller/jaeger/deployment.go:25-97 | from any state left by aborted passes: the first failure-free pass reaches the desired objects, the second is void under exactly that condition, the third always |
| `OAuthProxy.GeneratedAreTwins` | pkg/inject/oauth_proxy.go:40-111 | the sorted proxy arguments of two reconciliations, with any secrets and any order of the printed options, differ in cookie-like arguments only |
| `OAuthProxy.GeneratedTidyIff` | pkg/inject/oauth_proxy.go:40-91 | a generated proxy is tidy if and only if no other argument starts like the cookie flag, unless it repeats the cookie |
| `OAuthProxy.CookieFlagIff` | apis/v1/options.go:131-147 | an ingress option prints such an argument if and only if its name starts with "cookie-secret" |
| `OAuthProxy.PlainProxySettles` | pkg/inject/oauth_proxy.go:57-132 | without such an option the deployment is at rest after one reconciliation, whatever secrets are generated |
| `DeploymentLaws.ServiceSettles` | pkg/inventory/service.go:29-47 | a service keeps its cluster address and settles after one merge |
| `DeploymentLaws.AssignedSettles` | pkg/inventory/service.go:29-47 | whatever address the server assigned to a written service, merging the wish in again keeps the service as it is |
| `DeploymentLaws.SecondServicePassIsVoid` | pkg/controller/jaeger/service.go:15-70 | on every cluster in which the desired keys are visible, and whatever addresses the server assigns to what the first pass wrote, the second pass creates and deletes nothing and rewrites every service as it is |
| `SelectorLabels.FoundIff` | pkg/util/util.go:69-145 | with the reserved labels stripped from the common block, a deployment is found by its selector if and only if the component's own labels, or else the operator's, agree with it |
| `SelectorLabels.PlainComponentFoundIff` | pkg/util/util.go:180-194 | a component without reserved labels is found if and only if the instance name is at most 63 bytes and starts and ends alphanumeric |
| `SelectorLabels.QueryFoundIff` | pkg/strategy/controller.go:83-97 | the query deployment of a normalised instance is found under exactly that condition |
| `SelectorLabels.UnfoundBlocks` | pkg/controller/jaeger/deployment.go:30-57 | a desired deployment that is not found is created once, and every later pass for it is refused, whatever aborted passes come in between |
| `Reconciler.Poll` | pkg/controller/jaeger/deployment.go:107-163 | the first reply that does not wait decides: success with its status, error, or removal after having been seen; timeout exactly when all wait |
| `Reconciler.Cluster.WaitForStability` | pkg/controller/jaeger/deployment.go:99-164 | succeeds exactly when the deciding reply shows as many ready replicas as there are, and logs the numbers of that reply |
| `Reconciler.Cluster.HandleDependency` | pkg/controller/jaeger/dependencies.go:42-114 | succeeds exactly when the job was created or existed and the deciding reply shows one success, and logs that reply |
| `Reconciler.Cluster.HandleDependencies` | pkg/controller/jaeger/dependencies.go:27-40 | the jobs are seen with one success each, one after the other, up to the first failure; succeeds exactly when every job was created or existed and was seen with one success |
| `Reconciler.Cluster.ApplyDeployments` | pkg/controller/jaeger/deployment.go:25-97 | wherever it stops, its events carry out the first tasks of the inventory's script and the cluster is what the writes among them make of it; succeeds exactly when the List is answered, every write is possible and answered, and every created or updated deployment is seen ready |
| `Reconciler.Cluster.Apply` | pkg/controller/jaeger/jaeger_controller.go:239-394 | which kinds are applied is read off the platform (routes on OpenShift, ingresses elsewhere, Elasticsearch and Kafka with their operators), each at most once and in its place: secrets and accounts before the jobs, config maps and services after them, then the deployments, then routes or ingresses; each write comes after one success of every job, each delete after every created or updated deployment was written and seen ready; it succeeds exactly when all of these do and, unless the autoscalers fail, which is swallowed, the daemon sets behind them do too |
| `Reconciler.StagesFollow` | pkg/controller/jaeger/jaeger_controller.go:321-391 | the events of the three stages, as far as they got, carry out the first tasks of the whole script |
| `Reconciler.JobsFirst` | pkg/controller/jaeger/jaeger_controller.go:325-351 | in every log of an application, before each write of a deployment every dependency job was seen with one success |
| `Reconciler.StableFirst` | pkg/controller/jaeger/deployment.go:71-94 | in every log, before each deletion every created and updated deployment was written and then seen with as many ready replicas as it has |
| `Reconciler.FollowsIsOrdered` | pkg/controller/jaeger/jaeger_controller.go:321-394 | so every log that carries out the first tasks of the script is in order |
| `Reconciler.FollowsIsPlaced` | pkg/controller/jaeger/jaeger_controller.go:239-394 | every kind is where the platform and the order of the application put it, in every log that carries out the first tasks of the script |
| `Reconciler.LongIsComplete` | pkg/controller/jaeger/jaeger_controller.go:239-394 | a log that gets to the end of the exposing kinds holds every kind the platform needs |
| `Reconciler.StableSays` | pkg/controller/jaeger/deployment.go:107-163 | a deployment counts as ready exactly when some reply shows as many ready replicas as there are, and none before it does, fails, or misses a deployment that was there |
| `Reconciler.SuccessSays` | pkg/controller/jaeger/dependencies.go:70-112 | the same for a job and its one success |
| `DeploymentRuns.StepKeepsInv` | pkg/controller/jaeger/deployment.go:38-94 | a version names one state of one object, and pending updates are merges into the listed objects, in every interleaving |
| `DeploymentRuns.AcceptedUpdateMerges` | pkg/controller/jaeger/deployment.go:59-69 | an accepted update is a merge into the object as stored at that moment, whoever wrote in between |
| `DeploymentRuns.StaleUpdateRefused` | pkg/controller/jaeger/deployment.go:66-68 | an update based on an outdated List is refused and ends the pass |
| `DeploymentRuns.KeptThroughout` | pkg/inventory/deployment.go:27-55 | what merges and other writers respect holds of a deployment for as long as it exists |
| `DeploymentRuns.SelectorNeverChanges` | pkg/inventory/deployment.go:41-43 | the selector of a deployment never changes, over every run |
| `DeploymentRuns.ReplicasKept` | pkg/inventory/deployment.go:30-35 | a replica count stays while no desired deployment names one |
| `DeploymentRuns.CookieSurvives` | pkg/inventory/deployment.go:37-39 | the first cookie survives every desired one that has a place for it |
| `Ownership.OwnershipSafety` | pkg/controller/jaeger/jaeger_controller.go:79-205 | in every run of any number of operators, an incarnation of the resource is claimed at most once and only the operator its label names applies it |
| `Ownership.StepKeepsInv` | pkg/controller/jaeger/jaeger_controller.go:108-151 | every step but a user's relabelling keeps copies faithful to the label of their incarnation |
| `Ownership.BlindWritesShareOwnership` | pkg/controller/jaeger/jaeger_controller.go:126-127 | without the version check two operators apply the same resource |
| `Ownership.RelabelledIsClaimedAgain` | pkg/controller/jaeger/jaeger_controller.go:111-127 | a user who removes the label lets another operator claim the resource |
| `Ownership.Server.Reconcile` | pkg/controller/jaeger/jaeger_controller.go:60-215 | applied exactly when the copy that Get brought is valid and carries the operator's own label; without a label exactly one claim is issued, and it is recorded when it is accepted; for a foreign label, an invalid or a missing resource nothing is recorded; which calls follow an application, what they store and when it fails are given by the answers. Every execution, with interference before each call, is a run of that system |
| `Ownership.TraceKeepsInv` | pkg/controller/jaeger/jaeger_controller.go:60-215 | such an execution keeps the invariant behind that safety |
| `Tags.JoinTags` | pkg/inject/sidecar.go:493-500 | the printed tags do not depend on the range order |
| `Tags.PrintedSays` | pkg/inject/sidecar.go:493-500 | the printed tags are the sorted "key=value" texts, one for every tag, with commas between them |
| `Tags.ParseAgentTags` | pkg/inject/sidecar.go:478-491 | parsing, with the panics on missing separators as None |
| `Tags.TagsRoundTrip` | pkg/inject/sidecar.go:478-500 | printing and parsing gives the map back if and only if it is non-empty and no separator occurs where it would be misread |
| `LiveDeployment.LiveDeployment.Decorate` | pkg/inject/sidecar.go:364-407 | in-place decoration equals the value-level one; it fails exactly on a nil annotation map |
| `LiveDeployment.LiveDeployment.BuildAgent` | pkg/inject/sidecar.go:220-362 | the agent container, with its tags carried over from an agent that is there |
| `LiveDeployment.LiveDeployment.Sidecar` | pkg/inject/sidecar.go:60-91 | in-place injection equals InjectedBy whenever it completes |
| `InjectionLaws.InjectionSays` | pkg/inject/sidecar.go:60-91 | what an injection leaves, container by container: the label of the instance, the Prometheus annotations unless set, the two variables with the service name by the precedence of the pod labels, the agent in the place of an older one or at the end, volumes and pull secrets, all else as it was |
| `InjectionLaws.AgentSays` | pkg/inject/sidecar.go:220-362 | the agent itself: sorted arguments with the collector's address, TLS and tags unless the options set them, the five ports with their defaults, its own resources before the common ones, mounts, and the probe unless another container has the port |
| `InjectionLaws.CompletesSays` | pkg/inject/sidecar.go:60-91 | it completes exactly when it stops at another instance's label, or the annotations are there and the tags of an older agent can be read where they are needed |
| `InjectionLaws.HeadlessSays` | pkg/service/collector.go:103-106 | the collector's address has the instance name and "-collector-headless" for every host label of at most 44 characters |
| `LiveDeployment.LiveDeployment.CleanSidecar` | pkg/inject/sidecar.go:429-452 | in-place cleaning equals Cleaned |
| `LiveDeployment.LiveDeployment.RemoveVolumes` | pkg/inject/sidecar.go:443-451 | the deleting loop with its step back terminates and equals a filter |
| `SidecarLaws.InjectedTwice` | pkg/inject/sidecar.go:60-91 | injecting one agent twice equals injecting it once, with its tags parsed back and its decoration, volumes and pull secrets absorbed |
| `SidecarPrintings.InjectionIdempotent` | pkg/inject/sidecar.go:220-362 | the same for one instance whose options the two calls print in any two orders, while the options that answer to the name of a port agree on it |
| `SidecarPrintings.InjectionIdempotentIff` | pkg/inject/sidecar.go:220-265 | two injections agree for all orders if and only if they do |
| `SidecarPrintings.LookalikeShows` | pkg/inject/sidecar.go:255-259 | an input at which they do not: the option http-server.host-port beside one that starts like it |
| `SidecarPrintings.PlainOptionsAgree` | apis/v1/options.go:131-147 | they do when no option name starts with a port option's name and '=' |
| `SidecarLaws.VolumesRestoredIff` | pkg/inject/sidecar.go:438-451 | cleaning gives the original volumes back if and only if they were distinct and unmanaged and every added one was there or is managed |
| `SidecarLaws.CleanUndoesInject` | pkg/inject/sidecar.go:429-452 | cleaning after injecting restores containers up to decoration, removes the label, and restores the volumes under exactly that condition |
| `SidecarLaws.CleanRestoresVolumes` | pkg/config/ca/ca.go:94-165 | an instance without agent volumes, whose name is its label form, leaves no volume behind |
| `Admission.SelectedIsListed` | pkg/inject/sidecar.go:153-218 | a selected instance is one of the listed ones |
| `Text.EqualFoldSays` | pkg/inject/sidecar.go:102-110 | annotation values are equal letter by letter up to case |
| `Admission.Handle` | controllers/appsv1/deployment_webhook.go:65-171 | the answer to every request, read off annotations, labels and instances: denied exactly when the instances cannot be listed for a deployment that is to be looked at; injected when the deployment or its namespace asks, the operator may touch it and a live instance is selected; cleaned of label, agent and managed volumes when nothing asks any more; else, and when the injection panics, admitted as it came |
| `Admission.HandledSays` | controllers/appsv1/deployment_webhook.go:65-171 | the value-level answer, by which the runs are defined, is that one |
| `Admission.SelectSays` | pkg/inject/sidecar.go:153-218 | the selected instance: the one named on the deployment, in its namespace before elsewhere, else the one named on the namespace, else for "true" the only one listed or the only one in the namespace |
| `Admission.NeededSays` | pkg/inject/sidecar.go:93-150 | injection is needed exactly when an annotation is there that is not "false", it is no workload of the operator's own, and an agent that is there is labelled |
| `AdmissionTwice.HandledTwiceIff` | controllers/appsv1/deployment_webhook.go:116-170 | whatever orders two requests print the agents' options in, admitting an admitted deployment again changes nothing if and only if no instance is injected for good, or no config map that another container relied on went with a replaced agent and the options that answer to the name of a port agree on it |
| `AdmissionTwice.AgentConfigIsLost` | controllers/appsv1/deployment_webhook.go:139-141 | an input at which it does: the old agent alone named the config map with the service name |
| `AdmissionTwice.SameSelected` | pkg/inject/sidecar.go:153-218 | which instance is selected does not depend on the printed options |
| `Admission.UserAgentUntouched` | controllers/appsv1/deployment_webhook.go:90-170 | over every run a user-placed agent without the label is never changed or removed |
| `Admission.LabelledIffAgent` | pkg/inject/sidecar.go:129-150 | over every run a deployment that started bare has one agent while labelled and none otherwise |
| `Admission.LabelNeverMoves` | pkg/inject/sidecar.go:69-88 | over every run the label goes from one instance to another only by being removed |
| `Admission.AutoCleanSparesLiveIff` | pkg/autoclean/main.go:126-142 | auto-clean spares an injected deployment if and only if the label form is the name of a live instance |
| `Admission.LongNameIsCleaned` | pkg/autoclean/main.go:126-142 | the agent injected for a live instance with a name of 64 letters is taken out |
| `UiOptions.HasDocumentationLink` | pkg/strategy/controller.go:260-286 | finds the first entry with the link, behind entries that are passed over |
| `UiOptions.EnableDocumentationLink` | pkg/strategy/controller.go:288-318 | adds or refreshes the link, or panics on a menu that is no list |
| `UiOptions.EnableLogOut` | pkg/strategy/controller.go:320-358 | appends the entry unless one declines it |
| `UiOptions.NormalizeUI` | pkg/strategy/controller.go:212-226 | the four rewritings in order, on empty, malformed and null documents too |
| `UiLaws.RewrittenSays` | pkg/strategy/controller.go:212-358 | what the rewritten options hold: the archive flag and the hidden tab where wanted and not set, the documentation link in the menu, the log-out entry at its end, every other entry as it was; and when it panics |
| `UiLaws.DocumentSays` | pkg/strategy/controller.go:212-226 | the same of whole documents |
| `UiOptions.RewrittenTwice` | pkg/strategy/controller.go:212-358 | rewriting rewritten options changes nothing |
| `UiOptions.DocumentTwice` | pkg/strategy/controller.go:212-226 | the same for whole documents |
| `UiOptions.DocumentWithoutHiding` | pkg/strategy/controller.go:239-258 | options at rest stay at rest when the dependencies tab need not be hidden any more |
| `Strategy.Jaeger.NormalizeStorage` | pkg/strategy/controller.go:68-81 | storage type and storage defaults |
| `Strategy.StorageSettles` | pkg/strategy/controller.go:146-210 | the storage defaults, the jobs they enable and the Elasticsearch defaults are a fixed point after one application |
| `Strategy.IngressSettles` | pkg/strategy/controller.go:114-128 | so are ingress security and access review, on either platform |
| `Strategy.Jaeger.Normalize` | pkg/strategy/controller.go:57-140 | the whole normalisation, failing exactly where the UI options make it panic |
| `Strategy.SchemaSettles` | pkg/storage/cassandra_dependencies.go:18-38 | so are the defaults of the schema job, and they undo no storage default |
| `Strategy.Jaeger.For` | pkg/strategy/controller.go:26-53 | which branch is taken and what the instance holds afterwards, read off the instance as it was given: strategy, storage type and defaults, jobs, ingress security and access review, stripped labels, UI options, and brokers, certificates and volumes where Kafka is provisioned; it fails exactly where the UI options make it panic |
| `Strategy.ChosenSays` | pkg/strategy/controller.go:26-204 | the value-level result, about which the fixed points speak, is that one: all-in-one unless production or streaming is asked for with a distributed storage, streaming with a provisioned Kafka exactly when no brokers are named or the marker is there |
| `Strategy.NormalisedTwice` | pkg/strategy/controller.go:57-140 | normalising a normalised instance changes nothing |
| `Strategy.ProvisioningSettles` | pkg/strategy/streaming.go:256-275 | provisioning a second time changes nothing |
| `Strategy.ChosenTwice` | pkg/strategy/controller.go:26-53 | on its own output For changes nothing and takes the same branch, Kafka included |
| `Strategy.MarkerIsNeeded` | pkg/strategy/streaming.go:73-84 | without the marker annotation that same output is left alone but no longer provisioned |
| `Quiescence.QuiescentIff` | pkg/controller/jaeger/jaeger_controller.go:157-188 | the reconciliation after a successful one, For and upgrade together, succeeds and finds nothing to change if and only if the first did not cross 1.17.0 with a storage whose dependencies job is undecided and kept off by the old TLS flag alone |
| `Quiescence.QuiescentAfterTwo` | pkg/controller/jaeger/jaeger_controller.go:157-188 | the reconciliation after that finds nothing to change in any case |
| `Quiescence.OldTlsFlagUnsettles` | pkg/strategy/controller.go:146-165 | the input at which the second one does: an external Elasticsearch with es.tls, for which the job appears after the rename |
| `Quiescence.ChosenAgain` | pkg/strategy/controller.go:26-53 | on an upgraded instance For takes the same branch and changes nothing but the dependencies job, Kafka included |
| `Quiescence.UpgradeMigrates` | pkg/controller/jaeger/upgrade.go:14-38 | every option that For reads comes through applyUpgrades, but for the TLS flag that 1.17.0 takes out |
| `Upgrade.Versions` | pkg/upgrade/main.go:28-43 | every registered version once, ascending, for any range order |
| `Upgrade.ManagedInstance` | pkg/upgrade/upgrade.go:108-174 | goes through the planned versions one by one, each step starting from what the one before gave: through all of them and to the latest version when it succeeds, up to a step that fails when not, and through none for versions it does not handle |
| `Upgrade.PlanExact` | pkg/upgrade/upgrade.go:148-168 | the plan holds exactly the versions in (current, latest], ascending |
| `Upgrade.UpgradePathIndependent` | pkg/upgrade/upgrade.go:126-174 | for steps blind to the status version, stopping on the way makes no difference, in success and in result |
| `MigrationLaws.StepsAreBlind` | pkg/upgrade/versions.go:13-21 | the registered steps are blind to the status version, and the registry is ascending |
| `MigrationLaws.JaegerUpgradePathIndependent` | pkg/upgrade/upgrade.go:126-174 | path independence of the registered upgrade |
| `Migrations.MigrateDeprecatedOptions` | pkg/upgrade/migrate_deprecated.go:28-47 | the rename loop over one block |
| `Migrations.MigrateAllDeprecatedOptions` | pkg/upgrade/migrate_deprecated.go:16-26 | the same for six blocks |
| `Migrations.RenameTableLaws` | pkg/upgrade/migrate_deprecated.go:28-47 | for any table without chains: no old name is left, other options keep their value, and a second migration is void |
| `Migrations.RenamedValue` | pkg/upgrade/migrate_deprecated.go:32-44 | a renamed option keeps its value under the new name |
| `Migrations.Upgrade117` | pkg/upgrade/v1_17_0.go:12-49 | TLS renames in six blocks, then Kafka TLS in three |
| `Migrations.MigrateKafkaTLS` | pkg/upgrade/v1_17_0.go:51-67 | TLS is switched on where the authentication is TLS |
| `Migrations.Upgrade118` | pkg/upgrade/v1_18_0.go:14-77 | collector renames with rewritten port values, agent flags dropped |
| `Migrations.TransformCollectorPorts` | pkg/upgrade/v1_18_0.go:63-77 | a colon in front of every new port value |
| `Migrations.MigrateQueryHostPortFlags` | pkg/upgrade/v1_22_0.go:66-95 | the old address flags go into the new ones, with the failed type assertion on a list as None |
| `Migrations.UpdateCassandraVerifyHostFlag` | pkg/upgrade/v1_22_0.go:52-64 | host verification under its new name, with the failed type assertion as None |
| `Migrations.Upgrade122` | pkg/upgrade/v1_22_0.go:11-50 | the whole step |
| `StepLaws.Step115Says` | pkg/upgrade/v1_15_0.go:12-35 | name by name, what 1.15.0 leaves in every block: old options under the new names or gone, all else as it was |
| `StepLaws.Step117Says` | pkg/upgrade/v1_17_0.go:12-67 | the same for 1.17.0, with TLS enabled for a Kafka client that authenticates by it |
| `StepLaws.Step118Says` | pkg/upgrade/v1_18_0.go:14-77 | the same for 1.18.0, with a colon in front of every new port flag and five agent flags gone |
| `StepLaws.Step120Says` | pkg/upgrade/v1_20_0.go:12-20 | the same for 1.20.0 |
| `StepLaws.Step122Says` | pkg/upgrade/v1_22_0.go:11-95 | the same for 1.22.0, which panics exactly on a list as the verification flag of storage or ingress |
| `StepLaws.LastStepsSay` | pkg/upgrade/versions.go:13-21 | these are the registered versions; 1.28.0 sets an access review that is not set to a blank, and 1.31.0 fails exactly when a self-provisioned Elasticsearch cannot be deleted |
| `MigrationLaws.RegisteredTablesConsistent` | pkg/upgrade/v1_15_0.go:12-35 | no name that 1.15.0, 1.17.0 or 1.20.0 takes out is written by any registered step from 1.17.0 on |
| `MigrationLaws.NoOldNameSurvives` | pkg/upgrade/v1_20_0.go:12-20 | after an upgrade from below 1.15.0 to 1.20.0 or later none of the old names is left in any block |
| `AdminPort.AdminPortSurvivesIff` | pkg/upgrade/v1_18_0.go:41-77 | a health-check port set before 1.15.0 is the very number GetAdminPort reads from 1.18.0 on, in every argument order, if and only if every option whose name starts "admin.http.host-port=" reads as that number too |
| `MigrationLaws.RegisteredStep118TwiceIff` | pkg/upgrade/v1_18_0.go:63-77 | running 1.18.0 twice equals running it once if and only if no port flag, old or new, is set |
| `MigrationReruns.TornPatchIff` | pkg/upgrade/upgrade.go:75-92 | an upgrade repeated on its own result, because the status patch failed, ends like the uninterrupted one if and only if 1.18.0 was not due or no port flag reached it, and else with one more run of 1.18.0; for every regular set of tables |
| `MigrationReruns.RegisteredTornPatchIff` | pkg/upgrade/upgrade.go:75-92 | at the registered tables: if and only if 1.18.0 is not in (current, latest], or the collector has no port flag, old or new, nor, below 1.15.0, the health-check port |
| `MigrationReruns.Step118AgainIff` | pkg/upgrade/v1_18_0.go:63-77 | on an instance that has been through it, 1.18.0 changes nothing if and only if no new port flag is set |
| `AdminPort.TornPatchLosesAdminPort` | pkg/upgrade/upgrade.go:75-92 | the failing input: after a torn patch the admin port read from the arguments is the default, in every order |
| `MigrationLaws.RenameStepTwice` | pkg/upgrade/migrate_deprecated.go:16-47 | the steps that only rename are repeatable |
| `MigrationLaws.KafkaTlsTwice` | pkg/upgrade/v1_17_0.go:51-67 | so is the Kafka part of 1.17.0 |
| `MigrationLaws.QueryAddressMoves` | pkg/upgrade/v1_22_0.go:66-95 | the query address reaches every new flag that was not set, the old ones go, and a second time is void |
| `MigrationLaws.VerificationMoves` | pkg/upgrade/v1_22_0.go:52-64 | host verification stays on exactly for the six strings that read as true, and where the flag is not set the new one is as before |
| `Options.Entry` | apis/v1/options.go:103-129 | fails exactly on lists of other things than strings, and otherwise writes the leaves below the node |
| `Options.Parse` | apis/v1/options.go:90-101 | the same for a whole tree; with distinct paths the result does not depend on the range order |
| `Options.NewOptions` | apis/v1/options.go:35-40 | parsing whose error is dropped |
| `OptionLaws.FlatSays` | apis/v1/options.go:90-129 | an option has a value exactly when some path of keys, joined by dots, is its name and leads to that value in the tree |
| `Options.Filter` | apis/v1/options.go:42-56 | keeps exactly the options of the prefix and of its archive, with their values |
| `Options.ToArgs` | apis/v1/options.go:131-147 | prints the options in some order of their keys, each with its values in their order |
| `Options.StringMap` | apis/v1/options.go:157-166 | the single-valued options |
| `Options.ReparseIdentityIff` | apis/v1/options.go:103-175 | going through GenericMap and NewOptions is the identity if and only if no option is a list |
| `Options.FindOption` | pkg/util/util.go:211-219 | an option is read back from its arguments in any order, unless another name starts with its own and '=' |
| `Options.FoundInPrinted` | pkg/util/util.go:211-219 | an option is found exactly when some option answers to its name, with the first flag of one that does, for every order of the keys |
| `ReadBack.PortReadIff` | pkg/util/util.go:234-250 | a port is read as the same number in every order if and only if every option that answers to its name reads as that number |
| `Options.CollectorArgs` | pkg/deployment/collector.go:88-100 | the sorted argument list, with the sampling and TLS arguments that are added on the way, depends on no range order |
| `OptionLaws.CollectorArgsSay` | pkg/deployment/collector.go:88-100 | the arguments are sorted and are exactly one per value of a collector or storage option, the sampling file unless the instance names its own, and the three TLS flags on OpenShift unless an option sets TLS or the reporter's address |
| `CommonSpec.RemoveDuplicated` | pkg/util/util.go:21-66 | the first item of each name stays |
| `MergeLaws.DedupKeepsFirst` | pkg/util/util.go:21-66 | exactly the first item of each name is kept, in order |
| `CommonSpec.DedupAbsorbs` | pkg/util/util.go:21-66 | deduplication absorbs a suffix that was deduplicated before |
| `CommonSpec.DedupTwice` | pkg/util/util.go:21-66 | and is idempotent |
| `CommonSpec.MergeResources` | pkg/util/util.go:147-165 | limits and requests, left-biased |
| `CommonSpec.Merge` | pkg/util/util.go:69-145 | the loop equals Merged, for any range order |
| `MergeLaws.MergedFits` | pkg/util/util.go:69-165 | block by block: the first block that sets a scalar gives it, the first that has a key gives its entry, lists keep the first item of each name |
| `CommonSpec.MergeConcat` | pkg/util/util.go:69-145 | merging a concatenation equals merging the merges |
| `CommonSpec.MergeAgainIff` | pkg/util/util.go:69-145 | merging a block in again is absorbed if and only if it has no tolerations |
| `Arguments.PortInReads` | pkg/util/util.go:234-250 | a host-port argument without host gives the number after its colon, else the default |
| `Names.Truncate` | pkg/util/truncate.go:17-53 | the shortening loop equals Truncated |
| `Names.TruncatedBounds` | pkg/util/truncate.go:17-58 | the limit always holds, the ends are alphanumeric when the fixed part fits, and a hard cap is taken otherwise |
| `Names.DNSName` | pkg/util/dns_name.go:15-31 | the character loop, for ASCII names |
| `Names.DnsNameSays` | pkg/util/dns_name.go:15-31 | lower-case letters and digits stay, capitals become lower case, anything else becomes 'a' at an end and '-' inside, so that a host label is left alone |
| `Names.DnsNameIsLabel` | pkg/util/dns_name.go:15-31 | the result is a host label exactly when the name has 1 to 63 characters |
| `Names.ServiceNameIsLabel` | pkg/service/collector.go:98-105 | a truncated, suffixed and DNS-safe name is a host label if and only if a letter or digit survives or the suffix alone exceeds the limit |
| `Names.GetNameForCollectorService` | pkg/service/collector.go:98-101 | the collector's service name is a host label for every ASCII instance name, and the name with "-collector" where that is one |
| `Names.LabelFormFixed` | pkg/util/util.go:184 | an instance name is its own label value exactly when it is short and has alphanumeric ends |
| `TlsDefaults.GetAdditionalTLSFlags` | apis/v1/jaeger_webhook.go:141-164 | answers nothing exactly when an enabling flag is there or no TLS flag is |
| `TlsDefaults.OwnKeyIff` | apis/v1/jaeger_webhook.go:141-164 | TLS is enabled under the flag's own name if and only if "tls" does not occur again behind it on its line, be it in the name or the value |
| `TlsDefaults.CertificatePathMisleads` | apis/v1/jaeger_webhook.go:141-164 | the failing input: a certificate below a "tls" directory gives a key that nobody reads |
| `TlsDefaults.DefaultedIsComplete` | apis/v1/jaeger_webhook.go:66-83 | a defaulted block passes the validator, defaulting it again is void, and no printed option is overwritten |
| `TlsDefaults.Jaeger.Default` | apis/v1/jaeger_webhook.go:46-84 | the defaulter on all six blocks |
| `TlsDefaults.Jaeger.ValidateUpdate` | apis/v1/jaeger_webhook.go:92-116 | accepts exactly complete blocks with an Elasticsearch that is not missing |
| `TlsDefaults.AdmitTwice` | apis/v1/jaeger_webhook.go:46-116 | after the defaulter only a missing Elasticsearch is refused, and a second admission changes nothing |

## Left out

- The other per-kind inventories and passes: same shape as deployments and services, with fewer preserved fields; `Reconciler` keeps only their place in the order.
- Manifest construction (pkg/deployment, pkg/service, pkg/ingress, pkg/route, pkg/cronjob): mostly record literals; the argument, label and name expressions the properties use are kept.
- Elasticsearch certificates, secrets and node counts: file system, shell script and easy arithmetic.
- Autodetection, start-up, leader election, tracing, metrics, logging: wiring; platform and configuration are constants of a run.
- syncOnJaegerChanges: only its effect, a revision bump on an application deployment, is a step of `Admission`.
- Reconcile's decision to store back: it compares with a shallow copy that shares maps with the instance; `Quiescence.QuiescentIff` says when there is nothing to store, in `Ownership` whether there is something to store is a parameter.
- Pre-release and build parts of versions: versions are triples.
- JSON bytes: free-form options and option trees are trees and maps; numbers carry their printed text.
- The "%v" text of lists and objects in menu URLs is a parameter of `UiOptions`.
- Nil and empty maps and slices are the same value, except the annotations of an application deployment.
- Defaults that the API server adds to stored objects: a stored object is what was written.
- Non-ASCII names: `Names.DNSName` mixes byte and rune positions in the source.
- '%' in instance names given to Truncate as a format: `Names.LabelForm` takes the name literally.
- Names.DNSName: restricted to ASCII names, for the reason above.
- Admission.UserAgentUntouched: user edits that themselves add or remove an agent or the label are not steps of the runs.
- SidecarPrintings.InjectionIdempotent: container, namespace and deployment names with a comma are excluded; Kubernetes allows none.
- SidecarPrintings.InjectionIdempotentIff: the same names, and instance names other than their label form, for which the second injection stops at the label.
- SidecarLaws.InjectedTwice: the same names.
- Ownership.OwnershipSafety: users who write the operated-by label are excluded; `Ownership.RelabelledIsClaimedAgain` shows why.
- AdmissionTwice.HandledTwiceIff: the same names; both requests find the same surroundings up to the order of the printed options.
- MigrationReruns.RegisteredTornPatchIff: both runs succeed; a run that fails stores nothing.
- Undecodable requests and failed marshalling in the webhook: both answer an error before or after everything modelled.
