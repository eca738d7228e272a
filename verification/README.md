# Villip operator: a verified model

The Villip operator runs two level-triggered Kubernetes controllers over one cluster. The
proxy controller drives a Deployment and a Service towards a `VillipProxy`; the rules
controller keeps a ConfigMap equal to the rendered `VillipRules` spec and restarts the
Deployments that mount it. They meet only in the cluster: in labels, in one annotation, and
in disjoint fields of the same Deployment.

This project models both controllers with every branch and error path, and the API server
they call, and proves what the two keep, reach and guarantee.

**The cluster and the calls.** `Api` has a store of versioned objects: Update is guarded by
the resourceVersion, Create by absence, Patch by nothing, a status update touches only the
status, an object being deleted disappears with its last finalizer, and a Deployment records
the version at which its pod template last changed (`rolledAt`). Everything the controllers
cannot foresee is one `Oracle`: each call is carried out, refused, or carried out with its
reply lost; lists come in any order; and before each call anybody may change the cluster. A
ghost record notes each read and each write with the object before and after, and every
write that was sent, with the error it was answered with, if any.

**The code.** `ProxyController` and `RulesController` are the two reconcilers as classes, with
the branches, the loops and the error returns of the original; `Claims` has the two first
steps, which are the same in both. Each method is proved to compute a function of
`ProxyPasses` or `RulesPasses`; all theorems are about those functions.

**The theorems.**

| module | what it proves |
|---|---|
| `Sorting`, `Text` | the annotation is a faithful code for a multiset of names; decimal printing is injective |
| `Workloads` | selection of ConfigMaps, canonical port lists, labels, the target URL |
| `Guarantees`, `ProxySafety`, `RulesSafety` | what one pass guarantees under any faults and any lawful interference |
| `Runs` | the same over whole runs: gating, no lost update, mounts and annotation agree, status initialised once; and whole turns of the other controller are such an interference |
| `Interleaving` | two runs interleaved call by call, each among the writes of the other, keep all of that |
| `Convergence` | fault-free proxy passes: exact number of steps, fixed point, and exactly when it fails to arrive |
| `AnnotationLoss` | exactly when a pass takes the annotation away from its Deployment |
| `RulesConvergence` | the ConfigMap reaches the rendered spec despite finitely many faults |
| `LastSum` | what the recorded checksum is worth |
| `Deletion` | both finalizations; the finalizer loop of the rules controller and how many retries it needs |
| `Fairness` | both controllers together, turns in any order: despite finitely many faults, on every schedule that comes back to it, a rule is rendered and a proxy settles; and exactly when it ends with its mounts |
| `Rollouts`, `Freshness` | which Deployments a rollout restarts; pods are younger than the ConfigMaps they mount |
| `Commutation` | when a rollout and a proxy pass commute |
| `Answers`, `ProxyAnswers`, `RulesAnswers` | all that a pass can send and answer, for any faults and any interference |
| `Honesty` | what answers and status writes are worth, in a pass and over runs |
| `Creations` | whom created Deployments and Services select, and which proxies mount a new ConfigMap |

`Calm` says that from some call on no call fails and nobody else acts; `Quiet` only that nobody
else acts. `Lawful` says that others give their changes new versions and keep the invariants
(`Good`), and that time passes. The invariants are about versions, condition types and the
Deployments the operator wrote, which are known by the rules folder in the environment of their
pods (`ByOperator`): on those, volumes, mounts and annotation belong together. Nothing is asked
of anybody else's Deployments. `Convergence` and `RulesConvergence` start from arbitrary states,
also ones the operator would never produce.

**Where the code does not do what its comments or names promise**, the model follows the
code, and a theorem says exactly when the promise holds:

- a proxy without ports is never reported available, because an empty list always differs
  from the stored nil (`Convergence.AvailableIffPorts`);
- a re-mount cut short by a failed List takes the annotation away
  (`AnnotationLoss.LosesAnnotation`), and a Deployment without it is never mounted anew
  (`Convergence.MountsMatchIffAnnotated`, `Fairness.SettledMountsUnlessLost`);
- the finalizer loop of the rules controller removes indices 0, 1, 2, ... of a list that
  shrinks under it: it drops the finalizers at even positions, whoever owns them, and fails
  as soon as there are two (`Deletion.DeletingPass`); with its own finalizer gone and another
  left, it tries to add it again and is refused for ever (`Deletion.ReleasedIsStuck`);
- an update of the ConfigMap that fails, for whatever reason, is still followed by
  Available=True and the new checksum
  (`LastSum.HonestUnlessRefused`), and a wrong checksum stays once the ConfigMap is right
  (`LastSum.HealsIffOutOfDate`);
- a ConfigMap that is created again restarts nothing (`Freshness.RecreatedFreshIffUnmounted`),
  nor does a change for Deployments whose managed-by label the proxy's own labels override
  (`Freshness.ReplacedIffFollowed`);
- the Service of a proxy selects by a label that the operator gives to no pod, so it finds the
  pods of its Deployment only if the user labels the proxy so (`Creations.ServiceFindsPodsIff`);
- a pass can settle a proxy and still ask to be called again (`Convergence.RequeueMaySettle`);
- the version label is not the image tag when the image name holds a colon
  (`Workloads.VersionLabelIsTag`).

## Model

| member | source | states |
|---|---|---|
| ProxyController.VillipProxyReconciler.Reconcile | internal/controller/villipproxy_controller.go:70-193 | one reconciliation, with every early return and error, changes the server and answers exactly as `ProxyPass` does |
| ProxyController.VillipProxyReconciler.Works | internal/controller/villipproxy_controller.go:111-140 | the part for a live proxy: create the Deployment, or resize it, or go on to the rulesets |
| ProxyController.VillipProxyReconciler.ChecksRulesets | internal/controller/villipproxy_controller.go:142-164 | a changed selection replaces annotations, volumes and mounts, also by what a failed List left |
| ProxyController.VillipProxyReconciler.Exposes | internal/controller/villipproxy_controller.go:166-192 | create the Service, or align ports, or report Available=True |
| ProxyController.VillipProxyReconciler.ManagePortChange | internal/controller/villipproxy_controller steps.go:47-78 | no result exactly if both port lists are as wanted, and then no call; otherwise the one or two updates in order |
| ProxyController.VillipProxyReconciler.MarkedToBeDeleted | internal/controller/villipproxy_controller steps.go:80-134 | the finalization, call by call |
| Claims.InitsStatus | internal/controller/villipproxy_controller steps.go:156-177 | the first condition; the rules controller has the same code |
| Claims.AddsFinalizer | internal/controller/villipproxy_controller steps.go:179-193 | the claim; the rules controller has the same code |
| ProxyController.VillipProxyReconciler.WorkloadUpdate | internal/controller/villipproxy_controller deployments.go:41-67 | a failed update is reported on a fresh copy of the proxy and then swallowed; the Service update is the same code |
| ProxyController.VillipProxyReconciler.MountsForVillipProxy | internal/controller/villipproxy_controller deployments.go:234-271 | the nested loops give mounts, volumes and annotation for one walk over the rulesets; a failed List leaves a partial list and no annotation |
| ProxyController.VillipProxyReconciler.IsRulesetsChanged | internal/controller/villipproxy_controller deployments.go:273-295 | changed exactly if all Lists were answered and an annotation is there that is not the digest of the answers |
| ProxyController.VillipProxyReconciler.CreatesDeployment | internal/controller/villipproxy_controller deployments.go:331-371 | build, own, create, and report each failure |
| ProxyController.VillipProxyReconciler.CreatesService | internal/controller/villipproxy_controller service.go:117-150 | the same for the Service, where a failed create is not reported |
| ProxyController.SortedPortsOfVillipProxy | internal/controller/villipproxy_controller service.go:64-71 | the widening loop and the sort give the canonical list |
| ProxyController.PortsForVillipProxyService | internal/controller/villipproxy_controller service.go:73-84 | the loop builds the service ports |
| ProxyController.PortsForVillipProxyDeployment | internal/controller/villipproxy_controller deployments.go:223-232 | the loop builds the container ports |
| RulesController.VillipRulesReconciler.Reconcile | internal/controller/villiprules_controller.go:78-154 | one reconciliation changes the server and answers exactly as `RulesPass` does |
| RulesController.VillipRulesReconciler.Keeps | internal/controller/villiprules_controller.go:115-153 | create the ConfigMap, or update it when the hashes of the actual and the rendered data differ |
| RulesController.VillipRulesReconciler.CreatesConfigMap | internal/controller/villiprules_controller configmap.go:70-118 | create, then record checksum and Available=True, with each failure |
| RulesController.VillipRulesReconciler.UpdatesConfigMap | internal/controller/villiprules_controller configmap.go:120-179 | status, ConfigMap, and the same end whether that was written or not |
| RulesController.VillipRulesReconciler.Excuses | internal/controller/villiprules_controller configmap.go:134-155 | a failed write is reported on a fresh copy of the rule, and then the pass falls through to the end |
| RulesController.VillipRulesReconciler.Concludes | internal/controller/villiprules_controller configmap.go:157-178 | checksum and Available=True, then the rollout |
| RulesController.VillipRulesReconciler.RolloutDependentProxies | internal/controller/villiprules_controller configmap.go:181-211 | the loop over the listed Deployments |
| RulesController.VillipRulesReconciler.RollsItem | internal/controller/villiprules_controller configmap.go:197-209 | the inner loop, one update per matching element, errors ignored |
| RulesController.VillipRulesReconciler.MarkedToBeDeleted | internal/controller/villiprules_controller steps.go:46-78 | the finalizer loop, one unguarded patch per index |
| Text.SplitJoin | internal/controller/villiprules_controller configmap.go:199 | Split undoes Join on every non-empty list of separator-free strings |
| Text.JoinSplit | internal/controller/villipproxy_controller deployments.go:268 | Join undoes Split on every string |
| Text.NamedDigest | internal/controller/villipproxy_controller deployments.go:267-268 | reading an annotation back gives the sorted names that were written, also for no names |
| Text.DigestInjective | internal/controller/villipproxy_controller deployments.go:289-292 | two annotations are equal iff the names are the same multiset |
| Text.DecimalDenotes | internal/controller/villipproxy_controller service.go:80 | a printed port is made of digits and denotes the number |
| Text.DecimalInjective | internal/controller/villipproxy_controller service.go:80 | printed port numbers are different for different ports |
| Sorting.SortCanonical | internal/controller/villipproxy_controller service.go:69 | sorted lists are equal iff the elements are the same up to order |
| Workloads.SelectedCounts | internal/controller/villipproxy_controller deployments.go:241-266 | a ConfigMap is mounted as often as there are ruleset entries all of whose labels it carries |
| Workloads.SelectionMonotone | internal/controller/villipproxy_controller deployments.go:241-266 | another entry never drops a ConfigMap, another label never adds one, order is irrelevant |
| Workloads.PortsCanonical | internal/controller/villipproxy_controller steps.go:49-52 | equal container lists, and equal service lists, iff the ports are permutations of each other |
| Workloads.PortListsAgree | internal/controller/villipproxy_controller service.go:75-82 | both lists agree element by element through the conversions, are sorted, are TCP, and each service port is named after its number |
| Workloads.PortNamesDistinct | internal/controller/villipproxy_controller service.go:80 | service port names are pairwise distinct iff the ports are |
| Workloads.VersionLabelIsTag | internal/controller/villipproxy_controller deployments.go:300-305 | exactly when the version label is the image tag |
| Workloads.TargetReadsBack | internal/controller/villipproxy_controller deployments.go:214-221 | the target URL is http, and the first two labels of its host read back are the target service and its namespace, before port and path |
| Workloads.TargetInjective | internal/controller/villipproxy_controller deployments.go:214-221 | two targets with the same URL are the same |
| ProxySafety.ProxyGuarantee | internal/controller/villipproxy_controller.go:70-193 | one proxy pass under any faults and interference: invariants kept, every write one of the allowed edits of the very object read; a new Deployment or Service has the labels, selector, size, ports, image and environment that the proxy asks for; an unannotated Deployment never gets an annotation; workloads only for a live proxy |
| RulesSafety.RulesGuarantee | internal/controller/villiprules_controller.go:78-154 | the same for the rules pass; a new ConfigMap has the labels of the rule; Deployments only where managed and named, and only by a later rollout time |
| Runs.RunIsSafe | internal/controller/villipproxy_controller.go:70-193 | both guarantees over every run of both controllers |
| Runs.WorkloadsAreGated | internal/controller/villipproxy_controller.go:91-116 | every written workload was written in a pass whose first read found its resource with status, with finalizer and not being deleted, and belongs to that resource |
| Runs.NoLostUpdate | internal/controller/villipproxy_controller.go:128-156 | every write of an existing Deployment keeps what the other controller owns; rollout times only grow; selector, labels, image and env never change |
| Runs.MountsAlwaysAgree | internal/controller/villipproxy_controller deployments.go:249-268 | in every reachable state the volumes, mounts and decoded annotation, if any, of a Deployment the operator wrote are the same multiset |
| Runs.StatusStaysInitialised | internal/controller/villiprules_controller steps.go:100-121 | every status write leaves condition types unique and known, and never empties the list |
| Runs.InitialisedOnce | internal/controller/villipproxy_controller.go:90-94 | others may do anything to a custom resource but empty its status, as long as in this run they do not both remove and create it: then it is initialised at most once, or was removed by the controllers in between and created again by others |
| Runs.CleanedBeforeRelease | internal/controller/villipproxy_controller steps.go:112-131 | whatever fails, a proxy loses the finalizer only with Degraded=True already in its status |
| Runs.OtherControllerIsLawful | internal/controller/villipproxy_controller deployments.go:41-43 | whole turns of the other controller between any two calls are an interference that the guarantees allow |
| Honesty.ProxyPassIsHonest | internal/controller/villipproxy_controller.go:70-193 | for any faults and interference: no answer to the first read is an error and no proxy is Done, with nothing sent; Done only after a confirmation or a release that succeeded; Available=True only after reading the wanted size and ports; a failed write of a workload is told of with Available=False or answered with an error |
| Honesty.RulesPassIsHonest | internal/controller/villiprules_controller.go:78-154 | the same for rules: Done only after every write succeeded; Available=True only with the checksum of the spec read; a failed update of the ConfigMap is told of by the very next write or answered with an error |
| Honesty.AvailableIsEarned | internal/controller/villipproxy_controller.go:178-192 | over every run of both controllers, each status that newly claims Available=True was written in a pass that had read both workloads as wanted |
| ProxyAnswers.PassAnswers | internal/controller/villipproxy_controller.go:70-193 | all that a proxy pass can send and answer, by what it has read: which writes, in which order, after which failures, with which conditions, and which answer goes with them |
| RulesAnswers.PassAnswers | internal/controller/villiprules_controller.go:78-154 | the same for a rules pass |
| RulesAnswers.ItemsRestart | internal/controller/villiprules_controller configmap.go:197-209 | whatever becomes of them, a rollout sends as many updates as the listed Deployments name the ConfigMap |
| Creations.CreatedAsAsked | internal/controller/villipproxy_controller deployments.go:70-211 | over every run, each created Deployment, Service or ConfigMap was made for a live resource of its name that the pass had read, with its labels, selector, size, image, environment, ports or file |
| Creations.PodsApart | internal/controller/villipproxy_controller deployments.go:299-316 | a created Deployment selects its own pods, and no pod is selected by the Deployments of two proxies of a namespace, unless one of them overrides the name label |
| Creations.CreatedServiceSelects | internal/controller/villipproxy_controller service.go:86-115 | the Service that a fault-free pass creates has the labels of the proxy and selects exactly the pods labelled villip with its name |
| Creations.ServicesApart | internal/controller/villipproxy_controller service.go:102-104 | the Services of two proxies of a namespace select no pod in common |
| Creations.ServiceFindsPodsIff | internal/controller/villipproxy_controller service.go:102-104 | the Service selects the pods of its own proxy iff the proxy itself bears the label villip with its name |
| Creations.CreatedConfigMapSelected | internal/controller/villiprules_controller configmap.go:48-60 | a new ConfigMap holds the rendered spec and is selected by an entry iff the rule bears all its labels, so as often as there are such entries |
| Creations.CreatedConfigMapMounted | internal/controller/villipproxy_controller deployments.go:241-266 | and a proxy that settles after it, in at most seven passes, mounts it that often |
| Interleaving.EffectProceeds | internal/controller/villiprules_controller configmap.go:134 | one sound write, however old the copy it was made from, keeps the cluster in order |
| Interleaving.RunsInterleave | internal/controller/villipproxy_controller.go:70-193 | two runs interleaved call by call, passes suspended after any call, also straight after a write, and resumed with the copies they have, keep every guarantee; all that either sends is sound and may arrive at the other at once |
| Guarantees.UpdateLeads | internal/controller/villipproxy_controller deployments.go:43 | an update with a copy read earlier either changes nothing or turns exactly that object into the merged one |
| Convergence.SeenChangedMeans | internal/controller/villipproxy_controller deployments.go:291-293 | on an annotation the operator wrote, changed iff recorded and selected multisets differ |
| Convergence.SeenChangedExactly | internal/controller/villipproxy_controller deployments.go:273-295 | on any annotation, changed iff it does not record the selection, in whatever order it was listed |
| Convergence.NoSecondRemount | internal/controller/villipproxy_controller.go:142-164 | a re-mount is never followed by another on an unchanged cluster |
| Convergence.StepAdvances | internal/controller/villipproxy_controller.go:91-192 | each fault-free pass is one of the stages, by its guard, and changes nothing else |
| Convergence.Converges | internal/controller/villipproxy_controller.go:91-192 | from every standing start with a port, exactly Distance + 1 passes settle the proxy, and every later pass is the identity |
| Convergence.CalmAnswers | internal/controller/villipproxy_controller.go:91-192 | a fault-free pass on a standing proxy answers Done iff nothing was left to do, and then it is settled; Requeue iff something was, and with a port one unit of it is done; never an error |
| Convergence.SettlesIff | internal/controller/villipproxy_controller.go:125-192 | a fault-free pass leaves the proxy settled iff nothing was left, or one unit and the status said ready already |
| Convergence.RequeueMaySettle | internal/controller/villipproxy_controller.go:125-140 | such a pass that settles and answers Requeue: the Deployment of a settled proxy was scaled |
| Convergence.SixAtMost | internal/controller/villipproxy_controller.go:91-192 | Distance is at most six, and six from some state that is in order |
| Convergence.SettledMeans | internal/controller/villipproxy_controller.go:178-185 | settled is: size, both port lists, Available=True for that size; with an annotation, that is the selection, and so are the mounts of a Deployment the operator wrote |
| Convergence.AvailableIffPorts | internal/controller/villipproxy_controller steps.go:49-54 | passes come to report an unavailable proxy available iff its spec has a port |
| Convergence.MountsMatchIffSeen | internal/controller/villipproxy_controller deployments.go:273-295 | from any standing start at all, whoever wrote the Deployment: after settling, the mounts are the selected ones iff there was none, or its annotation recorded something else, or it had them from the start |
| Convergence.MountsMatchIffAnnotated | internal/controller/villipproxy_controller deployments.go:291-294 | from any standing start where the Deployment, if any, is the operator's, after settling: the mounts are the selected ones iff there was no Deployment yet, or it was annotated, or it had them from the start; a new one ends annotated |
| AnnotationLoss.LosesAnnotation | internal/controller/villipproxy_controller.go:142-158 | under any faults a pass on a standing proxy takes the annotation away iff proxy and Deployment are read, the size is right, the check is complete and sees a change, the walk that re-mounts is cut short, and the update is carried out; with the first List failing, the mounts go too |
| AnnotationLoss.LostToOneList | internal/controller/villipproxy_controller.go:148-154 | one failing List is enough: it leaves the Deployment without annotation and without mounts |
| RulesConvergence.CalmRulesPass | internal/controller/villiprules_controller.go:95-153 | a fault-free pass on a standing rule is one of four stages; it answers Done iff it creates the ConfigMap, and Requeue otherwise, also when nothing was to be done |
| RulesConvergence.PassApproaches | internal/controller/villiprules_controller.go:95-153 | a fault-free pass does one unit of what is left; with nothing left it is the identity |
| RulesConvergence.ConvergesInThree | internal/controller/villiprules_controller.go:95-153 | at most three passes change anything without faults: then the ConfigMap is rendered, and later passes leave the cluster as it is |
| RulesConvergence.ConvergesDespiteFaults | internal/controller/villiprules_controller.go:95-153 | whatever the first n calls do, after n + 3 passes the ConfigMap holds the rendered spec, for good |
| Fairness.RulesSettle | internal/controller/villiprules_controller.go:78-154 | the same among turns of both controllers for any resources: whatever the first n calls of all do, a rule that has had n + 3 turns of its own is rendered, with nothing left to do, for good |
| Fairness.BothSettle | internal/controller/villipproxy_controller.go:70-193 | joint convergence: n faulty calls, turns in any order; once the rules have had n + 3 turns each or get no more, and then a standing proxy with a port seven, it is settled for what the rules then select, and the rules are rendered |
| Fairness.EverySchedule | internal/controller/villipproxy_controller.go:70-193 | for every endless schedule and any faults in the first n calls: a standing proxy with a port that gets turns again and again is settled from some turn on, and every standing rule that does is rendered; nothing is asked of order or rate |
| Fairness.NotedUnlessLost | internal/controller/villipproxy_controller.go:142-158 | over any run of both with any faults, an annotation that was there, or is yet to be created, is there in the end iff no turn has taken it away as `LosesAnnotation` says |
| Fairness.SettledMountsUnlessLost | internal/controller/villipproxy_controller deployments.go:273-295 | so at the end of any run that has settled the proxy, its Deployment is annotated iff no turn has taken the annotation away, and then it mounts exactly what the rules select by then |
| LastSum.RunKeepsHonest | internal/controller/villiprules_controller configmap.go:103-104 | over every fault-free run, with any edits by users that keep recorded checksums and the data of those ConfigMaps, a recorded checksum is that of the stored data |
| LastSum.HonestUnlessRefused | internal/controller/villiprules_controller configmap.go:134-167 | whatever becomes of the ConfigMap update, also by a change of somebody else, the status claims success: truly iff it took effect or what it met was right already |
| LastSum.HealsIffOutOfDate | internal/controller/villiprules_controller.go:145-153 | a wrong checksum is put right iff the ConfigMap is out of date |
| Deletion.DeletingPass | internal/controller/villiprules_controller steps.go:68-75 | on n finalizers: ceil(n/2) removals, the odd positions are left in order, and an error iff n >= 2 |
| Deletion.OwnMoves | internal/controller/villiprules_controller steps.go:68-75 | an own entry at an even position goes, at an odd position p it moves to (p-1)/2 |
| Deletion.ReleasedAfter | internal/controller/villiprules_controller steps.go:68-75 | the own finalizer is gone after exactly PassesNeeded(p) passes |
| Deletion.PassesNeededIsValuation | internal/controller/villiprules_controller steps.go:68-75 | that number is one more than the power of two in p + 1, so at most floor(log2(p+1)) + 1 |
| Deletion.PassesNeededIsTight | internal/controller/villiprules_controller steps.go:68-75 | the bound is reached at p = 2^j - 1 |
| Deletion.ReleasedIsStuck | internal/controller/villiprules_controller.go:103-105 | without its own finalizer but with others, a deleted rule makes every pass fail and change nothing |
| Deletion.FinalizingPass | internal/controller/villipproxy_controller steps.go:80-134 | Degraded=Unknown, then Degraded=True, then the finalizer goes; in that order, and nothing else changes |
| Objects.RemoveFinalizerKeepsOthers | internal/controller/villipproxy_controller steps.go:122 | the other finalizers stay, in their order |
| Objects.RemoveFinalizerDropsOwn | internal/controller/villipproxy_controller steps.go:122 | every own entry goes, and success is reported iff there was one |
| Objects.SetConditionKeepsTidy | internal/controller/villipproxy_controller steps.go:158-165 | setting a condition keeps types unique, replaces its own type only, and leaves a non-empty list |
| Rollouts.RolloutExact | internal/controller/villiprules_controller configmap.go:197-209 | a fault-free rollout restarts exactly the managed Deployments of the namespace that name the ConfigMap, one write per occurrence, and touches nothing else |
| Rollouts.DigestElements | internal/controller/villiprules_controller configmap.go:199-200 | a name matches an annotation as often as it was written there; a part of a name never does |
| Freshness.RunKeepsFresh | internal/controller/villiprules_controller configmap.go:120-211 | over every fault-free run, with any edits by users that keep the volumes of followed Deployments and the ConfigMaps these mount, the pods of every followed Deployment are younger than every ConfigMap they mount |
| Freshness.ReplacedIffFollowed | internal/controller/villiprules_controller configmap.go:184-198 | a ConfigMap change replaces the pods of an operator-written Deployment that mounts it iff that has kept label and annotation |
| Freshness.RecreatedFreshIffUnmounted | internal/controller/villiprules_controller configmap.go:70-118 | creating a missing ConfigMap keeps freshness iff no followed Deployment mounts it |
| Commutation.RolloutCommutes | internal/controller/villiprules_controller configmap.go:202-203 | rollout and proxy pass give the same cluster in either order, up to versions, times and mount order, iff the pass is not about to change, by what it creates or re-mounts, whether the rollout is for that Deployment, or it was restarted before |

## Left out

- Cache: reads and lists come from the current store, not from an informer cache that may lag; the raw list option of the rollout is taken to select by label.
- Message texts, generations and transition times of conditions: a message is what it says, not its words, so a condition that is set again unchanged writes nothing.
- YAML and SHA-256: the renderer is any function of the spec, the hash any function, injective where a theorem needs it; in the rule spec the parts that only the renderer reads are kept as text.
- Owner references and garbage collection: setting the reference succeeds or fails, and nothing is collected.
- Identity of objects: a name stands for an object; that a deleted and re-created object has another UID is not modelled.
- Validation by the API server (duplicate volume or port names, a Service without ports): such a refusal is a failing call.
- Pod template constants (security context, probes, pull policy): not in the model; image and environment are, as fields that never change.
- Changes of image, target, debug or labels after creation, and of rule labels after the ConfigMap exists: the code does not reconcile them, so no goal mentions them.
- Requeue delays, watches, field index, events, logging, leader election, `cmd/main.go`: not modelled; a requeue is an outcome, without its delay.
- RunKeepsFresh: the passes of the run are atomic and fault-free and users act between them, with edits that cannot themselves make pods older than what they mount; while a pass is between its ConfigMap update and its rollout, or after a rollout that failed and was only logged, the pods are older than the ConfigMap.
- RunKeepsHonest: likewise for atomic, fault-free passes and edits that leave checksums and data; `HonestUnlessRefused` says what one fault does.
- BothSettle: whole passes in any order with nobody else acting; the bound counts the turns of the proxy from when the rules have had theirs, and `EverySchedule`, which needs no such order, gives no bound.
- SettledMountsUnlessLost: for a Deployment that starts annotated or is created on the way; one that starts without annotation keeps its mounts (`MountsMatchIffSeen`).
- RolloutCommutes: a whole rollout against a whole fault-free pass; interleavings of their single calls are covered by `Interleaving.RunsInterleave`, which promises the guarantees and not equal results.
- RunsInterleave: the writes of the other run are delivered through a screen that would hold back an unsound one, and the theorem says that it never does; that an execution without the screen is then the same, call by call, is not a lemma.
- InitialisedOnce: a name stands for the object, so "created again" is the same name; a status that somebody else empties is excluded, and so is a resource that others remove, before it is claimed, and create again in the same run: the record holds only what the controllers write, so it could not tell that from a second initialisation.
