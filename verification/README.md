# Project resource quotas, verified

A ProjectResourceQuota (PRQ, "project" below) limits what the objects of several
namespaces may use together. Three independently written pieces have to agree:

- **admission**: webhooks put the project's name on new objects as an annotation and
  compare a request with the recorded `status.used` only;
- **accounting**: the controller recounts the annotated objects with nested loops over
  namespaces, kinds and objects, and writes `status.used` and `status.namespaces`;
- **cleanup**: the controller takes the annotation off the objects of namespaces that a
  project lists no more, and lets a deleted project go by taking its finalizer away.

The annotation, the finalizer and `status.namespaces` are all that links them. This
project models the three pieces and the cluster they run in, and proves what holds
over whole runs.

## How it is built

| file | content |
|---|---|
| `ResourceModel.dfy` | resource names, objects, projects, what one object charges |
| `Tally.dfy` | sums over the stored objects, independent of order |
| `Accounting.dfy` | the recount cell by cell, and that it is such a sum |
| `Admission.dfy` | the decisions of the webhooks, exact admission |
| `WrittenOut.dfy` | the same rules key by key and kind by kind, and that they agree |
| `Machine.dfy` | the cluster as a state machine |
| `Projects.dfy`, `Ownership.dfy`, `Staleness.dfy`, `Coverage.dfy`, `Safety.dfy`, `Overshoot.dfy`, `Quiescence.dfy` | invariants and theorems over all runs |
| `Cleanup.dfy` | interrupted and completed cleanup |
| `Retries.dfy` | cleanups that are refused for ever, and that nothing else keeps the work from being done |
| `Departure.dfy` | one pass without errors lets a deleted project go |
| `Limits.dfy` | exact conditions and breaking runs for promises that do not always hold |
| `Metadata.dfy`, `Webhooks.dfy`, `ApiServer.dfy`, `Listings.dfy`, `Controller.dfy` | the code itself, as classes and methods with loops |

The state machine splits a reconciliation at every List and Update call. Between any two
of them users, the kubelet and the garbage collector may take any number of steps, a
call may fail, the final writes fail if the project's version has changed, and the
controller may crash. The methods of `Controller.Reconciler` run against
`ApiServer.Server`, which lets others run before every call; each method is proved to
take only steps of the machine (`Valid()` says that the recorded steps are an execution
that ends in the server's present state), so every theorem about runs is a theorem about
the method. On a *quiet* server, where nobody else runs, the same methods are proved to
compute the pure functions of `Accounting` and `Cleanup`. On a *reliable* server, where no call
fails by itself, they are proved to succeed exactly when no webhook refuses a write.

A run keeps to one of three disciplines, named where a theorem needs it. They are
conditions on the users' requests, checkable before the request is made:

- **tidy** (`Machine.Tidy`): users do not write the annotation themselves, except where a
  webhook overwrites it or where it is already stored; a namespace is claimed only when no
  annotated object of another project is in it, dropped only once it is in
  `status.namespaces`; a project is deleted only when nothing is left to clean, and its
  namespaces and the finalizer are not edited afterwards. A project whose
  `status.namespaces` and `spec.namespaces` agree always meets the last two.
- **covering** (`Machine.Covering`): a namespace is claimed only while it holds no object,
  and listed once; a gate key (`pods`, `services` and the other kind counts) is added only
  when every object of that kind in the project's namespaces is annotated. The
  repository's README.md:112 says that existing objects are not limited.
- **serial** (`Machine.Serial`): creations, service type changes and changes of `spec.hard`
  happen while the project is neither queued nor being reconciled.

## Assumptions

- A Quantity is a natural number in a fixed sub-unit, so limits and requests are not
  negative and count limits are whole. An absent key of `Hard` or `Used` reads as zero.
- `PodEffectiveRequests` and `PodEffectiveLimits` are the fields `requests` and `limits` of
  an object: fixed, unspecified and not changed by updates (api/v1/pod_webhook.go:139-143).
  A pod in a terminal phase stays in one.
- Reads see the stored state and an event is queued in the same step as its write. Taking
  a name from the queue and fetching the project is one step; an event between the two is
  the same as that step followed by `Resync`. An update that changes nothing raises no
  event. Admission runs atomically with its write and the webhooks are always reached.
- An update of an object conflicts when the object differs from the listed one, while the API
  server compares resourceVersions: an object changed and changed back in between is refused
  there and accepted here. The model lets every call fail at any time, so what holds of all runs
  covers that refusal; where a result speaks of errors, it counts as one.
- One worker reconciles one project at a time, as the manager is configured. A worker that
  crashes finds every project queued again when it restarts.
- The status subresource is reset on creation, kept on updates of the main resource, and not
  seen by the webhooks; a project being deleted leaves the store with its last finalizer.
- `sets.String.List()` returns the namespaces in some order; nothing depends on which.
- The order of a listing and every choice among pending objects are arbitrary, so the results
  hold for all of them.

## What the code does not promise

- An update that leaves the annotation out of a Service is refused unless a live project
  that limits services and has room for it lists the namespace and so puts the annotation
  back (`Cleanup.UnannotatedUpdateIff`). In a namespace where no project limits services, every
  update that leaves a Service without the annotation is refused.
- So the controller can take the annotation off any object, except that a Service needs a
  new owner below its limit on services (`Cleanup.StripIsAdmittedIff`). A project that has to
  clean a Service of its own, or one that no project can take, fails and is queued again
  for ever (`Retries.RetriesForever`). Where the controller has only errors left and no other
  name waits, the work is done if and only if there is no such Service
  (`Retries.DoneUnlessStuck`). An annotated Service keeps a deleted project in the store until
  it is deleted itself (`Limits.ServiceHoldsProject`, `Limits.DeletedProjectIsHeld`).
- A Service update that does not change the type is refused when the project is at its
  limit on services, although it adds nothing (`Limits.SameTypeUpdateIff`,
  `Limits.FullProjectRefusesUpdate`).
- A namespace listed twice is counted twice; the amount is exact if and only if every
  repeated namespace charges nothing (`Accounting.SequenceVersusSet`,
  `Limits.TwiceListedCountsTwice`).
- With admissions that do not wait for the controller a limit of one admits two objects
  (`Limits.StaleStatusOvershoots`). For tidy, covering users `Overshoot` bounds the overrun,
  by a record that was up to date (`Overshoot.OvershootFromRecord`) and by any record that a
  pass wrote (`Overshoot.OvershootThroughPass`).
- An update of any kind but a Service is not validated, yet it annotates the object, so a
  project is charged for an object that was there before it without any admission
  (`Limits.ExistingObjectsOvershoot`); `Limits.UpdateChargesIff` says exactly when. The same
  comes of annotations written by hand before the limit is set (`Limits.HandWrittenOvershoots`).
  Neither overrun has a bound but the number of such objects.
- The deletion of an object that names somebody else leaves the project that is charged for it
  stale and idle (`Limits.DeletionIsNoticedIff`, `Limits.UnnoticedDeletionLeavesStale`).
- A namespace dropped before it was recorded keeps its annotations until a project lists it
  again or a user writes the object (`Limits.UnrecordedDropOrphans`, `Limits.ForgottenStays`);
  `Ownership.EditKeepsOwnershipIff` and
  `Ownership.DeleteKeepsOwnershipIff` say exactly which edits are safe.
- The repository's README.md calls the quotas per-namespace in line 49 and speaks of
  all pods, not only non-terminal ones, for storage and ephemeral storage in lines 32, 33 and
  40; the code sums over the project and leaves terminal pods out everywhere. The model follows the code.

## Model

| member | source | states |
|---|---|---|
| Metadata.ObjectMeta.AddFinalizer | api/v1/util.go:32-51 | the loop adds the name once, at the end, and only if it is missing |
| Metadata.ObjectMeta.RemoveFinalizer | api/v1/util.go:53-69 | the loop removes every occurrence and keeps the order of the rest |
| Metadata.AddThenRemove | api/v1/util.go:32-69 | adding and then removing a finalizer gives the list back |
| Metadata.RemovalSplits | api/v1/util.go:53-69 | removal looks at each name on its own: what is left of two lists is left of their concatenation |
| Metadata.ObjectMeta.AddAnnotation | api/v1/util.go:81-95 | sets one key and leaves the other annotations |
| Metadata.ObjectMeta.RemoveAnnotation | api/v1/util.go:97-108 | removes one key and leaves the other annotations |
| Webhooks.Default | api/v1/pod_webhook.go:30-65 | the nested search annotates with the first live project that lists the namespace, if that one limits the kind |
| Admission.DefaultIsFirstMatch | api/v1/configmap_webhook.go:29-64 | with disjoint projects the first match is the only live claimant that limits the kind, for every listing order |
| WrittenOut.AnnotatorIsExact | api/v1/pod_webhook.go:30-65 | the annotator writes the name of the one live project that lists the namespace and has the key of the kind, over any name submitted, and changes nothing else |
| Projects.AnnotationIsOrderFree | api/v1/projectresourcequota_webhook.go:91-110 | in every run distinct projects, also deleted ones, have disjoint namespaces, so every annotator answers alike for every listing order |
| Webhooks.DefaultProject | api/v1/projectresourcequota_webhook.go:73-81 | a live project always leaves the webhook with the finalizer, appended if it was missing, a deleted one unchanged |
| Webhooks.ValidatePodCreate | api/v1/pod_webhook.go:74-137 | an unannotated pod is admitted, an unknown project is named, and any other pod is refused for exactly the first shortage: the count, or the first of the eleven rows that request, recorded amount and limit do not satisfy |
| WrittenOut.PodRows | api/v1/pod_webhook.go:104-134 | a pod fits exactly if the count has room and its request, the recorded amount and the limit satisfy each of the eleven rows, written out |
| Admission.PodAdmissionIsExact | api/v1/pod_webhook.go:74-137 | with accurate records a pod is admitted if and only if the project recounted with it fits all twelve limits |
| Admission.ServiceAdmissionIsExact | api/v1/service_webhook.go:106-134 | the same for services, node ports and load balancers |
| Admission.TypeChangeIsExact | api/v1/service_webhook.go:136-162 | with accurate records within the limits, a stored service may change if and only if the project has room for one more service now and fits its three limits with the change |
| Admission.CountedAdmissionIsExact | api/v1/configmap_webhook.go:73-96 | the same for the kinds that are only counted |
| Webhooks.ValidateServiceCreate | api/v1/service_webhook.go:106-134 | admits exactly the unannotated services and those whose stored project is below its limit on services and on their type; a refusal names a service limit that is reached |
| Webhooks.ValidateServiceUpdate | api/v1/service_webhook.go:136-162 | refuses an unannotated service, an unknown project, a project at its service limit, and a change to a type at its limit, and nothing else; a refusal names a service limit that is reached |
| Webhooks.ValidateCountedCreate | api/v1/configmap_webhook.go:73-96 | admits exactly the unannotated objects and those whose stored project is below its count of the kind |
| Webhooks.ValidateNamespace | api/v1/projectresourcequota_webhook.go:91-110 | the triple loop finds a shared namespace of another project if there is one, and names it |
| Webhooks.ValidateResourceName | api/v1/projectresourcequota_webhook.go:113-120 | accepts exactly the supported names, refuses with an unsupported one |
| Webhooks.ValidateProjectCreate | api/v1/projectresourcequota_webhook.go:123-131 | admits exactly if no other stored project lists one of the namespaces and all limited names are supported; a refusal names such a project and namespace, or such a name |
| WrittenOut.ProjectAdmissionIsExact | api/v1/projectresourcequota_webhook.go:91-131 | a project is let in exactly if with it the stored projects still list disjoint namespaces, and all limited names are supported |
| Webhooks.ValidateProjectUpdate | api/v1/projectresourcequota_webhook.go:134-154 | additionally no limit is below its recorded usage, over all twenty names, and nothing else is asked; every refusal names its reason |
| Controller.AddResourceList | internal/controller/projectresourcequota_controller.go:562-571 | key sets are united, amounts are added |
| Machine.FindObjects | internal/controller/projectresourcequota_controller.go:580-586 | an event queues exactly the project the object names |
| Listings.ChargesAreUsage | internal/controller/projectresourcequota_controller.go:283-288 | adding up one listing, in any order, gives the order-free sum of the cell |
| Controller.Reconciler.PodTotals | internal/controller/projectresourcequota_controller.go:321-351 | the two loops give the count and, for each of the eleven keys, the sum of the annotated non-terminal pods |
| Controller.Reconciler.AddPods | internal/controller/projectresourcequota_controller.go:333-415 | pods and each limited compute key grow by the usage of the namespace, every other key stays |
| Controller.Reconciler.CountPods | internal/controller/projectresourcequota_controller.go:315-416 | one pod cell of the accounting, for a listing taken while others run |
| Controller.Reconciler.ServiceTotals | internal/controller/projectresourcequota_controller.go:479-491 | the three counters count annotated services, node ports and load balancers |
| Controller.Reconciler.CountServices | internal/controller/projectresourcequota_controller.go:473-506 | one service cell of the accounting |
| Controller.Reconciler.CountPlain | internal/controller/projectresourcequota_controller.go:277-293 | one cell of a kind that is only counted |
| Controller.Reconciler.CountAll | internal/controller/projectresourcequota_controller.go:265-507 | whatever the old status was, the loops take the counting steps of the machine and, undisturbed, end in the full recount; on a reliable server they never fail |
| Accounting.RecountIsUsage | internal/controller/projectresourcequota_controller.go:275-507 | the recount of a key is the sum over the listed namespaces of what annotated non-terminal objects charge, or nothing if the key or its gate is not limited |
| Accounting.RecountKeys | internal/controller/projectresourcequota_controller.go:275-507 | the recorded keys are exactly the limited keys with a limited gate, none without a namespace |
| WrittenOut.RecordedKeys | internal/controller/projectresourcequota_controller.go:275-507 | the recorded keys written out: compute keys beside pods, service types beside services, the other counts by themselves, each with what the namespaces are charged |
| WrittenOut.PodAdds | internal/controller/projectresourcequota_controller.go:321-416 | an annotated pod adds one to pods and its requests and limits to the eleven compute keys, and nothing at all once it has succeeded or failed |
| WrittenOut.ObjectAdds | internal/controller/projectresourcequota_controller.go:277-313 | any other annotated object adds one to the key of its kind, a service also to the key of its type |
| WrittenOut.NothingAdded | internal/controller/projectresourcequota_controller.go:284-288 | an object without the annotation or in another namespace adds nothing |
| Accounting.AliasesAgree | internal/controller/projectresourcequota_controller.go:353-400 | both names of a request record the same amount |
| Accounting.RecountOrderFree | internal/controller/projectresourcequota_controller.go:275-507 | the order of the namespaces does not matter |
| Accounting.SequenceVersusSet | internal/controller/projectresourcequota_controller.go:275 | a repeated namespace is counted repeatedly; exactly when that is harmless |
| Controller.Reconciler.StripItems | internal/controller/projectresourcequota_controller.go:46-60 | skips unannotated items, updates the others one by one, stops at the first error; on success every annotated item was updated |
| Controller.Reconciler.StripCell | internal/controller/projectresourcequota_controller.go:40-60 | lists one kind and updates it; undisturbed, exactly the annotated objects of the cell are handed over |
| Controller.Reconciler.RemoveAnnotationFromObjects | internal/controller/projectresourcequota_controller.go:32-195 | walks every cell of the namespaces; undisturbed, success hands over exactly the annotated objects there and an error a part of them, and no project is written; on a reliable server it succeeds if and only if every one of these updates is admitted |
| ApiServer.Server.UpdateObject | internal/controller/projectresourcequota_controller.go:51-59 | an update fails without effect or stores what the webhooks make of the stripped object |
| Cleanup.RetryEndsTheSame | internal/controller/projectresourcequota_controller.go:32-195 | over the same cells, a cleanup that stopped anywhere and a full one after it end in the objects of one uninterrupted cleanup |
| Controller.RetryIsOnePass | internal/controller/projectresourcequota_controller.go:228-263 | a pass that stopped anywhere leaves the project and what it has to clean as they were, and the full pass after it ends with the objects and the status of one uninterrupted pass |
| Cleanup.EveryUpdateCounts | internal/controller/projectresourcequota_controller.go:256-263 | the objects that still name the project are those not updated yet, so their number falls with every update |
| Cleanup.HandOver | internal/controller/projectresourcequota_controller.go:32-195 | after a full pass nothing to clean names the project, each object carries exactly its current owner's name, all else is untouched |
| Controller.Reconciler.Removed | internal/controller/projectresourcequota_controller.go:256-258 | the namespaces to clean: recorded and no longer listed, or all of a deleted project |
| Controller.Reconciler.RecountAndWrite | internal/controller/projectresourcequota_controller.go:265-516 | counts and writes status under the fetched version; undisturbed success stores the full recount and the listed namespaces, and on a reliable server it succeeds |
| Controller.Reconciler.Release | internal/controller/projectresourcequota_controller.go:238-248 | the finalizer update; undisturbed success takes this finalizer away and, if it was the last, the project, and touches no other; on a reliable server it succeeds if and only if the project without it passes the project webhook |
| Controller.Reconciler.Process | internal/controller/projectresourcequota_controller.go:228-517 | the pass over a fetched project: cleanup, then the finalizer or the recount, with the status write or the release as its last step; undisturbed on a reliable server it succeeds if and only if each annotated service to clean has a live project below its limit on services, and a deleted project passes its own validator |
| Controller.Reconciler.Reconcile | internal/controller/projectresourcequota_controller.go:213-517 | every execution, with any interference and any failing call, is a run of the state machine; undisturbed it is the whole pass, or on error leaves the projects as they were and part of the objects handed over; undisturbed on a reliable server it succeeds if and only if no webhook refuses one of its writes |
| Controller.Reconciler.Work | internal/controller/projectresourcequota_controller.go:213-517 | success is that of a finished pass, a failed name is queued again; undisturbed it is the whole pass or part of it, and on a reliable server it succeeds under the same condition; with tidy users every project that is not queued afterwards is settled |
| Controller.SecondPassChangesNothing | internal/controller/projectresourcequota_controller.go:256-272 | a second undisturbed pass over a live project writes nothing |
| ApiServer.Server.UpdateStatus | internal/controller/projectresourcequota_controller.go:511-516 | the status write fails on a changed version and otherwise changes status only |
| ApiServer.Server.UpdateProject | internal/controller/projectresourcequota_controller.go:245-248 | the finalizer update goes through the project's own webhooks |
| ApiServer.Server.Create | api/v1/configmap_webhook.go:29-96 | annotator then validator; exactly if admitted it is stored, recorded as this creation, and queues the project it names and no other |
| ApiServer.Server.Update | api/v1/service_webhook.go:29-162 | annotator then update validator; exactly if admitted it is stored and recorded as this update; a change queues the projects named before and after |
| ApiServer.Server.CreatePrq | api/v1/projectresourcequota_webhook.go:73-131 | a new project is stored exactly if its name, namespaces and limits are admitted, with those, the finalizer and an empty status, and is queued; the others stay |
| ApiServer.Server.UpdatePrq | api/v1/projectresourcequota_webhook.go:73-154 | an edit is stored exactly if admitted; it keeps the status and the other projects, a live project keeps the finalizer, and a deleted one leaves with its last |
| Projects.WellformedRun | api/v1/projectresourcequota_webhook.go:73-131 | in every run: disjoint namespaces, supported limits, and an unchanged version proves an unchanged project |
| Ownership.NoOrphans | internal/controller/projectresourcequota_controller.go:228-263 | in every tidy run an annotated object names a stored project that will still clean its namespace and is the only one to claim it |
| Ownership.EditKeepsOwnershipIff | internal/controller/projectresourcequota_controller.go:251-258 | exactly which changes of the namespaces keep every annotation owned |
| Ownership.DeleteKeepsOwnershipIff | internal/controller/projectresourcequota_controller.go:228-236 | exactly when a project may be deleted without leaving an annotation behind |
| Ownership.StripTakesTheNameAway | internal/controller/projectresourcequota_controller.go:51-56 | an updated object never carries the name of the project it is cleaned of |
| Ownership.LiveHoldsFinalizer | api/v1/projectresourcequota_webhook.go:73-81 | in every run a live project holds the finalizer |
| Ownership.DeletingOnlyShrinks | api/v1/pod_webhook.go:39-43 | over any stretch of a tidy run in which a project is being deleted, no object comes to name it |
| Ownership.LeavesClean | internal/controller/projectresourcequota_controller.go:229-249 | in every tidy run a project that leaves the store was being deleted, and no object anywhere carries its name |
| Staleness.NoLostStaleness | internal/controller/projectresourcequota_controller.go:213-517 | in every tidy run a live project that is neither queued nor being reconciled records an exact recount and exactly its namespaces; a deleted one that holds the finalizer is always queued or being reconciled |
| Staleness.CurrentWriteStep | internal/controller/projectresourcequota_controller.go:509-516 | a count that no event disturbed is right when it is written, although it was taken call by call |
| Coverage.CompleteCoverage | api/v1/configmap_webhook.go:29-64 | in every covering run each object of a limited kind carries its project's name, whatever was submitted |
| Coverage.AnnotatedIsTotal | internal/controller/projectresourcequota_controller.go:284-288 | so the annotated amount of a limited kind is the total amount |
| Safety.QuotaNeverExceeded | api/v1/pod_webhook.go:89-135 | in every serialized run every project stays within its limit on every resource, an absent limit being zero |
| Safety.ServiceLimits | api/v1/service_webhook.go:106-162 | the three service limits hold together through creations, type changes and deletions, and typed services never outnumber services |
| Safety.IdleAdmissionIsExact | api/v1/pod_webhook.go:74-137 | in every serialized run an idle live project admits exactly what still fits |
| Safety.UpdateStaysWithin | api/v1/projectresourcequota_webhook.go:134-154 | new limits accepted against the record are not below the real usage |
| Limits.EditIsAdmittedIff | api/v1/projectresourcequota_webhook.go:91-154 | in a serialized run, an edit of an idle live project is admitted if and only if the namespaces are free, the names supported, and no limit is below what the project really uses |
| Safety.DeletionIsAdmitted | internal/controller/projectresourcequota_controller.go:229-249 | in every serialized run the update that takes the finalizer away passes the project's own validator |
| Departure.OnePassLetsGo | internal/controller/projectresourcequota_controller.go:229-249 | in every serialized run, when no annotated service is in its namespaces, every error-free sequence of the worker's steps in a pass over a deleted project takes the finalizer away within a bounded number of steps, and until then the pass goes on and has a step to take |
| Departure.BeginIsLeaving | internal/controller/projectresourcequota_controller.go:228-236 | a pass that just fetched such a project is of that kind |
| Departure.ReleaseEnds | internal/controller/projectresourcequota_controller.go:238-248 | with the release the project leaves the store, exactly unless somebody else's finalizer keeps it |
| Departure.DeletedPassSucceedsIff | internal/controller/projectresourcequota_controller.go:229-249 | in every serialized run, the condition under which the pass over a deleted project succeeds is that no annotated service is in its namespaces |
| Overshoot.OvershootThroughPass | internal/controller/projectresourcequota_controller.go:265-516 | from any status a pass wrote while admissions went on, usage exceeds it by at most one old slack for each admission charged during the pass and one new slack for each since |
| Overshoot.PassKeepsUp | internal/controller/projectresourcequota_controller.go:275-507 | at every point of a count, usage in the namespaces counted so far is at most what was counted and one slack for each admission since the pass began |
| Overshoot.OvershootRun | internal/controller/projectresourcequota_controller.go:265-507 | the bound below, by induction over the run, whatever deletions, terminations and cleanups interleave |
| Overshoot.OvershootBound | api/v1/pod_webhook.go:89-113 | while the record stays, usage of a key grows by at most one slack for each admission that is charged to that key, and such an admission shows room in the record of the key and of its gate |
| Overshoot.OvershootFromRecord | api/v1/service_webhook.go:106-134 | from an up-to-date record on, after n admissions charged to a key, usage is at most used + n (hard - used) for sums and used + n for counts, and used is below hard if n > 0 |
| Quiescence.SecondPassIsIdle | internal/controller/projectresourcequota_controller.go:511-516 | the pass after an exact one strips nothing, writes nothing new and raises no event |
| Quiescence.PassesAreBounded | internal/controller/projectresourcequota_controller.go:511-522 | left alone after a tidy run, the controller starts at most so many passes: queued names, unsettled projects, three for each annotation to take off, two for a pass under way, one for each error |
| Quiescence.ControllerRests | internal/controller/projectresourcequota_controller.go:520-522 | without errors it takes no infinite sequence of steps |
| Quiescence.RestIsSettled | internal/controller/projectresourcequota_controller.go:213-517 | where it has no step left but an error the queue is empty and every project settled, unless a webhook refuses its next write |
| Quiescence.SerializedRest | internal/controller/projectresourcequota_controller.go:213-517 | after a serialized run that can only be the update of services which no project below its limit gates |
| Retries.RetriesForever | internal/controller/projectresourcequota_controller.go:228-263 | a stuck cleanup stays stuck through every sequence of the worker's steps: the service keeps its annotation, the project is not written and is queued or in progress again |
| Retries.OwnServiceIsStuck | api/v1/service_webhook.go:140-143 | a project that has to clean a service of its own is stuck |
| Retries.RefusedIsStuck | api/v1/service_webhook.go:145-153 | a service refused while no other name waits is refused for ever |
| Retries.DoneUnlessStuck | internal/controller/projectresourcequota_controller.go:213-517 | after a serialized run, with no step left but an error and no other name waiting, everything is settled if and only if no cleanup is stuck |
| Cleanup.UnannotatedUpdateIff | api/v1/service_webhook.go:136-162 | exactly when an update that leaves the annotation out is admitted |
| Cleanup.StripIsAdmittedIff | api/v1/service_webhook.go:140-153 | exactly when an annotation can be taken off |
| Limits.ServiceHoldsProject | api/v1/service_webhook.go:140-143 | over any stretch of a tidy run, an annotated service that is not deleted keeps its project, which is being deleted, in the store |
| Limits.DeletedProjectIsHeld | internal/controller/projectresourcequota_controller.go:229-249 | a serialized run after which a deleted project is stuck |
| Limits.SameTypeUpdateIff | api/v1/service_webhook.go:151-161 | in a serialized run, a service update without a type change is admitted by an idle live project if and only if the project really uses less than its limit on services |
| Limits.ServiceUpdateIff | api/v1/service_webhook.go:136-162 | in a serialized run, an idle live project admits a change of its service if and only if it really uses less than its limit on services and fits its three limits with the change |
| Limits.FullProjectRefusesUpdate | api/v1/service_webhook.go:151-153 | a serialized run after which the update that changes nothing is refused |
| Limits.TwiceListedCountsTwice | internal/controller/projectresourcequota_controller.go:275 | a serialized run after which the record is two and the usage one |
| Limits.DeletionIsNoticedIff | internal/controller/projectresourcequota_controller.go:580-586 | the deletion of a charged object is noticed by an up-to-date project if and only if the object names it |
| Limits.UnnoticedDeletionLeavesStale | internal/controller/projectresourcequota_controller.go:580-586 | a run that leaves out only the tidy rule, after which an idle live project records one object and there is none |
| Limits.StaleStatusOvershoots | api/v1/configmap_webhook.go:88-95 | a run that leaves out only the serial rule, in which a limit of one admits two |
| Limits.ExistingObjectsOvershoot | api/v1/configmap_webhook.go:98-101 | a run that leaves out only the covering rule, in which updates charge two to a limit of one |
| Limits.HandWrittenOvershoots | api/v1/configmap_webhook.go:98-101 | a run that leaves out only the tidy rule, in which two objects annotated by hand are charged to a limit of one |
| Limits.UpdateChargesIff | api/v1/configmap_webhook.go:29-64 | exactly when an update charges a project for an object it was not charged for; only for services is it looked at |
| Limits.UnrecordedDropOrphans | internal/controller/projectresourcequota_controller.go:256-258 | a run that leaves an annotation behind, and in every continuation it stays while no project lists or records the namespace and no user writes the object |
| Limits.ForgottenStays | internal/controller/projectresourcequota_controller.go:256-263 | the same for every object in a namespace no project lists or records |

## Left out

- Safety.QuotaNeverExceeded: stated for serialized, covering, tidy runs, because without any one of the three it is false (`Limits.StaleStatusOvershoots`, `Limits.ExistingObjectsOvershoot`, `Limits.HandWrittenOvershoots`). `Overshoot` says by how much without the serial rule; without the others usage also grows by every update for which the condition of `Limits.UpdateChargesIff` holds and by what users annotate by hand.
- Staleness.NoLostStaleness: stated for tidy runs, because the event of an object that names another project queues that other project only (`Limits.DeletionIsNoticedIff`, and the run `Limits.UnnoticedDeletionLeavesStale`).
- Ownership.NoOrphans: stated for tidy runs, because an edit that breaks the rule leaves an annotation behind (`Limits.UnrecordedDropOrphans`).
- Controller.Reconciler.Reconcile: when a pass succeeds is stated for a server where nobody interferes and no call fails by itself; for any other server only what a failed pass leaves undone is bounded, because others may outrun it every time.
- Retries.DoneUnlessStuck: does not decide a refusal while other names wait, because whether it ends then depends on the order in which names are taken, which the model leaves open.
- The rules for combining containers, init containers, sidecars and overhead into a pod's requests and limits (api/v1/util.go:21-30): they belong to a library that is not part of this model.
- Parsing, formatting and decimal scales of quantities, and the wording of errors.
- The PersistentVolumeClaim, ReplicationController, ResourceQuota and Secret webhooks as separate members: they repeat the ConfigMap webhook with another key and are one model with the kind as a parameter.
- Set-up of the manager, scheme, TLS, leader election, logging, contexts and manifests; of the watches only what they deliver is kept.
- Generated deep copies.
- Webhook outages (the object webhooks ignore failures), informer cache lag and resizing of running pods.
- The error paths of `meta.Accessor`: every modelled object has metadata.
- The seven repeated blocks of the cleanup and the eleven of the compute keys are loops over the seven kinds and the eleven keys, in the order of the blocks.
- The order in which sorted namespace lists are walked: any order is allowed.
