# Unicore deployer: the App controller and its scheduler plugins

This project models the deployer of Unicore, a Kubernetes operator, and proves what it keeps:

* the App controller, which works like a StatefulSet controller: it lays the pods of an App out by ordinal,
  creates, restarts and removes them one at a time, rolls a new revision out from the top down, keeps a history
  of revisions, and holds an App back from deletion with a finalizer until its pods are gone;
* the in-place update of a pod's images, which takes a JSON patch apart into images by container name;
* the gang scheduler plugin, which admits the pods of a gang together or not at all, and whose queue order
  writes to a cache while it compares;
* the reservation scheduler plugin, which keeps resources of a node free for pods that are to come.

## How it is built

Each part of the source that changes things step by step is a class or a method with loops here, proved against
a function that says what it computes: `Sync.PodController` (one run of the state controller),
`Revisions.History`, `Reconciler.AppReconciler`, `InPlace.InPlaceUpdater`, `Gang.GangScheduler`,
`GangOrder.GangQueue`, `Reserve.ReserveScheduler`. The lemmas then prove properties of those functions, of state
machines made of them, and of whole runs of those machines. What the controllers cannot decide is a parameter:
which requests to the API server fail (`World`, `Turn`), the order in which Go iterates over a map (`ClaimOrder`,
and every listing of pods), the time, and the name of a new revision.

| file | about |
|---|---|
| `text.dfy`, `kube.dfy`, `listing.dfy` | Go's string routines, the parts of the Kubernetes objects that matter, listings of pods |
| `identity.dfy` | pod names and ordinals, identity, claims and volumes, new pods |
| `replica_status.dfy`, `report.dfy` | the counters of the status, promotion, and what a whole run reports |
| `slots.dfy` | laying pods out by ordinal and filling the gaps |
| `sync.dfy` | one run of `applyUpdate` |
| `requests.dfy` | exactly which requests such a run makes, whatever the policies, and what fails |
| `discipline.dfy`, `fleet.dfy` | which single change an ordered run makes, over the laid-out pods and over the stored ones |
| `runs.dfy` | runs of any machine |
| `rollout.dfy`, `fairness.dfy`, `disruption.dfy` | runs with a fixed spec: convergence, also of runs without end, and one disruption at a time |
| `repair.dfy`, `restore.dfy` | pods that have lost their identity or their volumes |
| `partition.dfy` | what the partition of an ordered update holds back |
| `unordered.dfy` | runs of unordered updates: which of them can end |
| `revisions.dfy` | the revision history |
| `reconciler.dfy`, `lifecycle.dfy` | `Reconcile` with its finalizer, and runs in which users edit and delete the App |
| `tally.dfy` | the stored status is true |
| `steady.dfy`, `arrival.dfy` | runs of the whole reconciler are runs of the rollout, and where they lead |
| `deletion.dfy`, `burst.dfy` | when an App that is being deleted can go; parallel Apps |
| `inplace.dfy` | in-place updates |
| `gang.dfy`, `gang_runs.dfy`, `gang_answers.dfy`, `gang_order.dfy` | gang admission, its runs, the answers on which they go, and the queue order |
| `reserve.dfy` | reservations |

## Main results

* **Convergence.** In an ordered App with a fixed spec no run makes more than nine changes per ordinal, whatever
  fails (`Rollout.RunChangesBounded`); every change brings a measure down (`Rollout.StepLowersTotal`); the final form
  is exactly the ordinals below n, all healthy, and updated from the partition on, and it is kept
  (`Rollout.FinalIsKept`).
* **Where convergence fails.** The final form can be reached if and only if at most one surplus pod has ended
  without ever getting a Ready condition (`Rollout.ConvergenceCondition`). With two, scaling down waits for
  "the first unhealthy pod" while it looks at the highest one, and never goes on (`Rollout.StuckExample`). For the
  same reason an App with two such pods is never let go as long as nobody deletes a pod by hand, and every other one
  can go (`Deletion.DeletionCondition`, `Deletion.DeletingByHandFrees`). A parallel App can always go
  (`Burst.ParallelGoes`).
* **Fair runs arrive.** A run without end, in which a reconcile without failures always comes again and no pod waits
  forever for its next step, gets to the final form and stays there if and only if at most one surplus pod is dead
  when it begins (`Fairness.FairRunArrivesIff`).
* **Unordered updates.** An unordered update of a healthy App can end under one exact condition, and otherwise no
  run ends it (`Unordered.UnorderedCondition`).
* **The whole reconciler.** Its runs over an App with a fixed spec are runs of the rollout, so all this holds of
  them (`Steady.SteadyRunIsRollout`). It can bring a steady App to its final form under the same exact condition
  (`Arrival.ArrivalCondition`), and every new ordered App: first the finalizer, then a revision, then the pods
  (`Arrival.NewAppArrives`).
* **Lost identities.** All this does not need pods that are labelled as they should be: on the way to the final form
  every pod gets its identity back (`Restore.RestoreCondition`).
* **The status is true**: its counters are the numbers of stored pods that they are about, and it promotes the update
  revision exactly when all of them are updated (`Tally.StatusAfterReconcile`). No failed request goes unreported
  (`Requests.NoFailureIsLost`, `Tally.SuccessMeans`).
* **Exact requests**, whatever the policies: what the scan and the update ask for, and for which pods
  (`Requests.WantsExactly`, `Requests.AsksExactly`).
* **One disruption at a time** over every run that starts with all pods healthy, whether the update is ordered or
  unordered, and nothing below the partition is touched (`Disruption.OneAtATime`, `Disruption.QuietMeans`). If the
  partition is an ordinal, the update goes from the top down (`Disruption.UpdateDisruptsOneAtATime`,
  `Disruption.DisruptionBounds`). Both hold of the whole reconciler (`Steady.ReconcilerDisruptsOneAtATime`,
  `Steady.ReconcilerGoesDown`).
* **Ordered discipline** of one run: at most one pod is created or deleted, and only under the conditions that
  ordering asks for (`Discipline.OrderedDiscipline`).
* **Whole life of an App**, whatever its policies and whoever edits its pods: while it owns pods it exists and has
  its finalizer, and the history holds no number, name or template twice (`Lifecycle.RunIsGuarded`). Every pod's label
  names a stored revision, as long as whatever else writes labels, such as in-place updates, writes such names
  (`Lifecycle.RunIsLabelled`).
* **In place equals anew**: whenever every patch operation is accepted, the rewritten pod has the containers of a
  pod built from the new template (`InPlace.InPlaceEqualsRecreate`), also over many updates (`InPlace.RunTracks`).
* **Gangs**: over every run, none or at least as many pods as the label asks for were ever admitted
  (`GangRuns.AdmittedTogetherOrNotAtAll`), and the same goes for those still running or pending, as long as no admitted
  pod of the gang finishes or leaves (`GangRuns.LiveTogetherOrNotAtAll`). None waits in vain
  (`GangRuns.WaitingAreTooFew`); a gang that loses a reservation is out, and refused, for good
  (`GangRuns.RejectedForGood`, `GangAnswers.RefusedForGood`). All this holds of the runs in which pods start on
  nothing but the answers that they get (`GangAnswers.AnswersDecide`).
* **Queue order**: whatever is compared and in which order, all answers come from one strict partial order
  (`GangOrder.AnswerLasts`, `GangOrder.AnswersTransitive`), in which the older gang or pod comes first
  (`GangOrder.OlderComesFirst`).
* **Reservations**: the early-exit loop of `Filter` decides a closed arithmetic condition (`Reserve.ClosedForm`), which
  cleaning up never changes later on (`Reserve.CleaningIsInvisible`).

Where the code does something other than one would expect of it, the model follows the code:

* Scaling down stalls for two ended surplus pods (above).
* An unordered update reads the partition as a number of outdated pods when it creates pods, and as an ordinal when
  it evicts them. Where the two disagree, an evicted pod comes back at the old revision. The update still ends if the
  partition or the number of outdated pods is one, as the update revision is promoted while the only outdated pod is
  missing; otherwise it never does (`Unordered.UnorderedCondition`, `Unordered.EndlessExample`).
* The repair of a pod asks the opposite of its caller about the volumes: a pod that misses a claim never gets it, and
  one that misses nothing else is not stored at all (`Repair.RepairedFacts`, `Restore.MountCondition`).
* Pods that are missing do not keep an update from being complete. While the pods below the partition are missing the
  update revision is promoted, and from then on they come back updated (`Partition.CanPromoteIff`,
  `Partition.PartitionForgotten`).
* The counter of updated ready pods is not reset between the two tallies of a run, and the available counter leaves
  pods out that a run takes for available; both are right under exact conditions (`Reporting.UpdatedReadyCountsTwice`,
  `Reporting.AvailableIsRightIff`).
* An in-place update labels the pod with the status's update revision rather than with the revision whose images it
  puts in (`InPlace.LabelIsRightIff`, `InPlace.Mislabelled`).
* The grace period of an in-place update is counted from an attempt of that update if and only if the pod has no mark
  when it begins (`InPlace.GraceOfUpdate`). Each update leaves a mark, which only the clean-up takes away
  (`InPlace.MarkIsLeft`), and a pod without a readiness gate is never cleaned up (`InPlace.UngatedIsNeverCleaned`): its
  second update changes the images at once (`InPlace.SecondUpdateAtOnce`).
* `Permit` counts pods that were admitted once and have finished or left since. An admission leaves as many live pods
  as the label asks for if and only if the running and pending ones, less the idle ones, are as many
  (`GangRuns.AdmissionIsLiveIff`). `PreFilter` counts live pods only: it turns a pod away that `Permit` would admit
  when more admitted pods are gone than pods are idle (`GangRuns.PreFilterIsRight`,
  `GangRuns.PreFilterRefusesTooMuch`), and in every such case the admission would have left too few live pods
  (`GangRuns.RefusalProtects`).
* `Less` is no strict weak order exactly when a pod without a gang ties with two gangs (`GangOrder.WeakOrderCondition`).
* `Filter` counts a pod's own reservation against it when it stands before another pod's
  (`Reserve.OwnCountsWhenFirst`), and cleaning drops a reservation at an instant at which `Filter` still counts it
  (`Reserve.LastInstant`).

## Model

| member | source | states |
|---|---|---|
| Identity.ParsePrintedName | deployer/internal/controller/app/utils.go:44-63 | for every App name, hyphens included, and every ordinal from 0 on, parsing the printed pod name gives both back |
| Identity.PodNameIsInjective | deployer/internal/controller/app/utils.go:61-63 | no two Apps or ordinals print the same pod name |
| Identity.ParsedNameShape | deployer/internal/controller/app/utils.go:44-54 | a name parses to no App and -1, or to an ordinal that is not negative, the rest of the name being the App's |
| Identity.ClaimedPodHasOrdinal | deployer/internal/controller/app/utils.go:44-54 | a pod whose parsed App name is that of the App has an ordinal from 0 on |
| Identity.MatchesAppIff | deployer/internal/controller/app/utils.go:66-73 | a pod passes the identity test if and only if its name is the printed one for some ordinal and it has the App's namespace and label |
| Identity.CheckClaims | deployer/internal/controller/app/utils.go:88-105 | the two loops decide whether every claim is mounted under its name, a later volume hiding an earlier one |
| Identity.MatchesClaimsIff | deployer/internal/controller/app/utils.go:88-105 | that is, whether for each claim the last volume of its name mounts the claim named after the App and the ordinal |
| Identity.ClaimNameIsInjective | deployer/internal/controller/app/utils.go:57-59 | no two claims of an App, of one pod or of two, have one name |
| Identity.UpdateVolumes | deployer/internal/controller/app/utils.go:229-247 | the new volumes are the claims' in the order met, then the template's whose names are no claim's |
| Identity.NewPodMatches | deployer/internal/controller/app/utils.go:218-247 | a freshly built pod passes both tests that would have it repaired, for every ordinal, template and order of the claims |
| Identity.TemplateVolumesKept | deployer/internal/controller/app/utils.go:241-245 | of two template volumes that no claim replaces both stay, in their order |
| ReplicaStatus.UpdateStatus | deployer/internal/controller/app/replica_status.go:20-38 | the counters over all lists are the numbers of pods that pass each test; one counter adds to what it was |
| ReplicaStatus.CounterOrder | deployer/internal/controller/app/replica_status.go:20-75 | after one tally updated and current are at most replicas, available at most ready, ready at most replicas; available is 0 when minReadySeconds is 0 |
| ReplicaStatus.CompleteMeansAllUpdated | deployer/internal/controller/app/state_controller.go:633-639 | the counters call an update complete if and only if every counted pod is running, ready, staying and at the update revision |
| Reporting.CompleteReport | deployer/internal/controller/app/state_controller.go:385-429 | what a run reports is complete if and only if every stored pod, as laid out, is ready, staying and updated; a pod just built does not count |
| Reporting.UpdatedReadyCountsTwice | deployer/internal/controller/app/replica_status.go:22-36 | the counter that is not reset holds the sum of both tallies of a run, and is right if and only if no listed pod is running, ready and updated |
| Reporting.AvailableIsRightIff | deployer/internal/controller/app/replica_status.go:55-61 | the available counter is the number of pods that a run takes for available if and only if none is available without minReadySeconds, or becomes available at this instant with it; otherwise it is less |
| Reporting.OnePodMiscounted | deployer/internal/controller/app/replica_status.go:22-61 | one ready, updated pod: counted twice as updated and ready, and not at all as available |
| Reporting.OnePodOverlooked | deployer/internal/controller/app/utils.go:198-207 | a pod that becomes available at this instant is available for a run but not for the counter |
| Tally.ReportCountsFleet | deployer/internal/controller/app/replica_status.go:20-75 | the counters that a run reports are the numbers of stored pods that they are about, each pod counted once |
| Tally.StatusAfterReconcile | deployer/internal/controller/app/state_controller.go:525-549 | after a reconcile that could store it the App's status is true of the fleet that the run found, with the promoted revision if and only if all of it was updated |
| Tally.CurrentIsNamed | deployer/internal/controller/app/state_controller.go:117-128 | the current revision is the stored one that the status names, and the update revision if none is |
| Tally.CurrentLasts | deployer/internal/controller/app/state_controller.go:117-128 | in the next reconcile it is the promoted one after a complete update, and otherwise the same |
| Tally.SuccessMeans | deployer/internal/controller/app/state_controller.go:130-166 | an update that does not fail left no pod request failed, a true status, and every revision gone that had to go |
| Slots.ExpectsCurrent | deployer/internal/controller/app/state_controller.go:661-686 | the loop over the slots decides whether the ordinal is to be at the current revision |
| Slots.PlacePods | deployer/internal/controller/app/state_controller.go:229-235 | the array holds each pod with an ordinal below n in its slot; the rest with an ordinal are the surplus |
| Slots.FillGaps | deployer/internal/controller/app/state_controller.go:239-244 | every empty slot of the array is filled in ascending order, each choice seeing the earlier ones |
| Slots.SortDescending | deployer/internal/controller/app/state_controller.go:246-246 | the surplus keeps its pods and comes in an order where ordinals descend |
| Slots.PlaceKeepsAll | deployer/internal/controller/app/state_controller.go:229-235 | with distinct ordinals every pod with an ordinal below n is in the slot of that ordinal |
| Slots.SurplusKeepsAll | deployer/internal/controller/app/state_controller.go:229-235 | the surplus holds exactly the pods with an ordinal from n on |
| Slots.BuiltPod | deployer/internal/controller/app/state_controller.go:642-658 | a pod built for an ordinal carries the ordinal and the revision, needs no repair and has no phase yet |
| Slots.NewPodIsTemplates | deployer/internal/controller/app/utils.go:218-227 | a new pod has the containers and labels of its revision's template, besides the three labels that are set, the printed name as its name and host name, and the App's service as its subdomain |
| Slots.ReplicasByOrdinal | deployer/internal/controller/app/state_controller.go:229-244 | slot i holds the stored pod with ordinal i if there is one, and otherwise a new pod for i at one of the two revisions |
| Slots.NewPodCounts | deployer/internal/controller/app/state_controller.go:661-686 | a new pod of an unordered App is outdated exactly while there are fewer outdated pods than the partition |
| Slots.UnorderedCount | deployer/internal/controller/app/state_controller.go:239-244 | after filling e gaps beside c outdated pods there are max(c, min(partition, c + e)) outdated pods |
| Sync.PodController.DeleteStatefulPod | deployer/internal/controller/app/pod_controller.go:101-112 | a terminating pod is left alone; any other is asked to be deleted |
| Sync.PodController.UpdateStatefulPod | deployer/internal/controller/app/pod_controller.go:58-99 | a repair is stored unless the identity matches and only the volumes do not |
| Sync.PodController.CheckReplica | deployer/internal/controller/app/state_controller.go:283-383 | the requests, failure, availability and stop of one visit are those of VisitReplica |
| Sync.PodController.CheckReplicas | deployer/internal/controller/app/state_controller.go:283-383 | the loop with its break issues the requests of ScanReplicas and says whether all replicas are available |
| Sync.PodController.ScaleDownSurplus | deployer/internal/controller/app/state_controller.go:392-424 | the loop over the surplus issues the requests of RemoveSurplus and leaves the run where that does |
| Sync.PodController.RollOut | deployer/internal/controller/app/state_controller.go:447-520 | the descending loop issues the requests of RollReplicas and says whether a pod was evicted |
| Sync.PodController.FindFirstUnhealthy | deployer/internal/controller/app/state_controller.go:248-270 | the two loops find the unhealthy pod that FirstUnhealthy names |
| Sync.PodController.ApplyUpdate | deployer/internal/controller/app/state_controller.go:168-523 | the whole run issues the requests of Act over the laid-out pods and reports the status of Report |
| Requests.WantsExactly | deployer/internal/controller/app/state_controller.go:283-383 | if nothing fails the scan asks, for each pod that it gets to and for no other, ordered or not: to create a new one, to restart an ended one, claims for a pending one, and a repair for a healthy one whose identity does not match |
| Requests.GoesOnIff | deployer/internal/controller/app/state_controller.go:385-388 | and it lets the run go on if and only if it gets to no pod that ends it, which is not the same for ordered and for parallel Apps |
| Requests.AllSurplusGoes | deployer/internal/controller/app/state_controller.go:393-424 | in a parallel App every surplus pod that is not shutting down is told to go |
| Requests.AsksExactly | deployer/internal/controller/app/state_controller.go:447-520 | the update asks, for each pod that it gets to and for no other: to delete an outdated one, or to update it in place and to delete it if that is refused, and to clean up a marked one once it is found rebuilt |
| Requests.EvictedIff | deployer/internal/controller/app/state_controller.go:473-482 | a run counts a pod as evicted for the update if and only if it asked to delete one and that did not fail |
| Requests.RefusedIsDeleted | deployer/internal/controller/app/state_controller.go:451-482 | an outdated pod that the update gets to is deleted if and only if it is not updated in place |
| Requests.HeldUpAbove | deployer/internal/controller/app/state_controller.go:447-520 | below a pod that does not let it go on the update asks for nothing |
| Requests.MarkedHoldsUp | deployer/internal/controller/app/state_controller.go:485-503 | so no pod below a marked one that is not found rebuilt is deleted or updated, even if that one is ready |
| Requests.NoFailureIsLost | deployer/internal/controller/app/state_controller.go:283-520 | a run fails if one of its requests does, other than one to update in place, and for no other reason than progress of one that cannot be read |
| Discipline.RunIntends | deployer/internal/controller/app/state_controller.go:283-520 | an ordered run makes no pod change or exactly the intended one, and does make it when nothing fails |
| Discipline.OrderedDiscipline | deployer/internal/controller/app/state_controller.go:283-520 | at most one pod is created or deleted; a new or restarted pod has only healthy predecessors, scaling down takes the surplus pod that comes first, which has the highest ordinal as the surplus is sorted, when every slot is healthy, the update takes the highest outdated pod from the partition on when there is no surplus |
| Discipline.ScanIntends | deployer/internal/controller/app/state_controller.go:283-388 | the scan changes no pod but the lowest that is not healthy, and lets the run go on only if there is none |
| Discipline.ScaleDownIntends | deployer/internal/controller/app/state_controller.go:392-429 | scaling down touches at most the first of the descending surplus |
| Discipline.RollIntends | deployer/internal/controller/app/state_controller.go:447-520 | the rolling update touches only the highest outdated pod from the partition on |
| Fleet.FleetReplicas | deployer/internal/controller/app/state_controller.go:229-244 | stored pods stand in their slots and new ones, at one of the two revisions, in the gaps; the lowest gap gets the revision that the partition asks for, as an ordinal or as a number of pods |
| Fleet.FirstUnhealthyIsLowest | deployer/internal/controller/app/state_controller.go:248-270 | in whatever order pods come, the one found has the lowest ordinal of the unhealthy ones |
| Fleet.RunMakesNextChange | deployer/internal/controller/app/state_controller.go:168-523 | whatever fails, a run leaves the stored pods as they are or makes the one next change read off them; when nothing fails it makes it |
| Repair.RepairedFacts | deployer/internal/controller/app/pod_controller.go:61-79 | a repaired pod has the identity that its App asks for and its other labels, and its volumes match if and only if they did before |
| Repair.MendsIff | deployer/internal/controller/app/state_controller.go:319-383 | in an ordered run in which nothing fails a repair is asked for a pod if and only if its identity does not match and all pods up to it are healthy, and claims if and only if it is the first that is not, and pending |
| Repair.RunShowsNextChange | deployer/internal/controller/app/state_controller.go:168-523 | on any stored pods, well kept or not, a run makes the next change or none, besides repairs |
| Repair.RunRestores | deployer/internal/controller/app/state_controller.go:368-382 | after a run in which nothing fails all pods below the first that is not healthy match their App |
| Rollout.StepKeepsInv | deployer/internal/controller/app/state_controller.go:168-523 | every reconcile and every step of a pod keeps the pods named, labelled and mounted for their ordinals |
| Rollout.StepLowersTotal | deployer/internal/controller/app/state_controller.go:168-523 | no step of a run raises the distance to the final form, and each one that changes a pod that is not shutting down lowers it |
| Rollout.RunChangesBounded | deployer/internal/controller/app/state_controller.go:168-523 | however long a run is, whatever fails in it and in whatever order maps are iterated, it makes at most nine changes per ordinal |
| Rollout.FinalMeansNothingLeft | deployer/internal/controller/app/state_controller.go:168-523 | the distance is 0 if and only if the ordinals are exactly those below n, all healthy, and, where pods are to be updated, updated from the partition on |
| Rollout.NotStuck | deployer/internal/controller/app/state_controller.go:168-523 | short of the final form some step brings the fleet closer, as long as at most one surplus pod is dead |
| Rollout.Converges | deployer/internal/controller/app/state_controller.go:168-523 | from every such fleet a run leads to the final form in no more steps than the distance |
| Rollout.ConvergenceCondition | deployer/internal/controller/app/state_controller.go:392-424 | an App, rolling, paused, OnDelete or being deleted, can reach its final form if and only if at most one surplus pod has ended without a Ready condition |
| Rollout.RunKeepsBothDead | deployer/internal/controller/app/state_controller.go:404-410 | two dead surplus pods are there at every point of every run |
| Rollout.StuckExample | deployer/internal/controller/app/state_controller.go:404-410 | such a fleet exists: two ended pods of an App scaled to none |
| Rollout.FinalIsKept | deployer/internal/controller/app/state_controller.go:168-523 | no step of any run leaves the final form |
| Rollout.EnoughChangesArrive | deployer/internal/controller/app/state_controller.go:168-523 | every run that makes as many changes as its first distance ends in the final form |
| Restore.RestoreCondition | deployer/internal/controller/app/state_controller.go:168-523 | whatever the labels and volumes of the pods, an ordered App can get to a final fleet in which every pod has its identity if and only if at most one surplus pod is dead |
| Restore.FinalIsRestored | deployer/internal/controller/app/state_controller.go:368-382 | one reconcile in which nothing fails restores every identity of a final fleet, which is then well kept if and only if every pod mounted its claims before |
| Restore.MountCondition | deployer/internal/controller/app/pod_controller.go:68-75 | from a final fleet a well-kept one can be reached if and only if every pod mounts its claims as it is: no run mounts one that is missing |
| Fairness.ComesCloser | deployer/internal/controller/app/state_controller.go:168-523 | in a run without end, in which a reconcile without failures always comes again and no pod waits forever, a fleet short of its final form is closer to it at some time |
| Fairness.FairRunArrivesIff | deployer/internal/controller/app/state_controller.go:392-424 | such a run gets to the final form and stays there if and only if at most one surplus pod is dead when it begins |
| Fairness.NeverArrives | deployer/internal/controller/app/state_controller.go:404-410 | there is such a run that never gets to the final form: an App scaled to none, with two dead pods |
| Disruption.OneAtATime | deployer/internal/controller/app/state_controller.go:441-520 | over every run from a healthy App, whether the partition is an ordinal or a number of pods, at most one ordinal is out of service, and no pod below the partition is touched |
| Disruption.QuietMeans | deployer/internal/controller/app/state_controller.go:441-520 | of two ordinals one is in service, and pods below the partition are in service and the ones of the start |
| Disruption.UpdateDisruptsOneAtATime | deployer/internal/controller/app/state_controller.go:441-520 | if the partition is an ordinal, over every run from a healthy App: above the one ordinal that is out of service all are updated, below it none is touched |
| Disruption.DisruptionBounds | deployer/internal/controller/app/state_controller.go:441-520 | of two ordinals one is in service, pods below the partition are the ones of the start, and those above one out of service are healthy and updated |
| Disruption.NextChangeWhileUpdating | deployer/internal/controller/app/state_controller.go:441-520 | the next change refills the one ordinal out of service or, with all in service, evicts one at or below it above which all are updated |
| Partition.NewPodRevision | deployer/internal/controller/app/state_controller.go:661-675 | a new pod of an ordered App is at the current revision below the partition and at the update revision from there on |
| Partition.RevisionsComeFrom | deployer/internal/controller/app/state_controller.go:642-675 | over every run a pod has the revision of the one that had its ordinal at the start, or below the partition one that was current at some point, or above it the update revision |
| Partition.CanPromoteIff | deployer/internal/controller/app/state_controller.go:633-639 | a reconcile can promote the update revision if and only if every stored pod is ready, staying and updated; missing ones do not count |
| Partition.PartitionForgotten | deployer/internal/controller/app/state_controller.go:633-675 | two pods of which the partition holds the first back: when it is deleted twice it comes back updated |
| Unordered.NextAmongHealthy | deployer/internal/controller/app/state_controller.go:447-479 | a healthy unordered App is left alone if and only if no outdated pod has an ordinal from the partition on, and is final then; otherwise the highest outdated pod is evicted |
| Unordered.RefillIsNext | deployer/internal/controller/app/state_controller.go:661-686 | an evicted pod comes back outdated if and only if the other outdated pods are fewer than the partition |
| Unordered.CanPromote | deployer/internal/controller/app/state_controller.go:633-639 | while the only outdated pod is missing a reconcile promotes the update revision, before the new pod is counted |
| Unordered.Round | deployer/internal/controller/app/state_controller.go:239-244 | from a healthy App a run leads through one eviction back to a healthy one, with the outdated pods and the current revision that these rules give |
| Unordered.UnorderedCondition | deployer/internal/controller/app/state_controller.go:447-449 | an unordered update of a healthy App can end if and only if the revisions have one name, or the partition or the number of outdated pods is at most one, or no outdated pod has an ordinal from the partition on, or all ordinals below it are outdated |
| Unordered.EndlessRun | deployer/internal/controller/app/state_controller.go:239-244 | where it cannot, every state of every run is one from which it cannot |
| Unordered.EndlessExample | deployer/internal/controller/app/state_controller.go:447-449 | three pods, of which 1 and 2 are outdated, with a partition of 2 |
| Revisions.History.EnsureRevision | deployer/internal/controller/app/state_controller.go:68-115 | the history and the update revision become those of Ensure, or nothing changes when the store fails |
| Revisions.History.TruncateHistory | deployer/internal/controller/app/state_controller.go:552-585 | the history becomes that of Truncate, counting as live what pods carry and the two revisions |
| Revisions.FindCurrent | deployer/internal/controller/app/state_controller.go:117-128 | the current revision is the one the status names, or else the update revision |
| Revisions.EnsureKeepsHistory | deployer/internal/controller/app/state_controller.go:68-115 | no number, name or template is stored twice; the update revision holds the template and has the highest number |
| Revisions.EnsureReuses | deployer/internal/controller/app/state_controller.go:95-108 | going back to a stored template brings that very revision back, and no name is added |
| Revisions.EnsureKeepsNames | deployer/internal/controller/app/state_controller.go:95-115 | no revision's name is lost |
| Revisions.EnsureNumbers | deployer/internal/controller/app/state_controller.go:82-115 | the history changes if and only if its newest revision does not hold the template, and the update revision is then numbered one above it |
| Revisions.DeletesUpToFailure | deployer/internal/controller/app/state_controller.go:575-583 | deleting stops at the first request that fails, with exactly those before it gone |
| Revisions.TruncateKeepsNewest | deployer/internal/controller/app/state_controller.go:552-585 | every live revision stays and of the others exactly the newest up to the limit, in their order |
| Revisions.DeletionIsSafe | deployer/internal/controller/app/state_controller.go:573-583 | whatever fails, no live revision is deleted and the history stays valid |
| Reconciler.AppReconciler.UpdateApp | deployer/internal/controller/app/state_controller.go:53-166 | the cluster becomes one that UpdatesApp allows |
| Reconciler.AppReconciler.UpdateAppStatus | deployer/internal/controller/app/state_controller.go:525-549 | the promoted status is stored if it differs in a field that counts and the request does not fail |
| Reconciler.AppReconciler.Reconcile | deployer/internal/controller/app_controller.go:86-215 | the cluster becomes one that Reconciles allows: finalizer first, scaling to none before deletion, release last |
| Reconciler.DropFinalizer | deployer/internal/controller/app_controller.go:176-186 | the loop keeps every other finalizer in order and says whether it dropped one |
| Arrival.FinalizerComesFirst | deployer/internal/controller/app_controller.go:112-134 | an App without the finalizer gets it, behind those that it has, and nothing else changes; if the request fails nothing changes at all |
| Arrival.ArrivalCondition | deployer/internal/controller/app_controller.go:86-215 | the whole reconciler can bring a steady App to its final form if and only if at most one surplus pod is dead |
| Arrival.NewAppArrives | deployer/internal/controller/app_controller.go:86-215 | from every newly created ordered App some run of reconciles, pods and the clock leads to the finalizer, a stored revision, and exactly the healthy pods that it asks for |
| Lifecycle.ActCreatesOnly | deployer/internal/controller/app/state_controller.go:283-520 | whatever the policy and whatever fails, only pods that are laid out and not yet stored are created |
| Lifecycle.UpdateKeepsPods | deployer/internal/controller/app/state_controller.go:53-166 | whatever the policies and whatever fails, an update leaves every pod under its ordinal and creates none for an App scaled to none; if all labels name stored revisions they do so afterwards |
| Lifecycle.RunIsGuarded | deployer/internal/controller/app_controller.go:112-206 | over every run of users, pods and their editors, reconciles and garbage collection, whatever the policies: an App with pods exists and has its finalizer, and the history is valid |
| Lifecycle.RunIsLabelled | deployer/internal/controller/app/state_controller.go:552-585 | over every run in which whatever else writes labels names stored revisions, every pod's label names a stored revision |
| Lifecycle.NoPodsWhileDeleting | deployer/internal/controller/app_controller.go:152-168 | a reconcile of an App that is being deleted neither creates a pod nor makes one disappear |
| Lifecycle.FinalizerReleasedLast | deployer/internal/controller/app_controller.go:170-206 | the finalizer goes only from an App that is being deleted, scaled to none and without pods; all other finalizers stay |
| Lifecycle.HistoryAfterUpdate | deployer/internal/controller/app/state_controller.go:95-128 | after an update without failures the newest revision holds the template, live ones are all left, and of the rest the newest up to the limit |
| Lifecycle.LimitIsKept | deployer/internal/controller/app/state_controller.go:570-583 | of the revisions that are not live as many as the limit are left, 10 if the App sets none, and the newest ones |
| Lifecycle.OldestGo | deployer/internal/controller/app/state_controller.go:565-583 | of the revisions that are not live the ones that go are older than every one that is left |
| Steady.BecomesSteady | deployer/internal/controller/app_controller.go:209-214 | a reconcile that can store the revision leaves the App with its template as the newest revision, and with well-kept pods |
| Steady.SteadyReconcile | deployer/internal/controller/app_controller.go:209-214 | a reconcile of such an App leaves it so, promotes at most as the status allows, and is a reconcile of the rollout |
| Steady.SteadyRunIsRollout | deployer/internal/controller/app_controller.go:86-215 | a run of the whole reconciler over such an App is a run of the rollout |
| Steady.ReconcilerDisruptsOneAtATime | deployer/internal/controller/app_controller.go:86-215 | over every run of the reconciler from a healthy App, ordered or not, at most one ordinal is out of service and none below the partition is touched |
| Steady.ReconcilerGoesDown | deployer/internal/controller/app_controller.go:86-215 | and if the partition is an ordinal, all above the one out of service are updated |
| Steady.ReconcilerChangesBounded | deployer/internal/controller/app_controller.go:86-215 | over every run, unless pods are updated unordered, the reconciler makes at most nine changes per ordinal, and has arrived once it made as many as the first distance |
| Deletion.ReconcileWhileLeaving | deployer/internal/controller/app_controller.go:152-206 | while pods are left, a reconcile of an App that is being deleted keeps its finalizer and changes at most the highest pod |
| Deletion.StepKeepsHeld | deployer/internal/controller/app_controller.go:152-206 | no step of the controller, of pods by themselves or of other owners of finalizers frees an App with two dead pods |
| Deletion.SomeStepHelps | deployer/internal/controller/app_controller.go:152-206 | with at most one dead pod, some step brings the App closer to having none |
| Deletion.ReleasedWithoutPods | deployer/internal/controller/app_controller.go:170-206 | an App without pods loses its finalizer in the next reconcile in which nothing fails |
| Deletion.DeletionCondition | deployer/internal/controller/app_controller.go:152-206 | as long as nobody deletes a pod by hand, an ordered App that is being deleted can go if and only if at most one of its pods has ended without a Ready condition |
| Deletion.HeldExample | deployer/internal/controller/app_controller.go:152-206 | for every App that is scaled to none and being deleted there are two pods that hold it |
| Deletion.DeletingByHandFrees | deployer/internal/controller/app_controller.go:152-206 | if someone deletes one of the only two dead pods, the App can go after all |
| Burst.MissingAreCreated | deployer/internal/controller/app/state_controller.go:299-317 | in a parallel App whose stored pods are healthy one run makes every missing pod |
| Burst.SurplusIsGoing | deployer/internal/controller/app/state_controller.go:393-424 | and once all are healthy it tells every surplus pod to go, dead ones too |
| Burst.ParallelGoes | deployer/internal/controller/app_controller.go:152-206 | a parallel App that is being deleted can always go |
| InPlace.FourthPart | deployer/internal/controller/app/inplace_update.go:54-57 | the fourth part of a path that the expression matches is the index that it matched |
| InPlace.CollectImages | deployer/internal/controller/app/inplace_update.go:50-62 | the loop gives the new images by container name, or refuses |
| InPlace.RewriteImages | deployer/internal/controller/app/inplace_update.go:156-163 | the array's containers get the images of their names, and nothing else of them changes |
| InPlace.AcceptedIffAllAre | deployer/internal/controller/app/inplace_update.go:51-60 | the patch is accepted if and only if every operation is |
| InPlace.ImageChangeIsAccepted | deployer/internal/controller/app/inplace_update.go:52-61 | replacing the image of any container of the template is accepted, for that container, and can be applied |
| InPlace.AcceptedMeansReplaced | deployer/internal/controller/app/inplace_update.go:52-61 | an accepted operation that can be applied replaces the image of the container that it is taken for |
| InPlace.RewritingIsPatching | deployer/internal/controller/app/inplace_update.go:49-62 | with distinct names the whole patch equals rewriting the images by name |
| InPlace.InPlaceEqualsRecreate | deployer/internal/controller/app/inplace_update.go:134-175 | a pod of the old revision gets the containers of a pod built from the new one, and the templates differ in nothing else |
| InPlace.InPlaceUpdater.InPlaceUpdatePod | deployer/internal/controller/app/inplace_update.go:26-177 | outcome and pod after one attempt are those of Decide, stage by stage |
| InPlace.RefusedIff | deployer/internal/controller/app/inplace_update.go:29-62 | an attempt is refused if and only if the revision or the patch is missing or some operation is not accepted; the pod is then untouched |
| InPlace.WaitingEnds | deployer/internal/controller/app/inplace_update.go:93-131 | the wait is even, and an attempt after it updates the pod |
| InPlace.AttemptDoes | deployer/internal/controller/app/inplace_update.go:64-177 | which of flagging, waiting, failing and updating an attempt with a plan does, each if and only if, and what each changes of the pod |
| InPlace.WaitIsTheRest | deployer/internal/controller/app/inplace_update.go:115-131 | the wait is what is left of the grace in whole seconds, rounded up to an even number |
| InPlace.LabelIsRightIff | deployer/internal/controller/app/inplace_update.go:144-144 | after an update the label names the pod's containers if and only if the status's revision has those of the update revision, or was never stored |
| InPlace.Mislabelled | deployer/internal/controller/app/inplace_update.go:144-144 | every change of one image, attempted while the status still names the revision before, leaves a pod with the new image under the old label |
| InPlace.RunTracks | deployer/internal/controller/app/inplace_update.go:26-177 | over every sequence of attempts, with changing histories, the containers stay those of the revision on the label as long as the status fits at each update |
| InPlace.UpdatedIff | deployer/internal/controller/app/inplace_update.go:93-131 | a planned attempt, for a pod that has no gate or is out of service, puts the images in if and only if there is a mark and the grace counted from it is over but for a second |
| InPlace.GraceOfUpdate | deployer/internal/controller/app/inplace_update.go:64-131 | over every sequence of attempts and clean-ups, an update notes its own start if and only if the pod had no mark when it began, and the images change after the grace counted from the one or the other; it takes the pod out of service if and only if that has a gate and was not out |
| InPlace.MarkIsLeft | deployer/internal/controller/app/state_controller.go:483-512 | after an update the mark is there until the pod is cleaned up, and gone then |
| InPlace.UngatedIsNeverCleaned | deployer/internal/controller/app/state_controller.go:483-512 | a pod without a gate keeps its mark from its first update on |
| InPlace.SecondUpdateAtOnce | deployer/internal/controller/app/inplace_update.go:93-131 | a run of two updates of a pod without a gate: the first waits for the grace, the second puts the images in at its first attempt |
| Gang.GangScheduler.GetRunningAndPending | deployer/schedule_plugin/pkg/plugin/gang/gang.go:260-275 | the loop gives the gang's running and pending pods |
| Gang.GangScheduler.Permit | deployer/schedule_plugin/pkg/plugin/gang/gang.go:171-234 | verdict and maps are those of PermitVerdict and AfterPermit |
| Gang.GangScheduler.AllowWaiting | deployer/schedule_plugin/pkg/plugin/gang/gang.go:223-230 | all waiting pods of the gang join its admitted ones, no other gang's entry changes |
| Gang.GangScheduler.Unreserve | deployer/schedule_plugin/pkg/plugin/gang/gang.go:75-97 | the gang's waiting pods go and the gang is rejected |
| Gang.GangScheduler.PreFilter | deployer/schedule_plugin/pkg/plugin/gang/gang.go:104-135 | the verdict is that of PreFilterVerdict |
| Gang.CountMissing | deployer/schedule_plugin/pkg/plugin/gang/gang.go:203-208 | the loop counts the permitted keys of no running pod |
| GangRuns.TogetherCountsAdmitted | deployer/schedule_plugin/pkg/plugin/gang/gang.go:194-212 | the number that is compared is the number of pods that would then be admitted, plus one for a pod that asks again |
| GangRuns.StepKeepsInv | deployer/schedule_plugin/pkg/plugin/gang/gang.go:75-248 | every event keeps waiting pods pending and not admitted, running gang pods admitted, and each gang all or nothing |
| GangRuns.AdmittedTogetherOrNotAtAll | deployer/schedule_plugin/pkg/plugin/gang/gang.go:171-248 | over every run no pod of a gang was ever admitted or is running, or at least as many as its label asks for, some of which may be gone |
| GangRuns.LiveAfterAdmission | deployer/schedule_plugin/pkg/plugin/gang/gang.go:194-234 | the pods that an admission leaves live and the idle ones are together as many as the running and pending ones |
| GangRuns.AdmissionIsLiveIff | deployer/schedule_plugin/pkg/plugin/gang/gang.go:194-234 | an admission leaves as many live pods as the label asks for if and only if the running and pending ones, less the idle ones, are as many |
| GangRuns.AdmissionIsLive | deployer/schedule_plugin/pkg/plugin/gang/gang.go:194-234 | an admission leaves as many live pods as the label asks for if no admitted pod is gone |
| GangRuns.LiveTogetherOrNotAtAll | deployer/schedule_plugin/pkg/plugin/gang/gang.go:171-248 | over every run in which no admitted pod of the gang finishes or leaves, none is live or at least as many as the label asks for |
| GangRuns.WaitingAreTooFew | deployer/schedule_plugin/pkg/plugin/gang/gang.go:212-234 | over every run, while pods of a gang wait none of it is admitted or running and they are fewer than its label asks for |
| GangRuns.AdmitMovesTheGang | deployer/schedule_plugin/pkg/plugin/gang/gang.go:219-234 | admitting empties the gang's waiting pods into its admitted ones and changes no other gang |
| GangRuns.RejectedForGood | deployer/schedule_plugin/pkg/plugin/gang/gang.go:82-97 | from an Unreserve on, over every run, none of the gang's pods waits or is newly admitted |
| GangRuns.FiltersCompared | deployer/schedule_plugin/pkg/plugin/gang/gang.go:116-132 | the numbers that PreFilter and Permit compare differ by the admitted pods that are gone, the idle pending ones, and one for a pod that asks again |
| GangRuns.PreFilterIsRight | deployer/schedule_plugin/pkg/plugin/gang/gang.go:116-132 | when PreFilter refuses, Permit would wait if and only if the pods seen, plus those gone and one for a pod that asks again, less those idle, are too few; always for a new pod when no admitted pod is gone |
| GangRuns.PreFilterRefusesTooMuch | deployer/schedule_plugin/pkg/plugin/gang/gang.go:127-132 | a run in which two pods of a gang of two are admitted and finish, and PreFilter refuses a third that Permit admits as the only live one |
| GangRuns.RefusalProtects | deployer/schedule_plugin/pkg/plugin/gang/gang.go:127-132 | whenever PreFilter refuses a pod that Permit would admit, that would leave fewer live pods than the label asks for |
| GangAnswers.OthersPass | deployer/schedule_plugin/pkg/plugin/gang/gang.go:104-175 | a pod that lacks a gang label passes both filters and leaves nothing behind |
| GangAnswers.SuccessIff | deployer/schedule_plugin/pkg/plugin/gang/gang.go:171-234 | Permit lets a gang pod pass if and only if its gang is not rejected and the pod is then among the admitted ones |
| GangAnswers.WaitsIff | deployer/schedule_plugin/pkg/plugin/gang/gang.go:212-217 | it tells a pod to wait if and only if that is then among the waiting ones |
| GangAnswers.RefusedIff | deployer/schedule_plugin/pkg/plugin/gang/gang.go:104-192 | either filter refuses for good if and only if the gang is rejected, and with an error if and only if the label is no number; nothing is left behind |
| GangAnswers.TooFewIff | deployer/schedule_plugin/pkg/plugin/gang/gang.go:116-132 | the early filter finds too few pods if and only if the number that Permit compares, with the idle pods and without those gone, is too small |
| GangAnswers.RefusedForGood | deployer/schedule_plugin/pkg/plugin/gang/gang.go:82-97 | from an Unreserve on, over every run, both filters refuse every pod of the gang for good |
| GangAnswers.UnreserveIsForOneGang | deployer/schedule_plugin/pkg/plugin/gang/gang.go:82-97 | Unreserve takes the waiting pods of one gang, leaves those of others waiting in their order, and takes back no admission |
| GangAnswers.CycleStepIsStep | deployer/schedule_plugin/pkg/plugin/gang/gang.go:171-248 | when pods start on the answers that they get, whatever starts was admitted |
| GangAnswers.AnswersDecide | deployer/schedule_plugin/pkg/plugin/gang/gang.go:171-248 | so every run in which they do is one of the runs above, and no pod that was let through waits |
| GangOrder.PrecedesTransitive | deployer/schedule_plugin/pkg/plugin/gang/gang.go:159-164 | the order of gang names is transitive |
| GangOrder.PrecedesTotal | deployer/schedule_plugin/pkg/plugin/gang/gang.go:159-164 | of two different gang names one precedes |
| GangOrder.GangQueue.Less | deployer/schedule_plugin/pkg/plugin/gang/gang.go:139-168 | the table after a comparison, and an answer that is the one of the order which that table defines |
| GangOrder.TableHoldsFirstTimes | deployer/schedule_plugin/pkg/plugin/gang/gang.go:142-157 | a gang's time is the creation time of the first of its pods that any comparison met |
| GangOrder.TimesStay | deployer/schedule_plugin/pkg/plugin/gang/gang.go:142-157 | a gang's time is written once |
| GangOrder.AnswerLasts | deployer/schedule_plugin/pkg/plugin/gang/gang.go:139-168 | every answer of a sequence of comparisons is that of the one order at its end |
| GangOrder.PrecedesByDifference | deployer/schedule_plugin/pkg/plugin/gang/gang.go:159-164 | of two names the one precedes that ends, or has the smaller character, where they differ first |
| GangOrder.OlderComesFirst | deployer/schedule_plugin/pkg/plugin/gang/gang.go:139-168 | over any sequence of comparisons a pod is less than another if and only if it, or the first pod of its gang ever met, was created earlier, or at the same time and its gang's name precedes |
| GangOrder.NeverBothWays | deployer/schedule_plugin/pkg/plugin/gang/gang.go:159-168 | over any sequence no pair is in order both ways, and pods of different gangs are in order one way |
| GangOrder.AnswersTransitive | deployer/schedule_plugin/pkg/plugin/gang/gang.go:159-168 | over any sequence the answers are transitive |
| GangOrder.GangsAreOnePlace | deployer/schedule_plugin/pkg/plugin/gang/gang.go:139-168 | over any sequence pods of one gang are in no order and a third pod gets the same answer for each |
| GangOrder.WeakOrderCondition | deployer/schedule_plugin/pkg/plugin/gang/gang.go:159-168 | being in no order is transitive among pods if and only if none without a gang ties with two gangs |
| GangOrder.NotAWeakOrder | deployer/schedule_plugin/pkg/plugin/gang/gang.go:159-168 | the smallest case where it is not |
| Reserve.ReserveScheduler.Filter | deployer/schedule_plugin/pkg/plugin/reserve/reserve.go:143-181 | the loop with its early return decides Admits |
| Reserve.ReserveScheduler.Load | deployer/schedule_plugin/pkg/plugin/reserve/reserve.go:58-98 | the watch: the reservations become what the ConfigMap holds, and none when it is deleted |
| Reserve.ReserveScheduler.Reserve | deployer/schedule_plugin/pkg/plugin/reserve/reserve.go:112-138 | the ConfigMap gets the entries of other pods, on every node, if there is one and something was dropped |
| Reserve.ReserveScheduler.CleanExpired | deployer/schedule_plugin/pkg/plugin/reserve/reserve.go:185-208 | the ConfigMap gets the entries that have not expired, if there is one and something was dropped |
| Reserve.ReserveScheduler.KeepEverywhere | deployer/schedule_plugin/pkg/plugin/reserve/reserve.go:117-128 | the loops over nodes and entries keep what is to be kept and say whether that is less |
| Reserve.WrittenIsKept | deployer/schedule_plugin/pkg/plugin/reserve/reserve.go:112-208 | what is written to the ConfigMap are the reservations to be kept, on every node, and nothing if there is none or nothing is dropped |
| Reserve.ReserveReleasesOwn | deployer/schedule_plugin/pkg/plugin/reserve/reserve.go:112-138 | what is written when a pod has its node are the reservations of another name or another namespace |
| Reserve.LastForeignDecides | deployer/schedule_plugin/pkg/plugin/reserve/reserve.go:162-178 | for amounts that are not negative only the last live reservation of another pod decides |
| Reserve.SumAdds | deployer/schedule_plugin/pkg/plugin/reserve/reserve.go:153-159 | sums are 0 on nothing, the number itself on one, and add up |
| Reserve.NeedIsSum | deployer/schedule_plugin/pkg/plugin/reserve/reserve.go:153-159 | a pod needs what its containers request together, in CPU and in memory |
| Reserve.ClosedForm | deployer/schedule_plugin/pkg/plugin/reserve/reserve.go:162-180 | the pod passes if and only if no other pod's reservation is live, or the free CPU and memory, less all of those and the own ones before the last of them, cover the sums that its containers request |
| Reserve.OneReservation | deployer/schedule_plugin/pkg/plugin/reserve/reserve.go:162-178 | one reservation refuses a pod if and only if it has not expired, is of another name or another namespace, and leaves too little CPU or memory |
| Reserve.LessIsEasier | deployer/schedule_plugin/pkg/plugin/reserve/reserve.go:153-178 | a pod that requests no more in sum passes wherever another does |
| Reserve.SameSumsSameVerdict | deployer/schedule_plugin/pkg/plugin/reserve/reserve.go:153-178 | pods that request the same in sum get the same verdict |
| Reserve.SplittingIsInvisible | deployer/schedule_plugin/pkg/plugin/reserve/reserve.go:153-159 | splitting a container's request between two containers changes no verdict |
| Reserve.OneContainerMore | deployer/schedule_plugin/pkg/plugin/reserve/reserve.go:153-159 | one more container lets no pod pass that was refused |
| Reserve.WithoutOwn | deployer/schedule_plugin/pkg/plugin/reserve/reserve.go:162-180 | without own reservations: if and only if none is live or the need fits beside all |
| Reserve.NodesAreApart | deployer/schedule_plugin/pkg/plugin/reserve/reserve.go:143-146 | only reservations of the node at hand count, and without any every pod passes |
| Reserve.OrderDoesNotMatter | deployer/schedule_plugin/pkg/plugin/reserve/reserve.go:162-180 | without own reservations the order of the list does not matter |
| Reserve.OthersAreCovered | deployer/schedule_plugin/pkg/plugin/reserve/reserve.go:167-178 | passing beside another pod's live reservation leaves enough for all of those |
| Reserve.OwnCountsWhenFirst | deployer/schedule_plugin/pkg/plugin/reserve/reserve.go:167-169 | with one own and one other reservation the order decides whether the own one counts |
| Reserve.CleaningIsInvisible | deployer/schedule_plugin/pkg/plugin/reserve/reserve.go:183-199 | cleaning at one time changes no verdict at any later time |
| Reserve.CleaningAtTheInstant | deployer/schedule_plugin/pkg/plugin/reserve/reserve.go:163-192 | at one and the same time cleaning keeps what Filter counts if and only if nothing expires at that instant |
| Reserve.LastInstant | deployer/schedule_plugin/pkg/plugin/reserve/reserve.go:163-192 | a reservation that expires at this instant refuses a pod, which passes once it is cleaned |
| Reserve.ReleasingHelps | deployer/schedule_plugin/pkg/plugin/reserve/reserve.go:112-138 | releasing a pod's entries makes no pod fail that passed, on any node |
| Reserve.OthersKeepTheirOrder | deployer/schedule_plugin/pkg/plugin/reserve/reserve.go:119-126 | each other entry is kept right behind the ones kept before it, and no own entry is |

## Left out

- Kubernetes clients, informers, events and retries on conflict: a request takes effect at once or fails. Each reconcile, Permit, Unreserve, Reserve and cleaning round is one atomic step on a fresh cache.
- The JSON patch and JSON libraries: `InPlace` takes the promise of `CreatePatch` as a hypothesis (`IsDiff`), and models what replacing an image does; every other operation may do anything.
- Revision equality is equality of data, and a new revision gets a name that is not in use, so hash collisions are not modelled. A history is the sorted listing, oldest first.
- Adopting orphaned revisions, and claiming pods by selector and owner (`getAppPods`): the pods of the App are given, each under an ordinal of its own.
- The runs of `Rollout`, `Disruption` and `Steady` are about pods that are replaced: where pods are to be updated, the policy is ReCreate and no pod carries an in-place mark. In `Lifecycle` an in-place edit is a step in which anything of a pod but its name may change; `InPlace.RunTracks` says what its label keeps.
- `IsInPlaceUpdateDone`: it compares an image id with a stored container id, so it proves nothing about completion; it is an answer of `World` here. Recording the old container ids, which needs a status for every container, is not part of this model.
- A repair is stored whatever it changes, a name or volumes included, which the API server may refuse; it is then a request that fails.
- Defaulting of the update strategy, which is taken to have happened; the replica count, the partition and the history limit are not negative; a missing history limit is 10.
- Parallel pod management is part of `Sync`, `Requests`, `Burst` and of the runs in `Lifecycle`; discipline, convergence and disruption are about ordered Apps only.
- Conditions of the App, requeue durations, comparison of volume claims and label selectors in the status; ObservedGeneration is one flag.
- `CleanUp` of the gang plugin: it ranges over a map that nothing stores into, so it never removes anything.
- Waiting pods that run into the framework's timeout: the framework unreserves them, which is the step `Unreserve`.
- 64-bit wrap-around in the sums of the reservation plugin, and concurrent writers of its ConfigMap.
- The image daemon, containerd, generated code and HTTP handlers.
- Rollout.RunChangesBounded: does not cover unordered updates; `Unordered` covers those that start from a healthy App without surplus.
- Arrival.NewAppArrives: does not cover unordered updates; with in-place updates or parallel pods an App is not steady in the sense of `Steady`.
- InPlace.RunTracks: takes it that a revision name never comes to stand for other data, as names carry a hash of it.
