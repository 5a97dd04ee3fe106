/**
 Apps with parallel pod management: one run creates every missing pod and tells every surplus pod to go, and so
 nothing can hold such an App back from its deletion.
 */
module Burst {
  import opened Text
  import opened Kube
  import opened Identity
  import opened Slots
  import opened Sync
  import opened Discipline
  import opened Fleet
  import opened Requests
  import opened Reconciler
  import opened Lifecycle
  import opened Steady
  import opened Deletion
  import Listing
  import Rollout
  import Runs

  // ---- what requests come to ----

  /** No request takes a pod away, and a created one is there. */
  lemma {:induction false} CreatedAreThere(app: App, fleet: Fleet, commands: seq<Command>, w: World)
    requires NothingFails(w)
    ensures fleet.Keys <= PerformAll(app, fleet, commands, w).Keys
    ensures forall command <- commands | command.CreatePod? ::
              OrdinalOf(command.pod) in PerformAll(app, fleet, commands, w)
  {
    if commands != [] {
      var front, last := commands[..|commands| - 1], commands[|commands| - 1];
      assert commands == front + [last];
      CreatedAreThere(app, fleet, front, w);
    }
  }

  ghost predicate IsToldToGo(commands: seq<Command>, o: int) {
    exists command <- commands :: command.DeletePod? && ParsePodName(command.name).1 == o
  }

  /** A pod that is told to go shuts down, and one that does goes on with it. */
  lemma {:induction false} ToldAreGoing(app: App, fleet: Fleet, commands: seq<Command>, w: World, o: int)
    requires NothingFails(w) && o in fleet
    requires forall command <- commands :: command.CreatePod? ==> OrdinalOf(command.pod) != o
    ensures o in PerformAll(app, fleet, commands, w)
    ensures fleet[o].terminating || IsToldToGo(commands, o) ==> PerformAll(app, fleet, commands, w)[o].terminating
  {
    if commands != [] {
      var front, last := commands[..|commands| - 1], commands[|commands| - 1];
      assert commands == front + [last];
      ToldAreGoing(app, fleet, front, w, o);
      TellOne(app, PerformAll(app, fleet, front, w), last, w, o);
      if IsToldToGo(commands, o) {
        var command :| command in commands && command.DeletePod? && ParsePodName(command.name).1 == o;
        assert command != last ==> command in front;
      }
    }
  }

  lemma TellOne(app: App, fleet: Fleet, command: Command, w: World, o: int)
    requires NothingFails(w) && o in fleet && (command.CreatePod? ==> OrdinalOf(command.pod) != o)
    ensures
      var after := Perform(app, fleet, command, w);
      && o in after
      && (fleet[o].terminating || (command.DeletePod? && ParsePodName(command.name).1 == o) ==> after[o].terminating)
  {}

  // ---- one run ----

  /** As long as all stored pods are healthy, one run makes every pod that is missing. */
  lemma MissingAreCreated(job: Job, fleet: Fleet, pods: seq<Pod>, build: Builder, replicas: seq<Pod>,
                          surplus: seq<Pod>, w: World, o: nat)
    requires job.app.parallel && NothingFails(w) && job.app.replicas <= MAX_INT32
    requires Placed(fleet) && BuildsKept(job.app, build) && LaidOut(job, fleet, pods, build, replicas, surplus)
    requires forall i | 0 <= i < job.app.replicas && i in fleet :: Healthy(job, fleet[i])
    requires o < job.app.replicas
    ensures o in PerformAll(job.app, fleet, Act(job, replicas, surplus, w).commands, w)
  {
    var commands := Act(job, replicas, surplus, w).commands;
    FleetReplicas(job, fleet, pods, build);
    BuiltIsUnstored(job, fleet, build, replicas);
    CreatedAreThere(job.app, fleet, commands, w);
    if o !in fleet {
      var create := CreatePod(replicas[o]);
      forall j | 0 <= j < o ensures LetsOn(job, replicas[j]) {
        assert j !in fleet ==> IsUnstored(job.app, j, replicas[j]);
      }
      assert IsUnstored(job.app, o, replicas[o]);
      assert IsKept(job.app, o, replicas[o].(phase := Pending));
      assert IsScanned(job, replicas, 0, o) && IsWanted(job, replicas[o], create);
      WantsExactly(job, replicas, w, 0, create);
      assert create in commands;
    }
  }

  lemma SurplusIsTold(job: Job, replicas: seq<Pod>, surplus: seq<Pod>, w: World, pod: Pod)
    requires job.app.parallel && NothingFails(w) && forall replica <- replicas :: Healthy(job, replica)
    requires pod in surplus && !pod.terminating
    ensures DeletePod(pod.name) in Act(job, replicas, surplus, w).commands
  {
    var first := FirstUnhealthy(OrdinalOf, replicas + Reversed(surplus)).name;
    GoesOnIff(job, replicas, w, 0);
    forall i | IsScanned(job, replicas, 0, i) ensures !EndsRun(job, replicas[i]) {
      assert replicas[i] in replicas;
    }
    var k :| 0 <= k < |surplus| && surplus[k] == pod;
    AllSurplusGoes(job, surplus, first, w, 0, pod.name);
    assert DeletePod(pod.name) in ScaleAndRoll(job, replicas, surplus, first, w).commands;
  }

  lemma AllAreHealthy(job: Job, fleet: Fleet, pods: seq<Pod>, build: Builder, replicas: seq<Pod>)
    requires Keyed(fleet) && Lists(fleet, pods) && replicas == Replicas(job, pods, build)
    requires forall i | 0 <= i < job.app.replicas :: HealthyAt(job, fleet, i)
    ensures forall pod <- replicas :: Healthy(job, pod)
  {
    FleetReplicas(job, fleet, pods, build);
    forall pod <- replicas ensures Healthy(job, pod) {
      var i :| 0 <= i < |replicas| && replicas[i] == pod;
      assert HealthyAt(job, fleet, i);
    }
  }

  /** Once all pods that should be there are healthy, one run tells all others to go, dead ones too. */
  lemma SurplusIsGoing(job: Job, fleet: Fleet, pods: seq<Pod>, build: Builder, replicas: seq<Pod>,
                       surplus: seq<Pod>, w: World, o: int)
    requires job.app.parallel && NothingFails(w)
    requires Keyed(fleet) && LaidOut(job, fleet, pods, build, replicas, surplus)
    requires forall i | 0 <= i < job.app.replicas :: HealthyAt(job, fleet, i)
    requires o in fleet && o >= job.app.replicas
    ensures
      var after := PerformAll(job.app, fleet, Act(job, replicas, surplus, w).commands, w);
      o in after && after[o].terminating
  {
    var commands := Act(job, replicas, surplus, w).commands;
    AllAreHealthy(job, fleet, pods, build, replicas);
    NothingIsCreated(job, replicas, surplus, w);
    if !fleet[o].terminating {
      IsInSurplus(job, fleet, pods, build, replicas, surplus, o);
      SurplusIsTold(job, replicas, surplus, w, fleet[o]);
      assert DeletePod(fleet[o].name) in commands;
    }
    ToldAreGoing(job.app, fleet, commands, w, o);
  }

  lemma NothingIsCreated(job: Job, replicas: seq<Pod>, surplus: seq<Pod>, w: World)
    requires forall pod <- replicas :: Healthy(job, pod)
    ensures forall command <- Act(job, replicas, surplus, w).commands :: !command.CreatePod?
  {
    ActCreatesOnly(job, replicas, surplus, w);
  }

  lemma IsInSurplus(job: Job, fleet: Fleet, pods: seq<Pod>, build: Builder, replicas: seq<Pod>, surplus: seq<Pod>,
                    o: int)
    requires Keyed(fleet) && LaidOut(job, fleet, pods, build, replicas, surplus)
    requires o in fleet && o >= job.app.replicas
    ensures fleet[o] in surplus
  {
    SurplusKeepsAll(pods, job.app.replicas);
    assert fleet[o] in multiset(Surplus(pods, job.app.replicas));
  }

  // ---- deletion ----

  /** A parallel App that is being deleted and still held back, whatever its pods are like. */
  ghost predicate IsLeavingAtOnce(c: Cluster) {
    && IsGuarded(c) && c.app.Some?
    && c.app.value.deleting && APP_FINALIZER in c.app.value.finalizers && c.app.value.parallel
  }

  ghost predicate AllAreGoing(fleet: Fleet) {
    forall o <- fleet :: fleet[o].terminating
  }

  /** One reconcile in which nothing fails tells all pods of an App that is scaled to none to go. */
  lemma AllAreTold(c: Cluster, turn: Turn, c': Cluster)
    requires IsLeavingAtOnce(c) && c.app.value.replicas == 0 && c.fleet != map[] && ValidTurn(c, turn)
    requires NothingFails(turn.w) && !turn.historyFails && Reconciles(c, turn, c')
    ensures AllAreGoing(c'.fleet) && IsLeavingAtOnce(c') && c'.app.value.replicas == 0
  {
    var app := c.app.value;
    ReconcileKeeps(c, turn, c');
    var mid, failed :| UpdatesApp(c, app, turn, mid, failed) && c' == Finish(c, app, turn, mid, failed);
    UpdateKeepsPods(c, app, turn, mid, failed);
    assert AllAreGoing(mid.fleet) by {
      var pods, replicas, surplus :| UpdatesOver(c, app, turn, mid, failed, pods, replicas, surplus);
      RunTellsAll(app, JobFor(app, c.revisions, turn), turn, c.fleet, pods, replicas, surplus);
    }
  }

  lemma RunTellsAll(app: App, job: Job, turn: Turn, fleet: Fleet, pods: seq<Pod>, replicas: seq<Pod>,
                    surplus: seq<Pod>)
    requires job.app == app && app.parallel && app.replicas == 0 && NothingFails(turn.w) && StoredPods(fleet, Free)
    requires LaidOut(job, fleet, pods, PodBuilder(app, turn.order), replicas, surplus)
    ensures AllAreGoing(PerformAll(app, fleet, Act(job, replicas, surplus, turn.w).commands, turn.w))
  {
    var commands := Act(job, replicas, surplus, turn.w).commands;
    StoredIsKeyed(fleet, Free);
    NothingIsCreated(job, replicas, surplus, turn.w);
    PerformAllKeepsPods(app, fleet, commands, turn.w, Free);
    forall o <- PerformAll(app, fleet, commands, turn.w)
      ensures PerformAll(app, fleet, commands, turn.w)[o].terminating
    {
      SurplusIsGoing(job, fleet, pods, PodBuilder(app, turn.order), replicas, surplus, turn.w, o);
    }
  }

  lemma VanishStep(bound: int, m: Moment, o: int) returns (m': Moment)
    requires IsLeavingAtOnce(m.cluster) && AllAreGoing(m.cluster.fleet) && o in m.cluster.fleet
    ensures LeavingStep(bound, m, Moved(Rollout.Vanish(o)), m') && |m'.cluster.fleet| < |m.cluster.fleet|
    ensures IsLeavingAtOnce(m'.cluster) && AllAreGoing(m'.cluster.fleet) && m'.cluster.app == m.cluster.app
  {
    var c := m.cluster;
    m' := Moment(c.(fleet := c.fleet - {o}), m.now);
    StoredWithout(c.fleet, o);
  }

  lemma {:induction false} GoingGoes(bound: int, m: Moment)
    requires IsLeavingAtOnce(m.cluster) && m.cluster.app.value.replicas == 0 && AllAreGoing(m.cluster.fleet)
    ensures CanGo(bound, m)
    decreases |m.cluster.fleet|
  {
    var c := m.cluster;
    if c.fleet == map[] {
      EmptyGoes(bound, m);
    } else {
      assert c.fleet.Keys != {};
      var o := Listing.AnyOf(c.fleet.Keys);
      var m' := VanishStep(bound, m, o);
      GoingGoes(bound, m');
      StepGoes(bound, m, Moved(Rollout.Vanish(o)), m');
    }
  }

  lemma EmptyGoes(bound: int, m: Moment)
    requires IsLeavingAtOnce(m.cluster) && m.cluster.app.value.replicas == 0 && m.cluster.fleet == map[]
    ensures CanGo(bound, m)
  {
    var turn := SomeTurn(m.cluster, m.now);
    var c' := Deletion.CanReconcile(m.cluster, turn);
    ReleasedWithoutPods(m.cluster, turn, c');
    ReleasedGoes(bound, Moment(c', m.now));
    StepGoes(bound, m, Reconciled(turn), Moment(c', m.now));
  }

  lemma StoredWithout(fleet: Fleet, o: int)
    requires StoredPods(fleet, Free) && o in fleet
    ensures StoredPods(fleet - {o}, Free) && |fleet - {o}| < |fleet|
  {
    assert (fleet - {o}).Keys == fleet.Keys - {o} && |fleet.Keys| == |fleet|;
    assert |(fleet - {o}).Keys| == |fleet - {o}|;
    forall k <- fleet - {o} ensures IsStoredPod(k, (fleet - {o})[k], Free) {
      assert IsStoredPod(k, fleet[k], Free);
    }
  }

  lemma ScaledGoesAtOnce(bound: int, m: Moment)
    requires IsLeavingAtOnce(m.cluster) && m.cluster.app.value.replicas == 0
    ensures CanGo(bound, m)
  {
    if m.cluster.fleet == map[] {
      GoingGoes(bound, m);
    } else {
      var turn := SomeTurn(m.cluster, m.now);
      var c' := Deletion.CanReconcile(m.cluster, turn);
      AllAreTold(m.cluster, turn, c');
      GoingGoes(bound, Moment(c', m.now));
      StepGoes(bound, m, Reconciled(turn), Moment(c', m.now));
    }
  }

  /**
   A parallel App that is being deleted can always go, however many of its pods have ended: it does not wait for a
   first unhealthy pod.
   */
  lemma ParallelGoes(bound: int, m: Moment)
    requires IsLeavingAtOnce(m.cluster)
    ensures CanGo(bound, m)
  {
    var app := m.cluster.app.value;
    if app.replicas == 0 {
      ScaledGoesAtOnce(bound, m);
    } else {
      var turn := SomeTurn(m.cluster, m.now);
      var m' := Moment(StoreApp(m.cluster, app.(replicas := 0), false), m.now);
      assert LeavingStep(bound, m, Reconciled(turn), m');
      ReconcileKeeps(m.cluster, turn, m'.cluster);
      ScaledGoesAtOnce(bound, m');
      StepGoes(bound, m, Reconciled(turn), m');
    }
  }
}
