/**
 Runs of the whole reconciler over an App whose spec no one edits. Once its history holds the template they
 are runs of the rollout, so what is proved of those holds of the reconciler.
 */
module Steady {
  import opened Text
  import opened Kube
  import opened Identity
  import opened ReplicaStatus
  import opened Slots
  import opened Sync
  import opened Discipline
  import opened Fleet
  import opened Revisions
  import opened Reconciler
  import opened Lifecycle
  import Rollout
  import Disruption
  import Runs

  // ---- a run of the controller never reads the stored status ----

  function WithoutStatus(app: App): App {
    app.(status := Status(0, 0, 0, 0, 0, 0, 0, "", ""))
  }

  predicate SameSpec(a: App, b: App) {
    WithoutStatus(a) == WithoutStatus(b)
  }

  predicate SameJob(a: Job, b: Job) {
    SameSpec(a.app, b.app) && a.current == b.current && a.update == b.update && a.now == b.now
  }

  /** What decides whether a pod is well kept. */
  predicate SameIdentity(a: App, b: App) {
    a.name == b.name && a.namespace == b.namespace && a.claims == b.claims
  }

  lemma SameMatches(a: App, b: App, pod: Pod)
    requires SameIdentity(a, b)
    ensures MatchesApp(a, pod) == MatchesApp(b, pod) && MatchesClaims(a, pod) == MatchesClaims(b, pod)
  {
    var byName, ordinal := VolumesByName(pod.volumes), OrdinalOf(pod);
    if ordinal >= 0 {
      assert forall claim :: MountsClaim(a, byName, claim, ordinal) == MountsClaim(b, byName, claim, ordinal);
    }
  }

  lemma SameRepair(a: App, b: App, pod: Pod, order: seq<string>)
    requires SameIdentity(a, b)
    ensures MatchesApp(a, pod) == MatchesApp(b, pod) && Repaired(a, pod, order) == Repaired(b, pod, order)
  {
    var named := if MatchesApp(a, pod) then pod else WithIdentity(a, pod);
    SameMatches(a, b, pod);
    SameMatches(a, b, named);
    if MatchesClaims(a, named) {
      assert ClaimVolumes(a, OrdinalOf(named), order) == ClaimVolumes(b, OrdinalOf(named), order);
      SameUnclaimed(a, b, named.volumes);
    }
  }

  lemma {:induction false} SameUnclaimed(a: App, b: App, volumes: seq<Volume>)
    requires a.claims == b.claims
    ensures Unclaimed(a, volumes) == Unclaimed(b, volumes)
  {
    if volumes != [] {
      SameUnclaimed(a, b, volumes[..|volumes| - 1]);
    }
  }

  lemma SameVisit(a: Job, b: Job, pod: Pod, w: World)
    requires SameJob(a, b)
    ensures VisitReplica(a, pod, w) == VisitReplica(b, pod, w)
  {
    SameMatches(a.app, b.app, pod);
  }

  lemma {:induction false} SameScan(a: Job, b: Job, replicas: seq<Pod>, w: World, i: nat)
    requires SameJob(a, b) && i <= |replicas|
    ensures ScanReplicas(a, replicas, w, i) == ScanReplicas(b, replicas, w, i)
    decreases |replicas| - i
  {
    if i < |replicas| {
      SameVisit(a, b, replicas[i], w);
      SameScan(a, b, replicas, w, i + 1);
    }
  }

  lemma {:induction false} SameRemoval(a: Job, b: Job, surplus: seq<Pod>, first: Option<string>, w: World, i: nat)
    requires SameJob(a, b) && i <= |surplus|
    ensures RemoveSurplus(a, surplus, first, w, i) == RemoveSurplus(b, surplus, first, w, i)
    decreases |surplus| - i
  {
    if i < |surplus| {
      SameRemoval(a, b, surplus, first, w, i + 1);
    }
  }

  lemma {:induction false} SameRoll(a: Job, b: Job, replicas: seq<Pod>, w: World, target: int)
    requires SameJob(a, b) && target < |replicas|
    ensures RollReplicas(a, replicas, w, target) == RollReplicas(b, replicas, w, target)
    decreases target + 1
  {
    if target >= a.app.strategy.partition {
      SameRoll(a, b, replicas, w, target - 1);
    }
  }

  lemma SameAct(a: Job, b: Job, replicas: seq<Pod>, surplus: seq<Pod>, w: World)
    requires SameJob(a, b)
    ensures Act(a, replicas, surplus, w) == Act(b, replicas, surplus, w)
  {
    var first := FirstUnhealthy(OrdinalOf, replicas + Reversed(surplus)).name;
    SameScan(a, b, replicas, w, 0);
    SameRemoval(a, b, surplus, first, w, 0);
    SameRoll(a, b, replicas, w, |replicas| - 1);
  }

  lemma {:induction false} SameFill(a: Job, b: Job, slots: seq<Option<Pod>>, build: Builder, i: nat)
    requires SameJob(a, b) && i <= |slots|
    ensures Fill(a, slots, build, i) == Fill(b, slots, build, i)
    decreases |slots| - i
  {
    if i < |slots| {
      SameFill(a, b, FillSlot(a, slots, build, i), build, i + 1);
    }
  }

  lemma SameReplicas(a: Job, b: Job, pods: seq<Pod>, build: Builder)
    requires SameJob(a, b)
    ensures Replicas(a, pods, build) == Replicas(b, pods, build)
  {
    SameFill(a, b, Place(pods, a.app.replicas), build, 0);
  }

  lemma {:induction false} SamePerform(a: App, b: App, fleet: Fleet, commands: seq<Command>, w: World)
    requires SameSpec(a, b)
    ensures PerformAll(a, fleet, commands, w) == PerformAll(b, fleet, commands, w)
  {
    if commands != [] {
      var front, last := commands[..|commands| - 1], commands[|commands| - 1];
      SamePerform(a, b, fleet, front, w);
      var before := PerformAll(a, fleet, front, w);
      if last.RepairPod? && ParsePodName(last.name).1 in before {
        SameRepair(a, b, before[ParsePodName(last.name).1], w.repairOrder(last.name));
      }
    }
  }

  lemma SameKept(a: App, b: App, o: int, pod: Pod)
    requires SameIdentity(a, b) && IsKept(a, o, pod)
    ensures IsKept(b, o, pod)
  {
    SameMatches(a, b, pod);
  }

  lemma SameWellKept(a: App, b: App, fleet: Fleet)
    requires SameIdentity(a, b) && WellKept(a, fleet)
    ensures WellKept(b, fleet)
  {
    forall o <- fleet ensures IsKept(b, o, fleet[o]) {
      SameKept(a, b, o, fleet[o]);
    }
  }

  lemma SameBuildsKept(a: App, b: App, build: Builder)
    requires SameIdentity(a, b) && BuildsKept(a, build)
    ensures BuildsKept(b, build)
  {
    forall revision, i: nat | i < MAX_INT32 ensures IsNew(b, revision, i, build(revision, i)) {
      assert IsNew(a, revision, i, build(revision, i));
      SameKept(a, b, i, build(revision, i).(phase := Pending));
    }
  }

  // ---- one reconcile ----

  /** An ordered App that is not being deleted, with its finalizer and with well-kept pods. */
  ghost predicate IsLive(c: Cluster, bound: int) {
    && IsGuarded(c) && c.app.Some?
    && var app := c.app.value;
       && !app.deleting && APP_FINALIZER in app.finalizers && !app.parallel && app.replicas <= bound <= MAX_INT32
       && WellKept(app, c.fleet) && Bounded(c.fleet, bound)
       && (IsRolling(app) ==> !app.strategy.inPlace && Unmarked(c.fleet))
  }

  /** Its newest revision is the one for its template. */
  ghost predicate IsSteady(c: Cluster, update: Revision, bound: int) {
    && IsLive(c, bound)
    && c.revisions != [] && c.revisions[|c.revisions| - 1] == update && update.data == c.app.value.template
  }

  /** An update leaves the fleet well kept; it makes the next change or none. */
  lemma UpdateMakesNextChange(c: Cluster, app: App, turn: Turn, mid: Cluster, failed: bool, bound: int)
    requires ValidTurn(c, turn) && c.app == Some(app) && UpdatesApp(c, app, turn, mid, failed)
    requires !app.parallel && (IsRolling(app) ==> !app.strategy.inPlace) && app.replicas <= bound <= MAX_INT32
    requires WellKept(app, c.fleet) && Bounded(c.fleet, bound)
    ensures WellKept(app, mid.fleet) && Bounded(mid.fleet, bound) && (Unmarked(c.fleet) ==> Unmarked(mid.fleet))
    ensures
      var job := JobFor(app, c.revisions, turn);
      var next := Changed(job, c.fleet, PodBuilder(app, turn.order), NextChange(job, c.fleet, bound));
      && (mid.fleet == c.fleet || mid.fleet == next)
      && (NothingFails(turn.w) && !turn.historyFails && (IsRolling(app) ==> Unmarked(c.fleet)) ==> mid.fleet == next)
  {
    var job, build := JobFor(app, c.revisions, turn), PodBuilder(app, turn.order);
    PodBuilderKeeps(app, turn.order);
    ChangeKeeps(job, c.fleet, build, bound);
    if !(Ensure(c.revisions, app.template, turn.freshName).changed && turn.historyFails) {
      var pods, replicas, surplus :| UpdatesOver(c, app, turn, mid, failed, pods, replicas, surplus);
      RunMakesNextChange(job, c.fleet, pods, build, replicas, surplus, turn.w, bound);
    }
  }

  /** Whatever else fails, a reconcile that can store the revision makes a live App steady. */
  lemma BecomesSteady(c: Cluster, turn: Turn, c': Cluster, bound: int)
    requires IsLive(c, bound) && ValidTurn(c, turn) && Reconciles(c, turn, c') && !turn.historyFails
    ensures IsSteady(c', JobFor(c.app.value, c.revisions, turn).update, bound)
    ensures c'.app.value == c.app.value.(status := c'.app.value.status)
  {
    var app := c.app.value;
    var mid, failed :| UpdatesApp(c, app, turn, mid, failed) && c' == Finish(c, app, turn, mid, failed);
    var pods, replicas, surplus :| UpdatesOver(c, app, turn, mid, failed, pods, replicas, surplus);
    UpdateMakesSteady(c, app, turn, mid, failed, bound, pods, replicas, surplus);
  }

  lemma UpdateMakesSteady(c: Cluster, app: App, turn: Turn, c': Cluster, failed: bool, bound: int,
                          pods: seq<Pod>, replicas: seq<Pod>, surplus: seq<Pod>)
    requires IsLive(c, bound) && c.app == Some(app) && ValidTurn(c, turn)
    requires UpdatesOver(c, app, turn, c', failed, pods, replicas, surplus)
    ensures IsSteady(c', JobFor(app, c.revisions, turn).update, bound)
    ensures c'.app.value == app.(status := c'.app.value.status)
  {
    var settled := turn.(historyFails := false);
    assert UpdatesApp(c, app, settled, c', failed) by {
      assert UpdatesOver(c, app, settled, c', failed, pods, replicas, surplus);
    }
    UpdateKeepsLive(c, app, settled, c', failed, bound);
    NewestOfLeft(c.revisions, app, turn, pods, c'.revisions);
  }

  lemma UpdateKeepsLive(c: Cluster, app: App, turn: Turn, c': Cluster, failed: bool, bound: int)
    requires IsLive(c, bound) && c.app == Some(app) && ValidTurn(c, turn) && UpdatesApp(c, app, turn, c', failed)
    ensures IsLive(c', bound) && c'.app.value == app.(status := c'.app.value.status)
  {
    UpdateKeepsPods(c, app, turn, c', failed);
    UpdateMakesNextChange(c, app, turn, c', failed, bound);
    SameWellKept(app, c'.app.value, c'.fleet);
  }

  lemma NewestOfLeft(revisions: seq<Revision>, app: App, turn: Turn, pods: seq<Pod>, left: seq<Revision>)
    requires ValidHistory(revisions) && turn.freshName !in Names(revisions)
    requires
      var job := JobFor(app, revisions, turn);
      left == Truncate(Ensure(revisions, app.template, turn.freshName).revisions, revisions,
                       LiveNames(pods, job.current.name, job.update.name), LimitOf(app), turn.deleteFails).0
    ensures left != [] && left[|left| - 1] == JobFor(app, revisions, turn).update
    ensures JobFor(app, revisions, turn).update.data == app.template
  {
    LiveNamesKept(revisions, app, turn, pods);
    NewestIsLast(left, JobFor(app, revisions, turn).update);
  }

  lemma NewestIsLast(revisions: seq<Revision>, newest: Revision)
    requires ValidHistory(revisions) && newest in revisions
    requires forall other <- revisions | other != newest :: other.number < newest.number
    ensures revisions[|revisions| - 1] == newest
  {
    var i :| 0 <= i < |revisions| && revisions[i] == newest;
    var last := revisions[|revisions| - 1];
    assert revisions[i].number <= last.number;
    assert last in revisions;
  }

  /** A steady history needs no change. */
  lemma SteadyEnsures(c: Cluster, update: Revision, bound: int, freshName: string)
    requires IsSteady(c, update, bound)
    ensures Ensure(c.revisions, c.app.value.template, freshName) == Ensured(c.revisions, update, false)
  {
    assert LastWith(c.revisions, update.data) == |c.revisions| - 1;
  }

  function ConfigOf(app: App, update: Revision, bound: int): Rollout.Config {
    Rollout.Config(WithoutStatus(app), update, bound)
  }

  /** What the rollout sees of a cluster. */
  function View(c: Cluster, now: int, update: Revision): Rollout.State
    requires c.app.Some?
  {
    Rollout.State(c.fleet, CurrentOf(c.app.value, c.revisions, update), now)
  }

  /** The current revision stays, or is promoted when the reported status says that the update is complete. */
  lemma CurrentAfter(c: Cluster, turn: Turn, c': Cluster, update: Revision, bound: int, status: Status)
    requires IsSteady(c, update, bound) && IsSteady(c', update, bound)
    requires c'.app.value.status == StoreStatus(c.app.value, status, turn).status
    requires status.currentRevision == CurrentOf(c.app.value, c.revisions, update).name
    requires status.updateRevision == update.name
    requires forall r <- c'.revisions :: r in c.revisions
    requires CurrentOf(c.app.value, c.revisions, update) in c'.revisions
    ensures
      var before, after := CurrentOf(c.app.value, c.revisions, update), CurrentOf(c'.app.value, c'.revisions, update);
      after == before || (UpdateComplete(c.app.value.strategy, status) && after == update)
  {
    var before := CurrentOf(c.app.value, c.revisions, update);
    var name := c'.app.value.status.currentRevision;
    FoundNamed(c.revisions, c.app.value.status.currentRevision, update);
    FoundNamed(c'.revisions, name, update);
    assert update in c'.revisions;
    OneOfName(c'.revisions, CurrentOf(c'.app.value, c'.revisions, update), before);
    OneOfName(c'.revisions, CurrentOf(c'.app.value, c'.revisions, update), update);
    assert before.name in Names(c'.revisions) && update.name in Names(c'.revisions);
  }

  lemma OneOfName(revisions: seq<Revision>, a: Revision, b: Revision)
    requires ValidHistory(revisions) && a in revisions && b in revisions
    ensures a.name == b.name ==> a == b
  {
    var i :| 0 <= i < |revisions| && revisions[i] == a;
    var j :| 0 <= j < |revisions| && revisions[j] == b;
  }

  /** A reconcile of a steady App leaves it steady, and is a reconcile of the rollout. */
  lemma SteadyReconcile(c: Cluster, turn: Turn, c': Cluster, update: Revision, bound: int)
    requires IsSteady(c, update, bound) && ValidTurn(c, turn) && Reconciles(c, turn, c')
    ensures IsSteady(c', update, bound) && SameSpec(c'.app.value, c.app.value)
    ensures
      var config := ConfigOf(c.app.value, update, bound);
      && Rollout.ValidConfig(config)
      && Rollout.Step(config, View(c, turn.now, update), Rollout.Reconcile(turn.w, PodBuilder(c.app.value, turn.order)),
                      View(c', turn.now, update))
  {
    var app := c.app.value;
    SteadyEnsures(c, update, bound, turn.freshName);
    var mid, failed :| UpdatesApp(c, app, turn, mid, failed) && c' == Finish(c, app, turn, mid, failed);
    var pods, replicas, surplus :| UpdatesOver(c, app, turn, mid, failed, pods, replicas, surplus);
    UpdateMakesSteady(c, app, turn, c', failed, bound, pods, replicas, surplus);
    SteadySync(c, app, turn, c', failed, update, bound, pods, replicas, surplus);
  }

  lemma SteadySync(c: Cluster, app: App, turn: Turn, c': Cluster, failed: bool, update: Revision, bound: int,
                   pods: seq<Pod>, replicas: seq<Pod>, surplus: seq<Pod>)
    requires IsSteady(c, update, bound) && c.app == Some(app) && ValidTurn(c, turn) && IsSteady(c', update, bound)
    requires UpdatesOver(c, app, turn, c', failed, pods, replicas, surplus)
    ensures
      Rollout.Step(ConfigOf(app, update, bound), View(c, turn.now, update),
                   Rollout.Reconcile(turn.w, PodBuilder(app, turn.order)), View(c', turn.now, update))
  {
    var config, s, build := ConfigOf(app, update, bound), View(c, turn.now, update), PodBuilder(app, turn.order);
    var job, seen := JobFor(app, c.revisions, turn), Rollout.JobAt(config, s);
    SteadyEnsures(c, update, bound, turn.freshName);
    assert SameJob(job, seen);
    SameAct(job, seen, replicas, surplus, turn.w);
    SameReplicas(job, seen, pods, build);
    SamePerform(app, config.app, c.fleet, Act(job, replicas, surplus, turn.w).commands, turn.w);
    PodBuilderKeeps(app, turn.order);
    SameBuildsKept(app, config.app, build);
    var status := Report(job, pods, replicas + surplus, Act(job, replicas, surplus, turn.w).evicted);
    LeftOfSteady(c, app, turn, c', failed, update, bound, pods, replicas, surplus);
    CurrentAfter(c, turn, c', update, bound, status);
    assert Rollout.SyncsOver(config, s, turn.w, build, View(c', turn.now, update), pods, replicas, surplus);
  }

  /** Truncating a steady history only takes from it, and leaves the current revision. */
  lemma LeftOfSteady(c: Cluster, app: App, turn: Turn, c': Cluster, failed: bool, update: Revision, bound: int,
                     pods: seq<Pod>, replicas: seq<Pod>, surplus: seq<Pod>)
    requires IsSteady(c, update, bound) && c.app == Some(app) && ValidTurn(c, turn)
    requires UpdatesOver(c, app, turn, c', failed, pods, replicas, surplus)
    ensures forall r <- c'.revisions :: r in c.revisions
    ensures CurrentOf(app, c.revisions, update) in c'.revisions
  {
    var job := JobFor(app, c.revisions, turn);
    var live := LiveNames(pods, job.current.name, job.update.name);
    SteadyEnsures(c, update, bound, turn.freshName);
    FoundNamed(c.revisions, app.status.currentRevision, update);
    NonLiveMembers(c.revisions, live);
    var doomed := Doomed(c.revisions, live, LimitOf(app));
    assert forall revision <- doomed :: revision in NonLive(c.revisions, live);
    DeletionIsSafe(c.revisions, doomed, live, turn.deleteFails);
  }

  // ---- whole runs ----

  datatype Moment = Moment(cluster: Cluster, now: int)

  /** A reconcile, or a step that a pod or the clock takes by itself. */
  datatype SteadyEvent = Turned(turn: Turn) | Happened(event: Rollout.Event)

  ghost predicate SteadyStep(update: Revision, bound: int, m: Moment, e: SteadyEvent, m': Moment) {
    && m.cluster.app.Some?
    && match e
       case Turned(turn) =>
         turn.now == m.now == m'.now && ValidTurn(m.cluster, turn) && Reconciles(m.cluster, turn, m'.cluster)
       case Happened(event) =>
         && !event.Reconcile? && m'.cluster == m.cluster.(fleet := m'.cluster.fleet)
         && Rollout.Step(ConfigOf(m.cluster.app.value, update, bound), View(m.cluster, m.now, update), event,
                         View(m'.cluster, m'.now, update))
  }

  ghost function SteadySteps(update: Revision, bound: int): (Moment, SteadyEvent, Moment) -> bool {
    (m, e, m') => SteadyStep(update, bound, m, e, m')
  }

  ghost predicate IsSteadyRun(update: Revision, bound: int, moments: seq<Moment>, events: seq<SteadyEvent>) {
    Runs.IsRunOf(SteadySteps(update, bound), moments, events)
  }

  function ViewOf(m: Moment, update: Revision): Rollout.State {
    if m.cluster.app.Some? then View(m.cluster, m.now, update) else Rollout.State(m.cluster.fleet, update, m.now)
  }

  function EventOf(m: Moment, e: SteadyEvent): Rollout.Event {
    match e
    case Turned(turn) =>
      if m.cluster.app.Some? then Rollout.Reconcile(turn.w, PodBuilder(m.cluster.app.value, turn.order))
      else Rollout.Pass(m.now)
    case Happened(event) => event
  }

  lemma PodStepKeepsSteady(update: Revision, bound: int, m: Moment, event: Rollout.Event, m': Moment)
    requires IsSteady(m.cluster, update, bound) && SteadyStep(update, bound, m, Happened(event), m')
    ensures IsSteady(m'.cluster, update, bound)
  {
    var c, app := m.cluster, m.cluster.app.value;
    var config := ConfigOf(app, update, bound);
    SameWellKept(app, config.app, c.fleet);
    Rollout.StepKeepsInv(config, View(c, m.now, update), event, View(m'.cluster, m'.now, update));
    SameWellKept(config.app, app, m'.cluster.fleet);
    PodStepKeepsStored(config, View(c, m.now, update), event, View(m'.cluster, m'.now, update));
  }

  lemma PodStepKeepsStored(config: Rollout.Config, s: Rollout.State, event: Rollout.Event, s': Rollout.State)
    requires Rollout.Step(config, s, event, s') && !event.Reconcile? && StoredPods(s.fleet, Free)
    ensures StoredPods(s'.fleet, Free)
  {
    forall o <- s'.fleet ensures IsStoredPod(o, s'.fleet[o], Free) {
      assert IsStoredPod(o, s.fleet[o], Free);
    }
  }

  lemma SteadyStepIsStep(update: Revision, bound: int, m: Moment, e: SteadyEvent, m': Moment)
    requires IsSteady(m.cluster, update, bound) && SteadyStep(update, bound, m, e, m')
    ensures IsSteady(m'.cluster, update, bound) && SameSpec(m'.cluster.app.value, m.cluster.app.value)
    ensures
      var config := ConfigOf(m.cluster.app.value, update, bound);
      Rollout.Step(config, ViewOf(m, update), EventOf(m, e), ViewOf(m', update))
  {
    match e
    case Turned(turn) => SteadyReconcile(m.cluster, turn, m'.cluster, update, bound);
    case Happened(event) => PodStepKeepsSteady(update, bound, m, event, m');
  }

  function Views(moments: seq<Moment>, update: Revision): seq<Rollout.State> {
    seq(|moments|, i requires 0 <= i < |moments| => ViewOf(moments[i], update))
  }

  function Events(moments: seq<Moment>, events: seq<SteadyEvent>): seq<Rollout.Event>
    requires |moments| == |events| + 1
  {
    seq(|events|, i requires 0 <= i < |events| => EventOf(moments[i], events[i]))
  }

  /** A run of the whole reconciler over a steady App is a run of the rollout, and the App stays steady. */
  lemma {:induction false} SteadyRunIsRollout(
    update: Revision, bound: int, moments: seq<Moment>, events: seq<SteadyEvent>)
    requires IsSteadyRun(update, bound, moments, events) && IsSteady(moments[0].cluster, update, bound)
    ensures IsSteady(moments[|events|].cluster, update, bound)
    ensures SameSpec(moments[|events|].cluster.app.value, moments[0].cluster.app.value)
    ensures
      var config := ConfigOf(moments[0].cluster.app.value, update, bound);
      Rollout.IsRun(config, Views(moments, update), Events(moments, events))
  {
    if events != [] {
      var last := |events| - 1;
      var front, frontEvents := moments[..|moments| - 1], events[..last];
      SteadyRunIsRollout(update, bound, front, frontEvents);
      assert SteadySteps(update, bound)(moments[last], events[last], moments[last + 1]);
      SteadyStepIsStep(update, bound, moments[last], events[last], moments[last + 1]);
      var config := ConfigOf(moments[0].cluster.app.value, update, bound);
      forall i | 0 <= i < |events|
        ensures Rollout.Step(config, Views(moments, update)[i], Events(moments, events)[i],
                             Views(moments, update)[i + 1])
      {
        if i < last {
          assert Rollout.Step(config, Views(front, update)[i], Events(front, frontEvents)[i],
                              Views(front, update)[i + 1]);
        }
      }
    }
  }

  /**
    What this gives: the reconciler takes at most one pod of a healthy App out of service, whatever fails and
    whatever the partition means, and touches none below the partition.
   */
  lemma ReconcilerDisruptsOneAtATime(update: Revision, bound: int, moments: seq<Moment>, events: seq<SteadyEvent>)
    returns (d: int)
    requires IsSteadyRun(update, bound, moments, events) && IsSteady(moments[0].cluster, update, bound)
    requires Disruption.AllHealthy(ConfigOf(moments[0].cluster.app.value, update, bound), ViewOf(moments[0], update))
    ensures
      var config := ConfigOf(moments[0].cluster.app.value, update, bound);
      Disruption.Quiet(config, ViewOf(moments[0], update), ViewOf(moments[|events|], update), d)
  {
    var config := ConfigAndStart(update, bound, moments, events);
    d := Disruption.OneAtATime(config, Views(moments, update), Events(moments, events));
  }

  lemma ConfigAndStart(update: Revision, bound: int, moments: seq<Moment>, events: seq<SteadyEvent>)
    returns (config: Rollout.Config)
    requires IsSteadyRun(update, bound, moments, events) && IsSteady(moments[0].cluster, update, bound)
    ensures config == ConfigOf(moments[0].cluster.app.value, update, bound) && Rollout.ValidConfig(config)
    ensures Rollout.IsRun(config, Views(moments, update), Events(moments, events))
    ensures Rollout.Inv(config, ViewOf(moments[0], update))
  {
    var app := moments[0].cluster.app.value;
    config := ConfigOf(app, update, bound);
    SteadyRunIsRollout(update, bound, moments, events);
    SameWellKept(app, config.app, moments[0].cluster.fleet);
  }

  /** If the partition is an ordinal, it goes from the top down. */
  lemma ReconcilerGoesDown(update: Revision, bound: int, moments: seq<Moment>, events: seq<SteadyEvent>)
    requires IsSteadyRun(update, bound, moments, events) && IsSteady(moments[0].cluster, update, bound)
    requires !moments[0].cluster.app.value.strategy.unordered
    requires Disruption.AllHealthy(ConfigOf(moments[0].cluster.app.value, update, bound), ViewOf(moments[0], update))
    ensures
      var config := ConfigOf(moments[0].cluster.app.value, update, bound);
      Disruption.OneDisruption(config, ViewOf(moments[0], update), ViewOf(moments[|events|], update))
  {
    var config := ConfigAndStart(update, bound, moments, events);
    Disruption.UpdateDisruptsOneAtATime(config, Views(moments, update), Events(moments, events));
  }

  /** And it makes no more than nine changes per ordinal. */
  lemma ReconcilerChangesBounded(update: Revision, bound: int, moments: seq<Moment>, events: seq<SteadyEvent>)
    requires IsSteadyRun(update, bound, moments, events) && IsSteady(moments[0].cluster, update, bound)
    requires Rollout.ByOrdinal(ConfigOf(moments[0].cluster.app.value, update, bound))
    ensures
      var config := ConfigOf(moments[0].cluster.app.value, update, bound);
      var views, seen := Views(moments, update), Events(moments, events);
      && Rollout.Changes(views, seen) <= 9 * bound
      && (Rollout.Changes(views, seen) >= Rollout.Total(config, views[0]) ==> Rollout.Final(config, views[|events|]))
  {
    var config := ConfigAndStart(update, bound, moments, events);
    var views, seen := Views(moments, update), Events(moments, events);
    Rollout.RunChangesBounded(config, views, seen);
    if Rollout.Changes(views, seen) >= Rollout.Total(config, views[0]) {
      Rollout.EnoughChangesArrive(config, views, seen);
    }
  }
}
