/**
 Whole runs of one App: reconciles, any of whose requests may fail, mixed with users who create, edit
 and delete the App and with pods that change and disappear at any time.
 */
module Lifecycle {
  import opened Text
  import opened Kube
  import opened Identity
  import opened Slots
  import opened Sync
  import opened Discipline
  import opened Fleet
  import opened Revisions
  import opened Reconciler
  import Runs

  // ---- what holds throughout ----

  predicate ValidApp(app: App) {
    app.replicas <= MAX_INT32
  }

  /** What revision labels may say: the names of known revisions, or anything at all. */
  datatype Labels = Known(names: set<string>) | Free

  predicate Allows(labels: Labels, name: string) {
    labels.Known? ==> name in labels.names
  }

  /** A stored pod: under the ordinal in its name, with a phase, and with a label that may be. */
  ghost predicate IsStoredPod(ordinal: int, pod: Pod, labels: Labels) {
    && 0 <= ordinal <= MAX_INT64 && OrdinalOf(pod) == ordinal
    && !pod.phase.Unset? && Allows(labels, RevisionOf(pod))
  }

  ghost predicate StoredPods(fleet: Fleet, labels: Labels) {
    forall o <- fleet :: IsStoredPod(o, fleet[o], labels)
  }

  /** An App that owns pods exists and has its finalizer, and the history is valid. */
  ghost predicate IsGuarded(c: Cluster) {
    && (c.app.Some? ==> ValidApp(c.app.value))
    && ValidHistory(c.revisions)
    && StoredPods(c.fleet, Free)
    && (c.fleet != map[] ==> c.app.Some? && APP_FINALIZER in c.app.value.finalizers)
  }

  /** Every pod's label names a stored revision. */
  ghost predicate IsLabelled(c: Cluster) {
    StoredPods(c.fleet, Known(Names(c.revisions)))
  }

  // ---- what one run can do to the fleet ----

  ghost predicate CreatesOnly(commands: seq<Command>, replicas: seq<Pod>) {
    forall command <- commands | command.CreatePod? :: command.pod in replicas && command.pod.phase.Unset?
  }

  lemma {:induction false} ScanCreatesOnly(job: Job, replicas: seq<Pod>, w: World, i: nat)
    requires i <= |replicas|
    ensures CreatesOnly(ScanReplicas(job, replicas, w, i).commands, replicas)
    decreases |replicas| - i
  {
    if i < |replicas| {
      VisitCreatesOnly(job, replicas[i], w);
      ScanCreatesOnly(job, replicas, w, i + 1);
    }
  }

  lemma VisitCreatesOnly(job: Job, pod: Pod, w: World)
    ensures CreatesOnly(VisitReplica(job, pod, w).commands, [pod])
  {}

  lemma {:induction false} RemoveCreatesNone(job: Job, surplus: seq<Pod>, first: Option<string>, w: World, i: nat)
    requires i <= |surplus|
    ensures CreatesOnly(RemoveSurplus(job, surplus, first, w, i).commands, [])
    decreases |surplus| - i
  {
    if i < |surplus| {
      RemoveCreatesNone(job, surplus, first, w, i + 1);
    }
  }

  lemma {:induction false} RollCreatesNone(job: Job, replicas: seq<Pod>, w: World, target: int)
    requires target < |replicas|
    ensures CreatesOnly(RollReplicas(job, replicas, w, target).commands, [])
    decreases target + 1
  {
    if target >= job.app.strategy.partition {
      RollCreatesNone(job, replicas, w, target - 1);
    }
  }

  /** Whatever the policy and whatever fails, only pods laid out and not yet stored are created. */
  lemma ActCreatesOnly(job: Job, replicas: seq<Pod>, surplus: seq<Pod>, w: World)
    ensures CreatesOnly(Act(job, replicas, surplus, w).commands, replicas)
  {
    var first := FirstUnhealthy(OrdinalOf, replicas + Reversed(surplus)).name;
    ScanCreatesOnly(job, replicas, w, 0);
    RemoveCreatesNone(job, surplus, first, w, 0);
    RollCreatesNone(job, replicas, w, |replicas| - 1);
  }

  lemma RepairKeepsPod(app: App, o: int, pod: Pod, labels: Labels)
    requires IsStoredPod(o, pod, labels)
    ensures forall order :: IsStoredPod(o, Repaired(app, pod, order), labels)
  {
    ParsePrintedName(app.name, o);
  }

  /** The pods that a run creates, stored. */
  ghost predicate StorableCreates(commands: seq<Command>, labels: Labels) {
    forall command <- commands | command.CreatePod? ::
      IsStoredPod(OrdinalOf(command.pod), command.pod.(phase := Pending), labels)
  }

  lemma PerformKeepsPods(app: App, fleet: Fleet, command: Command, w: World, labels: Labels)
    requires StoredPods(fleet, labels) && StorableCreates([command], labels)
    ensures StoredPods(Perform(app, fleet, command, w), labels)
    ensures !command.CreatePod? ==> Perform(app, fleet, command, w).Keys == fleet.Keys
  {
    if command.RepairPod? {
      var o := ParsePodName(command.name).1;
      if o in fleet {
        RepairKeepsPod(app, o, fleet[o], labels);
      }
    } else if command.CreatePod? {
      assert command in [command];
    }
  }

  lemma {:induction false} PerformAllKeepsPods(app: App, fleet: Fleet, commands: seq<Command>, w: World,
                                               labels: Labels)
    requires StoredPods(fleet, labels) && StorableCreates(commands, labels)
    ensures StoredPods(PerformAll(app, fleet, commands, w), labels)
    ensures CreatesOnly(commands, []) ==> PerformAll(app, fleet, commands, w).Keys == fleet.Keys
  {
    if commands != [] {
      var front, last := commands[..|commands| - 1], commands[|commands| - 1];
      PerformAllKeepsPods(app, fleet, front, w, labels);
      PerformKeepsPods(app, PerformAll(app, fleet, front, w), last, w, labels);
    }
  }

  lemma OtherLabels(fleet: Fleet, labels: Labels, others: Labels)
    requires StoredPods(fleet, labels) && (forall o <- fleet :: Allows(others, RevisionOf(fleet[o])))
    ensures StoredPods(fleet, others)
  {
    assert forall o <- fleet :: IsStoredPod(o, fleet[o], labels);
  }

  lemma StoredIsKeyed(fleet: Fleet, labels: Labels)
    requires StoredPods(fleet, labels)
    ensures Keyed(fleet)
  {
    assert forall o <- fleet :: IsStoredPod(o, fleet[o], labels);
  }

  // ---- one update of the App ----

  ghost predicate ValidTurn(c: Cluster, turn: Turn) {
    && turn.freshName !in Names(c.revisions)
    && (c.app.Some? ==> forall i: nat :: IsClaimOrder(c.app.value, turn.order(i)))
  }

  /** The revisions that pods carry or are about to carry are still there once the history is truncated. */
  lemma LiveNamesKept(revisions: seq<Revision>, app: App, turn: Turn, pods: seq<Pod>)
    requires ValidHistory(revisions) && turn.freshName !in Names(revisions)
    ensures var ensured := Ensure(revisions, app.template, turn.freshName);
            var job := JobFor(app, revisions, turn);
            var live := LiveNames(pods, job.current.name, job.update.name);
            var left := Truncate(ensured.revisions, revisions, live, LimitOf(app), turn.deleteFails).0;
            && ValidHistory(left)
            && (Names(revisions) + {job.update.name}) * live <= Names(left)
            && job.current.name in Names(left) && job.update in left && job.update.data == app.template
            && (forall other <- left | other != job.update :: other.number < job.update.number)
  {
    var ensured := Ensure(revisions, app.template, turn.freshName);
    var job := JobFor(app, revisions, turn);
    var live := LiveNames(pods, job.current.name, job.update.name);
    EnsureKeepsHistory(revisions, app.template, turn.freshName);
    EnsureKeepsNames(revisions, app.template, turn.freshName);
    FoundNamed(revisions, app.status.currentRevision, job.update);
    NonLiveMembers(revisions, live);
    var doomed := Doomed(revisions, live, LimitOf(app));
    assert forall revision <- doomed :: revision in NonLive(revisions, live);
    DeletionIsSafe(ensured.revisions, doomed, live, turn.deleteFails);
    assert job.current.name in Names(ensured.revisions);
  }

  lemma NewPodsStorable(app: App, job: Job, turn: Turn, pods: seq<Pod>, replicas: seq<Pod>, labels: Labels, pod: Pod)
    requires job.app == app && app.replicas <= MAX_INT32 && forall i: nat :: IsClaimOrder(app, turn.order(i))
    requires HaveOrdinals(pods) && DistinctOrdinals(pods) && forall stored <- pods :: !stored.phase.Unset?
    requires replicas == Replicas(job, pods, PodBuilder(app, turn.order))
    requires Allows(labels, job.current.name) && Allows(labels, job.update.name)
    requires pod in replicas && pod.phase.Unset?
    ensures IsStoredPod(OrdinalOf(pod), pod.(phase := Pending), labels)
  {
    var build := PodBuilder(app, turn.order);
    ReplicasByOrdinal(job, pods, build);
    var i :| 0 <= i < |replicas| && replicas[i] == pod;
    var revision :| revision in {job.current, job.update} && pod == build(revision, i);
    BuiltPod(app, turn.order, revision, i);
  }

  /** A run leaves stored pods, with labels that may be if those of its two revisions may. */
  lemma RunKeepsPods(app: App, job: Job, turn: Turn, fleet: Fleet, pods: seq<Pod>, replicas: seq<Pod>,
                     surplus: seq<Pod>, labels: Labels)
    requires job.app == app && app.replicas <= MAX_INT32 && forall i: nat :: IsClaimOrder(app, turn.order(i))
    requires StoredPods(fleet, labels) && Allows(labels, job.current.name) && Allows(labels, job.update.name)
    requires Lists(fleet, pods) && replicas == Replicas(job, pods, PodBuilder(app, turn.order))
    ensures
      var fleet' := PerformAll(app, fleet, Act(job, replicas, surplus, turn.w).commands, turn.w);
      StoredPods(fleet', labels) && (app.replicas == 0 ==> fleet'.Keys == fleet.Keys)
  {
    var commands := Act(job, replicas, surplus, turn.w).commands;
    ActCreatesOnly(job, replicas, surplus, turn.w);
    ListedPodsStored(fleet, pods, labels);
    forall command <- commands | command.CreatePod?
      ensures IsStoredPod(OrdinalOf(command.pod), command.pod.(phase := Pending), labels)
    {
      NewPodsStorable(app, job, turn, pods, replicas, labels, command.pod);
    }
    PerformAllKeepsPods(app, fleet, commands, turn.w, labels);
  }

  lemma UpdateKeepsPods(c: Cluster, app: App, turn: Turn, c': Cluster, failed: bool)
    requires IsGuarded(c) && c.app == Some(app) && ValidTurn(c, turn) && UpdatesApp(c, app, turn, c', failed)
    ensures ValidHistory(c'.revisions) && StoredPods(c'.fleet, Free)
    ensures c'.app.Some? && c'.app.value == app.(status := c'.app.value.status)
    ensures app.replicas == 0 ==> c'.fleet.Keys == c.fleet.Keys
    ensures IsLabelled(c) ==> IsLabelled(c')
  {
    if c' != c {
      var pods, replicas, surplus :| UpdatesOver(c, app, turn, c', failed, pods, replicas, surplus);
      assert ValidHistory(c'.revisions) by {
        LiveNamesKept(c.revisions, app, turn, pods);
      }
      RunKeepsPods(app, JobFor(app, c.revisions, turn), turn, c.fleet, pods, replicas, surplus, Free);
      if IsLabelled(c) {
        UpdateKeepsLabels(c, app, turn, c', failed, pods, replicas, surplus);
      }
    }
  }

  lemma UpdateKeepsLabels(c: Cluster, app: App, turn: Turn, c': Cluster, failed: bool,
                          pods: seq<Pod>, replicas: seq<Pod>, surplus: seq<Pod>)
    requires ValidApp(app) && ValidHistory(c.revisions) && IsLabelled(c) && c.app == Some(app) && ValidTurn(c, turn)
    requires UpdatesOver(c, app, turn, c', failed, pods, replicas, surplus)
    ensures IsLabelled(c')
  {
    var left := Known(Names(c'.revisions));
    LiveNamesKept(c.revisions, app, turn, pods);
    forall o <- c.fleet ensures Allows(left, RevisionOf(c.fleet[o])) {
      assert IsStoredPod(o, c.fleet[o], Known(Names(c.revisions))) && c.fleet[o] in pods;
    }
    OtherLabels(c.fleet, Known(Names(c.revisions)), left);
    RunKeepsPods(app, JobFor(app, c.revisions, turn), turn, c.fleet, pods, replicas, surplus, left);
  }

  lemma ListedPodsStored(fleet: Fleet, pods: seq<Pod>, labels: Labels)
    requires StoredPods(fleet, labels) && Lists(fleet, pods)
    ensures HaveOrdinals(pods) && forall pod <- pods :: !pod.phase.Unset?
  {
    forall pod <- pods ensures OrdinalOf(pod) >= 0 && !pod.phase.Unset? {
      assert IsStoredPod(OrdinalOf(pod), fleet[OrdinalOf(pod)], labels);
    }
  }

  // ---- steps and runs ----

  datatype Action =
    | Reconcile(turn: Turn)
    | Create(app: App)
    | Edit(app: App)
    | Delete
    | PodChange(o: int, pod: Pod)
    | PodExit(o: int)
    | Collect(name: string)

  ghost predicate ClusterStep(c: Cluster, a: Action, c': Cluster) {
    match a
    case Reconcile(turn) =>
      ValidTurn(c, turn) && Reconciles(c, turn, c')
    case Create(app) =>
      c.app.None? && ValidApp(app) && !app.deleting && c' == c.(app := Some(app))
    case Edit(app) =>
      // users can change the spec and other finalizers, but not the status, and leave our finalizer alone
      && c.app.Some? && ValidApp(app)
      && app.name == c.app.value.name && app.status == c.app.value.status && app.deleting == c.app.value.deleting
      && (APP_FINALIZER in c.app.value.finalizers ==> APP_FINALIZER in app.finalizers)
      && (app.deleting ==> forall finalizer <- app.finalizers :: finalizer in c.app.value.finalizers)
      && c' == StoreApp(c, app, false)
    case Delete =>
      c.app.Some? && c' == StoreApp(c, c.app.value.(deleting := true), false)
    case PodChange(o, pod) =>
      // whatever the kubelet, users, or an update in place make of a pod, labels included, it keeps its name
      && o in c.fleet && pod.name == c.fleet[o].name && !pod.phase.Unset?
      && (c.fleet[o].terminating ==> pod.terminating)
      && c' == c.(fleet := c.fleet[o := pod])
    case PodExit(o) =>
      o in c.fleet && c' == c.(fleet := c.fleet - {o})
    case Collect(name) =>
      // the garbage collector takes the revisions of an App that is gone
      c.app.None? && c' == c.(revisions := Without(c.revisions, name))
  }

  ghost function ClusterSteps(): (Cluster, Action, Cluster) -> bool {
    (c, a, c') => ClusterStep(c, a, c')
  }

  lemma {:induction false} OtherFinalizersStay(finalizers: seq<string>)
    ensures forall finalizer :: finalizer in WithoutFinalizer(finalizers)
              <==> finalizer in finalizers && finalizer != APP_FINALIZER
  {
    if finalizers != [] {
      OtherFinalizersStay(finalizers[..|finalizers| - 1]);
      assert finalizers == finalizers[..|finalizers| - 1] + [finalizers[|finalizers| - 1]];
    }
  }

  lemma FinishKeeps(c: Cluster, app: App, turn: Turn, mid: Cluster, failed: bool)
    requires IsGuarded(c) && c.app == Some(app)
    requires mid.app.Some? && mid.app.value == app.(status := mid.app.value.status)
    requires ValidHistory(mid.revisions) && StoredPods(mid.fleet, Free)
    requires app.deleting || APP_FINALIZER in app.finalizers
    requires app.deleting ==> mid.fleet.Keys == c.fleet.Keys
    ensures IsGuarded(Finish(c, app, turn, mid, failed))
    ensures Finish(c, app, turn, mid, failed) == mid.(app := Finish(c, app, turn, mid, failed).app)
  {
    if app.deleting {
      NoKeysNoPods(c.fleet, mid.fleet);
    }
  }

  /** What a reconcile keeps, whatever fails in it. */
  lemma ReconcileKeeps(c: Cluster, turn: Turn, c': Cluster)
    requires IsGuarded(c) && ValidTurn(c, turn) && Reconciles(c, turn, c')
    ensures IsGuarded(c')
    ensures c.app.Some? && c.app.value.deleting ==> c'.fleet.Keys == c.fleet.Keys
    ensures IsLabelled(c) ==> IsLabelled(c')
  {
    if c.app.Some? {
      var app := c.app.value;
      if (app.deleting || APP_FINALIZER in app.finalizers) && (!app.deleting || app.replicas == 0) {
        var mid, failed :| UpdatesApp(c, app, turn, mid, failed) && c' == Finish(c, app, turn, mid, failed);
        UpdateKeepsPods(c, app, turn, mid, failed);
        FinishKeeps(c, app, turn, mid, failed);
      }
    }
  }

  lemma NoKeysNoPods(fleet: Fleet, fleet': Fleet)
    requires fleet'.Keys == fleet.Keys
    ensures fleet == map[] <==> fleet' == map[]
  {}

  lemma ClusterStepKeeps(c: Cluster, a: Action, c': Cluster)
    requires IsGuarded(c) && ClusterStep(c, a, c')
    ensures IsGuarded(c')
    ensures IsLabelled(c) && (a.PodChange? ==> RevisionOf(a.pod) in Names(c.revisions)) ==> IsLabelled(c')
  {
    match a {
      case Reconcile(turn) => ReconcileKeeps(c, turn, c');
      case Collect(name) => WithoutKeepsValid(c.revisions, name);
      case PodChange(o, pod) => PodChangeKeeps(c, o, pod);
      case _ =>
    }
  }

  lemma PodChangeKeeps(c: Cluster, o: int, pod: Pod)
    requires StoredPods(c.fleet, Free) && o in c.fleet && pod.name == c.fleet[o].name && !pod.phase.Unset?
    ensures StoredPods(c.fleet[o := pod], Free)
    ensures IsLabelled(c) && RevisionOf(pod) in Names(c.revisions) ==> IsLabelled(c.(fleet := c.fleet[o := pod]))
  {
    assert IsStoredPod(o, c.fleet[o], Free);
  }

  /**
   At every point of a run that starts right, as one with no App at all does, whatever its policies and whatever
   happens to its pods and their labels: an App that owns pods exists and carries the finalizer, and no two
   stored revisions share a number, a name, or their data.
   */
  lemma {:induction false} RunIsGuarded(states: seq<Cluster>, actions: seq<Action>)
    requires Runs.IsRunOf(ClusterSteps(), states, actions)
    requires IsGuarded(states[0]) || states[0] == Cluster(None, map[], [])
    ensures IsGuarded(states[|actions|])
  {
    if actions != [] {
      var last := |actions| - 1;
      RunIsGuarded(states[..|states| - 1], actions[..last]);
      assert ClusterSteps()(states[last], actions[last], states[last + 1]);
      ClusterStepKeeps(states[last], actions[last], states[last + 1]);
    }
  }

  /** Whatever else writes on labels names stored revisions. */
  ghost predicate LabelsFit(states: seq<Cluster>, actions: seq<Action>)
    requires |states| == |actions| + 1
  {
    forall i | 0 <= i < |actions| && actions[i].PodChange? :: RevisionOf(actions[i].pod) in Names(states[i].revisions)
  }

  /**
   And if whatever else writes on revision labels writes the names of stored revisions, every pod's label names
   a stored revision at every point: creating, reusing and truncating revisions never breaks one.
   */
  lemma {:induction false} RunIsLabelled(states: seq<Cluster>, actions: seq<Action>)
    requires Runs.IsRunOf(ClusterSteps(), states, actions) && LabelsFit(states, actions)
    requires (IsGuarded(states[0]) && IsLabelled(states[0])) || states[0] == Cluster(None, map[], [])
    ensures IsGuarded(states[|actions|]) && IsLabelled(states[|actions|])
  {
    if actions != [] {
      var last := |actions| - 1;
      var front, frontActions := states[..|states| - 1], actions[..last];
      assert LabelsFit(front, frontActions) by {
        assert forall i | 0 <= i < last :: frontActions[i] == actions[i] && front[i] == states[i];
      }
      RunIsLabelled(front, frontActions);
      assert ClusterSteps()(states[last], actions[last], states[last + 1]);
      ClusterStepKeeps(states[last], actions[last], states[last + 1]);
    }
  }

  /** No reconcile of an App that is being deleted creates a pod, or makes one disappear by itself. */
  lemma NoPodsWhileDeleting(c: Cluster, turn: Turn, c': Cluster)
    requires IsGuarded(c) && ValidTurn(c, turn) && Reconciles(c, turn, c')
    requires c.app.Some? && c.app.value.deleting
    ensures c'.fleet.Keys == c.fleet.Keys
    ensures c'.app.Some? ==> c'.app.value.deleting
  {
    ReconcileKeeps(c, turn, c');
  }

  /** The finalizer goes only from an App that is being deleted, is scaled to none, and owns no pod before or after. */
  lemma FinalizerReleasedLast(c: Cluster, turn: Turn, c': Cluster)
    requires IsGuarded(c) && ValidTurn(c, turn) && Reconciles(c, turn, c')
    requires c.app.Some? && APP_FINALIZER in c.app.value.finalizers
    requires c'.app.None? || APP_FINALIZER !in c'.app.value.finalizers
    ensures c.app.value.deleting && c.app.value.replicas == 0
    ensures c.fleet == map[] && c'.fleet == map[]
    ensures c'.app.Some? ==> forall finalizer ::
              finalizer in c'.app.value.finalizers <==>
                finalizer in c.app.value.finalizers && finalizer != APP_FINALIZER
    ensures exists mid :: UpdatesApp(c, c.app.value, turn, mid, false)
  {
    OtherFinalizersStay(c.app.value.finalizers);
    ReconcileKeeps(c, turn, c');
    NoKeysNoPods(c.fleet, c'.fleet);
  }

  // ---- what an update leaves of the history ----

  /** The revisions that the update of an App counts as live. */
  function LiveIn(c: Cluster, app: App, turn: Turn): set<string> {
    var job := JobFor(app, c.revisions, turn);
    {job.current.name, job.update.name} + (set o <- c.fleet :: RevisionOf(c.fleet[o]))
  }

  lemma ListedNames(fleet: Fleet, pods: seq<Pod>)
    requires Lists(fleet, pods)
    ensures (set pod <- pods :: RevisionOf(pod)) == (set o <- fleet :: RevisionOf(fleet[o]))
  {
    assert forall pod <- pods :: OrdinalOf(pod) in fleet && fleet[OrdinalOf(pod)] == pod;
    assert forall o <- fleet :: fleet[o] in pods;
  }

  lemma {:induction false} NonLiveNamesDiffer(revisions: seq<Revision>, live: set<string>)
    requires ValidHistory(revisions)
    ensures DistinctNames(NonLive(revisions, live))
  {
    if revisions != [] {
      var rest := NonLive(revisions[1..], live);
      NonLiveNamesDiffer(revisions[1..], live);
      NonLiveMembers(revisions[1..], live);
      forall j | 0 <= j < |rest| ensures rest[j].name != revisions[0].name {
        assert rest[j] in rest;
      }
    }
  }

  /** Every live revision is left, and of those listed that are not live the newest, up to the limit. */
  predicate KeepsNewest(left: seq<Revision>, revisions: seq<Revision>, listed: seq<Revision>, live: set<string>,
                        limit: nat) {
    var history := NonLive(listed, live);
    && LiveOnes(left, live) == LiveOnes(revisions, live)
    && NonLive(left, live) == history[if |history| > limit then |history| - limit else 0..]
  }

  lemma HistoryLeft(revisions: seq<Revision>, app: App, turn: Turn, live: set<string>)
    requires ValidHistory(revisions) && JobFor(app, revisions, turn).update.name in live
    requires forall name :: !turn.deleteFails(name)
    ensures var ensured := Ensure(revisions, app.template, turn.freshName).revisions;
            KeepsNewest(Truncate(ensured, revisions, live, LimitOf(app), turn.deleteFails).0,
                        ensured, revisions, live, LimitOf(app))
  {
    EnsureKeepsNonLive(revisions, app.template, turn.freshName, live);
    NonLiveNamesDiffer(revisions, live);
    var ensured := Ensure(revisions, app.template, turn.freshName).revisions;
    TruncateKeepsNewest(ensured, revisions, live, LimitOf(app), turn.deleteFails);
  }

  /**
   The newest revision holds the App's template, no live revision is gone, and of the others exactly the newest
   are left, as many as the limit allows.
   */
  ghost predicate HistoryIsRight(c: Cluster, app: App, turn: Turn, left: seq<Revision>) {
    var job := JobFor(app, c.revisions, turn);
    var ensured := Ensure(c.revisions, app.template, turn.freshName).revisions;
    && ValidHistory(left) && job.update in left && job.update.data == app.template
    && (forall other <- left | other != job.update :: other.number < job.update.number)
    && KeepsNewest(left, ensured, c.revisions, LiveIn(c, app, turn), LimitOf(app))
  }

  /** So it is after an update none of whose requests failed. */
  lemma HistoryAfterUpdate(c: Cluster, app: App, turn: Turn, c': Cluster)
    requires ValidHistory(c.revisions) && c.app == Some(app) && ValidTurn(c, turn)
    requires UpdatesApp(c, app, turn, c', false) && forall name :: !turn.deleteFails(name)
    ensures HistoryIsRight(c, app, turn, c'.revisions)
  {
    var pods, replicas, surplus :| UpdatesOver(c, app, turn, c', false, pods, replicas, surplus);
    LeftAfterUpdate(c, app, turn, pods, c'.revisions);
  }

  lemma LeftAfterUpdate(c: Cluster, app: App, turn: Turn, pods: seq<Pod>, left: seq<Revision>)
    requires ValidHistory(c.revisions) && ValidTurn(c, turn) && forall name :: !turn.deleteFails(name)
    requires Lists(c.fleet, pods)
    requires
      var job := JobFor(app, c.revisions, turn);
      var ensured := Ensure(c.revisions, app.template, turn.freshName).revisions;
      left == Truncate(ensured, c.revisions, LiveNames(pods, job.current.name, job.update.name),
                       LimitOf(app), turn.deleteFails).0
    ensures HistoryIsRight(c, app, turn, left)
  {
    var job := JobFor(app, c.revisions, turn);
    assert LiveNames(pods, job.current.name, job.update.name) == LiveIn(c, app, turn) by {
      ListedNames(c.fleet, pods);
    }
    LiveNamesKept(c.revisions, app, turn, pods);
    HistoryLeft(c.revisions, app, turn, LiveIn(c, app, turn));
  }

  /** As many as the limit allows, which is 10 if the App sets none. */
  ghost predicate WithinLimit(app: App, history: seq<Revision>, left: seq<Revision>) {
    && (app.historyLimit == None ==> |left| == if |history| > 10 then 10 else |history|)
    && (forall limit: nat :: app.historyLimit == Some(limit) ==>
          |left| == if |history| > limit then limit else |history|)
  }

  lemma LimitMeans(app: App, left: seq<Revision>, revisions: seq<Revision>, listed: seq<Revision>, live: set<string>)
    requires KeepsNewest(left, revisions, listed, live, LimitOf(app))
    ensures WithinLimit(app, NonLive(listed, live), NonLive(left, live))
    ensures NonLive(left, live) == NonLive(listed, live)[|NonLive(listed, live)| - |NonLive(left, live)|..]
  {}

  lemma RightIsWithinLimit(c: Cluster, app: App, turn: Turn, left: seq<Revision>)
    requires HistoryIsRight(c, app, turn, left)
    ensures
      var history, rest := NonLive(c.revisions, LiveIn(c, app, turn)), NonLive(left, LiveIn(c, app, turn));
      WithinLimit(app, history, rest) && rest == history[|history| - |rest|..]
  {
    var ensured := Ensure(c.revisions, app.template, turn.freshName).revisions;
    LimitMeans(app, left, ensured, c.revisions, LiveIn(c, app, turn));
  }

  /**
   How many revisions that are not live an update without failures leaves: all of them up to the App's limit, which
   is 10 for an App that sets none, and the newest ones of more.
   */
  lemma LimitIsKept(c: Cluster, app: App, turn: Turn, c': Cluster)
    requires ValidHistory(c.revisions) && c.app == Some(app) && ValidTurn(c, turn)
    requires UpdatesApp(c, app, turn, c', false) && forall name :: !turn.deleteFails(name)
    ensures
      var history := NonLive(c.revisions, LiveIn(c, app, turn));
      var left := NonLive(c'.revisions, LiveIn(c, app, turn));
      WithinLimit(app, history, left) && left == history[|history| - |left|..]
  {
    HistoryAfterUpdate(c, app, turn, c');
    RightIsWithinLimit(c, app, turn, c'.revisions);
  }

  lemma {:induction false} NonLiveAscend(revisions: seq<Revision>, live: set<string>)
    requires ValidHistory(revisions)
    ensures ValidHistory(NonLive(revisions, live))
  {
    if revisions != [] {
      var rest := NonLive(revisions[1..], live);
      NonLiveAscend(revisions[1..], live);
      NonLiveMembers(revisions[1..], live);
      forall j | 0 <= j < |rest|
        ensures revisions[0].number < rest[j].number
        ensures revisions[0].name != rest[j].name && revisions[0].data != rest[j].data
      {
        assert rest[j] in rest;
      }
    }
  }

  /** Of the revisions that are not live the ones that go are older than every one that is left. */
  lemma OldestGo(c: Cluster, app: App, turn: Turn, c': Cluster, gone: Revision, kept: Revision)
    requires ValidHistory(c.revisions) && c.app == Some(app) && ValidTurn(c, turn)
    requires UpdatesApp(c, app, turn, c', false) && forall name :: !turn.deleteFails(name)
    requires gone in c.revisions && gone.name !in LiveIn(c, app, turn) && gone !in c'.revisions
    requires kept in c'.revisions && kept.name !in LiveIn(c, app, turn)
    ensures gone.number < kept.number
  {
    HistoryAfterUpdate(c, app, turn, c');
    OldestOfRight(c, app, turn, c'.revisions, gone, kept);
  }

  lemma OldestOfRight(c: Cluster, app: App, turn: Turn, left: seq<Revision>, gone: Revision, kept: Revision)
    requires ValidHistory(c.revisions) && HistoryIsRight(c, app, turn, left)
    requires gone in c.revisions && gone.name !in LiveIn(c, app, turn) && gone !in left
    requires kept in left && kept.name !in LiveIn(c, app, turn)
    ensures gone.number < kept.number
  {
    RightIsWithinLimit(c, app, turn, left);
    OldestOfHistory(c.revisions, left, LiveIn(c, app, turn), gone, kept);
  }

  lemma OldestOfHistory(revisions: seq<Revision>, left: seq<Revision>, live: set<string>, gone: Revision,
                        kept: Revision)
    requires ValidHistory(revisions) && |NonLive(left, live)| <= |NonLive(revisions, live)|
    requires NonLive(left, live) == NonLive(revisions, live)[|NonLive(revisions, live)| - |NonLive(left, live)|..]
    requires gone in revisions && gone.name !in live && gone !in left && kept in left && kept.name !in live
    ensures gone.number < kept.number
  {
    NonLiveAscend(revisions, live);
    NonLiveMembers(revisions, live);
    NonLiveMembers(left, live);
    TailIsNewer(NonLive(revisions, live), |NonLive(revisions, live)| - |NonLive(left, live)|, gone, kept);
  }

  lemma TailIsNewer(history: seq<Revision>, d: nat, gone: Revision, kept: Revision)
    requires d <= |history| && forall i, j | 0 <= i < j < |history| :: history[i].number < history[j].number
    requires gone in history && gone !in history[d..] && kept in history[d..]
    ensures gone.number < kept.number
  {
    var i :| 0 <= i < |history| && history[i] == gone;
    var j :| d <= j < |history| && history[j] == kept;
    assert forall k | d <= k < |history| :: history[k] in history[d..];
  }
}
