/**
 The order that one run keeps to when the pod management policy is OrderedReady: at most one pod is
 created or deleted, and which one it is follows from the health of the pods before it.
 */
module Discipline {
  import opened Text
  import opened Kube
  import opened Slots
  import opened Sync

  predicate ChangesPods(command: Command) {
    command.CreatePod? || command.DeletePod?
  }

  /** The creations and deletions among the requests. */
  function PodChanges(commands: seq<Command>): seq<Command> {
    if commands == [] then []
    else
      var last := commands[|commands| - 1];
      PodChanges(commands[..|commands| - 1]) + (if ChangesPods(last) then [last] else [])
  }

  lemma {:induction false} PodChangesConcat(a: seq<Command>, b: seq<Command>)
    ensures PodChanges(a + b) == PodChanges(a) + PodChanges(b)
  {
    if b == [] {
      assert a + b == a;
    } else {
      PodChangesConcat(a, b[..|b| - 1]);
      assert (a + b)[..|a + b| - 1] == a + b[..|b| - 1];
    }
  }

  lemma SilentStart(a: seq<Command>, b: seq<Command>)
    requires PodChanges(a) == []
    ensures PodChanges(a + b) == PodChanges(b)
  {
    PodChangesConcat(a, b);
  }

  lemma PodChangesOne(command: Command)
    ensures PodChanges([command]) == if ChangesPods(command) then [command] else []
  {
    assert [command][..0] == [];
  }

  // ---- what a run intends ----

  predicate Healthy(job: Job, pod: Pod) {
    IsHealthy(pod, job.app.strategy.minReadySeconds, job.now)
  }

  /** The lowest slot from i on whose pod is not healthy, or the number of slots. */
  function FirstToMend(job: Job, replicas: seq<Pod>, i: nat): (k: nat)
    requires i <= |replicas|
    ensures i <= k <= |replicas|
    ensures forall j | i <= j < k :: Healthy(job, replicas[j])
    ensures k < |replicas| ==> !Healthy(job, replicas[k])
    decreases |replicas| - i
  {
    if i == |replicas| || !Healthy(job, replicas[i]) then i else FirstToMend(job, replicas, i + 1)
  }

  /** The highest slot up to target, and not below the partition, whose pod is outdated, or -1. */
  function LastOutdated(job: Job, replicas: seq<Pod>, target: int): (k: int)
    requires target < |replicas|
    ensures -1 <= k
    ensures k >= 0 ==> job.app.strategy.partition <= k <= target && RevisionOf(replicas[k]) != job.update.name
    ensures forall j | k < j <= target && j >= job.app.strategy.partition :: RevisionOf(replicas[j]) == job.update.name
    decreases target + 1
  {
    if target < job.app.strategy.partition then -1
    else if RevisionOf(replicas[target]) != job.update.name then target
    else LastOutdated(job, replicas, target - 1)
  }

  function Mend(pod: Pod): Option<Command> {
    if pod.phase.Unset? then Some(CreatePod(pod))
    else if (pod.phase.Failed? || pod.phase.Succeeded?) && !pod.terminating then Some(DeletePod(pod.name))
    else None
  }

  function Shrink(surplus: seq<Pod>, first: Option<string>): Option<Command>
    requires surplus != []
  {
    if !surplus[0].terminating && (IsReady(surplus[0]) || first == Some(surplus[0].name))
    then Some(DeletePod(surplus[0].name)) else None
  }

  function Renew(job: Job, replicas: seq<Pod>): Option<Command> {
    var strategy := job.app.strategy;
    var target := LastOutdated(job, replicas, |replicas| - 1);
    if strategy.onDelete || job.app.deleting || strategy.paused || target < 0 then None
    else Some(DeletePod(replicas[target].name))
  }

  /**
   The one change a run may ask for. The lowest slot that is not healthy comes first; only when there
   is none may the highest surplus pod go; only when there is no surplus may an outdated pod go.
   */
  function Intended(job: Job, replicas: seq<Pod>, surplus: seq<Pod>, first: Option<string>): Option<Command> {
    var i := FirstToMend(job, replicas, 0);
    if i < |replicas| then Mend(replicas[i])
    else if surplus != [] then Shrink(surplus, first)
    else Renew(job, replicas)
  }

  function AsSeq(command: Option<Command>): seq<Command> {
    if command.Some? then [command.value] else []
  }

  ghost predicate NothingFails(w: World) {
    forall command :: !w.fails(command)
  }

  // ---- each stage ----

  /** One replica: a healthy one is passed, any other stops the scan. */
  lemma VisitIntends(job: Job, pod: Pod, w: World)
    requires !job.app.parallel
    ensures var visit := VisitReplica(job, pod, w);
            if Healthy(job, pod) then PodChanges(visit.commands) == [] && visit.available && visit.stop == visit.failed
                                      && (NothingFails(w) ==> !visit.failed)
            else visit.stop && !visit.available
                 && (PodChanges(visit.commands) == [] || PodChanges(visit.commands) == AsSeq(Mend(pod)))
                 && (NothingFails(w) ==> PodChanges(visit.commands) == AsSeq(Mend(pod)))
  {
    if Healthy(job, pod) {
      HealthyIntends(job, pod, w);
    } else {
      OthersIntend(job, pod, w);
    }
  }

  lemma HealthyIntends(job: Job, pod: Pod, w: World)
    requires !job.app.parallel && Healthy(job, pod)
    ensures var visit := VisitReplica(job, pod, w);
            && PodChanges(visit.commands) == [] && visit.available && visit.stop == visit.failed
            && (NothingFails(w) ==> !visit.failed)
  {
    PodChangesOne(RepairPod(pod.name));
  }

  lemma OthersIntend(job: Job, pod: Pod, w: World)
    requires !job.app.parallel && !Healthy(job, pod)
    ensures var visit := VisitReplica(job, pod, w);
            && visit.stop && !visit.available
            && (PodChanges(visit.commands) == [] || PodChanges(visit.commands) == AsSeq(Mend(pod)))
            && (NothingFails(w) ==> PodChanges(visit.commands) == AsSeq(Mend(pod)))
  {
    PodChangesOne(CreatePod(pod));
    PodChangesOne(CreateClaims(pod.name));
    PodChangesOne(DeletePod(pod.name));
  }

  lemma {:induction false} ScanIntends(job: Job, replicas: seq<Pod>, w: World, i: nat)
    requires !job.app.parallel && i <= |replicas|
    ensures var scan := ScanReplicas(job, replicas, w, i);
            var k := FirstToMend(job, replicas, i);
            var intended := if k < |replicas| then AsSeq(Mend(replicas[k])) else [];
            && (PodChanges(scan.commands) == [] || PodChanges(scan.commands) == intended)
            && (!scan.failed && scan.allAvailable ==> k == |replicas|)
            && (NothingFails(w) ==> PodChanges(scan.commands) == intended
                                    && (k == |replicas| ==> !scan.failed && scan.allAvailable))
    decreases |replicas| - i
  {
    if i < |replicas| {
      var visit := VisitReplica(job, replicas[i], w);
      VisitIntends(job, replicas[i], w);
      if !visit.stop {
        ScanIntends(job, replicas, w, i + 1);
        SilentStart(visit.commands, ScanReplicas(job, replicas, w, i + 1).commands);
      }
    }
  }

  lemma ScaleDownIntends(job: Job, surplus: seq<Pod>, first: Option<string>, w: World)
    requires !job.app.parallel
    ensures var down := RemoveSurplus(job, surplus, first, w, 0);
            && down.commands == (if surplus == [] then [] else AsSeq(Shrink(surplus, first)))
            && PodChanges(down.commands) == down.commands
            && (surplus != [] <==> down.exit) && (surplus == [] ==> !down.failed)
  {
    if surplus != [] {
      PodChangesOne(DeletePod(surplus[0].name));
    }
  }

  /** The App's pods are to be updated. */
  predicate IsRolling(app: App) {
    !app.strategy.onDelete && !app.strategy.paused && !app.deleting
  }

  /** No pod is being edited in place, or is to be. */
  ghost predicate AllReplaced(job: Job, replicas: seq<Pod>) {
    !job.app.strategy.inPlace && forall pod <- replicas :: pod.inPlace.NoMark?
  }

  ghost predicate Untouched(job: Job, replicas: seq<Pod>) {
    IsRolling(job.app) ==> AllReplaced(job, replicas)
  }

  lemma RollOneIntends(job: Job, pod: Pod, w: World)
    requires Healthy(job, pod)
    ensures var one := RollOne(job, pod, w);
            if RevisionOf(pod) == job.update.name then
              PodChanges(one.commands) == [] && (pod.inPlace.NoMark? ==> !one.stop)
            else
              one.stop && (PodChanges(one.commands) == [] || PodChanges(one.commands) == [DeletePod(pod.name)])
              && (!job.app.strategy.inPlace ==> PodChanges(one.commands) == [DeletePod(pod.name)])
  {
    var tried, delete := [UpdateInPlace(pod.name)], [DeletePod(pod.name)];
    PodChangesOne(UpdateInPlace(pod.name));
    PodChangesOne(DeletePod(pod.name));
    PodChangesOne(FinishInPlace(pod.name));
    PodChangesConcat(tried, delete);
    assert tried + delete == [UpdateInPlace(pod.name), DeletePod(pod.name)] && [] + delete == delete;
  }

  lemma {:induction false} RollIntends(job: Job, replicas: seq<Pod>, w: World, target: int)
    requires target < |replicas| && forall pod <- replicas :: Healthy(job, pod)
    ensures var roll := RollReplicas(job, replicas, w, target);
            var k := LastOutdated(job, replicas, target);
            var intended := if k >= 0 then [DeletePod(replicas[k].name)] else [];
            && (PodChanges(roll.commands) == [] || PodChanges(roll.commands) == intended)
            && (AllReplaced(job, replicas) ==> PodChanges(roll.commands) == intended)
    decreases target + 1
  {
    if target >= job.app.strategy.partition {
      var one := RollOne(job, replicas[target], w);
      RollOneIntends(job, replicas[target], w);
      if !one.stop {
        var rest := RollReplicas(job, replicas, w, target - 1).commands;
        RollIntends(job, replicas, w, target - 1);
        SilentStart(one.commands, rest);
      }
    }
  }

  // ---- the run ----

  lemma ScaleAndRollIntends(job: Job, replicas: seq<Pod>, surplus: seq<Pod>, first: Option<string>, w: World)
    requires !job.app.parallel && forall pod <- replicas :: Healthy(job, pod)
    ensures var intended := AsSeq(if surplus != [] then Shrink(surplus, first) else Renew(job, replicas));
            var changes := PodChanges(ScaleAndRoll(job, replicas, surplus, first, w).commands);
            && (changes == [] || changes == intended)
            && (NothingFails(w) && Untouched(job, replicas) ==> changes == intended)
  {
    ScaleDownIntends(job, surplus, first, w);
    if surplus == [] {
      RollIntends(job, replicas, w, |replicas| - 1);
      assert [] + RollReplicas(job, replicas, w, |replicas| - 1).commands
          == RollReplicas(job, replicas, w, |replicas| - 1).commands;
    }
  }

  /** A run changes no pod or makes the one intended change, which it does make when nothing hinders it. */
  lemma RunIntends(job: Job, replicas: seq<Pod>, surplus: seq<Pod>, w: World)
    requires !job.app.parallel
    ensures var first := FirstUnhealthy(Identity.OrdinalOf, replicas + Reversed(surplus)).name;
            var intended := AsSeq(Intended(job, replicas, surplus, first));
            var changes := PodChanges(Act(job, replicas, surplus, w).commands);
            && (changes == [] || changes == intended)
            && (NothingFails(w) && Untouched(job, replicas) ==> changes == intended)
  {
    var first := FirstUnhealthy(Identity.OrdinalOf, replicas + Reversed(surplus)).name;
    var scan := ScanReplicas(job, replicas, w, 0);
    ScanIntends(job, replicas, w, 0);
    if !scan.failed && scan.allAvailable {
      var rest := ScaleAndRoll(job, replicas, surplus, first, w);
      ScaleAndRollIntends(job, replicas, surplus, first, w);
      SilentStart(scan.commands, rest.commands);
    }
  }

  /** A new pod or one to restart with only healthy ones before it, the first surplus pod, or the last outdated one. */
  ghost predicate KeepsOrder(job: Job, replicas: seq<Pod>, surplus: seq<Pod>, change: Command) {
    && (change.CreatePod? ==>
          exists i | 0 <= i < |replicas| ::
            && change.pod == replicas[i] && replicas[i].phase.Unset?
            && forall j | 0 <= j < i :: Healthy(job, replicas[j]))
    && (change.DeletePod? ==>
          || (exists i | 0 <= i < |replicas| ::
                && change.name == replicas[i].name && (replicas[i].phase.Failed? || replicas[i].phase.Succeeded?)
                && forall j | 0 <= j < i :: Healthy(job, replicas[j]))
          || ((forall pod <- replicas :: Healthy(job, pod)) &&
              surplus != [] && change.name == surplus[0].name && !surplus[0].terminating && LeadsSurplus(surplus))
          || ((forall pod <- replicas :: Healthy(job, pod)) &&
              surplus == [] && !job.app.strategy.onDelete && !job.app.strategy.paused && !job.app.deleting &&
              exists t | job.app.strategy.partition <= t < |replicas| ::
                && change.name == replicas[t].name && RevisionOf(replicas[t]) != job.update.name
                && forall j | t < j < |replicas| :: RevisionOf(replicas[j]) == job.update.name))
  }

  /**
   What the change tells about the pods, whatever else may have failed. A new pod, or one to restart,
   has only healthy pods before it. A pod goes for scaling down only when every slot is healthy, and
   it is the surplus pod with the highest ordinal. A pod goes for the update only when there is no
   surplus besides, and it is the highest outdated one.
   */
  lemma OrderedDiscipline(job: Job, replicas: seq<Pod>, surplus: seq<Pod>, w: World, change: Command)
    requires !job.app.parallel
    requires change in PodChanges(Act(job, replicas, surplus, w).commands)
    ensures PodChanges(Act(job, replicas, surplus, w).commands) == [change]
    ensures KeepsOrder(job, replicas, surplus, change)
  {
    RunIntends(job, replicas, surplus, w);
    var first := FirstUnhealthy(Identity.OrdinalOf, replicas + Reversed(surplus)).name;
    IntendedMeans(job, replicas, surplus, first, change);
  }

  lemma IntendedMeans(job: Job, replicas: seq<Pod>, surplus: seq<Pod>, first: Option<string>, change: Command)
    requires Intended(job, replicas, surplus, first) == Some(change)
    ensures KeepsOrder(job, replicas, surplus, change)
  {
    if surplus != [] {
      SortedSurplus(surplus);
    }
  }

  /** The first of the surplus has the highest ordinal, as the surplus comes sorted. */
  ghost predicate LeadsSurplus(surplus: seq<Pod>)
    requires surplus != []
  {
    DescendingBy(Identity.OrdinalOf, surplus) ==>
      forall other <- surplus :: Identity.OrdinalOf(other) <= Identity.OrdinalOf(surplus[0])
  }

  lemma SortedSurplus(surplus: seq<Pod>)
    requires surplus != []
    ensures LeadsSurplus(surplus)
  {
    if DescendingBy(Identity.OrdinalOf, surplus) {
      HighestFirst(Identity.OrdinalOf, surplus);
    }
  }

  lemma HighestFirst<T>(key: T -> int, items: seq<T>)
    requires items != [] && DescendingBy(key, items)
    ensures forall other <- items :: key(other) <= key(items[0])
  {
    forall other <- items ensures key(other) <= key(items[0]) {
      var i :| 0 <= i < |items| && items[i] == other;
    }
  }
}
