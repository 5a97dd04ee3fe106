/**
 Exactly which requests a run makes, stage by stage, whatever the policies are: for each stage how far it gets, and
 what it asks for the pods that it gets to.
 */
module Requests {
  import opened Text
  import opened Kube
  import opened Identity
  import opened Slots
  import opened Sync
  import opened Discipline

  // ---- the scan ----

  /** A pod that lets the scan go on if nothing fails. Only with parallel management a new one does. */
  predicate LetsOn(job: Job, pod: Pod) {
    Healthy(job, pod) || (job.app.parallel && pod.phase.Unset?)
  }

  /** From i on, with only pods before it that let the scan go on. */
  predicate IsScanned(job: Job, replicas: seq<Pod>, i: nat, k: int) {
    i <= k < |replicas| && forall j | i <= j < k :: LetsOn(job, replicas[j])
  }

  /** What the scan asks for a pod that it gets to. */
  predicate IsWanted(job: Job, pod: Pod, command: Command) {
    || (command == CreatePod(pod) && pod.phase.Unset?)
    || (command == DeletePod(pod.name) && (pod.phase.Failed? || pod.phase.Succeeded?) && !pod.terminating)
    || (command == CreateClaims(pod.name) && pod.phase.Pending?)
    || (command == RepairPod(pod.name) && Healthy(job, pod) && !MatchesApp(job.app, pod))
  }

  lemma OneWants(job: Job, pod: Pod, w: World, command: Command)
    requires NothingFails(w)
    ensures
      var visit := VisitReplica(job, pod, w);
      && (command in visit.commands <==> IsWanted(job, pod, command))
      && (visit.stop <==> !LetsOn(job, pod)) && !visit.failed
  {}

  ghost predicate SomeWants(job: Job, replicas: seq<Pod>, i: nat, command: Command) {
    exists k :: IsScanned(job, replicas, i, k) && IsWanted(job, replicas[k], command)
  }

  /**
   If nothing fails, the scan asks for each pod that it gets to, and for no other: to create a new one, to restart
   one that has ended, claims for one that is pending, and a repair for a healthy one whose identity does not match.
   For one whose volumes alone do not match it asks nothing.
   */
  lemma {:induction false} WantsExactly(job: Job, replicas: seq<Pod>, w: World, i: nat, command: Command)
    requires i <= |replicas| && NothingFails(w)
    ensures command in ScanReplicas(job, replicas, w, i).commands <==> SomeWants(job, replicas, i, command)
    decreases |replicas| - i
  {
    if i < |replicas| {
      OneWants(job, replicas[i], w, command);
      if LetsOn(job, replicas[i]) {
        WantsExactly(job, replicas, w, i + 1, command);
      }
      WantsNext(job, replicas, i, command);
    }
  }

  lemma WantsNext(job: Job, replicas: seq<Pod>, i: nat, command: Command)
    requires i < |replicas|
    ensures SomeWants(job, replicas, i, command)
       <==> || IsWanted(job, replicas[i], command)
            || (LetsOn(job, replicas[i]) && SomeWants(job, replicas, i + 1, command))
  {
    assert IsScanned(job, replicas, i, i);
    forall k | k > i
      ensures IsScanned(job, replicas, i, k) <==> LetsOn(job, replicas[i]) && IsScanned(job, replicas, i + 1, k)
    {}
    if SomeWants(job, replicas, i, command) {
      var k :| IsScanned(job, replicas, i, k) && IsWanted(job, replicas[k], command);
      assert k > i ==> IsScanned(job, replicas, i + 1, k);
    }
    if LetsOn(job, replicas[i]) && SomeWants(job, replicas, i + 1, command) {
      var k :| IsScanned(job, replicas, i + 1, k) && IsWanted(job, replicas[k], command);
      assert IsScanned(job, replicas, i, k);
    }
  }

  /** A pod at which the run ends with the scan, even if that goes on. */
  predicate EndsRun(job: Job, pod: Pod) {
    if job.app.parallel then pod.phase.Unset? || pod.phase.Pending? || pod.phase.Failed? || pod.phase.Succeeded?
    else !Healthy(job, pod)
  }

  /**
   If nothing fails the run goes on to the surplus if and only if the scan gets to no pod that ends it: in an ordered
   App all pods are healthy, in a parallel one none is new, pending or ended up to the first that is not healthy.
   */
  lemma {:induction false} GoesOnIff(job: Job, replicas: seq<Pod>, w: World, i: nat)
    requires i <= |replicas| && NothingFails(w)
    ensures
      var scan := ScanReplicas(job, replicas, w, i);
      !scan.failed && (scan.allAvailable <==> forall k | IsScanned(job, replicas, i, k) :: !EndsRun(job, replicas[k]))
    decreases |replicas| - i
  {
    if i < |replicas| {
      OneWants(job, replicas[i], w, CreatePod(replicas[i]));
      assert IsScanned(job, replicas, i, i);
      assert VisitReplica(job, replicas[i], w).available <==> !EndsRun(job, replicas[i]);
      if LetsOn(job, replicas[i]) {
        var next := i + 1;
        GoesOnIff(job, replicas, w, next);
        forall k | k > i ensures IsScanned(job, replicas, i, k) <==> IsScanned(job, replicas, next, k) {}
      }
    }
  }

  // ---- the surplus ----

  /** With parallel management every surplus pod is told to go at once, in whatever state the others are. */
  lemma {:induction false} AllSurplusGoes(
    job: Job, surplus: seq<Pod>, first: Option<string>, w: World, i: nat, name: string)
    requires i <= |surplus| && job.app.parallel && NothingFails(w)
    ensures
      var down := RemoveSurplus(job, surplus, first, w, i);
      && !down.exit && !down.failed && (forall command <- down.commands :: command.DeletePod?)
      && (DeletePod(name) in down.commands
          <==> exists k :: i <= k < |surplus| && surplus[k].name == name && !surplus[k].terminating)
    decreases |surplus| - i
  {
    if i < |surplus| {
      AllSurplusGoes(job, surplus, first, w, i + 1, name);
    }
  }

  // ---- the update: how far it gets ----

  /** A pod that is to be updated. */
  predicate IsOutdated(job: Job, pod: Pod) {
    RevisionOf(pod) != job.update.name && !pod.terminating
  }

  /**
   A pod that lets the update go on to lower ordinals: one that is not to be updated, and that has been found rebuilt
   and cleaned up if it is marked, or else is ready or shutting down.
   */
  predicate Passes(job: Job, pod: Pod, w: World) {
    && !IsOutdated(job, pod)
    && if pod.inPlace == Mark(true) then w.inPlaceDone(pod.name) == Done && !w.fails(FinishInPlace(pod.name))
       else IsReady(pod) || pod.terminating
  }

  /** From the partition on, with only pods above it that let the update go on. */
  predicate IsReached(job: Job, replicas: seq<Pod>, w: World, target: int, k: int)
    requires target < |replicas|
  {
    && job.app.strategy.partition <= k <= target
    && forall j | k < j <= target :: Passes(job, replicas[j], w)
  }

  // ---- what is asked for a pod ----

  /** What the update asks for a pod that it gets to. */
  predicate IsAsked(job: Job, pod: Pod, w: World, command: Command) {
    if IsOutdated(job, pod) then
      || (command == UpdateInPlace(pod.name) && job.app.strategy.inPlace)
      || (command == DeletePod(pod.name) && (!job.app.strategy.inPlace || w.fails(UpdateInPlace(pod.name))))
    else command == FinishInPlace(pod.name) && pod.inPlace == Mark(true) && w.inPlaceDone(pod.name) == Done
  }

  lemma OneAsks(job: Job, pod: Pod, w: World, command: Command)
    ensures
      var one := RollOne(job, pod, w);
      (command in one.commands <==> IsAsked(job, pod, w, command)) && (one.stop <==> !Passes(job, pod, w))
  {}

  ghost predicate SomeAsks(job: Job, replicas: seq<Pod>, w: World, target: int, command: Command)
    requires target < |replicas|
  {
    exists k :: IsReached(job, replicas, w, target, k) && IsAsked(job, replicas[k], w, command)
  }

  /**
   The update asks, for each pod that it gets to, and for no other: to delete an outdated one, or, if the policy is
   to try, first to update it in place, and then to delete it only if that is refused; and to clean up a marked one
   that is up to date once it is found rebuilt.
   */
  lemma {:induction false} AsksExactly(job: Job, replicas: seq<Pod>, w: World, target: int, command: Command)
    requires target < |replicas|
    ensures command in RollReplicas(job, replicas, w, target).commands <==> SomeAsks(job, replicas, w, target, command)
    decreases target + 1
  {
    if target >= job.app.strategy.partition {
      var one := RollOne(job, replicas[target], w);
      OneAsks(job, replicas[target], w, command);
      if !one.stop {
        AsksExactly(job, replicas, w, target - 1, command);
      }
      AsksNext(job, replicas, w, target, command);
    }
  }

  lemma AsksNext(job: Job, replicas: seq<Pod>, w: World, target: int, command: Command)
    requires job.app.strategy.partition <= target < |replicas|
    ensures SomeAsks(job, replicas, w, target, command)
       <==> || IsAsked(job, replicas[target], w, command)
            || (Passes(job, replicas[target], w) && SomeAsks(job, replicas, w, target - 1, command))
  {
    assert IsReached(job, replicas, w, target, target);
    forall k | k < target
      ensures IsReached(job, replicas, w, target, k)
         <==> Passes(job, replicas[target], w) && IsReached(job, replicas, w, target - 1, k)
    {}
    if SomeAsks(job, replicas, w, target, command) {
      var k :| IsReached(job, replicas, w, target, k) && IsAsked(job, replicas[k], w, command);
      assert k < target ==> IsReached(job, replicas, w, target - 1, k);
    }
    if Passes(job, replicas[target], w) && SomeAsks(job, replicas, w, target - 1, command) {
      var k :| IsReached(job, replicas, w, target - 1, k) && IsAsked(job, replicas[k], w, command);
      assert IsReached(job, replicas, w, target, k);
    }
  }

  /** The update deletes at most one pod, and says so if and only if that request is made and does not fail. */
  lemma {:induction false} EvictedIff(job: Job, replicas: seq<Pod>, w: World, target: int)
    requires target < |replicas|
    ensures
      var roll := RollReplicas(job, replicas, w, target);
      roll.evicted <==> exists command <- roll.commands :: command.DeletePod? && !w.fails(command)
    decreases target + 1
  {
    if target >= job.app.strategy.partition {
      var pod := replicas[target];
      var one := RollOne(job, pod, w);
      OneAsks(job, pod, w, DeletePod(pod.name));
      if one.stop {
        assert one.evicted ==> DeletePod(pod.name) in one.commands;
      } else {
        EvictedIff(job, replicas, w, target - 1);
        assert forall command <- one.commands :: !command.DeletePod?;
        var rest := RollReplicas(job, replicas, w, target - 1);
        assert forall command <- rest.commands :: command in one.commands + rest.commands;
      }
    }
  }

  // ---- what follows ----

  /** The pods that the whole stage gets to. */
  predicate IsInReach(job: Job, replicas: seq<Pod>, w: World, k: int) {
    IsReached(job, replicas, w, |replicas| - 1, k)
  }

  /** Pods with names of their own. */
  ghost predicate NamesDiffer(replicas: seq<Pod>) {
    forall i, j | 0 <= i < j < |replicas| :: replicas[i].name != replicas[j].name
  }

  /** A request about a pod that the update gets to is made if and only if it is asked for that pod. */
  lemma AskedOfIt(job: Job, replicas: seq<Pod>, w: World, k: int, command: Command)
    requires NamesDiffer(replicas) && IsInReach(job, replicas, w, k)
    requires command == UpdateInPlace(replicas[k].name) || command == DeletePod(replicas[k].name)
    ensures command in RollReplicas(job, replicas, w, |replicas| - 1).commands
       <==> IsAsked(job, replicas[k], w, command)
  {
    var target := |replicas| - 1;
    AsksExactly(job, replicas, w, target, command);
    if SomeAsks(job, replicas, w, target, command) {
      var i :| IsReached(job, replicas, w, target, i) && IsAsked(job, replicas[i], w, command);
      assert replicas[i].name == replicas[k].name;
    }
    assert IsReached(job, replicas, w, target, k);
  }

  /** An outdated pod that the update gets to is deleted if and only if it is not updated in place. */
  lemma RefusedIsDeleted(job: Job, replicas: seq<Pod>, w: World, k: int)
    requires NamesDiffer(replicas) && IsInReach(job, replicas, w, k) && IsOutdated(job, replicas[k])
    ensures
      var commands := RollReplicas(job, replicas, w, |replicas| - 1).commands;
      var updated := UpdateInPlace(replicas[k].name) in commands && !w.fails(UpdateInPlace(replicas[k].name));
      && (UpdateInPlace(replicas[k].name) in commands <==> job.app.strategy.inPlace)
      && (DeletePod(replicas[k].name) in commands <==> !updated)
  {
    AskedOfIt(job, replicas, w, k, UpdateInPlace(replicas[k].name));
    AskedOfIt(job, replicas, w, k, DeletePod(replicas[k].name));
  }

  predicate IsAbout(command: Command, pod: Pod) {
    command == DeletePod(pod.name) || command == UpdateInPlace(pod.name) || command == FinishInPlace(pod.name)
  }

  /** Below a pod that does not let it go on the update asks for nothing. */
  lemma HeldUpAbove(job: Job, replicas: seq<Pod>, w: World, j: int, k: int, command: Command)
    requires NamesDiffer(replicas) && 0 <= k < j < |replicas| && !Passes(job, replicas[j], w)
    requires command in RollReplicas(job, replicas, w, |replicas| - 1).commands
    ensures !IsAbout(command, replicas[k])
  {
    AsksExactly(job, replicas, w, |replicas| - 1, command);
    var i :| IsReached(job, replicas, w, |replicas| - 1, i) && IsAsked(job, replicas[i], w, command);
    assert i >= j;
  }

  /** So below one that is marked as edited in place and not found rebuilt, even if it is ready. */
  lemma MarkedHoldsUp(job: Job, replicas: seq<Pod>, w: World, j: int, k: int)
    requires NamesDiffer(replicas) && 0 <= k < j < |replicas|
    requires replicas[j].inPlace == Mark(true) && w.inPlaceDone(replicas[j].name) != Done
    ensures
      var commands := RollReplicas(job, replicas, w, |replicas| - 1).commands;
      forall command | command in commands :: !IsAbout(command, replicas[k])
  {
    var commands := RollReplicas(job, replicas, w, |replicas| - 1).commands;
    forall command | command in commands ensures !IsAbout(command, replicas[k]) {
      HeldUpAbove(job, replicas, w, j, k, command);
    }
  }

  // ---- what fails ----

  /** The in-place progress of some pod cannot be read. */
  ghost predicate SomeUnreadable(replicas: seq<Pod>, w: World) {
    exists pod <- replicas :: pod.inPlace == Mark(true) && w.inPlaceDone(pod.name) == Unreadable
  }

  /** A request whose failure counts; one to update in place may fail, as the pod is deleted then. */
  ghost predicate SomeFails(commands: seq<Command>, w: World) {
    exists command <- commands :: w.fails(command) && !command.UpdateInPlace?
  }

  lemma FailsInParts(a: seq<Command>, b: seq<Command>, w: World)
    ensures SomeFails(a + b, w) <==> SomeFails(a, w) || SomeFails(b, w)
  {
    if SomeFails(a, w) {
      var command :| command in a && w.fails(command) && !command.UpdateInPlace?;
      assert command in a + b;
    }
    if SomeFails(b, w) {
      var command :| command in b && w.fails(command) && !command.UpdateInPlace?;
      assert command in a + b;
    }
  }

  lemma FailsAlone(command: Command, w: World)
    ensures SomeFails([command], w) <==> w.fails(command) && !command.UpdateInPlace?
  {
    assert command in [command];
  }

  lemma VisitFails(job: Job, pod: Pod, w: World)
    ensures VisitReplica(job, pod, w).failed <==> SomeFails(VisitReplica(job, pod, w).commands, w)
  {
    FailsAlone(DeletePod(pod.name), w);
    FailsAlone(CreatePod(pod), w);
    FailsAlone(CreateClaims(pod.name), w);
    FailsAlone(RepairPod(pod.name), w);
  }

  lemma {:induction false} ScanFails(job: Job, replicas: seq<Pod>, w: World, i: nat)
    requires i <= |replicas|
    ensures var scan := ScanReplicas(job, replicas, w, i); scan.failed <==> SomeFails(scan.commands, w)
    decreases |replicas| - i
  {
    if i < |replicas| {
      var visit := VisitReplica(job, replicas[i], w);
      VisitFails(job, replicas[i], w);
      ScanFails(job, replicas, w, i + 1);
      FailsInParts(visit.commands, ScanReplicas(job, replicas, w, i + 1).commands, w);
    }
  }

  lemma {:induction false} RemovalFails(job: Job, surplus: seq<Pod>, first: Option<string>, w: World, i: nat)
    requires i <= |surplus|
    ensures var down := RemoveSurplus(job, surplus, first, w, i); down.failed <==> SomeFails(down.commands, w)
    decreases |surplus| - i
  {
    if i < |surplus| {
      var one := RemoveOne(job, surplus[i], first, w);
      FailsAlone(DeletePod(surplus[i].name), w);
      RemovalFails(job, surplus, first, w, i + 1);
      FailsInParts(one.commands, RemoveSurplus(job, surplus, first, w, i + 1).commands, w);
    }
  }

  lemma RollOneFails(job: Job, pod: Pod, w: World)
    ensures
      var one := RollOne(job, pod, w);
      && (SomeFails(one.commands, w) ==> one.failed)
      && (one.failed ==> one.stop && (SomeFails(one.commands, w)
                           || (pod.inPlace == Mark(true) && w.inPlaceDone(pod.name) == Unreadable)))
  {
    var tried, deleted := UpdateInPlace(pod.name), DeletePod(pod.name);
    FailsAlone(tried, w);
    FailsAlone(deleted, w);
    FailsAlone(FinishInPlace(pod.name), w);
    FailsInParts([tried], [deleted], w);
    assert [tried] + [deleted] == [tried, deleted];
  }

  lemma {:induction false} RollFails(job: Job, replicas: seq<Pod>, w: World, target: int)
    requires target < |replicas|
    ensures
      var roll := RollReplicas(job, replicas, w, target);
      && (SomeFails(roll.commands, w) ==> roll.failed)
      && (roll.failed ==> SomeFails(roll.commands, w) || SomeUnreadable(replicas, w))
    decreases target + 1
  {
    if target >= job.app.strategy.partition {
      var one := RollOne(job, replicas[target], w);
      RollOneFails(job, replicas[target], w);
      if !one.stop {
        RollFails(job, replicas, w, target - 1);
        FailsInParts(one.commands, RollReplicas(job, replicas, w, target - 1).commands, w);
      }
    }
  }

  /**
   No failure is lost: a run fails if one of its requests does, other than one to update in place, and it fails for no
   other reason than that the progress of such an update cannot be read.
   */
  lemma NoFailureIsLost(job: Job, replicas: seq<Pod>, surplus: seq<Pod>, w: World)
    ensures
      var acted := Act(job, replicas, surplus, w);
      && (SomeFails(acted.commands, w) ==> acted.failed)
      && (acted.failed ==> SomeFails(acted.commands, w) || SomeUnreadable(replicas, w))
  {
    var first := FirstUnhealthy(OrdinalOf, replicas + Reversed(surplus)).name;
    var scan, down := ScanReplicas(job, replicas, w, 0), RemoveSurplus(job, surplus, first, w, 0);
    var roll := RollReplicas(job, replicas, w, |replicas| - 1);
    ScanFails(job, replicas, w, 0);
    RemovalFails(job, surplus, first, w, 0);
    RollFails(job, replicas, w, |replicas| - 1);
    FailsInParts(down.commands, roll.commands, w);
    FailsInParts(scan.commands, ScaleAndRoll(job, replicas, surplus, first, w).commands, w);
  }
}
