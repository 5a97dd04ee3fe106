/**
 One run of the state controller over an App's pods: what it asks of the API server, and the status
 it reports. The functions say it; the methods of PodController do it the way the source does.
 */
module Sync {
  import opened Text
  import opened Kube
  import opened Identity
  import opened ReplicaStatus
  import opened Slots

  /** A request to the API server. CreatePod stands for the pod together with its volume claims. */
  datatype Command =
    | CreatePod(pod: Pod)
    | CreateClaims(name: string)
    | RepairPod(name: string)
    | DeletePod(name: string)
    | UpdateInPlace(name: string)
    | FinishInPlace(name: string)

  datatype DoneCheck = Done | NotDone | Unreadable

  /**
   What the controller cannot decide: which requests fail, how in-place updates are getting on, and the order in
   which Go iterates over the claims when it repairs a pod.
   */
  datatype World = World(
    fails: Command -> bool, inPlaceDone: string -> DoneCheck, repairOrder: string -> seq<string>)

  // ---- the first unhealthy pod ----

  datatype Unhealthy = Unhealthy(ordinal: int, name: Option<string>)

  predicate IsUnhealthy(pod: Pod) {
    !IsReady(pod) || pod.terminating
  }

  /** The unhealthy pod with the lowest ordinal, as long as that is below the largest 32-bit integer. */
  function FirstUnhealthy(ordinalOf: Pod -> int, pods: seq<Pod>): Unhealthy {
    if pods == [] then Unhealthy(MAX_INT32, None)
    else
      var first := FirstUnhealthy(ordinalOf, pods[..|pods| - 1]);
      var last := pods[|pods| - 1];
      if IsUnhealthy(last) && ordinalOf(last) < first.ordinal then Unhealthy(ordinalOf(last), Some(last.name))
      else first
  }

  function Reversed(pods: seq<Pod>): seq<Pod> {
    if pods == [] then [] else Reversed(pods[1..]) + [pods[0]]
  }

  // ---- checking the replicas, lowest ordinal first ----

  datatype Visit = Visit(commands: seq<Command>, failed: bool, available: bool, stop: bool)

  function VisitReplica(job: Job, pod: Pod, w: World): Visit {
    var burstable := job.app.parallel;
    if pod.phase.Failed? || pod.phase.Succeeded? then
      if pod.terminating then Visit([], false, false, true)
      else Visit([DeletePod(pod.name)], w.fails(DeletePod(pod.name)), false, true)
    else if pod.phase.Unset? then
      Visit([CreatePod(pod)], w.fails(CreatePod(pod)), false, !burstable)
    else
      var pending := pod.phase.Pending?;
      var claims := if pending then [CreateClaims(pod.name)] else [];
      if pending && w.fails(CreateClaims(pod.name)) then Visit(claims, true, false, true)
      else if pod.terminating || !IsAvailable(pod, job.app.strategy.minReadySeconds, job.now) then
        // a burstable App that stops here can still go on to scale down and to update
        Visit(claims, false, burstable && !pending, true)
      else if !MatchesApp(job.app, pod) || !MatchesClaims(job.app, pod) then
        var failed := NeedsUpdate(job.app, pod) && w.fails(RepairPod(pod.name));
        Visit(if NeedsUpdate(job.app, pod) then [RepairPod(pod.name)] else [], failed, true, failed)
      else Visit([], false, true, false)
  }

  /** What the source asks before it stores a repaired pod; of the volumes it asks the opposite of its caller. */
  predicate NeedsUpdate(app: App, pod: Pod) {
    !MatchesApp(app, pod) || MatchesClaims(app, pod)
  }

  datatype Scan = Scan(commands: seq<Command>, failed: bool, allAvailable: bool)

  function ScanReplicas(job: Job, replicas: seq<Pod>, w: World, i: nat): Scan
    requires i <= |replicas|
    decreases |replicas| - i
  {
    if i == |replicas| then Scan([], false, true)
    else
      var visit := VisitReplica(job, replicas[i], w);
      if visit.stop then Scan(visit.commands, visit.failed, visit.available)
      else
        var rest := ScanReplicas(job, replicas, w, i + 1);
        Scan(visit.commands + rest.commands, visit.failed || rest.failed, visit.available && rest.allAvailable)
  }

  // ---- removing the surplus, highest ordinal first ----

  datatype ScaleDown = ScaleDown(commands: seq<Command>, failed: bool, exit: bool)

  function RemoveOne(job: Job, pod: Pod, first: Option<string>, w: World): ScaleDown {
    var burstable := job.app.parallel;
    if !burstable && (pod.terminating || (!IsReady(pod) && first != Some(pod.name))) then ScaleDown([], false, true)
    else if pod.terminating then ScaleDown([], false, false)
    else
      var failed := w.fails(DeletePod(pod.name));
      ScaleDown([DeletePod(pod.name)], failed, failed || !burstable)
  }

  function RemoveSurplus(job: Job, surplus: seq<Pod>, first: Option<string>, w: World, i: nat): ScaleDown
    requires i <= |surplus|
    decreases |surplus| - i
  {
    if i == |surplus| then ScaleDown([], false, false)
    else
      var one := RemoveOne(job, surplus[i], first, w);
      if one.exit then one
      else
        var rest := RemoveSurplus(job, surplus, first, w, i + 1);
        ScaleDown(one.commands + rest.commands, rest.failed, rest.exit)
  }

  // ---- the rolling update, highest ordinal first ----

  datatype Roll = Roll(commands: seq<Command>, failed: bool, evicted: bool)

  datatype RollStep = RollStep(commands: seq<Command>, failed: bool, evicted: bool, stop: bool)

  function RollOne(job: Job, pod: Pod, w: World): RollStep {
    if RevisionOf(pod) != job.update.name && !pod.terminating then
      if !job.app.strategy.inPlace then
        RollStep([DeletePod(pod.name)], w.fails(DeletePod(pod.name)), !w.fails(DeletePod(pod.name)), true)
      else if !w.fails(UpdateInPlace(pod.name)) then RollStep([UpdateInPlace(pod.name)], false, false, true)
      else
        var failed := w.fails(DeletePod(pod.name));
        RollStep([UpdateInPlace(pod.name), DeletePod(pod.name)], failed, !failed, true)
    else if pod.inPlace == Mark(true) then
      if !w.inPlaceDone(pod.name).Done? then RollStep([], w.inPlaceDone(pod.name).Unreadable?, false, true)
      else
        // once cleaned up, the pod is passed without waiting for it to be ready
        var failed := w.fails(FinishInPlace(pod.name));
        RollStep([FinishInPlace(pod.name)], failed, false, failed)
    else RollStep([], false, false, !IsReady(pod) && !pod.terminating)
  }

  function RollReplicas(job: Job, replicas: seq<Pod>, w: World, target: int): Roll
    requires target < |replicas|
    decreases target + 1
  {
    if target < job.app.strategy.partition then Roll([], false, false)
    else
      var one := RollOne(job, replicas[target], w);
      if one.stop then Roll(one.commands, one.failed, one.evicted)
      else
        var rest := RollReplicas(job, replicas, w, target - 1);
        rest.(commands := one.commands + rest.commands)
  }

  // ---- the whole run ----

  function InitialStatus(job: Job): Status {
    Status(0, 0, 0, 0, 0, 0, 0, job.current.name, job.update.name)
  }

  /** The status counts the pods as listed and then again as laid out; a pod evicted just now still counts. */
  function Report(job: Job, pods: seq<Pod>, laidOut: seq<Pod>, evicted: bool): Status {
    var minReadySeconds := job.app.strategy.minReadySeconds;
    var listed := Tallied(InitialStatus(job), pods, minReadySeconds, job.now);
    var status := Tallied(listed, laidOut, minReadySeconds, job.now);
    if evicted then status.(currentReplicas := status.currentReplicas - 1) else status
  }

  /** Once every replica is available: the surplus first, then the update. */
  function ScaleAndRoll(job: Job, replicas: seq<Pod>, surplus: seq<Pod>, first: Option<string>, w: World): Roll {
    var strategy := job.app.strategy;
    var down := RemoveSurplus(job, surplus, first, w, 0);
    if down.exit || down.failed || strategy.onDelete || job.app.deleting || strategy.paused then
      Roll(down.commands, down.failed, false)
    else
      var roll := RollReplicas(job, replicas, w, |replicas| - 1);
      roll.(commands := down.commands + roll.commands)
  }

  /** The three stages; each is reached only if the ones before it let the run go on. */
  function Act(job: Job, replicas: seq<Pod>, surplus: seq<Pod>, w: World): Roll {
    var scan := ScanReplicas(job, replicas, w, 0);
    if scan.failed || !scan.allAvailable then Roll(scan.commands, scan.failed, false)
    else
      var rest := ScaleAndRoll(job, replicas, surplus, FirstUnhealthy(OrdinalOf, replicas + Reversed(surplus)).name, w);
      rest.(commands := scan.commands + rest.commands)
  }

  // ---- the same, as the source runs it ----

  class PodController {
    var issued: seq<Command>

    constructor ()
      ensures issued == []
    {
      issued := [];
    }

    method Issue(command: Command, w: World) returns (failed: bool)
      modifies this
      ensures issued == old(issued) + [command] && failed == w.fails(command)
    {
      issued := issued + [command];
      failed := w.fails(command);
    }

    /** Deleting a pod that is already terminating asks for nothing. */
    method DeleteStatefulPod(pod: Pod, w: World) returns (failed: bool)
      modifies this
      ensures pod.terminating ==> issued == old(issued) && !failed
      ensures !pod.terminating ==> issued == old(issued) + [DeletePod(pod.name)]
      ensures !pod.terminating ==> failed == w.fails(DeletePod(pod.name))
    {
      if pod.terminating {
        return false;
      }
      failed := Issue(DeletePod(pod.name), w);
    }

    /** One that misses nothing but claims is not stored. */
    method UpdateStatefulPod(app: App, pod: Pod, w: World) returns (failed: bool)
      modifies this
      ensures NeedsUpdate(app, pod) ==> issued == old(issued) + [RepairPod(pod.name)]
      ensures NeedsUpdate(app, pod) ==> failed == w.fails(RepairPod(pod.name))
      ensures !NeedsUpdate(app, pod) ==> issued == old(issued) && !failed
    {
      var needUpdate := false;
      var named := pod;
      if !MatchesApp(app, pod) {
        named := WithIdentity(app, pod);
        needUpdate := true;
      }
      var claimsMatch := CheckClaims(app, named);
      if claimsMatch {
        needUpdate := true;
      }
      if !needUpdate {
        return false;
      }
      failed := Issue(RepairPod(pod.name), w);
    }

    method CheckReplica(job: Job, pod: Pod, w: World) returns (failed: bool, available: bool, stop: bool)
      modifies this
      ensures var visit := VisitReplica(job, pod, w);
              && issued == old(issued) + visit.commands
              && failed == visit.failed && available == visit.available && stop == visit.stop
    {
      var burstable := job.app.parallel;
      failed, available := false, true;
      if pod.phase.Failed? || pod.phase.Succeeded? {
        available := false;
        if !pod.terminating {
          failed := DeleteStatefulPod(pod, w);
        }
        return failed, available, true;
      }
      if pod.phase.Unset? {
        available := false;
        failed := Issue(CreatePod(pod), w);
        return failed, available, !burstable;
      }
      if pod.phase.Pending? {
        available := false;
        failed := Issue(CreateClaims(pod.name), w);
        if failed {
          return failed, available, true;
        }
      }
      if pod.terminating && !burstable {
        return failed, false, true;
      }
      if pod.terminating && burstable {
        return failed, available, true;
      }
      if !IsAvailable(pod, job.app.strategy.minReadySeconds, job.now) {
        if !burstable {
          available := false;
        }
        return failed, available, true;
      }
      var claimsMatch := CheckClaims(job.app, pod);
      if !MatchesApp(job.app, pod) || !claimsMatch {
        failed := UpdateStatefulPod(job.app, pod, w);
        return failed, available, failed;
      }
      return failed, available, false;
    }

    method CheckReplicas(job: Job, replicas: seq<Pod>, w: World) returns (failed: bool, allAvailable: bool)
      modifies this
      ensures var scan := ScanReplicas(job, replicas, w, 0);
              issued == old(issued) + scan.commands && failed == scan.failed && allAvailable == scan.allAvailable
    {
      failed, allAvailable := false, true;
      ghost var scan := ScanReplicas(job, replicas, w, 0);
      for i := 0 to |replicas|
        invariant var rest := ScanReplicas(job, replicas, w, i);
                  && issued + rest.commands == old(issued) + scan.commands
                  && (failed || rest.failed) == scan.failed
                  && (allAvailable && rest.allAvailable) == scan.allAvailable
      {
        ghost var start := issued;
        var failedHere, available, stop := CheckReplica(job, replicas[i], w);
        AppendTwice(start, VisitReplica(job, replicas[i], w).commands, ScanReplicas(job, replicas, w, i + 1).commands);
        failed, allAvailable := failed || failedHere, allAvailable && available;
        if stop {
          return;
        }
      }
    }

    method RemovePod(job: Job, pod: Pod, first: Option<string>, w: World) returns (failed: bool, exit: bool)
      modifies this
      ensures var one := RemoveOne(job, pod, first, w);
              issued == old(issued) + one.commands && failed == one.failed && exit == one.exit
    {
      var burstable := job.app.parallel;
      if pod.terminating && !burstable {
        return false, true;
      }
      if !burstable && !IsReady(pod) && Some(pod.name) != first {
        return false, true;
      }
      failed := DeleteStatefulPod(pod, w);
      return failed, failed || !burstable;
    }

    method ScaleDownSurplus(job: Job, surplus: seq<Pod>, first: Option<string>, w: World)
      returns (failed: bool, exit: bool)
      modifies this
      ensures var down := RemoveSurplus(job, surplus, first, w, 0);
              issued == old(issued) + down.commands && failed == down.failed && exit == down.exit
    {
      failed, exit := false, false;
      ghost var down := RemoveSurplus(job, surplus, first, w, 0);
      for i := 0 to |surplus|
        invariant !failed && !exit
        invariant var rest := RemoveSurplus(job, surplus, first, w, i);
                  && issued + rest.commands == old(issued) + down.commands
                  && rest.failed == down.failed && rest.exit == down.exit
      {
        ghost var start := issued;
        failed, exit := RemovePod(job, surplus[i], first, w);
        AppendTwice(start, RemoveOne(job, surplus[i], first, w).commands,
                    RemoveSurplus(job, surplus, first, w, i + 1).commands);
        if exit {
          return;
        }
      }
    }

    method RollPod(job: Job, pod: Pod, w: World) returns (failed: bool, evicted: bool, stop: bool)
      modifies this
      ensures var one := RollOne(job, pod, w);
              && issued == old(issued) + one.commands
              && failed == one.failed && evicted == one.evicted && stop == one.stop
    {
      if RevisionOf(pod) != job.update.name && !pod.terminating {
        if job.app.strategy.inPlace {
          var refused := Issue(UpdateInPlace(pod.name), w);
          if !refused {
            return false, false, true;
          }
        }
        failed := DeleteStatefulPod(pod, w);
        return failed, !failed, true;
      }
      if pod.inPlace == Mark(true) {
        match w.inPlaceDone(pod.name) {
          case Unreadable => return true, false, true;
          case NotDone => return false, false, true;
          case Done =>
        }
        failed := Issue(FinishInPlace(pod.name), w);
        return failed, false, failed;
      }
      return false, false, !(IsReady(pod) || pod.terminating);
    }

    method RollOut(job: Job, replicas: seq<Pod>, w: World) returns (failed: bool, evicted: bool)
      modifies this
      ensures var roll := RollReplicas(job, replicas, w, |replicas| - 1);
              issued == old(issued) + roll.commands && failed == roll.failed && evicted == roll.evicted
    {
      ghost var roll := RollReplicas(job, replicas, w, |replicas| - 1);
      var target := |replicas| - 1;
      while target >= job.app.strategy.partition
        invariant -1 <= target < |replicas|
        invariant var rest := RollReplicas(job, replicas, w, target);
                  && issued + rest.commands == old(issued) + roll.commands
                  && rest.failed == roll.failed && rest.evicted == roll.evicted
      {
        ghost var start := issued;
        var stop;
        failed, evicted, stop := RollPod(job, replicas[target], w);
        AppendTwice(start, RollOne(job, replicas[target], w).commands,
                    RollReplicas(job, replicas, w, target - 1).commands);
        if stop {
          return;
        }
        target := target - 1;
      }
      return false, false;
    }

    method FindFirstUnhealthy(ordinalOf: Pod -> int, replicas: seq<Pod>, surplus: seq<Pod>) returns (first: Unhealthy)
      ensures first == FirstUnhealthy(ordinalOf, replicas + Reversed(surplus))
    {
      first := Unhealthy(MAX_INT32, None);
      for i := 0 to |replicas|
        invariant first == FirstUnhealthy(ordinalOf, replicas[..i])
      {
        assert replicas[..i + 1][..i] == replicas[..i];
        if !IsReady(replicas[i]) || replicas[i].terminating {
          var ordinal := ordinalOf(replicas[i]);
          if ordinal < first.ordinal {
            first := Unhealthy(ordinal, Some(replicas[i].name));
          }
        }
      }
      assert replicas[..|replicas|] == replicas == replicas + Reversed(surplus[|surplus|..]);
      var i := |surplus|;
      while i > 0
        invariant 0 <= i <= |surplus|
        invariant first == FirstUnhealthy(ordinalOf, replicas + Reversed(surplus[i..]))
      {
        i := i - 1;
        assert replicas + Reversed(surplus[i..]) == (replicas + Reversed(surplus[i + 1..])) + [surplus[i]];
        if !IsReady(surplus[i]) || surplus[i].terminating {
          var ordinal := ordinalOf(surplus[i]);
          if ordinal < first.ordinal {
            first := Unhealthy(ordinal, Some(surplus[i].name));
          }
        }
      }
    }

    /** applyUpdate: lay the pods out, then check, scale down, and roll the update out. */
    method ApplyUpdate(job: Job, pods: seq<Pod>, build: Builder, w: World)
      returns (status: Status, failed: bool, replicas: seq<Pod>, surplus: seq<Pod>)
      requires HaveOrdinals(pods)
      modifies this
      ensures replicas == Replicas(job, pods, build)
      ensures DescendingBy(OrdinalOf, surplus)
      ensures multiset(surplus) == multiset(Surplus(pods, job.app.replicas))
      ensures var acted := Act(job, replicas, surplus, w);
              && issued == old(issued) + acted.commands && failed == acted.failed
              && status == Report(job, pods, replicas + surplus, acted.evicted)
    {
      var strategy := job.app.strategy;
      status := UpdateStatus(InitialStatus(job), strategy.minReadySeconds, job.now, [pods]);
      FlattenOne(pods);
      replicas, surplus := LayOut(job, pods, build);
      var evicted;
      failed, evicted := TakeAction(job, replicas, surplus, w);
      status := UpdateStatus(status, strategy.minReadySeconds, job.now, [replicas, surplus]);
      FlattenTwo(replicas, surplus);
      if evicted {
        status := status.(currentReplicas := status.currentReplicas - 1);
      }
    }

    method TakeAction(job: Job, replicas: seq<Pod>, surplus: seq<Pod>, w: World) returns (failed: bool, evicted: bool)
      modifies this
      ensures var acted := Act(job, replicas, surplus, w);
              issued == old(issued) + acted.commands && failed == acted.failed && evicted == acted.evicted
    {
      var first := FindFirstUnhealthy(OrdinalOf, replicas, surplus);
      var allAvailable;
      failed, allAvailable := CheckReplicas(job, replicas, w);
      if failed || !allAvailable {
        return failed, false;
      }
      failed, evicted := RemoveOrUpdate(job, replicas, surplus, first.name, w);
      AppendTwice(old(issued), ScanReplicas(job, replicas, w, 0).commands,
                  ScaleAndRoll(job, replicas, surplus, first.name, w).commands);
    }

    method RemoveOrUpdate(job: Job, replicas: seq<Pod>, surplus: seq<Pod>, first: Option<string>, w: World)
      returns (failed: bool, evicted: bool)
      modifies this
      ensures var acted := ScaleAndRoll(job, replicas, surplus, first, w);
              issued == old(issued) + acted.commands && failed == acted.failed && evicted == acted.evicted
    {
      var strategy := job.app.strategy;
      var exit;
      failed, exit := ScaleDownSurplus(job, surplus, first, w);
      if exit || failed || strategy.onDelete || job.app.deleting || strategy.paused {
        return failed, false;
      }
      failed, evicted := RollOut(job, replicas, w);
      AppendTwice(old(issued), RemoveSurplus(job, surplus, first, w, 0).commands,
                  RollReplicas(job, replicas, w, |replicas| - 1).commands);
    }

    method LayOut(job: Job, pods: seq<Pod>, build: Builder) returns (replicas: seq<Pod>, surplus: seq<Pod>)
      requires HaveOrdinals(pods)
      ensures replicas == Replicas(job, pods, build)
      ensures DescendingBy(OrdinalOf, surplus)
      ensures multiset(surplus) == multiset(Surplus(pods, job.app.replicas))
    {
      var slots := new Option<Pod>[job.app.replicas](_ => None);
      surplus := PlacePods(pods, slots);
      FillGaps(job, slots, build);
      assert FilledBelow(slots[..], slots.Length);
      replicas := seq(slots.Length, i requires 0 <= i < slots.Length && slots[i].Some? reads slots => slots[i].value);
      surplus := SortDescending(OrdinalOf, surplus);
    }
  }

  lemma AppendTwice(start: seq<Command>, a: seq<Command>, b: seq<Command>)
    ensures (start + a) + b == start + (a + b)
  {}

  lemma FlattenOne(a: seq<Pod>)
    ensures Flatten([a]) == a
  {
    assert [a][..0] == [];
  }

  lemma FlattenTwo(a: seq<Pod>, b: seq<Pod>)
    ensures Flatten([a, b]) == a + b
  {
    FlattenOne(a);
    assert [a, b][..1] == [a];
  }
}
