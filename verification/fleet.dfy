/**
 The pods of one App as the API server stores them, by ordinal; what requests do to them; and what
 one ordered run comes to when it is seen from there.
 */
module Fleet {
  import opened Text
  import opened Kube
  import opened Identity
  import opened Slots
  import opened Sync
  import opened Discipline

  type Fleet = map<int, Pod>

  ghost predicate Keyed(fleet: Fleet) {
    forall o <- fleet :: o >= 0 && OrdinalOf(fleet[o]) == o
  }

  /** A listing of the fleet: every pod once, in any order. */
  ghost predicate Lists(fleet: Fleet, pods: seq<Pod>) {
    && DistinctOrdinals(pods)
    && (forall pod <- pods :: OrdinalOf(pod) in fleet && fleet[OrdinalOf(pod)] == pod)
    && (forall o <- fleet :: fleet[o] in pods)
  }

  /** Pods as this controller makes them and others leave them: named, labelled and mounted for their slot. */
  ghost predicate WellKept(app: App, fleet: Fleet) {
    forall o <- fleet :: 0 <= o < MAX_INT32 && IsKept(app, o, fleet[o])
  }

  ghost predicate IsKept(app: App, ordinal: int, pod: Pod) {
    && ParsePodName(pod.name) == (app.name, ordinal)
    && MatchesApp(app, pod) && MatchesClaims(app, pod)
    && !pod.phase.Unset?
  }

  /** Stored pods, whatever has become of their labels and volumes: under the ordinals in their names. */
  ghost predicate Placed(fleet: Fleet) {
    forall o <- fleet :: 0 <= o < MAX_INT32 && OrdinalOf(fleet[o]) == o && !fleet[o].phase.Unset?
  }

  lemma KeptIsPlaced(app: App, fleet: Fleet)
    requires WellKept(app, fleet)
    ensures Placed(fleet) && Keyed(fleet)
  {
    assert forall o <- fleet :: IsKept(app, o, fleet[o]);
  }

  /** No pod is marked as edited in place. */
  ghost predicate Unmarked(fleet: Fleet) {
    forall o <- fleet :: fleet[o].inPlace.NoMark?
  }

  // ---- what requests do ----

  /** A request that fails does nothing. A deleted pod stays, terminating, until it has shut down. */
  function Perform(app: App, fleet: Fleet, command: Command, w: World): Fleet {
    if w.fails(command) then fleet
    else match command
      case CreatePod(pod) => fleet[OrdinalOf(pod) := pod.(phase := Pending)]
      case DeletePod(name) =>
        var o := ParsePodName(name).1;
        if o in fleet then fleet[o := fleet[o].(terminating := true)] else fleet
      case RepairPod(name) =>
        var o := ParsePodName(name).1;
        if o in fleet && !MatchesApp(app, fleet[o]) then fleet[o := Repaired(app, fleet[o], w.repairOrder(name))]
        else fleet
      case _ => fleet
  }

  function PerformAll(app: App, fleet: Fleet, commands: seq<Command>, w: World): Fleet {
    if commands == [] then fleet
    else Perform(app, PerformAll(app, fleet, commands[..|commands| - 1], w), commands[|commands| - 1], w)
  }

  /** Requests other than creations and deletions leave well-kept pods alone. */
  lemma {:induction false} OnlyChangesMatter(app: App, fleet: Fleet, commands: seq<Command>, w: World)
    requires |PodChanges(commands)| <= 1
    requires WellKept(app, fleet)
    requires PodChanges(commands) != [] ==> WellKept(app, Perform(app, fleet, PodChanges(commands)[0], w))
    ensures PerformAll(app, fleet, commands, w)
         == if PodChanges(commands) == [] then fleet else Perform(app, fleet, PodChanges(commands)[0], w)
  {
    if commands != [] {
      var front, last := commands[..|commands| - 1], commands[|commands| - 1];
      if ChangesPods(last) {
        assert PodChanges(front) == [] && PodChanges(commands)[0] == last;
      }
      OnlyChangesMatter(app, fleet, front, w);
    }
  }

  // ---- the slots of a fleet ----

  /** How many of the pods below n are not at the update revision. */
  function OutdatedBelow(fleet: Fleet, n: nat, update: string): nat {
    if n == 0 then 0
    else OutdatedBelow(fleet, n - 1, update) + (if n - 1 in fleet && RevisionOf(fleet[n - 1]) != update then 1 else 0)
  }

  /** The revision of a new pod for the lowest gap. */
  function SlotRevision(job: Job, fleet: Fleet, i: int): Revision {
    var strategy := job.app.strategy;
    if strategy.onDelete then job.update
    else if strategy.unordered then
      if OutdatedBelow(fleet, job.app.replicas, job.update.name) < strategy.partition then job.current else job.update
    else if i < strategy.partition then job.current
    else job.update
  }

  ghost predicate ShowsFleet(fleet: Fleet, slots: seq<Option<Pod>>) {
    forall o | 0 <= o < |slots| :: slots[o] == if o in fleet then Some(fleet[o]) else None
  }

  lemma PlacedFleet(fleet: Fleet, pods: seq<Pod>, n: nat)
    requires Keyed(fleet) && Lists(fleet, pods)
    ensures ShowsFleet(fleet, Place(pods, n))
  {
    PlaceKeepsAll(pods, n);
  }

  lemma {:induction false} OutdatedInSlots(fleet: Fleet, slots: seq<Option<Pod>>, update: string)
    requires ShowsFleet(fleet, slots)
    ensures Outdated(slots, update, -1) == OutdatedBelow(fleet, |slots|, update)
  {
    if slots != [] {
      OutdatedInSlots(fleet, slots[..|slots| - 1], update);
    }
  }

  /** Filling starts at the lowest gap, which sees the slots as they were. */
  lemma {:induction false} LowestGap(job: Job, slots: seq<Option<Pod>>, build: Builder, i: nat, k: nat)
    requires i <= k < |slots| && slots[k].None? && FilledBelow(slots, k)
    ensures Fill(job, slots, build, i)[k] == Some(NewVersionedPod(job, k, slots, build))
    decreases k - i
  {
    if i < k {
      LowestGap(job, slots, build, i + 1, k);
    }
  }

  lemma SlotRevisionOfGap(job: Job, fleet: Fleet, slots: seq<Option<Pod>>, k: nat)
    requires ShowsFleet(fleet, slots) && k < |slots| == job.app.replicas && slots[k].None?
    ensures (if IsCurrentExpected(job, k, slots) then job.current else job.update) == SlotRevision(job, fleet, k)
  {
    OutdatedInSlots(fleet, slots, job.update.name);
    OutdatedWithoutGap(slots, job.update.name, k);
  }

  lemma {:induction false} OutdatedWithoutGap(slots: seq<Option<Pod>>, update: string, k: nat)
    requires k < |slots| && slots[k].None?
    ensures Outdated(slots, update, k) == Outdated(slots, update, -1)
  {
    var last := |slots| - 1;
    if k == last {
      ExceptOutside(slots[..last], update, k);
    } else {
      OutdatedWithoutGap(slots[..last], update, k);
    }
  }

  /** Stored pods stand in their slots, and new ones, at one of the two revisions, in the gaps. */
  ghost predicate ShowsReplicas(job: Job, fleet: Fleet, build: Builder, replicas: seq<Pod>) {
    && |replicas| == job.app.replicas
    && (forall i | 0 <= i < |replicas| && i in fleet :: replicas[i] == fleet[i])
    && (forall i | 0 <= i < |replicas| && i !in fleet :: IsBuilt(job, build, i, replicas[i]))
  }

  ghost predicate IsBuilt(job: Job, build: Builder, i: nat, pod: Pod) {
    pod == build(job.current, i) || pod == build(job.update, i)
  }

  lemma FleetReplicas(job: Job, fleet: Fleet, pods: seq<Pod>, build: Builder)
    requires Keyed(fleet) && Lists(fleet, pods)
    ensures ShowsReplicas(job, fleet, build, Replicas(job, pods, build))
    ensures forall i | 0 <= i < job.app.replicas && i !in fleet && (forall j | 0 <= j < i :: j in fleet) ::
              Replicas(job, pods, build)[i] == build(SlotRevision(job, fleet, i), i)
  {
    var n := job.app.replicas;
    var slots := Place(pods, n);
    PlacedFleet(fleet, pods, n);
    forall i | 0 <= i < n && i !in fleet ensures IsBuilt(job, build, i, Replicas(job, pods, build)[i]) {
      FilledShape(job, slots, build, 0, i);
    }
    forall i | 0 <= i < n && i !in fleet && (forall j | 0 <= j < i :: j in fleet)
      ensures Replicas(job, pods, build)[i] == build(SlotRevision(job, fleet, i), i)
    {
      LowestGap(job, slots, build, 0, i);
      SlotRevisionOfGap(job, fleet, slots, i);
    }
  }

  // ---- the next change ----

  datatype Change = Stay | Create(ordinal: int) | Evict(ordinal: int)

  predicate HealthyAt(job: Job, fleet: Fleet, o: int) {
    o in fleet && Healthy(job, fleet[o])
  }

  /** The lowest ordinal from i on that is missing or not healthy, or the number of replicas. */
  function FirstSick(job: Job, fleet: Fleet, i: nat): (k: nat)
    requires i <= job.app.replicas
    ensures i <= k <= job.app.replicas
    ensures forall j | i <= j < k :: HealthyAt(job, fleet, j)
    ensures k < job.app.replicas ==> !HealthyAt(job, fleet, k)
    decreases job.app.replicas - i
  {
    if i == job.app.replicas || !HealthyAt(job, fleet, i) then i else FirstSick(job, fleet, i + 1)
  }

  /** The highest ordinal in use from lo on, or -1. */
  function Highest(fleet: Fleet, lo: int, hi: int): (k: int)
    ensures k == -1 || (lo <= k < hi && k in fleet)
    ensures forall o | lo <= o < hi && o in fleet :: o <= k
    decreases hi - lo
  {
    if hi <= lo then -1 else if hi - 1 in fleet then hi - 1 else Highest(fleet, lo, hi - 1)
  }

  /** The lowest ordinal from lo on whose pod is unhealthy, or hi. */
  function LowestUnhealthy(fleet: Fleet, lo: int, hi: int): (k: int)
    ensures k == hi || (lo <= k < hi && k in fleet && IsUnhealthy(fleet[k]))
    ensures forall o | lo <= o < k && o in fleet :: !IsUnhealthy(fleet[o])
    decreases hi - lo
  {
    if hi <= lo then hi else if lo in fleet && IsUnhealthy(fleet[lo]) then lo else LowestUnhealthy(fleet, lo + 1, hi)
  }

  predicate OutdatedAt(job: Job, fleet: Fleet, o: int) {
    o >= job.app.strategy.partition && o in fleet && RevisionOf(fleet[o]) != job.update.name
  }

  function HighestOutdated(job: Job, fleet: Fleet, target: int): (k: int)
    requires target >= -1
    ensures k == -1 || (k <= target && OutdatedAt(job, fleet, k))
    ensures forall o | k < o <= target :: !OutdatedAt(job, fleet, o)
    decreases target + 1
  {
    if target < 0 || OutdatedAt(job, fleet, target) then target else HighestOutdated(job, fleet, target - 1)
  }

  predicate IsTerminal(pod: Pod) {
    pod.phase.Failed? || pod.phase.Succeeded?
  }

  function NextMend(fleet: Fleet, i: int): Change {
    if i !in fleet then Create(i)
    else if IsTerminal(fleet[i]) && !fleet[i].terminating then Evict(i)
    else Stay
  }

  function NextShrink(fleet: Fleet, lo: int, hi: int, top: int): Change
    requires top in fleet
  {
    if !fleet[top].terminating && (IsReady(fleet[top]) || LowestUnhealthy(fleet, lo, hi) == top) then Evict(top)
    else Stay
  }

  function NextRenew(job: Job, fleet: Fleet): Change {
    var strategy := job.app.strategy;
    var target := HighestOutdated(job, fleet, job.app.replicas - 1);
    if strategy.onDelete || job.app.deleting || strategy.paused || target < 0 then Stay else Evict(target)
  }

  /** The change that a run of an ordered App intends, read off the stored pods; bound is above every ordinal. */
  function NextChange(job: Job, fleet: Fleet, bound: int): Change {
    var n := job.app.replicas;
    var i := FirstSick(job, fleet, 0);
    var top := Highest(fleet, n, bound);
    if i < n then NextMend(fleet, i)
    else if top >= n then NextShrink(fleet, n, bound, top)
    else NextRenew(job, fleet)
  }

  /** Which pods are evicted, and what must hold of the others. */
  lemma EvictedIsLive(job: Job, fleet: Fleet, bound: int, o: int)
    requires NextChange(job, fleet, bound) == Evict(o)
    ensures o in fleet && !fleet[o].terminating
    ensures o < job.app.replicas ==> IsTerminal(fleet[o]) || OutdatedAt(job, fleet, o)
    ensures forall k | 0 <= k < job.app.replicas && (k < o || !IsTerminal(fleet[o])) :: HealthyAt(job, fleet, k)
    ensures o < job.app.replicas && !IsTerminal(fleet[o]) ==>
              && IsRolling(job.app)
              && forall k | o < k < job.app.replicas :: !OutdatedAt(job, fleet, k)
  {
    if FirstSick(job, fleet, 0) == job.app.replicas && o < job.app.replicas {
      assert HealthyAt(job, fleet, o);
    }
  }

  function Changed(job: Job, fleet: Fleet, build: Builder, change: Change): Fleet {
    match change
    case Stay => fleet
    case Create(i) => if i < 0 then fleet else fleet[i := build(SlotRevision(job, fleet, i), i).(phase := Pending)]
    case Evict(o) => if o in fleet then fleet[o := fleet[o].(terminating := true)] else fleet
  }

  /** A surplus pod stays as it is, or, when it is the highest one, starts to terminate. */
  predicate OnSurplus(fleet: Fleet, fleet': Fleet, lo: int, bound: int, o: int) {
    && (o in fleet' <==> o in fleet)
    && (o in fleet && fleet'[o] != fleet[o] ==>
          && fleet'[o] == fleet[o].(terminating := true)
          && Highest(fleet, lo, bound) == o
          && (IsReady(fleet[o]) || LowestUnhealthy(fleet, lo, bound) == o))
  }

  lemma ChangeOnSurplus(job: Job, fleet: Fleet, build: Builder, bound: int, o: int)
    requires o >= job.app.replicas
    ensures OnSurplus(fleet, Changed(job, fleet, build, NextChange(job, fleet, bound)), job.app.replicas, bound, o)
    ensures OnSurplus(fleet, fleet, job.app.replicas, bound, o)
  {}

  // ---- the run makes that change ----

  ghost predicate LaidOut(job: Job, fleet: Fleet, pods: seq<Pod>, build: Builder, replicas: seq<Pod>,
                          surplus: seq<Pod>) {
    && Lists(fleet, pods)
    && replicas == Replicas(job, pods, build)
    && DescendingBy(OrdinalOf, surplus)
    && multiset(surplus) == multiset(Surplus(pods, job.app.replicas))
  }

  /** New pods are labelled, well kept once stored, and not ready. */
  ghost predicate BuildsKept(app: App, build: Builder) {
    forall revision, i: nat | i < MAX_INT32 :: IsNew(app, revision, i, build(revision, i))
  }

  ghost predicate IsNew(app: App, revision: Revision, i: nat, pod: Pod) {
    && pod.phase.Unset? && pod.ready.Absent? && !pod.terminating && pod.inPlace.NoMark?
    && RevisionOf(pod) == revision.name && IsKept(app, i, pod.(phase := Pending))
  }

  lemma PodBuilderKeeps(app: App, order: ClaimOrder)
    requires forall i: nat :: IsClaimOrder(app, order(i))
    ensures BuildsKept(app, PodBuilder(app, order))
  {
    forall revision, i: nat | i < MAX_INT32 ensures IsNew(app, revision, i, PodBuilder(app, order)(revision, i)) {
      BuiltPod(app, order, revision, i);
    }
  }

  ghost predicate Bounded(fleet: Fleet, bound: int) {
    forall o <- fleet :: o < bound
  }

  /** The surplus holds exactly the pods of the fleet from an ordinal on. */
  ghost predicate HoldsFrom(ordinalOf: Pod -> int, fleet: Fleet, surplus: seq<Pod>, lo: int, bound: int) {
    && (forall pod <- surplus ::
          lo <= ordinalOf(pod) < bound && ordinalOf(pod) in fleet && fleet[ordinalOf(pod)] == pod)
    && (forall o | lo <= o < bound && o in fleet :: fleet[o] in surplus && ordinalOf(fleet[o]) == o)
  }

  lemma SurplusOfFleet(job: Job, fleet: Fleet, pods: seq<Pod>, build: Builder, replicas: seq<Pod>,
                       surplus: seq<Pod>, bound: int)
    requires Keyed(fleet) && Bounded(fleet, bound) && LaidOut(job, fleet, pods, build, replicas, surplus)
    ensures HoldsFrom(OrdinalOf, fleet, surplus, job.app.replicas, bound)
  {
    var n := job.app.replicas;
    SurplusKeepsAll(pods, n);
    forall pod ensures pod in surplus <==> pod in Surplus(pods, n) {
      assert pod in surplus <==> pod in multiset(surplus);
      assert pod in Surplus(pods, n) <==> pod in multiset(Surplus(pods, n));
    }
  }

  lemma TopOfSurplus(ordinalOf: Pod -> int, fleet: Fleet, surplus: seq<Pod>, lo: int, bound: int)
    requires HoldsFrom(ordinalOf, fleet, surplus, lo, bound) && DescendingBy(ordinalOf, surplus) && lo >= 0
    ensures var top := Highest(fleet, lo, bound);
            if surplus == [] then top == -1 else lo <= top && top in fleet && surplus[0] == fleet[top]
  {
    var top := Highest(fleet, lo, bound);
    if surplus != [] {
      assert surplus[0] in surplus;
      assert ordinalOf(surplus[0]) <= top;
      var i :| 0 <= i < |surplus| && surplus[i] == fleet[top];
      assert ordinalOf(surplus[0]) >= ordinalOf(surplus[i]);
    }
  }

  /** The lowest unhealthy ordinal wins, in whatever order the pods are looked at. */
  lemma {:induction false} FirstUnhealthyIsLowest(ordinalOf: Pod -> int, pods: seq<Pod>)
    ensures var first := FirstUnhealthy(ordinalOf, pods);
            && first.ordinal <= MAX_INT32
            && (forall pod <- pods | IsUnhealthy(pod) :: ordinalOf(pod) >= first.ordinal)
            && (first.name.Some? ==> exists pod <- pods :: IsUnhealthy(pod) && ordinalOf(pod) == first.ordinal
                                                         && pod.name == first.name.value)
            && (first.name.None? ==> first.ordinal == MAX_INT32)
  {
    if pods != [] {
      FirstUnhealthyIsLowest(ordinalOf, pods[..|pods| - 1]);
      assert pods == pods[..|pods| - 1] + [pods[|pods| - 1]];
    }
  }

  lemma {:induction false} ReversedKeeps(pods: seq<Pod>)
    ensures forall pod :: pod in Reversed(pods) <==> pod in pods
  {
    if pods != [] {
      ReversedKeeps(pods[1..]);
      assert pods == [pods[0]] + pods[1..];
    }
  }

  lemma FirstOfFleet(ordinalOf: Pod -> int, fleet: Fleet, replicas: seq<Pod>, surplus: seq<Pod>, lo: int,
                     bound: int, top: int)
    requires HoldsFrom(ordinalOf, fleet, surplus, lo, bound) && bound <= MAX_INT32
    requires forall o, o' | o in fleet && o' in fleet && fleet[o].name == fleet[o'].name :: o == o'
    requires forall pod <- replicas :: !IsUnhealthy(pod)
    requires lo <= top < bound && top in fleet && IsUnhealthy(fleet[top])
    ensures FirstUnhealthy(ordinalOf, replicas + Reversed(surplus)).name == Some(fleet[top].name)
       <==> LowestUnhealthy(fleet, lo, bound) == top
  {
    var pods := replicas + Reversed(surplus);
    var first := FirstUnhealthy(ordinalOf, pods);
    var lowest := LowestUnhealthy(fleet, lo, bound);
    FirstUnhealthyIsLowest(ordinalOf, pods);
    ReversedKeeps(surplus);
    assert forall pod :: pod in pods && IsUnhealthy(pod) ==> pod in surplus;
    assert fleet[top] in pods && fleet[lowest] in pods;
    var pod :| pod in pods && IsUnhealthy(pod) && ordinalOf(pod) == first.ordinal && pod.name == first.name.value;
    assert first.ordinal == lowest && pod == fleet[lowest];
  }

  lemma SickMatches(job: Job, fleet: Fleet, build: Builder, replicas: seq<Pod>, i: nat)
    requires ShowsReplicas(job, fleet, build, replicas) && i <= |replicas| <= MAX_INT32 && BuildsKept(job.app, build)
    ensures FirstToMend(job, replicas, i) == FirstSick(job, fleet, i)
    decreases |replicas| - i
  {
    if i < |replicas| {
      assert i !in fleet ==> IsUnstored(job.app, i, replicas[i]) by {
        BuiltIsUnstored(job, fleet, build, replicas);
      }
      SickMatches(job, fleet, build, replicas, i + 1);
    }
  }

  ghost predicate IsUnstored(app: App, i: nat, pod: Pod) {
    && pod.phase.Unset? && pod.ready.Absent? && !pod.terminating && pod.inPlace.NoMark?
    && IsKept(app, i, pod.(phase := Pending))
  }

  lemma BuiltIsUnstored(job: Job, fleet: Fleet, build: Builder, replicas: seq<Pod>)
    requires ShowsReplicas(job, fleet, build, replicas) && |replicas| <= MAX_INT32 && BuildsKept(job.app, build)
    ensures forall i | 0 <= i < |replicas| && i !in fleet :: IsUnstored(job.app, i, replicas[i])
  {
    forall i | 0 <= i < |replicas| && i !in fleet ensures IsUnstored(job.app, i, replicas[i]) {
      assert IsBuilt(job, build, i, replicas[i]);
      assert IsNew(job.app, job.current, i, build(job.current, i));
      assert IsNew(job.app, job.update, i, build(job.update, i));
    }
  }

  lemma OutdatedMatches(job: Job, fleet: Fleet, replicas: seq<Pod>, target: int)
    requires -1 <= target < |replicas|
    requires forall k | 0 <= k < |replicas| :: k in fleet && replicas[k] == fleet[k]
    ensures LastOutdated(job, replicas, target) == HighestOutdated(job, fleet, target)
    decreases target + 1
  {
    if target >= 0 {
      if target < job.app.strategy.partition {
        NoneBelowPartition(job, fleet, target);
      } else {
        OutdatedMatches(job, fleet, replicas, target - 1);
      }
    }
  }

  lemma NoneBelowPartition(job: Job, fleet: Fleet, target: int)
    requires -1 <= target < job.app.strategy.partition
    ensures HighestOutdated(job, fleet, target) == -1
    decreases target + 1
  {}

  /** Only the name, labels, namespace and volumes decide whether a stored pod is well kept. */
  lemma KeptWhatever(app: App, ordinal: int, pod: Pod, phase: Phase, ready: ReadyCondition, terminating: bool)
    requires IsKept(app, ordinal, pod) && !phase.Unset?
    ensures IsKept(app, ordinal, pod.(phase := phase, ready := ready, terminating := terminating))
  {}

  lemma KeptWith(app: App, fleet: Fleet, o: int, pod: Pod)
    requires WellKept(app, fleet) && 0 <= o < MAX_INT32 && IsKept(app, o, pod)
    ensures WellKept(app, fleet[o := pod])
  {}

  ghost predicate Carries(job: Job, fleet: Fleet, build: Builder, w: World, intended: Option<Command>, change: Change) {
    match intended
    case None => change == Stay
    case Some(command) =>
      && ChangesPods(command)
      && Perform(job.app, fleet, command, w) == if w.fails(command) then fleet else Changed(job, fleet, build, change)
  }

  lemma DeleteEvicts(job: Job, fleet: Fleet, build: Builder, o: int, w: World)
    requires Placed(fleet) && o in fleet
    ensures Carries(job, fleet, build, w, Some(DeletePod(fleet[o].name)), Evict(o))
  {
  }

  lemma CreateFills(job: Job, fleet: Fleet, build: Builder, i: nat, w: World)
    requires i < MAX_INT32 && BuildsKept(job.app, build)
    ensures Carries(job, fleet, build, w, Some(CreatePod(build(SlotRevision(job, fleet, i), i))), Create(i))
  {
    assert IsNew(job.app, SlotRevision(job, fleet, i), i, build(SlotRevision(job, fleet, i), i));
  }

  lemma MendIsNext(job: Job, fleet: Fleet, build: Builder, pod: Pod, w: World, i: nat)
    requires Placed(fleet) && BuildsKept(job.app, build) && i < MAX_INT32
    requires pod == if i in fleet then fleet[i] else build(SlotRevision(job, fleet, i), i)
    ensures Carries(job, fleet, build, w, Mend(pod), NextMend(fleet, i))
  {
    if i in fleet {
      DeleteEvicts(job, fleet, build, i, w);
    } else {
      assert IsNew(job.app, SlotRevision(job, fleet, i), i, pod);
      CreateFills(job, fleet, build, i, w);
    }
  }

  /** In a well-kept fleet the intended change, as the run finds it, is the next change. */
  lemma IntendedIsNext(job: Job, fleet: Fleet, pods: seq<Pod>, build: Builder, replicas: seq<Pod>, surplus: seq<Pod>,
                       w: World, bound: int)
    requires job.app.replicas <= bound <= MAX_INT32
    requires Placed(fleet) && Bounded(fleet, bound) && BuildsKept(job.app, build)
    requires LaidOut(job, fleet, pods, build, replicas, surplus)
    ensures var first := FirstUnhealthy(OrdinalOf, replicas + Reversed(surplus)).name;
            Carries(job, fleet, build, w, Intended(job, replicas, surplus, first), NextChange(job, fleet, bound))
  {
    var n := job.app.replicas;
    FleetReplicas(job, fleet, pods, build);
    SickMatches(job, fleet, build, replicas, 0);
    var first := FirstUnhealthy(OrdinalOf, replicas + Reversed(surplus)).name;
    if FirstSick(job, fleet, 0) < n {
      SickIsNext(job, fleet, build, replicas, surplus, first, w, bound);
    } else {
      SurplusOfFleet(job, fleet, pods, build, replicas, surplus, bound);
      TopOfSurplus(OrdinalOf, fleet, surplus, n, bound);
      SettledIsNext(OrdinalOf, job, fleet, build, replicas, surplus, w, bound);
    }
  }

  lemma SickIsNext(job: Job, fleet: Fleet, build: Builder, replicas: seq<Pod>, surplus: seq<Pod>,
                   first: Option<string>, w: World, bound: int)
    requires Placed(fleet) && BuildsKept(job.app, build) && job.app.replicas <= MAX_INT32
    requires ShowsReplicas(job, fleet, build, replicas)
    requires forall i | 0 <= i < |replicas| && i !in fleet && (forall j | 0 <= j < i :: j in fleet) ::
               replicas[i] == build(SlotRevision(job, fleet, i), i)
    requires FirstToMend(job, replicas, 0) == FirstSick(job, fleet, 0) < |replicas|
    ensures Carries(job, fleet, build, w, Intended(job, replicas, surplus, first), NextChange(job, fleet, bound))
  {
    var i := FirstSick(job, fleet, 0);
    assert forall j | 0 <= j < i :: HealthyAt(job, fleet, j);
    MendIsNext(job, fleet, build, replicas[i], w, i);
  }

  lemma SettledIsNext(ordinalOf: Pod -> int, job: Job, fleet: Fleet, build: Builder, replicas: seq<Pod>,
                      surplus: seq<Pod>,
                      w: World, bound: int)
    requires Placed(fleet) && bound <= MAX_INT32 && |replicas| == job.app.replicas
    requires HoldsFrom(ordinalOf, fleet, surplus, job.app.replicas, bound)
    requires var top := Highest(fleet, job.app.replicas, bound);
             if surplus == [] then top == -1 else job.app.replicas <= top && top in fleet && surplus[0] == fleet[top]
    requires forall k | 0 <= k < |replicas| && k in fleet :: replicas[k] == fleet[k]
    requires FirstToMend(job, replicas, 0) == FirstSick(job, fleet, 0) == |replicas|
    ensures var first := FirstUnhealthy(ordinalOf, replicas + Reversed(surplus)).name;
            Carries(job, fleet, build, w, Intended(job, replicas, surplus, first), NextChange(job, fleet, bound))
  {
    forall k | 0 <= k < |replicas| ensures k in fleet && replicas[k] == fleet[k] {
      assert HealthyAt(job, fleet, k);
    }
    var top := Highest(fleet, job.app.replicas, bound);
    if surplus == [] {
      assert NextChange(job, fleet, bound) == NextRenew(job, fleet);
      RenewIsNext(job, fleet, build, replicas, w);
    } else {
      assert NextChange(job, fleet, bound) == NextShrink(fleet, job.app.replicas, bound, top);
      forall pod <- replicas ensures !IsUnhealthy(pod) {
        assert Healthy(job, pod);
      }
      ShrinkIsNext(ordinalOf, job, fleet, build, replicas, surplus, w, job.app.replicas, bound);
    }
  }

  lemma ShrinkIsNext(ordinalOf: Pod -> int, job: Job, fleet: Fleet, build: Builder, replicas: seq<Pod>,
                     surplus: seq<Pod>,
                     w: World, lo: int, bound: int)
    requires Placed(fleet) && bound <= MAX_INT32
    requires HoldsFrom(ordinalOf, fleet, surplus, lo, bound) && surplus != []
    requires var top := Highest(fleet, lo, bound); top in fleet && surplus[0] == fleet[top]
    requires forall pod <- replicas :: !IsUnhealthy(pod)
    ensures var first := FirstUnhealthy(ordinalOf, replicas + Reversed(surplus)).name;
            Carries(job, fleet, build, w, Shrink(surplus, first),
                    NextShrink(fleet, lo, bound, Highest(fleet, lo, bound)))
  {
    var top := Highest(fleet, lo, bound);
    DeleteEvicts(job, fleet, build, top, w);
    if !IsReady(fleet[top]) {
      assert surplus[0] in surplus;
      NamesDiffer(fleet);
      FirstOfFleet(ordinalOf, fleet, replicas, surplus, lo, bound, top);
    }
  }

  lemma RenewIsNext(job: Job, fleet: Fleet, build: Builder, replicas: seq<Pod>, w: World)
    requires Placed(fleet) && |replicas| == job.app.replicas
    requires forall k | 0 <= k < |replicas| :: k in fleet && replicas[k] == fleet[k]
    ensures Carries(job, fleet, build, w, Renew(job, replicas), NextRenew(job, fleet))
  {
    OutdatedMatches(job, fleet, replicas, |replicas| - 1);
    var target := HighestOutdated(job, fleet, |replicas| - 1);
    assert LastOutdated(job, replicas, |replicas| - 1) == target;
    if target >= 0 {
      assert replicas[target] == fleet[target];
      DeleteEvicts(job, fleet, build, target, w);
    }
  }

  lemma NamesDiffer(fleet: Fleet)
    requires Placed(fleet)
    ensures forall o, o' | o in fleet && o' in fleet && fleet[o].name == fleet[o'].name :: o == o'
  {
    assert forall o <- fleet :: OrdinalOf(fleet[o]) == o;
  }

  lemma ChangeKeeps(job: Job, fleet: Fleet, build: Builder, bound: int)
    requires job.app.replicas <= bound <= MAX_INT32
    requires WellKept(job.app, fleet) && Bounded(fleet, bound) && BuildsKept(job.app, build)
    ensures
      var fleet' := Changed(job, fleet, build, NextChange(job, fleet, bound));
      WellKept(job.app, fleet') && Bounded(fleet', bound) && (Unmarked(fleet) ==> Unmarked(fleet'))
  {
    var change := NextChange(job, fleet, bound);
    ChangeInRange(job, fleet, bound);
    ChangedKeeps(job, fleet, build, change, bound);
  }

  /** The next change is about a gap below the number of replicas, or about a pod. */
  lemma ChangeInRange(job: Job, fleet: Fleet, bound: int)
    ensures
      match NextChange(job, fleet, bound)
      case Stay => true
      case Create(i) => 0 <= i < job.app.replicas
      case Evict(o) => o in fleet
  {}

  lemma ChangedKeeps(job: Job, fleet: Fleet, build: Builder, change: Change, bound: int)
    requires job.app.replicas <= bound <= MAX_INT32
    requires WellKept(job.app, fleet) && Bounded(fleet, bound) && BuildsKept(job.app, build)
    requires change.Create? ==> 0 <= change.ordinal < job.app.replicas
    requires change.Evict? ==> change.ordinal in fleet
    ensures
      var fleet' := Changed(job, fleet, build, change);
      WellKept(job.app, fleet') && Bounded(fleet', bound) && (Unmarked(fleet) ==> Unmarked(fleet'))
  {
    match change {
      case Stay =>
      case Create(i) => CreateKeeps(job.app, fleet, build, SlotRevision(job, fleet, i), i);
      case Evict(o) => EvictKeeps(job.app, fleet, o);
    }
  }

  lemma EvictKeeps(app: App, fleet: Fleet, o: int)
    requires WellKept(app, fleet) && o in fleet
    ensures WellKept(app, fleet[o := fleet[o].(terminating := true)])
    ensures Unmarked(fleet) ==> Unmarked(fleet[o := fleet[o].(terminating := true)])
  {
    var pod := fleet[o];
    assert IsKept(app, o, pod);
    KeptWhatever(app, o, pod, pod.phase, pod.ready, true);
    KeptWith(app, fleet, o, pod.(terminating := true));
  }

  lemma CreateKeeps(app: App, fleet: Fleet, build: Builder, revision: Revision, i: nat)
    requires i < MAX_INT32 && WellKept(app, fleet) && BuildsKept(app, build)
    ensures WellKept(app, fleet[i := build(revision, i).(phase := Pending)])
    ensures Unmarked(fleet) ==> Unmarked(fleet[i := build(revision, i).(phase := Pending)])
  {
    assert IsNew(app, revision, i, build(revision, i));
    KeptWith(app, fleet, i, build(revision, i).(phase := Pending));
  }

  /**
   What one ordered run does to a well-kept fleet, whatever the order of the listing: nothing, or
   the next change. When no request fails, and nothing is edited in place, it is the next change.
   */
  lemma RunMakesNextChange(job: Job, fleet: Fleet, pods: seq<Pod>, build: Builder, replicas: seq<Pod>,
                           surplus: seq<Pod>,
                           w: World, bound: int)
    requires !job.app.parallel && (IsRolling(job.app) ==> !job.app.strategy.inPlace)
    requires job.app.replicas <= bound <= MAX_INT32
    requires WellKept(job.app, fleet) && Bounded(fleet, bound) && BuildsKept(job.app, build)
    requires LaidOut(job, fleet, pods, build, replicas, surplus)
    ensures var after := PerformAll(job.app, fleet, Act(job, replicas, surplus, w).commands, w);
            var next := Changed(job, fleet, build, NextChange(job, fleet, bound));
            && (after == fleet || after == next)
            && (NothingFails(w) && (IsRolling(job.app) ==> Unmarked(fleet)) ==> after == next)
  {
    KeptIsPlaced(job.app, fleet);
    RunIntends(job, replicas, surplus, w);
    IntendedIsNext(job, fleet, pods, build, replicas, surplus, w, bound);
    ChangeKeeps(job, fleet, build, bound);
    OnlyChangesMatter(job.app, fleet, Act(job, replicas, surplus, w).commands, w);
    if NothingFails(w) && IsRolling(job.app) && Unmarked(fleet) {
      AllUntouched(job, fleet, pods, build, replicas);
    }
  }

  lemma AllUntouched(job: Job, fleet: Fleet, pods: seq<Pod>, build: Builder, replicas: seq<Pod>)
    requires !job.app.strategy.inPlace && job.app.replicas <= MAX_INT32
    requires Placed(fleet) && Unmarked(fleet) && BuildsKept(job.app, build)
    requires Lists(fleet, pods) && replicas == Replicas(job, pods, build)
    ensures Untouched(job, replicas)
  {
    FleetReplicas(job, fleet, pods, build);
    BuiltIsUnstored(job, fleet, build, replicas);
    forall pod <- replicas ensures pod.inPlace.NoMark? {
      var i :| 0 <= i < |replicas| && replicas[i] == pod;
      assert i !in fleet ==> IsUnstored(job.app, i, pod);
    }
  }
}
