/**
 Pods that have lost their identity: which requests a run makes for them and for pending pods, what a repair makes
 of a pod, and how a fleet with such pods still arrives at its final form.
 */
module Repair {
  import opened Text
  import opened Kube
  import opened Identity
  import opened ReplicaStatus
  import opened Slots
  import opened Sync
  import opened Discipline
  import opened Fleet
  import opened Requests
  import Lifecycle
  import Rollout
  import Runs

  // ---- one pod ----

  /** Everything about a pod but its name, namespace, labels and volumes. */
  predicate SameElse(a: Pod, b: Pod) {
    b == a.(name := b.name, namespace := b.namespace, labels := b.labels, volumes := b.volumes)
  }

  /** The labels other than the two that make a pod's identity. */
  ghost predicate SameOtherLabels(a: Pod, b: Pod) {
    forall key | key != LABEL_OWNER_APP && key != LABEL_ORDINAL ::
      (key in b.labels <==> key in a.labels) && (key in a.labels ==> b.labels[key] == a.labels[key])
  }

  /**
   A repaired pod has the identity that its App asks for, and its other labels. Its volumes match the claims if and
   only if they did before: a pod that misses a claim does not get it.
   */
  lemma RepairedFacts(app: App, pod: Pod, order: seq<string>)
    requires OrdinalOf(pod) >= 0 && IsClaimOrder(app, order)
    ensures
      var repaired := Repaired(app, pod, order);
      && ParsePodName(repaired.name) == (app.name, OrdinalOf(pod)) && MatchesApp(app, repaired)
      && SameElse(pod, repaired) && SameOtherLabels(pod, repaired) && RevisionOf(repaired) == RevisionOf(pod)
      && (MatchesClaims(app, repaired) <==> MatchesClaims(app, pod))
      && (!MatchesClaims(app, pod) ==> repaired.volumes == pod.volumes)
      && (!MatchesApp(app, pod) ==>
            LABEL_ORDINAL in repaired.labels && repaired.labels[LABEL_ORDINAL] == Itoa(OrdinalOf(pod)))
  {
    var o := OrdinalOf(pod);
    ParsedNameShape(pod.name);
    ParsePrintedName(app.name, o);
    LabelsDiffer();
    var named := if MatchesApp(app, pod) then pod else WithIdentity(app, pod);
    assert MatchesClaims(app, named) <==> MatchesClaims(app, pod);
    if MatchesClaims(app, named) {
      Remounted(app, o, order, named.volumes);
    }
  }

  lemma Remounted(app: App, ordinal: nat, order: seq<string>, volumes: seq<Volume>)
    requires IsClaimOrder(app, order)
    ensures
      var byName := VolumesByName(ClaimVolumes(app, ordinal, order) + Unclaimed(app, volumes));
      forall claim <- app.claims :: MountsClaim(app, byName, claim, ordinal)
  {
    var claimed := ClaimVolumes(app, ordinal, order);
    forall claim <- app.claims
      ensures MountsClaim(app, VolumesByName(claimed + Unclaimed(app, volumes)), claim, ordinal)
    {
      ClaimsMounted(app, ordinal, order, |order|, claim);
      assert claimed[..|order|] == claimed;
      ClaimsNotHidden(app, claimed, volumes, claim, ordinal);
    }
  }

  // ---- which requests a run makes ----

  /** Repairs and claims are asked for by the scan alone. */
  ghost predicate Mends(commands: seq<Command>, command: Command) {
    command in commands && (command.RepairPod? || command.CreateClaims?)
  }

  lemma {:induction false} RemovalMendsNothing(
    job: Job, surplus: seq<Pod>, first: Option<string>, w: World, i: nat, command: Command)
    requires i <= |surplus|
    ensures !Mends(RemoveSurplus(job, surplus, first, w, i).commands, command)
    decreases |surplus| - i
  {
    if i < |surplus| {
      RemovalMendsNothing(job, surplus, first, w, i + 1, command);
    }
  }

  lemma {:induction false} RollMendsNothing(job: Job, replicas: seq<Pod>, w: World, target: int, command: Command)
    requires target < |replicas|
    ensures !Mends(RollReplicas(job, replicas, w, target).commands, command)
    decreases target + 1
  {
    if target >= job.app.strategy.partition {
      RollMendsNothing(job, replicas, w, target - 1, command);
    }
  }

  /** A pod whose identity does not match, with only healthy ones before it. */
  predicate IsLost(job: Job, replicas: seq<Pod>, j: nat, name: string) {
    j < FirstToMend(job, replicas, 0) && replicas[j].name == name && !MatchesApp(job.app, replicas[j])
  }

  /** A pending pod with only healthy ones before it. */
  predicate IsPendingFirst(job: Job, replicas: seq<Pod>, name: string) {
    var k := FirstToMend(job, replicas, 0);
    k < |replicas| && replicas[k].phase.Pending? && replicas[k].name == name
  }

  /** In an ordered App the scan gets to the first pod that is not healthy. */
  lemma ScannedToSick(job: Job, replicas: seq<Pod>, k: int)
    requires !job.app.parallel
    ensures IsScanned(job, replicas, 0, k) <==> 0 <= k < |replicas| && k <= FirstToMend(job, replicas, 0)
  {}

  lemma ScanRepairs(job: Job, replicas: seq<Pod>, w: World, name: string)
    requires !job.app.parallel && NothingFails(w)
    ensures RepairPod(name) in ScanReplicas(job, replicas, w, 0).commands
       <==> exists j: nat :: IsLost(job, replicas, j, name)
  {
    var command := RepairPod(name);
    WantsExactly(job, replicas, w, 0, command);
    forall k ensures IsScanned(job, replicas, 0, k) && IsWanted(job, replicas[k], command)
                <==> k >= 0 && IsLost(job, replicas, k, name)
    {
      ScannedToSick(job, replicas, k);
    }
  }

  lemma ScanClaims(job: Job, replicas: seq<Pod>, w: World, name: string)
    requires !job.app.parallel && NothingFails(w)
    ensures CreateClaims(name) in ScanReplicas(job, replicas, w, 0).commands <==> IsPendingFirst(job, replicas, name)
  {
    var command := CreateClaims(name);
    var first := FirstToMend(job, replicas, 0);
    WantsExactly(job, replicas, w, 0, command);
    ScannedToSick(job, replicas, first);
    forall k ensures IsScanned(job, replicas, 0, k) && IsWanted(job, replicas[k], command)
                ==> k == first && IsPendingFirst(job, replicas, name)
    {
      ScannedToSick(job, replicas, k);
    }
  }

  lemma OnlyTheScanMends(job: Job, replicas: seq<Pod>, surplus: seq<Pod>, w: World, command: Command)
    requires command.RepairPod? || command.CreateClaims?
    ensures command in Act(job, replicas, surplus, w).commands
       <==> command in ScanReplicas(job, replicas, w, 0).commands
  {
    var first := FirstUnhealthy(OrdinalOf, replicas + Reversed(surplus)).name;
    RemovalMendsNothing(job, surplus, first, w, 0, command);
    RollMendsNothing(job, replicas, w, |replicas| - 1, command);
    assert !Mends(ScaleAndRoll(job, replicas, surplus, first, w).commands, command);
  }

  /**
   In a run in which nothing fails a repair is asked for a pod if and only if its identity does not match and all
   pods up to it are healthy, and claims if and only if it is the first pod that is not healthy, and pending. For a
   pod whose volumes alone do not match nothing is asked.
   */
  lemma MendsIff(job: Job, replicas: seq<Pod>, surplus: seq<Pod>, w: World, name: string)
    requires !job.app.parallel && NothingFails(w)
    ensures RepairPod(name) in Act(job, replicas, surplus, w).commands
       <==> exists j: nat :: IsLost(job, replicas, j, name)
    ensures CreateClaims(name) in Act(job, replicas, surplus, w).commands <==> IsPendingFirst(job, replicas, name)
  {
    OnlyTheScanMends(job, replicas, surplus, w, RepairPod(name));
    OnlyTheScanMends(job, replicas, surplus, w, CreateClaims(name));
    ScanRepairs(job, replicas, w, name);
    ScanClaims(job, replicas, w, name);
  }

  // ---- what a run makes of the fleet ----

  /** The same pod, or one whose identity did not match and that may have been repaired. */
  ghost predicate Alike(app: App, a: Pod, b: Pod) {
    && SameElse(a, b) && OrdinalOf(b) == OrdinalOf(a) && RevisionOf(b) == RevisionOf(a) && SameOtherLabels(a, b)
    && (MatchesClaims(app, b) <==> MatchesClaims(app, a))
    && (MatchesApp(app, a) ==> b == a)
  }

  ghost predicate FleetsAlike(app: App, f: Fleet, g: Fleet) {
    f.Keys == g.Keys && forall o <- f :: Alike(app, f[o], g[o])
  }

  ghost predicate OrdersFit(app: App, w: World) {
    forall name :: IsClaimOrder(app, w.repairOrder(name))
  }

  lemma AlikeOnwards(app: App, f: Fleet, g: Fleet, h: Fleet)
    requires FleetsAlike(app, f, g) && FleetsAlike(app, g, h)
    ensures FleetsAlike(app, f, h)
  {
    forall o <- f ensures Alike(app, f[o], h[o]) {
      assert Alike(app, f[o], g[o]) && Alike(app, g[o], h[o]);
    }
  }

  lemma AlikeIsPlaced(app: App, f: Fleet, g: Fleet)
    requires FleetsAlike(app, f, g) && Placed(f)
    ensures Placed(g)
  {
    forall o <- g ensures 0 <= o < MAX_INT32 && OrdinalOf(g[o]) == o && !g[o].phase.Unset? {
      assert Alike(app, f[o], g[o]);
    }
  }

  lemma AlikeWith(app: App, f: Fleet, g: Fleet, o: int, a: Pod, b: Pod)
    requires FleetsAlike(app, f, g) && Alike(app, a, b)
    ensures FleetsAlike(app, f[o := a], g[o := b])
  {}

  lemma AlikeTerminating(app: App, a: Pod, b: Pod)
    requires Alike(app, a, b)
    ensures Alike(app, a.(terminating := true), b.(terminating := true))
  {}

  lemma ChangesRespectAlike(app: App, f: Fleet, g: Fleet, command: Command, w: World)
    requires FleetsAlike(app, f, g) && ChangesPods(command)
    ensures FleetsAlike(app, Perform(app, f, command, w), Perform(app, g, command, w))
  {
    if command.CreatePod? {
      var pod := command.pod.(phase := Pending);
      AlikeWith(app, f, g, OrdinalOf(command.pod), pod, pod);
    } else {
      var o := ParsePodName(command.name).1;
      if o in f {
        assert Alike(app, f[o], g[o]);
        AlikeTerminating(app, f[o], g[o]);
        AlikeWith(app, f, g, o, f[o].(terminating := true), g[o].(terminating := true));
      }
    }
  }

  lemma OthersMakeAlike(app: App, f: Fleet, command: Command, w: World)
    requires Placed(f) && OrdersFit(app, w) && !ChangesPods(command)
    ensures FleetsAlike(app, f, Perform(app, f, command, w))
  {
    if command.RepairPod? {
      var o := ParsePodName(command.name).1;
      if o in f {
        RepairedFacts(app, f[o], w.repairOrder(command.name));
      }
    }
  }

  /** Requests other than the one change leave the fleet as it is, or repair pods. */
  lemma {:induction false} OnlyChangesShow(app: App, fleet: Fleet, commands: seq<Command>, w: World)
    requires |PodChanges(commands)| <= 1 && Placed(fleet) && OrdersFit(app, w)
    requires PodChanges(commands) != [] ==> Placed(Perform(app, fleet, PodChanges(commands)[0], w))
    ensures
      var shown := if PodChanges(commands) == [] then fleet else Perform(app, fleet, PodChanges(commands)[0], w);
      FleetsAlike(app, shown, PerformAll(app, fleet, commands, w)) && Placed(PerformAll(app, fleet, commands, w))
  {
    if commands != [] {
      var front, last := commands[..|commands| - 1], commands[|commands| - 1];
      if ChangesPods(last) {
        assert PodChanges(front) == [] && PodChanges(commands)[0] == last;
      }
      OnlyChangesShow(app, fleet, front, w);
      var before := PerformAll(app, fleet, front, w);
      var shown := if PodChanges(commands) == [] then fleet else Perform(app, fleet, PodChanges(commands)[0], w);
      if ChangesPods(last) {
        ChangesRespectAlike(app, fleet, before, last, w);
      } else {
        OthersMakeAlike(app, before, last, w);
        AlikeOnwards(app, shown, before, Perform(app, before, last, w));
      }
      AlikeIsPlaced(app, shown, PerformAll(app, fleet, commands, w));
    }
  }

  /** On any fleet a run makes the next change or none, besides repairing pods. */
  lemma RunShowsNextChange(job: Job, fleet: Fleet, pods: seq<Pod>, build: Builder, replicas: seq<Pod>,
                           surplus: seq<Pod>, w: World, bound: int)
    requires !job.app.parallel && (IsRolling(job.app) ==> !job.app.strategy.inPlace)
    requires job.app.replicas <= bound <= MAX_INT32 && OrdersFit(job.app, w)
    requires Placed(fleet) && Bounded(fleet, bound) && BuildsKept(job.app, build)
    requires LaidOut(job, fleet, pods, build, replicas, surplus)
    ensures
      var after := PerformAll(job.app, fleet, Act(job, replicas, surplus, w).commands, w);
      var next := Changed(job, fleet, build, NextChange(job, fleet, bound));
      && (FleetsAlike(job.app, fleet, after) || FleetsAlike(job.app, next, after))
      && (NothingFails(w) && (IsRolling(job.app) ==> Unmarked(fleet)) ==> FleetsAlike(job.app, next, after))
  {
    RunIntends(job, replicas, surplus, w);
    IntendedIsNext(job, fleet, pods, build, replicas, surplus, w, bound);
    ChangeKeepsPlaced(job, fleet, build, bound);
    OnlyChangesShow(job.app, fleet, Act(job, replicas, surplus, w).commands, w);
    if NothingFails(w) && IsRolling(job.app) && Unmarked(fleet) {
      AllUntouched(job, fleet, pods, build, replicas);
    }
  }

  lemma ChangeKeepsPlaced(job: Job, fleet: Fleet, build: Builder, bound: int)
    requires job.app.replicas <= bound <= MAX_INT32
    requires Placed(fleet) && Bounded(fleet, bound) && BuildsKept(job.app, build)
    ensures
      var fleet' := Changed(job, fleet, build, NextChange(job, fleet, bound));
      Placed(fleet') && Bounded(fleet', bound) && (Unmarked(fleet) ==> Unmarked(fleet'))
  {
    ChangeInRange(job, fleet, bound);
    match NextChange(job, fleet, bound)
    case Create(i) =>
      var revision := SlotRevision(job, fleet, i);
      assert IsNew(job.app, revision, i, build(revision, i));
    case _ =>
  }

  // ---- which pods match after a run ----

  /** A match stays, and a repair that does not fail makes one. */
  lemma MatchAfter(app: App, fleet: Fleet, command: Command, w: World, o: int)
    requires Placed(fleet) && OrdersFit(app, w) && o in fleet && !w.fails(command)
    requires command.CreatePod? ==> MatchesApp(app, command.pod.(phase := Pending))
    requires MatchesApp(app, fleet[o]) || (command.RepairPod? && ParsePodName(command.name).1 == o)
    ensures o in Perform(app, fleet, command, w) && MatchesApp(app, Perform(app, fleet, command, w)[o])
  {
    if command.RepairPod? {
      RepairedFacts(app, fleet[o], w.repairOrder(command.name));
    }
  }

  lemma {:induction false} MatchAfterAll(app: App, fleet: Fleet, commands: seq<Command>, w: World, o: int)
    requires Placed(fleet) && OrdersFit(app, w) && o in fleet && NothingFails(w)
    requires forall command <- commands | command.CreatePod? ::
               MatchesApp(app, command.pod.(phase := Pending)) && 0 <= OrdinalOf(command.pod) < MAX_INT32
    ensures
      var after := PerformAll(app, fleet, commands, w);
      && Placed(after) && o in after
      && (MatchesApp(app, fleet[o]) || RepairPod(fleet[o].name) in commands ==> MatchesApp(app, after[o]))
  {
    if commands != [] {
      var front, last := commands[..|commands| - 1], commands[|commands| - 1];
      assert commands == front + [last];
      MatchAfterAll(app, fleet, front, w, o);
      var before := PerformAll(app, fleet, front, w);
      PlacedAfter(app, before, last, w);
      if MatchesApp(app, before[o]) || last == RepairPod(fleet[o].name) {
        MatchAfter(app, before, last, w, o);
      }
    }
  }

  lemma PlacedAfter(app: App, fleet: Fleet, command: Command, w: World)
    requires Placed(fleet) && OrdersFit(app, w)
    requires command.CreatePod? ==> 0 <= OrdinalOf(command.pod) < MAX_INT32
    ensures Placed(Perform(app, fleet, command, w))
  {
    if !ChangesPods(command) {
      OthersMakeAlike(app, fleet, command, w);
      AlikeIsPlaced(app, fleet, Perform(app, fleet, command, w));
    }
  }

  /** After a run in which nothing fails all pods below the first one that is not healthy match their App. */
  lemma RunRestores(job: Job, fleet: Fleet, pods: seq<Pod>, build: Builder, replicas: seq<Pod>, surplus: seq<Pod>,
                    w: World, o: nat)
    requires !job.app.parallel && job.app.replicas <= MAX_INT32 && NothingFails(w) && OrdersFit(job.app, w)
    requires Placed(fleet) && BuildsKept(job.app, build) && LaidOut(job, fleet, pods, build, replicas, surplus)
    requires o < FirstSick(job, fleet, 0)
    ensures
      var after := PerformAll(job.app, fleet, Act(job, replicas, surplus, w).commands, w);
      o in after && MatchesApp(job.app, after[o])
  {
    var commands := Act(job, replicas, surplus, w).commands;
    FleetReplicas(job, fleet, pods, build);
    SickMatches(job, fleet, build, replicas, 0);
    assert HealthyAt(job, fleet, o) && replicas[o] == fleet[o];
    MendsIff(job, replicas, surplus, w, fleet[o].name);
    if !MatchesApp(job.app, fleet[o]) {
      assert IsLost(job, replicas, o, fleet[o].name);
    }
    CreatedMatch(job, fleet, build, replicas, surplus, w);
    MatchAfterAll(job.app, fleet, commands, w, o);
  }

  lemma CreatedMatch(job: Job, fleet: Fleet, build: Builder, replicas: seq<Pod>, surplus: seq<Pod>, w: World)
    requires Placed(fleet) && BuildsKept(job.app, build) && job.app.replicas <= MAX_INT32
    requires ShowsReplicas(job, fleet, build, replicas)
    ensures forall command <- Act(job, replicas, surplus, w).commands | command.CreatePod? ::
              MatchesApp(job.app, command.pod.(phase := Pending)) && 0 <= OrdinalOf(command.pod) < MAX_INT32
  {
    Lifecycle.ActCreatesOnly(job, replicas, surplus, w);
    BuiltIsUnstored(job, fleet, build, replicas);
    forall command <- Act(job, replicas, surplus, w).commands | command.CreatePod?
      ensures MatchesApp(job.app, command.pod.(phase := Pending)) && 0 <= OrdinalOf(command.pod) < MAX_INT32
    {
      var i :| 0 <= i < |replicas| && replicas[i] == command.pod;
      assert i !in fleet;
      assert IsUnstored(job.app, i, replicas[i]);
      assert IsKept(job.app, i, replicas[i].(phase := Pending));
    }
  }
}
