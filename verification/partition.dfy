/**
 What the partition of an ordered update holds back: at which revision new pods come, where the revisions of all
 pods come from over whole runs, and when the partition is forgotten.
 */
module Partition {
  import opened Text
  import opened Kube
  import opened Identity
  import opened ReplicaStatus
  import opened Slots
  import opened Sync
  import opened Discipline
  import opened Fleet
  import opened Rollout
  import Reporting
  import Tally

  /** A new pod is at the current revision below the partition, and at the update revision from there on. */
  lemma NewPodRevision(c: Config, s: State, w: World, build: Builder, s': State, i: int)
    requires ValidConfig(c) && Inv(c, s) && !c.app.strategy.unordered
    requires BuildsKept(c.app, build) && Syncs(c, s, w, build, s') && i !in s.fleet && i in s'.fleet
    ensures 0 <= i < c.app.replicas && s'.fleet[i].phase.Pending?
    ensures RevisionOf(s'.fleet[i])
         == if !c.app.strategy.onDelete && i < c.app.strategy.partition then s.current.name else c.update.name
  {
    SyncMakesNextChange(c, s, w, build, s');
    ChangeInRange(JobAt(c, s), s.fleet, c.bound);
    var revision := SlotRevision(JobAt(c, s), s.fleet, i);
    assert IsNew(c.app, revision, i, build(revision, i));
  }

  /** A pod that is there before and after a step keeps its revision. */
  lemma OldPodRevision(c: Config, s: State, e: Event, s': State, i: int)
    requires ValidConfig(c) && Inv(c, s) && Step(c, s, e, s') && i in s.fleet && i in s'.fleet
    ensures RevisionOf(s'.fleet[i]) == RevisionOf(s.fleet[i])
  {
    if e.Reconcile? {
      SyncMakesNextChange(c, s, e.w, e.build, s');
      NotCreatedTwice(JobAt(c, s), s.fleet, c.bound, i);
    } else {
      PodStepKeepsRevision(c, s, e, s', i);
    }
  }

  lemma PodStepKeepsRevision(c: Config, s: State, e: Event, s': State, i: int)
    requires Step(c, s, e, s') && !e.Reconcile? && i in s.fleet && i in s'.fleet
    ensures RevisionOf(s'.fleet[i]) == RevisionOf(s.fleet[i])
  {}

  lemma NotCreatedTwice(job: Job, fleet: Fleet, bound: int, i: int)
    requires i in fleet
    ensures NextChange(job, fleet, bound) != Create(i)
  {}

  /** Where the revision of a pod at the end of a run comes from. */
  ghost predicate ComesFrom(c: Config, states: seq<State>, end: State, o: int)
    requires o in end.fleet && states != []
  {
    var revision := RevisionOf(end.fleet[o]);
    || (o in states[0].fleet && RevisionOf(states[0].fleet[o]) == revision)
    || (if o < c.app.strategy.partition && !c.app.strategy.onDelete
        then exists s <- states :: s.current.name == revision
        else revision == c.update.name)
  }

  /**
   Over every run of an ordered App, whatever fails: a pod has the revision of the one that had its ordinal at the
   start, or, below the partition, that was the current one at some point, or, from the partition on, the update
   revision.
   */
  lemma {:induction false} RevisionsComeFrom(c: Config, states: seq<State>, events: seq<Event>, o: int)
    requires ValidConfig(c) && IsRun(c, states, events) && Inv(c, states[0]) && !c.app.strategy.unordered
    requires o in states[|events|].fleet
    ensures ComesFrom(c, states, states[|events|], o)
  {
    if events != [] {
      var last := |events| - 1;
      var front, frontEvents := states[..|states| - 1], events[..last];
      var s, s' := states[last], states[last + 1];
      assert StepsOf(c)(s, events[last], s');
      RunKeepsInv(c, front, frontEvents);
      if o in s.fleet {
        RevisionsComeFrom(c, front, frontEvents, o);
        OldPodRevision(c, s, events[last], s', o);
        OneMoreState(c, front, s, s', o);
        assert states == front + [s'];
      } else {
        NewComesFrom(c, s, events[last], s', o);
        assert s in states;
      }
    }
  }

  lemma NewComesFrom(c: Config, s: State, e: Event, s': State, o: int)
    requires ValidConfig(c) && Inv(c, s) && Step(c, s, e, s') && !c.app.strategy.unordered
    requires o !in s.fleet && o in s'.fleet
    ensures RevisionOf(s'.fleet[o])
         == if !c.app.strategy.onDelete && o < c.app.strategy.partition then s.current.name else c.update.name
  {
    NewPodRevision(c, s, e.w, e.build, s', o);
  }

  lemma OneMoreState(c: Config, states: seq<State>, s: State, s': State, o: int)
    requires states != [] && o in s.fleet && o in s'.fleet && RevisionOf(s'.fleet[o]) == RevisionOf(s.fleet[o])
    requires ComesFrom(c, states, s, o)
    ensures ComesFrom(c, states + [s'], s', o)
  {
    if t :| t in states && t.current.name == RevisionOf(s.fleet[o]) {
      assert t in states + [s'];
    }
  }

  // ---- when the current revision is promoted ----

  /** Some reconcile can promote the update revision. */
  ghost predicate CanPromote(c: Config, s: State) {
    exists w, build, s' :: BuildsKept(c.app, build) && Syncs(c, s, w, build, s') && s'.current == c.update
  }

  /**
   The update revision can take the place of another if and only if every stored pod is ready, staying and at the
   update revision. Pods that are missing do not count.
   */
  lemma CanPromoteIff(c: Config, s: State)
    requires ValidConfig(c) && Inv(c, s) && !c.app.strategy.onDelete && s.current != c.update
    ensures CanPromote(c, s) <==> Tally.AllUpdated(JobAt(c, s), s.fleet)
  {
    if CanPromote(c, s) {
      PromotedMeansUpdated(c, s);
    }
    if Tally.AllUpdated(JobAt(c, s), s.fleet) {
      var w, build, s' := Promotes(c, s);
    }
  }

  lemma PromotedMeansUpdated(c: Config, s: State)
    requires ValidConfig(c) && Inv(c, s) && !c.app.strategy.onDelete && s.current != c.update && CanPromote(c, s)
    ensures Tally.AllUpdated(JobAt(c, s), s.fleet)
  {
    var w, build, s' :| BuildsKept(c.app, build) && Syncs(c, s, w, build, s') && s'.current == c.update;
    var pods, replicas, surplus :| SyncsOver(c, s, w, build, s', pods, replicas, surplus);
    KeptIsPlaced(c.app, s.fleet);
    CompleteIffUpdated(c, s, build, pods, replicas, surplus, Act(JobAt(c, s), replicas, surplus, w).evicted);
  }

  /** A reconcile in which nothing fails that does promote it. */
  lemma Promotes(c: Config, s: State) returns (w: World, build: Builder, s': State)
    requires ValidConfig(c) && Inv(c, s) && !c.app.strategy.onDelete && Tally.AllUpdated(JobAt(c, s), s.fleet)
    ensures BuildsKept(c.app, build) && Syncs(c, s, w, build, s') && NothingFails(w)
    ensures s'.current == c.update && s'.now == s.now
  {
    var job := JobAt(c, s);
    KeptIsPlaced(c.app, s.fleet);
    w := ALL_WELL;
    build := SomeBuilder(c.app);
    var pods, replicas, surplus := SomeLayout(job, s.fleet, build);
    var acted := Act(job, replicas, surplus, w);
    s' := State(PerformAll(c.app, s.fleet, acted.commands, w), c.update, s.now);
    CompleteIffUpdated(c, s, build, pods, replicas, surplus, acted.evicted);
    assert SyncsOver(c, s, w, build, s', pods, replicas, surplus);
  }

  lemma CompleteIffUpdated(c: Config, s: State, build: Builder, pods: seq<Pod>, replicas: seq<Pod>, surplus: seq<Pod>,
                           evicted: bool)
    requires ValidConfig(c) && Placed(s.fleet) && BuildsKept(c.app, build) && !c.app.strategy.onDelete
    requires LaidOut(JobAt(c, s), s.fleet, pods, build, replicas, surplus)
    ensures UpdateComplete(c.app.strategy, Report(JobAt(c, s), pods, replicas + surplus, evicted))
       <==> Tally.AllUpdated(JobAt(c, s), s.fleet)
  {
    var job := JobAt(c, s);
    Reporting.CompleteReport(job, pods, replicas + surplus, evicted);
    FleetReplicas(job, s.fleet, pods, build);
    BuiltIsUnstored(job, s.fleet, build, replicas);
    SurplusOfFleet(job, s.fleet, pods, build, replicas, surplus, MAX_INT32);
    StoredAreTheFleet(OrdinalOf, job, s.fleet, replicas, surplus);
  }

  /** The stored pods among the ones laid out are those of the fleet. */
  lemma StoredAreTheFleet(ordinalOf: Pod -> int, job: Job, fleet: Fleet, replicas: seq<Pod>, surplus: seq<Pod>)
    requires |replicas| == job.app.replicas && HoldsFrom(ordinalOf, fleet, surplus, job.app.replicas, MAX_INT32)
    requires forall o <- fleet :: 0 <= o < MAX_INT32 && IsStored(fleet[o])
    requires forall i | 0 <= i < |replicas| :: if i in fleet then replicas[i] == fleet[i] else !IsStored(replicas[i])
    ensures forall pod: Pod | IsStored(pod) :: pod in replicas + surplus <==> exists o <- fleet :: fleet[o] == pod
  {
    forall pod | IsStored(pod) && pod in replicas + surplus ensures exists o <- fleet :: fleet[o] == pod {
      if pod in replicas {
        var i :| 0 <= i < |replicas| && replicas[i] == pod;
        assert i in fleet;
      } else {
        assert fleet[ordinalOf(pod)] == pod;
      }
    }
    forall o <- fleet ensures fleet[o] in replicas + surplus {
      if o < |replicas| {
        assert replicas[o] in replicas;
      }
    }
  }

  // ---- a partition that is forgotten ----

  /** An ordered update of two pods of which the first is to stay as it is. */
  predicate HoldsFirstBack(c: Config, before: Revision) {
    && ValidConfig(c) && Rolling(c) && ByOrdinal(c) && c.app.replicas == 2 && c.app.strategy.partition == 1
    && before.name != c.update.name && c.bound < MAX_INT32
  }

  /** Only the second pod is there, healthy and updated. */
  ghost predicate OnlySecond(c: Config, s: State) {
    Inv(c, s) && s.fleet.Keys == {1} && HealthyAt(JobAt(c, s), s.fleet, 1) && RevisionOf(s.fleet[1]) == c.update.name
  }

  /** A reconcile refills the first pod at the revision before if that still is the current one. */
  lemma FirstComesBack(c: Config, before: Revision, s: State, w: World, build: Builder, s': State)
    requires HoldsFirstBack(c, before) && OnlySecond(c, s)
    requires BuildsKept(c.app, build) && Syncs(c, s, w, build, s') && NothingFails(w)
    ensures Inv(c, s') && s'.fleet.Keys == {0, 1} && s'.fleet[1] == s.fleet[1]
    ensures RevisionOf(s'.fleet[0]) == s.current.name
  {
    assert 1 in s.fleet.Keys && 0 !in s.fleet.Keys;
    FirstIsNext(JobAt(c, s), s.fleet, c.bound);
    SyncMakesNextChange(c, s, w, build, s');
    StepKeepsInv(c, s, Reconcile(w, build), s');
    NewPodRevision(c, s, w, build, s', 0);
  }

  lemma FirstIsNext(job: Job, fleet: Fleet, bound: int)
    requires job.app.replicas > 0 && 0 !in fleet
    ensures NextChange(job, fleet, bound) == Create(0)
  {
    assert FirstSick(job, fleet, 0) == 0;
  }

  /** The reconcile that refills it promotes the update revision. */
  lemma RefillsAndPromotes(c: Config, before: Revision, s: State) returns (s': State)
    requires HoldsFirstBack(c, before) && OnlySecond(c, s)
    ensures exists w, build :: Step(c, s, Reconcile(w, build), s')
    ensures Inv(c, s') && s'.fleet.Keys == {0, 1} && s'.fleet[1] == s.fleet[1]
    ensures RevisionOf(s'.fleet[0]) == s.current.name && s'.current == c.update && s'.now == s.now
  {
    var w, build;
    assert Tally.AllUpdated(JobAt(c, s), s.fleet);
    w, build, s' := Promotes(c, s);
    FirstComesBack(c, before, s, w, build, s');
    assert Step(c, s, Reconcile(w, build), s');
  }

  lemma OnlySecondAgain(c: Config, s: State, s': State)
    requires OnlySecond(c, s) && Inv(c, s') && s'.fleet.Keys == {0, 1} && s'.fleet[1] == s.fleet[1] && s'.now == s.now
    ensures OnlySecond(c, s'.(fleet := s'.fleet - {0}))
  {}

  /**
   While the first pod is missing the update counts as complete, and the reconcile that refills it promotes the
   update revision. When somebody then deletes it once more it comes back updated, although the partition is to
   hold it back.
   */
  lemma PartitionForgotten(c: Config, before: Revision) returns (s0: State, s1: State, s2: State, s3: State)
    requires HoldsFirstBack(c, before)
    ensures OnlySecond(c, s0) && s0.current == before
    ensures exists w, build :: Step(c, s0, Reconcile(w, build), s1)
    ensures s1.fleet.Keys == {0, 1} && RevisionOf(s1.fleet[0]) == before.name
    ensures s2 == s1.(fleet := s1.fleet - {0})
    ensures exists w, build :: Step(c, s2, Reconcile(w, build), s3)
    ensures s3.fleet.Keys == {0, 1} && RevisionOf(s3.fleet[0]) == c.update.name
  {
    s0 := SecondAlone(c, before);
    s1 := RefillsAndPromotes(c, before, s0);
    s2 := s1.(fleet := s1.fleet - {0});
    OnlySecondAgain(c, s0, s1);
    s3 := RefillsAndPromotes(c, before, s2);
  }

  lemma SecondAlone(c: Config, before: Revision) returns (s: State)
    requires HoldsFirstBack(c, before)
    ensures OnlySecond(c, s) && s.current == before
  {
    var build := SomeBuilder(c.app);
    var made := build(c.update, 1);
    assert IsNew(c.app, c.update, 1, made);
    var pod := made.(phase := Running, ready := Since(0));
    KeptWhatever(c.app, 1, made.(phase := Pending), Running, Since(0), made.terminating);
    var seconds := c.app.strategy.minReadySeconds;
    s := State(map[1 := pod], before, if seconds > 0 then seconds * SECOND else 0);
  }
}
