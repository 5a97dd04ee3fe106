/**
 Runs over pods that may have lost their identity or their volumes, for which the fleet is not well kept. The
 rollout goes on all the same; on the way identities are restored, and volumes are not.
 */
module Restore {
  import opened Text
  import opened Kube
  import opened Identity
  import opened Slots
  import opened Sync
  import opened Discipline
  import opened Fleet
  import opened Rollout
  import opened Repair
  import Runs

  /** Stored pods under their ordinals, whatever their labels and volumes are. */
  ghost predicate IsRaw(c: Config, s: State) {
    Placed(s.fleet) && Bounded(s.fleet, c.bound) && (Rolling(c) ==> Unmarked(s.fleet))
  }

  ghost predicate IsMounted(c: Config, s: State) {
    forall o <- s.fleet :: MatchesClaims(c.app, s.fleet[o])
  }

  ghost predicate IsNamed(c: Config, s: State) {
    forall o <- s.fleet :: MatchesApp(c.app, s.fleet[o])
  }

  lemma MatchedIsKept(c: Config, s: State)
    requires IsRaw(c, s) && IsNamed(c, s)
    ensures IsMounted(c, s) <==> Inv(c, s)
  {
    if IsMounted(c, s) {
      forall o <- s.fleet ensures IsKept(c.app, o, s.fleet[o]) {}
    }
    if Inv(c, s) {
      forall o <- s.fleet ensures MatchesClaims(c.app, s.fleet[o]) {
        assert IsKept(c.app, o, s.fleet[o]);
      }
    }
  }

  /** A step of the rollout, in which a repair iterates over the claims in some order. */
  ghost predicate RawStep(c: Config, s: State, e: Event, s': State) {
    Step(c, s, e, s') && (e.Reconcile? ==> OrdersFit(c.app, e.w))
  }

  ghost function RawSteps(c: Config): (State, Event, State) -> bool {
    (s, e, s') => RawStep(c, s, e, s')
  }

  // ---- one step ----

  /** A reconcile makes the next change or none, besides repairing pods, and the next change if nothing fails. */
  lemma SyncShowsNextChange(c: Config, s: State, w: World, build: Builder, s': State)
    requires ValidConfig(c) && IsRaw(c, s) && RawStep(c, s, Reconcile(w, build), s')
    ensures
      var next := Changed(JobAt(c, s), s.fleet, build, NextChange(JobAt(c, s), s.fleet, c.bound));
      && (FleetsAlike(c.app, s.fleet, s'.fleet) || FleetsAlike(c.app, next, s'.fleet))
      && (NothingFails(w) ==> FleetsAlike(c.app, next, s'.fleet))
  {
    var pods, replicas, surplus :| SyncsOver(c, s, w, build, s', pods, replicas, surplus);
    RunShowsNextChange(JobAt(c, s), s.fleet, pods, build, replicas, surplus, w, c.bound);
  }

  /** And if nothing fails it restores the identity of all pods below the first that is not healthy. */
  lemma SyncRestores(c: Config, s: State, w: World, build: Builder, s': State, o: int)
    requires ValidConfig(c) && IsRaw(c, s) && RawStep(c, s, Reconcile(w, build), s') && NothingFails(w)
    requires 0 <= o < FirstSick(JobAt(c, s), s.fleet, 0)
    ensures o in s'.fleet && MatchesApp(c.app, s'.fleet[o])
  {
    var pods, replicas, surplus :| SyncsOver(c, s, w, build, s', pods, replicas, surplus);
    RunRestores(JobAt(c, s), s.fleet, pods, build, replicas, surplus, w, o);
  }

  lemma AlikeIsRaw(c: Config, s: State, s': State)
    requires IsRaw(c, s) && FleetsAlike(c.app, s.fleet, s'.fleet)
    ensures IsRaw(c, s') && (IsMounted(c, s) ==> IsMounted(c, s'))
  {
    AlikeIsPlaced(c.app, s.fleet, s'.fleet);
    forall o <- s'.fleet
      ensures Rolling(c) ==> s'.fleet[o].inPlace.NoMark?
      ensures MatchesClaims(c.app, s.fleet[o]) ==> MatchesClaims(c.app, s'.fleet[o])
    {
      assert Alike(c.app, s.fleet[o], s'.fleet[o]);
    }
  }

  /** What the next change keeps of a raw fleet. */
  lemma NextIsRaw(c: Config, s: State, build: Builder, s': State)
    requires ValidConfig(c) && IsRaw(c, s) && BuildsKept(c.app, build)
    requires s'.fleet == Changed(JobAt(c, s), s.fleet, build, NextChange(JobAt(c, s), s.fleet, c.bound))
    ensures IsRaw(c, s') && (IsMounted(c, s) ==> IsMounted(c, s'))
  {
    var job := JobAt(c, s);
    ChangeKeepsPlaced(job, s.fleet, build, c.bound);
    ChangeInRange(job, s.fleet, c.bound);
    match NextChange(job, s.fleet, c.bound)
    case Create(i) =>
      var revision := SlotRevision(job, s.fleet, i);
      assert IsNew(c.app, revision, i, build(revision, i));
    case _ =>
  }

  lemma StepKeepsRaw(c: Config, s: State, e: Event, s': State)
    requires ValidConfig(c) && IsRaw(c, s) && RawStep(c, s, e, s')
    ensures IsRaw(c, s') && (IsMounted(c, s) ==> IsMounted(c, s'))
  {
    if e.Reconcile? {
      SyncShowsNextChange(c, s, e.w, e.build, s');
      var next := s.(fleet := Changed(JobAt(c, s), s.fleet, e.build, NextChange(JobAt(c, s), s.fleet, c.bound)));
      NextIsRaw(c, s, e.build, next);
      if FleetsAlike(c.app, s.fleet, s'.fleet) {
        AlikeIsRaw(c, s, s');
      } else {
        AlikeIsRaw(c, next, s');
      }
    }
  }

  // ---- alike fleets are as far from the final form ----

  lemma AlikeStatus(c: Config, s: State, s': State, o: int)
    requires FleetsAlike(c.app, s.fleet, s'.fleet) && s'.now == s.now
    ensures Weight(c, s', o) == Weight(c, s, o) && (IsDead(c, s', o) <==> IsDead(c, s, o))
    ensures o in s.fleet ==>
              && (Healthy(JobAt(c, s'), s'.fleet[o]) <==> Healthy(JobAt(c, s), s.fleet[o]))
              && RevisionOf(s'.fleet[o]) == RevisionOf(s.fleet[o])
  {
    if o in s.fleet {
      assert Alike(c.app, s.fleet[o], s'.fleet[o]);
    }
  }

  lemma AlikeTotal(c: Config, s: State, s': State)
    requires FleetsAlike(c.app, s.fleet, s'.fleet) && s'.now == s.now
    ensures Total(c, s') == Total(c, s)
  {
    forall o ensures Weight(c, s', o) == Weight(c, s, o) {
      AlikeStatus(c, s, s', o);
    }
    if c.bound >= 0 {
      TotalMonotone(c, s, s', c.bound);
      TotalMonotone(c, s', s, c.bound);
    }
  }

  lemma AlikeFinal(c: Config, s: State, s': State)
    requires FleetsAlike(c.app, s.fleet, s'.fleet) && s'.now == s.now && Final(c, s)
    ensures Final(c, s')
  {
    forall o <- s'.fleet
      ensures Healthy(JobAt(c, s'), s'.fleet[o])
      ensures Rolling(c) && o >= c.app.strategy.partition ==> RevisionOf(s'.fleet[o]) == c.update.name
    {
      AlikeStatus(c, s, s', o);
    }
  }

  /** No pod dies in any step. */
  lemma DeadWereDead(c: Config, s: State, e: Event, s': State, o: int)
    requires ValidConfig(c) && IsRaw(c, s) && RawStep(c, s, e, s') && IsDead(c, s', o)
    ensures IsDead(c, s, o)
  {
    if e.Reconcile? {
      SyncShowsNextChange(c, s, e.w, e.build, s');
      var job := JobAt(c, s);
      var next := s.(fleet := Changed(job, s.fleet, e.build, NextChange(job, s.fleet, c.bound)));
      ChangeOnSurplus(job, s.fleet, e.build, c.bound, o);
      if FleetsAlike(c.app, s.fleet, s'.fleet) {
        AlikeStatus(c, s, s', o);
      } else {
        AlikeStatus(c, next, s', o);
      }
    } else {
      PodStepOnDead(c, s, e, s', o);
    }
  }

  // ---- the fleet arrives ----

  /** A reconcile in which nothing fails can always happen. */
  lemma GoodSync(c: Config, s: State) returns (e: Event, s': State)
    requires ValidConfig(c) && IsRaw(c, s)
    ensures e.Reconcile? && NothingFails(e.w) && RawStep(c, s, e, s') && s'.now == s.now
  {
    var order := SomeClaimOrder(c.app.claims);
    var build := SomeBuilder(c.app);
    var w := ALL_WELL.(repairOrder := _ => order);
    assert OrdersFit(c.app, w);
    assert Keyed(s.fleet);
    s' := CanSync(c, s, w, build);
    e := Reconcile(w, build);
  }

  lemma SomeStepHelps(c: Config, s: State) returns (e: Event, s': State)
    requires ValidConfig(c) && ByOrdinal(c) && IsRaw(c, s) && AtMostOneDead(c, s) && !Final(c, s)
    ensures RawStep(c, s, e, s') && Total(c, s') < Total(c, s)
  {
    if NextChange(JobAt(c, s), s.fleet, c.bound).Stay? {
      e, s' := WaitingOnPods(c, s);
    } else {
      e, s' := GoodSync(c, s);
      SyncShowsNextChange(c, s, e.w, e.build, s');
      var next := s.(fleet := Changed(JobAt(c, s), s.fleet, e.build, NextChange(JobAt(c, s), s.fleet, c.bound)));
      ChangeLowersTotal(c, s, e.build, next);
      AlikeTotal(c, next, s');
    }
  }

  /** One more reconcile restores the identity of every pod of a final fleet, and mounts nothing. */
  lemma FinalIsRestored(c: Config, s: State, e: Event, s': State)
    requires ValidConfig(c) && IsRaw(c, s) && Final(c, s)
    requires e.Reconcile? && NothingFails(e.w) && RawStep(c, s, e, s')
    ensures Final(c, s') && IsRaw(c, s') && IsNamed(c, s')
    ensures IsMounted(c, s) <==> Inv(c, s')
  {
    NothingIsNext(c, s);
    SyncShowsNextChange(c, s, e.w, e.build, s');
    assert FleetsAlike(c.app, s.fleet, s'.fleet);
    AlikeFinal(c, s, s');
    AlikeIsRaw(c, s, s');
    AllAreReached(c, s);
    forall o <- s'.fleet ensures MatchesApp(c.app, s'.fleet[o]) && Alike(c.app, s.fleet[o], s'.fleet[o]) {
      SyncRestores(c, s, e.w, e.build, s', o);
    }
    MatchedIsKept(c, s');
  }

  lemma AllAreReached(c: Config, s: State)
    requires Final(c, s)
    ensures FirstSick(JobAt(c, s), s.fleet, 0) == c.app.replicas
  {
    assert forall o <- s.fleet :: HealthyAt(JobAt(c, s), s.fleet, o);
  }

  /** Some run leads to a final fleet in which every pod has its identity. */
  ghost predicate CanBeRestored(c: Config, s: State) {
    exists s' :: Runs.Leads(RawSteps(c), s, s') && Final(c, s') && IsNamed(c, s')
  }

  lemma {:induction false} RestoredRun(c: Config, s: State) returns (s': State)
    requires ValidConfig(c) && ByOrdinal(c) && IsRaw(c, s) && AtMostOneDead(c, s)
    ensures Runs.Leads(RawSteps(c), s, s') && Final(c, s') && IsNamed(c, s') && (IsMounted(c, s) ==> Inv(c, s'))
    decreases Total(c, s)
  {
    var e, mid;
    if Final(c, s) {
      e, s' := GoodSync(c, s);
      FinalIsRestored(c, s, e, s');
      mid := s';
      Runs.StayingLeads(RawSteps(c), s');
    } else {
      e, mid := SomeStepHelps(c, s);
      StepKeepsRaw(c, s, e, mid);
      forall o, o' | IsDead(c, mid, o) && IsDead(c, mid, o') ensures o == o' {
        DeadWereDead(c, s, e, mid, o);
        DeadWereDead(c, s, e, mid, o');
      }
      s' := RestoredRun(c, mid);
    }
    Runs.StepLeads(RawSteps(c), s, e, mid, s');
  }

  // ---- exactly when ----

  lemma StepKeepsBothThere(c: Config, s: State, e: Event, s': State, low: int, high: int)
    requires ValidConfig(c) && IsRaw(c, s) && RawStep(c, s, e, s')
    requires low < high && IsDead(c, s, low) && IsDead(c, s, high)
    ensures IsRaw(c, s') && IsDead(c, s', low) && IsDead(c, s', high)
  {
    StepKeepsRaw(c, s, e, s');
    if e.Reconcile? {
      assert LowestUnhealthy(s.fleet, c.app.replicas, c.bound) <= low;
      assert Highest(s.fleet, c.app.replicas, c.bound) >= high;
      SyncPassesOver(c, s, e.w, e.build, s', low);
      SyncPassesOver(c, s, e.w, e.build, s', high);
    } else {
      PodStepOnDead(c, s, e, s', low);
      PodStepOnDead(c, s, e, s', high);
    }
  }

  /** A dead pod is passed over unless it is the highest one and no lower one of the surplus is unhealthy. */
  lemma SyncPassesOver(c: Config, s: State, w: World, build: Builder, s': State, o: int)
    requires ValidConfig(c) && IsRaw(c, s) && RawStep(c, s, Reconcile(w, build), s') && IsDead(c, s, o)
    requires Highest(s.fleet, c.app.replicas, c.bound) != o || LowestUnhealthy(s.fleet, c.app.replicas, c.bound) != o
    ensures IsDead(c, s', o)
  {
    SyncShowsNextChange(c, s, w, build, s');
    var job := JobAt(c, s);
    var next := s.(fleet := Changed(job, s.fleet, build, NextChange(job, s.fleet, c.bound)));
    ChangeOnSurplus(job, s.fleet, build, c.bound, o);
    if FleetsAlike(c.app, s.fleet, s'.fleet) {
      AlikeStatus(c, s, s', o);
    } else {
      AlikeStatus(c, next, s', o);
    }
  }

  lemma {:induction false} RunKeepsBothThere(c: Config, states: seq<State>, events: seq<Event>, low: int, high: int)
    requires ValidConfig(c) && Runs.IsRunOf(RawSteps(c), states, events) && IsRaw(c, states[0])
    requires low < high && IsDead(c, states[0], low) && IsDead(c, states[0], high)
    ensures IsRaw(c, states[|events|]) && IsDead(c, states[|events|], low) && IsDead(c, states[|events|], high)
  {
    if events != [] {
      var last := |events| - 1;
      RunKeepsBothThere(c, states[..|states| - 1], events[..last], low, high);
      assert RawSteps(c)(states[last], events[last], states[last + 1]);
      StepKeepsBothThere(c, states[last], events[last], states[last + 1], low, high);
    }
  }

  /**
   Whatever has become of the labels and volumes of its pods, an App can get to a final fleet in which every pod has
   its identity if and only if at most one surplus pod is dead.
   */
  lemma RestoreCondition(c: Config, s: State)
    requires ValidConfig(c) && ByOrdinal(c) && IsRaw(c, s)
    ensures AtMostOneDead(c, s) <==> CanBeRestored(c, s)
  {
    if AtMostOneDead(c, s) {
      var s' := RestoredRun(c, s);
    } else {
      var low, high :| IsDead(c, s, low) && IsDead(c, s, high) && low < high;
      forall s' | Runs.Leads(RawSteps(c), s, s') ensures !Final(c, s') {
        var states, events :| Runs.LeadsBy(RawSteps(c), states, events, s, s');
        RunKeepsBothThere(c, states, events, low, high);
      }
    }
  }

  lemma OnlyTimePasses(c: Config, s: State, e: Event, s': State)
    requires Final(c, s) && Step(c, s, e, s') && !e.Reconcile?
    ensures e.Pass?
  {}

  /** A final fleet stays one, pod for pod, and a pod that misses a claim goes on missing it. */
  lemma FinalStays(c: Config, s: State, e: Event, s': State)
    requires ValidConfig(c) && IsRaw(c, s) && Final(c, s) && RawStep(c, s, e, s')
    ensures IsRaw(c, s') && Final(c, s') && (IsMounted(c, s') ==> IsMounted(c, s))
  {
    StepKeepsRaw(c, s, e, s');
    if e.Reconcile? {
      NothingIsNext(c, s);
      SyncShowsNextChange(c, s, e.w, e.build, s');
      assert FleetsAlike(c.app, s.fleet, s'.fleet);
      AlikeFinal(c, s, s');
      forall o <- s.fleet ensures MatchesClaims(c.app, s'.fleet[o]) ==> MatchesClaims(c.app, s.fleet[o]) {
        assert Alike(c.app, s.fleet[o], s'.fleet[o]);
      }
    } else {
      OnlyTimePasses(c, s, e, s');
      forall o <- s'.fleet ensures Healthy(JobAt(c, s'), s'.fleet[o]) {
        assert o in s.fleet && Healthy(JobAt(c, s), s.fleet[o]);
      }
    }
  }

  lemma {:induction false} FinalRunStays(c: Config, states: seq<State>, events: seq<Event>)
    requires ValidConfig(c) && Runs.IsRunOf(RawSteps(c), states, events) && IsRaw(c, states[0]) && Final(c, states[0])
    ensures IsRaw(c, states[|events|]) && Final(c, states[|events|])
    ensures IsMounted(c, states[|events|]) ==> IsMounted(c, states[0])
  {
    if events != [] {
      var last := |events| - 1;
      FinalRunStays(c, states[..|states| - 1], events[..last]);
      assert RawSteps(c)(states[last], events[last], states[last + 1]);
      FinalStays(c, states[last], events[last], states[last + 1]);
    }
  }

  /**
   Volumes are not restored: from a final fleet a well-kept one can be reached if and only if every pod mounts its
   claims as it is.
   */
  lemma MountCondition(c: Config, s: State)
    requires ValidConfig(c) && IsRaw(c, s) && Final(c, s)
    ensures IsMounted(c, s) <==> exists s' :: Runs.Leads(RawSteps(c), s, s') && Inv(c, s')
  {
    if IsMounted(c, s) {
      var e, s' := GoodSync(c, s);
      FinalIsRestored(c, s, e, s');
      Runs.StayingLeads(RawSteps(c), s');
      Runs.StepLeads(RawSteps(c), s, e, s', s');
    }
    forall s' | Runs.Leads(RawSteps(c), s, s') && Inv(c, s') ensures IsMounted(c, s) {
      var states, events :| Runs.LeadsBy(RawSteps(c), states, events, s, s');
      FinalRunStays(c, states, events);
      forall o <- s'.fleet ensures MatchesClaims(c.app, s'.fleet[o]) {
        assert IsKept(c.app, o, s'.fleet[o]);
      }
    }
  }
}
