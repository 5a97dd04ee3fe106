/**
 Whole runs of an ordered App with a fixed spec: reconciles, any of whose requests may fail, mixed
 with the steps of pods that start up, become ready, and shut down, and with the passing of time.
 */
module Rollout {
  import opened Text
  import opened Kube
  import opened ReplicaStatus
  import opened Slots
  import opened Sync
  import opened Discipline
  import opened Fleet
  import Listing
  import Runs

  datatype Config = Config(app: App, update: Revision, bound: int)

  datatype State = State(fleet: Fleet, current: Revision, now: int)

  function JobAt(c: Config, s: State): Job {
    Job(c.app, s.current, c.update, s.now)
  }

  /** OrderedReady, with pods that are to be updated replaced rather than edited in place. */
  predicate ValidConfig(c: Config) {
    !c.app.parallel && (Rolling(c) ==> !c.app.strategy.inPlace) && c.app.replicas <= c.bound <= MAX_INT32
  }

  predicate Rolling(c: Config) {
    IsRolling(c.app)
  }

  /** If pods are to be updated, the partition is an ordinal, rather than a number of pods. */
  predicate ByOrdinal(c: Config) {
    Rolling(c) ==> !c.app.strategy.unordered
  }

  ghost predicate Inv(c: Config, s: State) {
    WellKept(c.app, s.fleet) && Bounded(s.fleet, c.bound) && (Rolling(c) ==> Unmarked(s.fleet))
  }

  // ---- steps ----

  datatype Event =
    | Reconcile(w: World, build: Builder)
    | Start(o: int)
    | BecomeReady(o: int)
    | Vanish(o: int)
    | Wither(o: int, phase: Phase, ready: ReadyCondition)
    | Pass(to: int)

  /**
   One reconcile, over some listing of the fleet, building new pods in some way. The promoted revision may
   fail to be stored.
   */
  ghost predicate Syncs(c: Config, s: State, w: World, build: Builder, s': State) {
    exists pods, replicas, surplus :: SyncsOver(c, s, w, build, s', pods, replicas, surplus)
  }

  ghost predicate SyncsOver(c: Config, s: State, w: World, build: Builder, s': State,
                            pods: seq<Pod>, replicas: seq<Pod>, surplus: seq<Pod>) {
    var job := JobAt(c, s);
    var acted := Act(job, replicas, surplus, w);
    var status := Report(job, pods, replicas + surplus, acted.evicted);
    && LaidOut(job, s.fleet, pods, build, replicas, surplus)
    && s'.fleet == PerformAll(c.app, s.fleet, acted.commands, w)
    && s'.now == s.now
    && (s'.current == s.current || (UpdateComplete(c.app.strategy, status) && s'.current == c.update))
  }

  ghost predicate Step(c: Config, s: State, e: Event, s': State) {
    match e
    case Reconcile(w, build) => BuildsKept(c.app, build) && Syncs(c, s, w, build, s')
    case Start(o) =>
      && o in s.fleet && !s.fleet[o].terminating && (s.fleet[o].phase.Pending? || s.fleet[o].phase.Unknown?)
      && s' == s.(fleet := s.fleet[o := s.fleet[o].(phase := Running)])
    case BecomeReady(o) =>
      && o in s.fleet && !s.fleet[o].terminating && s.fleet[o].phase.Running? && !s.fleet[o].ready.Since?
      && !IsAvailable(s.fleet[o], c.app.strategy.minReadySeconds, s.now)
      && s' == s.(fleet := s.fleet[o := s.fleet[o].(ready := Since(s.now))])
    case Vanish(o) =>
      && o in s.fleet && s.fleet[o].terminating
      && s' == s.(fleet := s.fleet - {o})
    case Wither(o, phase, ready) =>
      && o in s.fleet && s.fleet[o].terminating && !phase.Unset?
      && s' == s.(fleet := s.fleet[o := s.fleet[o].(phase := phase, ready := ready)])
    case Pass(to) =>
      to > s.now && s' == s.(now := to)
  }

  ghost function StepsOf(c: Config): (State, Event, State) -> bool {
    (s, e, s') => Step(c, s, e, s')
  }

  ghost predicate IsRun(c: Config, states: seq<State>, events: seq<Event>) {
    Runs.IsRunOf(StepsOf(c), states, events)
  }

  lemma SyncMakesNextChange(c: Config, s: State, w: World, build: Builder, s': State)
    requires ValidConfig(c) && Inv(c, s) && BuildsKept(c.app, build) && Syncs(c, s, w, build, s')
    ensures
      var next := Changed(JobAt(c, s), s.fleet, build, NextChange(JobAt(c, s), s.fleet, c.bound));
      (s'.fleet == s.fleet || s'.fleet == next) && (NothingFails(w) ==> s'.fleet == next)
  {
    var pods, replicas, surplus :| SyncsOver(c, s, w, build, s', pods, replicas, surplus);
    RunMakesNextChange(JobAt(c, s), s.fleet, pods, build, replicas, surplus, w, c.bound);
  }

  lemma StepKeepsInv(c: Config, s: State, e: Event, s': State)
    requires ValidConfig(c) && Inv(c, s) && Step(c, s, e, s')
    ensures Inv(c, s')
  {
    match e {
      case Reconcile(w, build) =>
        SyncMakesNextChange(c, s, w, build, s');
        ChangeKeeps(JobAt(c, s), s.fleet, build, c.bound);
      case Vanish(_) =>
      case Pass(_) =>
      case Start(o) => StatusKeeps(c, s, o, s'.fleet[o]);
      case BecomeReady(o) => StatusKeeps(c, s, o, s'.fleet[o]);
      case Wither(o, _, _) => StatusKeeps(c, s, o, s'.fleet[o]);
    }
  }

  lemma StatusKeeps(c: Config, s: State, o: int, pod: Pod)
    requires Inv(c, s) && o in s.fleet && !pod.phase.Unset?
    requires pod == s.fleet[o].(phase := pod.phase, ready := pod.ready)
    ensures Inv(c, s.(fleet := s.fleet[o := pod]))
  {
    KeptWhatever(c.app, o, s.fleet[o], pod.phase, pod.ready, pod.terminating);
    KeptWith(c.app, s.fleet, o, pod);
  }

  // ---- how far a fleet is from where it should be ----

  /** Steps a pod still has before it: to start, to become ready, to stay ready for long enough. */
  function Stage(c: Config, pod: Pod, now: int): nat {
    if IsAvailable(pod, c.app.strategy.minReadySeconds, now) then 0
    else if !pod.phase.Running? then 3
    else if !pod.ready.Since? then 2
    else 1
  }

  predicate IsDoomed(c: Config, o: int, pod: Pod) {
    IsTerminal(pod) || (Rolling(c) && o >= c.app.strategy.partition && RevisionOf(pod) != c.update.name)
  }

  function Weight(c: Config, s: State, o: int): nat {
    var n := c.app.replicas;
    if o !in s.fleet then (if o < n then 4 else 0)
    else
      var pod := s.fleet[o];
      if pod.terminating then (if o < n then 5 else 1)
      else if o >= n then 2 + Stage(c, pod, s.now)
      else if IsDoomed(c, o, pod) then 6 + Stage(c, pod, s.now)
      else Stage(c, pod, s.now)
  }

  function TotalBelow(c: Config, s: State, b: nat): nat {
    if b == 0 then 0 else TotalBelow(c, s, b - 1) + Weight(c, s, b - 1)
  }

  /** The number of steps that a fleet can take towards its final form. */
  function Total(c: Config, s: State): nat {
    if c.bound < 0 then 0 else TotalBelow(c, s, c.bound)
  }

  /** Exactly the ordinals below n, all healthy, and if they are to be updated, updated from the partition on. */
  ghost predicate Final(c: Config, s: State) {
    && (forall o :: o in s.fleet <==> 0 <= o < c.app.replicas)
    && (forall o <- s.fleet :: Healthy(JobAt(c, s), s.fleet[o]))
    && (Rolling(c) ==> forall o <- s.fleet | o >= c.app.strategy.partition :: RevisionOf(s.fleet[o]) == c.update.name)
  }

  lemma {:induction false} TotalBounded(c: Config, s: State, b: nat)
    ensures TotalBelow(c, s, b) <= 9 * b
  {
    if b > 0 {
      TotalBounded(c, s, b - 1);
    }
  }

  lemma {:induction false} TotalMonotone(c: Config, s: State, s': State, b: nat)
    requires forall o | 0 <= o < b :: Weight(c, s', o) <= Weight(c, s, o)
    ensures TotalBelow(c, s', b) <= TotalBelow(c, s, b)
    ensures (exists o | 0 <= o < b :: Weight(c, s', o) < Weight(c, s, o)) ==> TotalBelow(c, s', b) < TotalBelow(c, s, b)
  {
    if b > 0 {
      TotalMonotone(c, s, s', b - 1);
    }
  }

  lemma {:induction false} TotalZero(c: Config, s: State, b: nat)
    ensures TotalBelow(c, s, b) == 0 <==> forall o | 0 <= o < b :: Weight(c, s, o) == 0
  {
    if b > 0 {
      TotalZero(c, s, b - 1);
    }
  }

  ghost predicate InRange(c: Config, s: State) {
    c.app.replicas <= c.bound && forall o <- s.fleet :: 0 <= o < c.bound
  }

  lemma FinalMeansNothingLeft(c: Config, s: State)
    requires InRange(c, s)
    ensures Final(c, s) <==> Total(c, s) == 0
  {
    TotalZero(c, s, c.bound);
    assert forall o | 0 <= o < c.bound && o in s.fleet :: Weight(c, s, o) == 0 <==> WeighsNothing(c, s, o);
    if Total(c, s) == 0 {
      forall o ensures o in s.fleet <==> 0 <= o < c.app.replicas {
        assert 0 <= o < c.bound ==> Weight(c, s, o) == 0;
      }
      assert forall o <- s.fleet :: WeighsNothing(c, s, o);
    }
  }

  ghost predicate WeighsNothing(c: Config, s: State, o: int)
    requires o in s.fleet
  {
    o < c.app.replicas && Healthy(JobAt(c, s), s.fleet[o]) && !IsDoomed(c, o, s.fleet[o])
  }

  /** Other ordinals weigh what they did when the time and their pods are the same. */
  lemma OneWeightFalls(c: Config, s: State, s': State, o: int)
    requires s'.now == s.now && 0 <= o < c.bound
    requires forall k | k != o :: (k in s'.fleet <==> k in s.fleet) && (k in s.fleet ==> s'.fleet[k] == s.fleet[k])
    requires Weight(c, s', o) <= Weight(c, s, o)
    ensures Total(c, s') <= Total(c, s)
    ensures Weight(c, s', o) < Weight(c, s, o) ==> Total(c, s') < Total(c, s)
  {
    TotalMonotone(c, s, s', c.bound);
  }

  // ---- every step that changes the fleet brings it closer ----

  lemma NewPodFacts(c: Config, build: Builder, revision: Revision, i: nat)
    requires BuildsKept(c.app, build) && i < MAX_INT32
    ensures
      var pod := build(revision, i);
      !pod.terminating && pod.ready.Absent? && RevisionOf(pod.(phase := Pending)) == revision.name
  {
    assert IsNew(c.app, revision, i, build(revision, i));
  }

  lemma CreateLowersTotal(c: Config, s: State, s': State, i: int, pod: Pod)
    requires 0 <= i < c.app.replicas <= c.bound && i !in s.fleet
    requires s' == s.(current := s'.current, fleet := s.fleet[i := pod])
    requires pod.phase.Pending? && !pod.terminating
    requires Rolling(c) && i >= c.app.strategy.partition ==> RevisionOf(pod) == c.update.name
    ensures Total(c, s') < Total(c, s)
  {
    OneWeightFalls(c, s, s', i);
  }

  lemma EvictLowersTotal(c: Config, s: State, s': State, o: int)
    requires InRange(c, s) && o in s.fleet && !s.fleet[o].terminating
    requires o < c.app.replicas ==> IsDoomed(c, o, s.fleet[o])
    requires s' == s.(current := s'.current, fleet := s.fleet[o := s.fleet[o].(terminating := true)])
    ensures Total(c, s') < Total(c, s)
  {
    OneWeightFalls(c, s, s', o);
  }

  lemma ChangeLowersTotal(c: Config, s: State, build: Builder, s': State)
    requires ValidConfig(c) && ByOrdinal(c) && BuildsKept(c.app, build) && InRange(c, s) && s'.now == s.now
    requires s'.fleet == Changed(JobAt(c, s), s.fleet, build, NextChange(JobAt(c, s), s.fleet, c.bound))
    ensures if NextChange(JobAt(c, s), s.fleet, c.bound).Stay? then s'.fleet == s.fleet else Total(c, s') < Total(c, s)
  {
    var job := JobAt(c, s);
    match NextChange(job, s.fleet, c.bound) {
      case Stay =>
      case Create(i) =>
        var revision := SlotRevision(job, s.fleet, i);
        NewPodFacts(c, build, revision, i);
        CreateLowersTotal(c, s, s', i, build(revision, i).(phase := Pending));
      case Evict(o) =>
        EvictedIsLive(job, s.fleet, c.bound, o);
        EvictLowersTotal(c, s, s', o);
    }
  }

  lemma SameFleetSameTotal(c: Config, s: State, s': State)
    requires s'.fleet == s.fleet && s'.now == s.now
    ensures Total(c, s') == Total(c, s)
  {
    if c.bound >= 0 {
      TotalMonotone(c, s, s', c.bound);
      TotalMonotone(c, s', s, c.bound);
    }
  }

  lemma SyncLowersTotal(c: Config, s: State, w: World, build: Builder, s': State)
    requires ValidConfig(c) && ByOrdinal(c) && Inv(c, s) && BuildsKept(c.app, build) && Syncs(c, s, w, build, s')
    ensures if s'.fleet == s.fleet then Total(c, s') == Total(c, s) else Total(c, s') < Total(c, s)
  {
    SyncMakesNextChange(c, s, w, build, s');
    if s'.fleet == s.fleet {
      SameFleetSameTotal(c, s, s');
    } else {
      ChangeLowersTotal(c, s, build, s');
    }
  }

  /** No step takes the fleet further away, and one that changes a pod that is not shutting down brings it closer. */
  lemma StepLowersTotal(c: Config, s: State, e: Event, s': State)
    requires ValidConfig(c) && ByOrdinal(c) && Inv(c, s) && Step(c, s, e, s')
    ensures Total(c, s') <= Total(c, s)
    ensures s'.fleet != s.fleet && !e.Wither? ==> Total(c, s') < Total(c, s)
  {
    assert InRange(c, s);
    match e {
      case Reconcile(w, build) => SyncLowersTotal(c, s, w, build, s');
      case Pass(_) => TotalMonotone(c, s, s', c.bound);
      case _ => PodStepLowersTotal(c, s, e, s');
    }
  }

  lemma PodStepLowersTotal(c: Config, s: State, e: Event, s': State)
    requires InRange(c, s) && Step(c, s, e, s') && !e.Reconcile? && !e.Pass?
    ensures Total(c, s') <= Total(c, s)
    ensures !e.Wither? ==> Total(c, s') < Total(c, s)
  {
    OneWeightFalls(c, s, s', e.o);
  }

  /** How often a run changes the fleet, not counting what terminating pods do to themselves. */
  function Changes(states: seq<State>, events: seq<Event>): nat
    requires |states| == |events| + 1
  {
    if events == [] then 0
    else
      var last := |events| - 1;
      Changes(states[..|states| - 1], events[..last]) +
      (if states[last + 1].fleet != states[last].fleet && !events[last].Wither? then 1 else 0)
  }

  /** However long a run is, and whatever fails, it changes the fleet at most nine times per ordinal. */
  lemma {:induction false} RunChangesBounded(c: Config, states: seq<State>, events: seq<Event>)
    requires ValidConfig(c) && ByOrdinal(c) && IsRun(c, states, events) && Inv(c, states[0])
    ensures Inv(c, states[|events|])
    ensures Changes(states, events) + Total(c, states[|events|]) <= Total(c, states[0]) <= 9 * c.bound
  {
    TotalBounded(c, states[0], c.bound);
    if events != [] {
      var last := |events| - 1;
      RunChangesBounded(c, states[..|states| - 1], events[..last]);
      StepKeepsInv(c, states[last], events[last], states[last + 1]);
      StepLowersTotal(c, states[last], events[last], states[last + 1]);
    }
  }

  // ---- no state short of the final one is stuck ----

  lemma {:induction false} SomeOrder<T>(key: T -> int, items: seq<T>) returns (sorted: seq<T>)
    ensures DescendingBy(key, sorted) && multiset(sorted) == multiset(items)
  {
    if items == [] {
      sorted := [];
    } else {
      var last := |items| - 1;
      var front := SomeOrder(key, items[..last]);
      InsertKeepsOrder(key, front, items[last]);
      InsertKeepsItems(key, front, items[last]);
      sorted := InsertDescending(key, front, items[last]);
      assert items == items[..last] + [items[last]];
    }
  }

  lemma CanSync(c: Config, s: State, w: World, build: Builder) returns (s': State)
    requires Keyed(s.fleet)
    ensures Syncs(c, s, w, build, s') && s'.current == s.current
  {
    var job := JobAt(c, s);
    var pods, replicas, surplus := SomeLayout(job, s.fleet, build);
    s' := s.(fleet := PerformAll(c.app, s.fleet, Act(job, replicas, surplus, w).commands, w));
    assert SyncsOver(c, s, w, build, s', pods, replicas, surplus);
  }

  lemma SomeLayout(job: Job, fleet: Fleet, build: Builder)
    returns (pods: seq<Pod>, replicas: seq<Pod>, surplus: seq<Pod>)
    requires Keyed(fleet)
    ensures LaidOut(job, fleet, pods, build, replicas, surplus)
  {
    pods := Listing.SomeListing(Identity.OrdinalOf, fleet);
    replicas := Replicas(job, pods, build);
    surplus := SomeOrder(Identity.OrdinalOf, Surplus(pods, job.app.replicas));
  }

  /** A surplus pod that has ended without ever getting a Ready condition will never be ready. */
  predicate IsDead(c: Config, s: State, o: int) {
    && o >= c.app.replicas && o in s.fleet
    && IsTerminal(s.fleet[o]) && s.fleet[o].ready.Absent? && !s.fleet[o].terminating
  }

  ghost predicate AtMostOneDead(c: Config, s: State) {
    forall o, o' | IsDead(c, s, o) && IsDead(c, s, o') :: o == o'
  }

  /** A pod that is not available, and neither ended nor shutting down, has a step to take. */
  lemma PodCanAdvance(c: Config, s: State, o: int) returns (e: Event, s': State)
    requires InRange(c, s) && o in s.fleet && !s.fleet[o].phase.Unset? && !IsTerminal(s.fleet[o])
    requires !Healthy(JobAt(c, s), s.fleet[o])
    ensures Step(c, s, e, s') && Total(c, s') < Total(c, s) && !e.Reconcile?
  {
    var pod := s.fleet[o];
    if pod.terminating {
      e, s' := Vanish(o), s.(fleet := s.fleet - {o});
    } else if !pod.phase.Running? {
      e, s' := Start(o), s.(fleet := s.fleet[o := pod.(phase := Running)]);
    } else if !pod.ready.Since? {
      e, s' := BecomeReady(o), s.(fleet := s.fleet[o := pod.(ready := Since(s.now))]);
    } else {
      var to := pod.ready.at + c.app.strategy.minReadySeconds * SECOND;
      e, s' := Pass(to), s.(now := to);
      assert Weight(c, s', o) < Weight(c, s, o);
      TotalMonotone(c, s, s', c.bound);
      return;
    }
    PodStepLowersTotal(c, s, e, s');
  }

  lemma VanishLowersTotal(c: Config, s: State, o: int) returns (e: Event, s': State)
    requires InRange(c, s) && o in s.fleet && s.fleet[o].terminating
    ensures Step(c, s, e, s') && Total(c, s') < Total(c, s) && !e.Reconcile?
  {
    e, s' := Vanish(o), s.(fleet := s.fleet - {o});
    PodStepLowersTotal(c, s, e, s');
  }

  /** A pod that is shutting down, or that is neither healthy nor has ended, has a step before it. */
  predicate Waits(c: Config, s: State, o: int) {
    && o in s.fleet
    && (s.fleet[o].terminating || (!IsTerminal(s.fleet[o]) && !Healthy(JobAt(c, s), s.fleet[o])))
  }

  /** When the controller would leave a fleet as it is, some pod is being waited for, or all is done. */
  lemma SomeoneWaits(c: Config, s: State) returns (o: int)
    requires ValidConfig(c) && InRange(c, s) && AtMostOneDead(c, s)
    requires NextChange(JobAt(c, s), s.fleet, c.bound).Stay? && !Final(c, s)
    ensures Waits(c, s, o)
  {
    var job, n := JobAt(c, s), c.app.replicas;
    var i, top := FirstSick(job, s.fleet, 0), Highest(s.fleet, n, c.bound);
    if i < n {
      o := i;
    } else if top >= n {
      var lowest := LowestUnhealthy(s.fleet, n, c.bound);
      if s.fleet[top].terminating || !IsTerminal(s.fleet[top]) {
        o := top;
      } else {
        assert IsDead(c, s, top) && lowest != top;
        assert !IsDead(c, s, lowest);
        o := lowest;
      }
    } else {
      o := 0;
      SettledIsFinal(c, s);
      assert false;
    }
  }

  lemma WaitingOnPods(c: Config, s: State) returns (e: Event, s': State)
    requires ValidConfig(c) && InRange(c, s) && AtMostOneDead(c, s)
    requires forall o <- s.fleet :: !s.fleet[o].phase.Unset?
    requires NextChange(JobAt(c, s), s.fleet, c.bound).Stay? && !Final(c, s)
    ensures Step(c, s, e, s') && Total(c, s') < Total(c, s) && !e.Reconcile?
  {
    var o := SomeoneWaits(c, s);
    e, s' := AdvanceOrVanish(c, s, o);
  }

  lemma SettledIsFinal(c: Config, s: State)
    requires InRange(c, s)
    requires NextChange(JobAt(c, s), s.fleet, c.bound).Stay?
    requires FirstSick(JobAt(c, s), s.fleet, 0) == c.app.replicas && Highest(s.fleet, c.app.replicas, c.bound) == -1
    ensures Final(c, s)
  {
    var job: Job, n: int := JobAt(c, s), c.app.replicas;
    assert Rolling(c) ==> HighestOutdated(job, s.fleet, n - 1) == -1;
    forall o ensures o in s.fleet <==> 0 <= o < n {
      assert 0 <= o < n ==> HealthyAt(job, s.fleet, o);
    }
    forall o <- s.fleet
      ensures Healthy(job, s.fleet[o])
      ensures Rolling(c) && o >= c.app.strategy.partition ==> RevisionOf(s.fleet[o]) == c.update.name
    {
      assert HealthyAt(job, s.fleet, o) && (Rolling(c) ==> !OutdatedAt(job, s.fleet, o));
    }
  }

  lemma AdvanceOrVanish(c: Config, s: State, o: int) returns (e: Event, s': State)
    requires InRange(c, s) && o in s.fleet && !s.fleet[o].phase.Unset?
    requires !Healthy(JobAt(c, s), s.fleet[o]) && (s.fleet[o].terminating || !IsTerminal(s.fleet[o]))
    ensures Step(c, s, e, s') && Total(c, s') < Total(c, s) && !e.Reconcile?
  {
    if s.fleet[o].terminating {
      e, s' := VanishLowersTotal(c, s, o);
    } else {
      e, s' := PodCanAdvance(c, s, o);
    }
  }

  /** Wherever a run has got to, short of the final form, some step brings the fleet closer. */
  lemma NotStuck(c: Config, s: State) returns (e: Event, s': State)
    requires ValidConfig(c) && ByOrdinal(c) && Inv(c, s) && AtMostOneDead(c, s) && !Final(c, s)
    ensures Step(c, s, e, s') && Total(c, s') < Total(c, s)
  {
    assert forall o <- s.fleet :: IsKept(c.app, o, s.fleet[o]);
    if NextChange(JobAt(c, s), s.fleet, c.bound).Stay? {
      e, s' := WaitingOnPods(c, s);
    } else {
      var build := SomeBuilder(c.app);
      KeptIsPlaced(c.app, s.fleet);
      s' := CanSync(c, s, ALL_WELL, build);
      e := Reconcile(ALL_WELL, build);
      SyncMakesNextChange(c, s, ALL_WELL, build, s');
      ChangeLowersTotal(c, s, build, s');
    }
  }

  /** No request fails. */
  const ALL_WELL := World(_ => false, _ => NotDone, _ => [])

  /** There always is an order of the claims, and so a way to build pods. */
  lemma SomeBuilder(app: App) returns (build: Builder)
    ensures BuildsKept(app, build)
  {
    var order := SomeClaimOrder(app.claims);
    build := PodBuilder(app, _ => order);
    PodBuilderKeeps(app, _ => order);
  }

  lemma {:induction false} SomeClaimOrder(claims: seq<string>) returns (order: seq<string>)
    ensures forall i, j | 0 <= i < j < |order| :: order[i] != order[j]
    ensures forall claim :: claim in order <==> claim in claims
  {
    if claims == [] {
      order := [];
    } else {
      var front, last := claims[..|claims| - 1], claims[|claims| - 1];
      order := SomeClaimOrder(front);
      assert claims == front + [last];
      if last !in order {
        order := order + [last];
      }
    }
  }

  // ---- convergence ----

  ghost predicate ReachesFinal(c: Config, s: State, states: seq<State>, events: seq<Event>) {
    IsRun(c, states, events) && states[0] == s && Final(c, states[|events|])
  }

  /** Some run leads from the one state to the other. */
  ghost predicate Leads(c: Config, s: State, s': State) {
    Runs.Leads(StepsOf(c), s, s')
  }

  lemma StepLeads(c: Config, s: State, e: Event, mid: State, s': State)
    requires Step(c, s, e, mid) && Leads(c, mid, s')
    ensures Leads(c, s, s')
  {
    Runs.StepLeads(StepsOf(c), s, e, mid, s');
  }

  lemma LeadingRun(c: Config, s: State, s': State) returns (states: seq<State>, events: seq<Event>)
    requires Leads(c, s, s')
    ensures IsRun(c, states, events) && states[0] == s && states[|events|] == s'
  {
    states, events :| Runs.LeadsBy(StepsOf(c), states, events, s, s');
  }

  lemma {:induction false} RunKeepsInv(c: Config, states: seq<State>, events: seq<Event>)
    requires ValidConfig(c) && IsRun(c, states, events) && Inv(c, states[0])
    ensures Inv(c, states[|events|])
  {
    if events != [] {
      var last := |events| - 1;
      RunKeepsInv(c, states[..|states| - 1], events[..last]);
      StepKeepsInv(c, states[last], events[last], states[last + 1]);
    }
  }

  /** A reconcile leaves each surplus pod as it is or starts its termination. */
  lemma SyncOnSurplus(c: Config, s: State, w: World, build: Builder, s': State, o: int)
    requires ValidConfig(c) && Inv(c, s) && BuildsKept(c.app, build) && Syncs(c, s, w, build, s') && o >= c.app.replicas
    ensures OnSurplus(s.fleet, s'.fleet, c.app.replicas, c.bound, o)
  {
    SyncMakesNextChange(c, s, w, build, s');
    ChangeOnSurplus(JobAt(c, s), s.fleet, build, c.bound, o);
  }

  lemma DeadBefore(c: Config, s: State, e: Event, s': State, o: int)
    requires ValidConfig(c) && Inv(c, s) && Step(c, s, e, s') && IsDead(c, s', o)
    ensures IsDead(c, s, o)
  {
    if e.Reconcile? {
      SyncOnSurplus(c, s, e.w, e.build, s', o);
    } else {
      PodStepOnDead(c, s, e, s', o);
    }
  }

  /** Pods neither die nor come back to life by themselves in this environment. */
  lemma PodStepOnDead(c: Config, s: State, e: Event, s': State, o: int)
    requires Step(c, s, e, s') && !e.Reconcile?
    ensures IsDead(c, s', o) <==> IsDead(c, s, o)
  {}

  lemma StepKeepsAtMostOneDead(c: Config, s: State, e: Event, s': State)
    requires ValidConfig(c) && Inv(c, s) && Step(c, s, e, s') && AtMostOneDead(c, s)
    ensures AtMostOneDead(c, s')
  {
    forall o, o' | IsDead(c, s', o) && IsDead(c, s', o') ensures o == o' {
      DeadBefore(c, s, e, s', o);
      DeadBefore(c, s, e, s', o');
    }
  }

  /** From any fleet with at most one dead surplus pod, the final form can be reached. */
  lemma {:induction false} Converges(c: Config, s: State) returns (states: seq<State>, events: seq<Event>)
    requires ValidConfig(c) && ByOrdinal(c) && Inv(c, s) && AtMostOneDead(c, s)
    ensures ReachesFinal(c, s, states, events) && |events| <= Total(c, s)
    decreases Total(c, s)
  {
    if Final(c, s) {
      states, events := [s], [];
    } else {
      var e, s' := NotStuck(c, s);
      StepKeepsInv(c, s, e, s');
      StepKeepsAtMostOneDead(c, s, e, s');
      var restStates, restEvents := Converges(c, s');
      states, events := [s] + restStates, [e] + restEvents;
    }
  }

  /** A dead surplus pod is passed over for as long as a dead pod with a lower ordinal is there. */
  lemma StepKeepsBothDead(c: Config, s: State, e: Event, s': State, low: int, high: int)
    requires ValidConfig(c) && Inv(c, s) && Step(c, s, e, s')
    requires low < high && IsDead(c, s, low) && IsDead(c, s, high)
    ensures IsDead(c, s', low) && IsDead(c, s', high)
  {
    if e.Reconcile? {
      assert LowestUnhealthy(s.fleet, c.app.replicas, c.bound) <= low;
      assert Highest(s.fleet, c.app.replicas, c.bound) >= high;
      SyncOnSurplus(c, s, e.w, e.build, s', low);
      SyncOnSurplus(c, s, e.w, e.build, s', high);
    } else {
      PodStepOnDead(c, s, e, s', low);
      PodStepOnDead(c, s, e, s', high);
    }
  }

  lemma {:induction false} RunKeepsBothDead(c: Config, states: seq<State>, events: seq<Event>, low: int, high: int)
    requires ValidConfig(c) && IsRun(c, states, events) && Inv(c, states[0])
    requires low < high && IsDead(c, states[0], low) && IsDead(c, states[0], high)
    ensures Inv(c, states[|events|]) && IsDead(c, states[|events|], low) && IsDead(c, states[|events|], high)
  {
    if events != [] {
      var last := |events| - 1;
      RunKeepsBothDead(c, states[..|states| - 1], events[..last], low, high);
      StepKeepsInv(c, states[last], events[last], states[last + 1]);
      StepKeepsBothDead(c, states[last], events[last], states[last + 1], low, high);
    }
  }

  /**
   Exactly when an App can still get to its final form: at most one of the surplus pods may
   have ended without a Ready condition. With two of them, scaling down waits forever.
   */
  lemma ConvergenceCondition(c: Config, s: State)
    requires ValidConfig(c) && ByOrdinal(c) && Inv(c, s)
    ensures AtMostOneDead(c, s) <==> exists states, events :: ReachesFinal(c, s, states, events)
  {
    if AtMostOneDead(c, s) {
      var states, events := Converges(c, s);
    } else {
      var low, high :| IsDead(c, s, low) && IsDead(c, s, high) && low < high;
      forall states, events | IsRun(c, states, events) && states[0] == s ensures !Final(c, states[|events|]) {
        RunKeepsBothDead(c, states, events, low, high);
      }
    }
  }

  /** Such a fleet, to show that the condition is not empty: two ended pods left of an App scaled to none. */
  lemma StuckExample(c: Config, revision: Revision) returns (s: State)
    requires ValidConfig(c) && c.app.replicas == 0 && c.bound >= 2
    ensures Inv(c, s) && s.fleet.Keys == {0, 1} && !AtMostOneDead(c, s)
  {
    var build := SomeBuilder(c.app);
    var pod0, pod1 := build(revision, 0).(phase := Failed), build(revision, 1).(phase := Failed);
    EndedIsKept(c, build, revision, 0);
    EndedIsKept(c, build, revision, 1);
    s := State(map[0 := pod0, 1 := pod1], revision, 0);
    assert IsDead(c, s, 0) && IsDead(c, s, 1);
  }

  lemma EndedIsKept(c: Config, build: Builder, revision: Revision, i: nat)
    requires BuildsKept(c.app, build) && i < MAX_INT32
    ensures
      var pod := build(revision, i).(phase := Failed);
      IsKept(c.app, i, pod) && pod.ready.Absent? && !pod.terminating
  {
    assert IsNew(c.app, revision, i, build(revision, i));
    var pod := build(revision, i).(phase := Pending);
    KeptWhatever(c.app, i, pod, Failed, pod.ready, pod.terminating);
  }

  /** The final form is kept: nothing in this environment changes it, and no reconcile does. */
  lemma FinalIsKept(c: Config, s: State, e: Event, s': State)
    requires ValidConfig(c) && Inv(c, s) && Final(c, s) && Step(c, s, e, s')
    ensures Final(c, s') && s'.fleet == s.fleet
  {
    assert !e.Reconcile? && !e.Pass? ==> Healthy(JobAt(c, s), s.fleet[e.o]);
    if e.Reconcile? {
      NothingIsNext(c, s);
      SyncMakesNextChange(c, s, e.w, e.build, s');
    }
    forall o <- s'.fleet ensures Healthy(JobAt(c, s'), s'.fleet[o]) {
      assert o in s.fleet && Healthy(JobAt(c, s), s.fleet[o]);
    }
  }

  lemma NothingIsNext(c: Config, s: State)
    requires Final(c, s)
    ensures NextChange(JobAt(c, s), s.fleet, c.bound) == Stay
  {
    var job := JobAt(c, s);
    forall o | 0 <= o < c.app.replicas
      ensures HealthyAt(job, s.fleet, o) && (Rolling(c) ==> !OutdatedAt(job, s.fleet, o))
    {
      assert o in s.fleet;
    }
    assert FirstSick(job, s.fleet, 0) == c.app.replicas;
    assert Highest(s.fleet, c.app.replicas, c.bound) == -1;
  }

  /** A run that has made as many changes as the distance it started from has arrived. */
  lemma EnoughChangesArrive(c: Config, states: seq<State>, events: seq<Event>)
    requires ValidConfig(c) && ByOrdinal(c) && IsRun(c, states, events) && Inv(c, states[0])
    requires Changes(states, events) >= Total(c, states[0])
    ensures Final(c, states[|events|])
  {
    RunChangesBounded(c, states, events);
    assert InRange(c, states[|events|]);
    FinalMeansNothingLeft(c, states[|events|]);
  }
}
