/**
 Unordered updates. New pods take the partition as a number of outdated pods, but the rolling update
 takes it as an ordinal. This tells exactly which updates of a healthy App can end.
 */
module Unordered {
  import opened Text
  import opened Kube
  import opened Slots
  import opened Sync
  import opened Discipline
  import opened Fleet
  import opened Rollout
  import opened Disruption
  import opened Reporting
  import Identity
  import Listing
  import Runs
  import ReplicaStatus

  predicate ByCount(c: Config) {
    ValidConfig(c) && Rolling(c) && c.app.strategy.unordered
  }

  /** The ordinals whose pods are not at the update revision. */
  function Old(c: Config, s: State): set<int> {
    OldBelow(s.fleet, c.app.replicas, c.update.name)
  }

  function OldBelow(fleet: Fleet, n: nat, update: string): set<int> {
    set o | 0 <= o < n && o in fleet && RevisionOf(fleet[o]) != update
  }

  lemma {:induction false} OldCount(fleet: Fleet, n: nat, update: string)
    ensures |OldBelow(fleet, n, update)| == OutdatedBelow(fleet, n, update)
  {
    if n > 0 {
      OldCount(fleet, n - 1, update);
      var below, last := OldBelow(fleet, n - 1, update), n - 1;
      if last in fleet && RevisionOf(fleet[last]) != update {
        assert OldBelow(fleet, n, update) == below + {last};
      } else {
        assert OldBelow(fleet, n, update) == below;
      }
    }
  }

  /**
   What decides whether the update can end: the two revisions are called the same, or the pods to keep
   outdated are at most one, or so are the outdated ones, or none of those has an ordinal from the partition
   on, or all ordinals below the partition are among them.
   */
  ghost predicate CanEnd(c: Config, s: State) {
    var stale, p := Old(c, s), c.app.strategy.partition;
    || s.current.name == c.update.name || p <= 1 || |stale| <= 1
    || (forall o <- stale :: o < p) || (forall o | 0 <= o < p :: o in stale)
  }

  // ---- one round: the highest outdated pod is replaced ----

  /** Among healthy pods the next change evicts the highest outdated one from the partition on, if there is one. */
  lemma NextAmongHealthy(c: Config, s: State)
    requires ByCount(c) && AllHealthy(c, s)
    ensures match NextChange(JobAt(c, s), s.fleet, c.bound)
            case Stay => Final(c, s) && forall o <- Old(c, s) :: o < c.app.strategy.partition
            case Create(_) => false
            case Evict(t) =>
              t in Old(c, s) && t >= c.app.strategy.partition && !Final(c, s) && forall o <- Old(c, s) :: o <= t
  {
    var job := JobAt(c, s);
    var n: nat := c.app.replicas;
    var i := FirstSick(job, s.fleet, 0);
    assert i < n ==> InService(c, s, i);
    assert Highest(s.fleet, n, c.bound) == -1;
    var t := HighestOutdated(job, s.fleet, n - 1);
    if t < 0 {
      AllUpdated(c, s);
    } else {
      assert OutdatedAt(job, s.fleet, t);
      assert forall o <- Old(c, s) | o > t :: !OutdatedAt(job, s.fleet, o);
    }
  }

  lemma AllUpdated(c: Config, s: State)
    requires AllHealthy(c, s) && HighestOutdated(JobAt(c, s), s.fleet, c.app.replicas - 1) == -1
    ensures Final(c, s) && forall o <- Old(c, s) :: o < c.app.strategy.partition
  {
    var job := JobAt(c, s);
    forall o | 0 <= o < c.app.replicas
      ensures o in s.fleet && Healthy(job, s.fleet[o])
      ensures o >= c.app.strategy.partition ==> RevisionOf(s.fleet[o]) == c.update.name
    {
      assert InService(c, s, o) && !OutdatedAt(job, s.fleet, o);
    }
  }

  /** The revision at which a pod comes back. */
  function RefillRevision(c: Config, s: State, t: int): Revision {
    if |Old(c, s) - {t}| < c.app.strategy.partition then s.current else c.update
  }

  /** All but one ordinal are healthy, and that one is missing. */
  ghost predicate OneMissing(c: Config, s: State, t: int) {
    && 0 <= t < c.app.replicas && t !in s.fleet
    && (forall o <- s.fleet :: 0 <= o < c.app.replicas)
    && (forall o | 0 <= o < c.app.replicas && o != t :: InService(c, s, o))
  }

  lemma RefillIsNext(c: Config, s: State, build: Builder, t: int)
    requires ByCount(c) && OneMissing(c, s, t)
    ensures
      && NextChange(JobAt(c, s), s.fleet, c.bound) == Create(t)
      && Changed(JobAt(c, s), s.fleet, build, Create(t))
      == s.fleet[t := build(RefillRevision(c, s, t), t).(phase := Pending)]
  {
    GapIsFirstSick(c, s, t);
    RefillIsSlotRevision(c, s, t);
  }

  lemma GapIsFirstSick(c: Config, s: State, t: int)
    requires OneMissing(c, s, t)
    ensures FirstSick(JobAt(c, s), s.fleet, 0) == t
  {
    var job, n := JobAt(c, s), c.app.replicas;
    var i := FirstSick(job, s.fleet, 0);
    assert !HealthyAt(job, s.fleet, t);
    assert i != t && i < n ==> InService(c, s, i);
  }

  lemma RefillIsSlotRevision(c: Config, s: State, t: int)
    requires ByCount(c) && t !in s.fleet
    ensures SlotRevision(JobAt(c, s), s.fleet, t) == RefillRevision(c, s, t)
  {
    OldCount(s.fleet, c.app.replicas, c.update.name);
    assert Old(c, s) - {t} == Old(c, s);
  }

  /** While only the missing pod is outdated, a reconcile may promote the update revision. */
  lemma CanPromote(c: Config, s: State, build: Builder, t: int) returns (s': State)
    requires ByCount(c) && Inv(c, s) && BuildsKept(c.app, build) && OneMissing(c, s, t) && Old(c, s) == {}
    ensures Syncs(c, s, ALL_WELL, build, s') && s'.current == c.update
  {
    var job := JobAt(c, s);
    var pods, replicas, surplus := SomeLayout(job, s.fleet, build);
    var acted := Act(job, replicas, surplus, ALL_WELL);
    s' := State(PerformAll(c.app, s.fleet, acted.commands, ALL_WELL), c.update, s.now);
    ReportedComplete(c, s, build, t, pods, replicas, surplus, acted.evicted);
    assert SyncsOver(c, s, ALL_WELL, build, s', pods, replicas, surplus);
  }

  lemma ReportedComplete(c: Config, s: State, build: Builder, t: int,
                         pods: seq<Pod>, replicas: seq<Pod>, surplus: seq<Pod>, evicted: bool)
    requires ByCount(c) && Inv(c, s) && BuildsKept(c.app, build) && OneMissing(c, s, t) && Old(c, s) == {}
    requires LaidOut(JobAt(c, s), s.fleet, pods, build, replicas, surplus)
    ensures ReplicaStatus.UpdateComplete(c.app.strategy, Report(JobAt(c, s), pods, replicas + surplus, evicted))
  {
    var job := JobAt(c, s);
    FleetReplicas(job, s.fleet, pods, build);
    BuiltIsUnstored(job, s.fleet, build, replicas);
    SurplusOfFleet(job, s.fleet, pods, build, replicas, surplus, c.bound);
    forall pod <- replicas + surplus | ReplicaStatus.IsStored(pod)
      ensures ReplicaStatus.CountsAsReady(pod) && !pod.terminating && RevisionOf(pod) == c.update.name
    {
      StoredIsInFleet(Identity.OrdinalOf, job, s.fleet, build, replicas, surplus, c.bound, pod);
      var o :| o in s.fleet && s.fleet[o] == pod;
      assert o != t && InService(c, s, o) && o !in Old(c, s);
    }
    CompleteReport(job, pods, replicas + surplus, evicted);
  }

  lemma StoredIsInFleet(ordinalOf: Pod -> int, job: Job, fleet: Fleet, build: Builder, replicas: seq<Pod>,
                        surplus: seq<Pod>,
                        bound: int, pod: Pod)
    requires ShowsReplicas(job, fleet, build, replicas) && HoldsFrom(ordinalOf, fleet, surplus, job.app.replicas, bound)
    requires forall i | 0 <= i < |replicas| && i !in fleet :: IsUnstored(job.app, i, replicas[i])
    requires pod in replicas + surplus && !pod.phase.Unset?
    ensures exists o <- fleet :: fleet[o] == pod
  {
    if pod in surplus {
      assert ordinalOf(pod) in fleet;
    } else {
      var i :| 0 <= i < |replicas| && replicas[i] == pod;
      assert i in fleet;
    }
  }

  /** A pod that was just created starts, becomes ready, and stays so for long enough. */
  lemma Recovers(c: Config, s: State, t: int) returns (s': State)
    requires t in s.fleet && s.fleet[t].phase.Pending? && !s.fleet[t].terminating && s.fleet[t].ready.Absent?
    ensures Leads(c, s, s') && s'.current == s.current && s'.now >= s.now
    ensures t in s'.fleet && s'.fleet == s.fleet[t := s'.fleet[t]] && RevisionOf(s'.fleet[t]) == RevisionOf(s.fleet[t])
    ensures InService(c, s', t)
  {
    var minReadySeconds := c.app.strategy.minReadySeconds;
    var started := s.(fleet := s.fleet[t := s.fleet[t].(phase := Running)]);
    var ready := started.(fleet := started.fleet[t := started.fleet[t].(ready := Since(s.now))]);
    s' := if minReadySeconds > 0 then ready.(now := s.now + minReadySeconds * SECOND) else ready;
    Runs.StayingLeads(StepsOf(c), s');
    if minReadySeconds > 0 {
      StepLeads(c, ready, Pass(s'.now), s', s');
    }
    StepLeads(c, started, BecomeReady(t), ready, s');
    StepLeads(c, s, Start(t), started, s');
  }

  /** A healthy pod is evicted and shuts down. */
  lemma SyncEvicts(c: Config, s: State, build: Builder, t: int) returns (mid: State)
    requires ByCount(c) && Inv(c, s) && BuildsKept(c.app, build)
    requires NextChange(JobAt(c, s), s.fleet, c.bound) == Evict(t) && t in s.fleet
    ensures Step(c, s, Reconcile(ALL_WELL, build), mid)
    ensures mid == s.(fleet := s.fleet[t := s.fleet[t].(terminating := true)])
  {
    KeptIsPlaced(c.app, s.fleet);
    mid := CanSync(c, s, ALL_WELL, build);
    SyncMakesNextChange(c, s, ALL_WELL, build, mid);
  }

  lemma Evicts(c: Config, s: State, build: Builder, t: int, s': State)
    requires ByCount(c) && Inv(c, s) && BuildsKept(c.app, build)
    requires NextChange(JobAt(c, s), s.fleet, c.bound) == Evict(t) && t in s.fleet
    requires Leads(c, s.(fleet := s.fleet - {t}), s')
    ensures Leads(c, s, s')
  {
    var mid := SyncEvicts(c, s, build, t);
    var gone := mid.(fleet := mid.fleet - {t});
    assert gone == s.(fleet := s.fleet - {t});
    StepLeads(c, mid, Vanish(t), gone, s');
    StepLeads(c, s, Reconcile(ALL_WELL, build), mid, s');
  }

  /**
   What a round comes to. The pod comes back outdated, or no longer so; and if it was the only outdated one,
   the update revision is promoted.
   */
  ghost predicate CameBack(c: Config, s: State, t: int, s': State) {
    && s'.current == (if Old(c, s) - {t} == {} then c.update else s.current)
    && Old(c, s') == if RefillRevision(c, s, t).name != c.update.name then Old(c, s) + {t} else Old(c, s) - {t}
  }

  /** A missing pod's slot is filled, and the App is healthy again. */
  lemma Refills(c: Config, s: State, build: Builder, t: int) returns (s': State)
    requires ByCount(c) && Inv(c, s) && BuildsKept(c.app, build) && OneMissing(c, s, t)
    ensures Leads(c, s, s') && Inv(c, s') && AllHealthy(c, s') && CameBack(c, s, t, s')
  {
    var filled := Fills(c, s, build, t);
    s' := Recovers(c, filled, t);
    HealthyAgain(c, s, filled, s', t);
    FillLeads(c, s, build, filled, s');
  }

  lemma FillLeads(c: Config, s: State, build: Builder, filled: State, s': State)
    requires ValidConfig(c) && Inv(c, s) && Step(c, s, Reconcile(ALL_WELL, build), filled) && Leads(c, filled, s')
    ensures Leads(c, s, s') && Inv(c, s')
  {
    StepLeads(c, s, Reconcile(ALL_WELL, build), filled, s');
    LeadsKeepsInv(c, s, s');
  }

  lemma Fills(c: Config, s: State, build: Builder, t: int) returns (s': State)
    requires ByCount(c) && Inv(c, s) && BuildsKept(c.app, build) && OneMissing(c, s, t)
    ensures Step(c, s, Reconcile(ALL_WELL, build), s')
    ensures IsFilled(c, s, s', t)
  {
    assert Old(c, s) - {t} == Old(c, s);
    if Old(c, s) == {} {
      s' := CanPromote(c, s, build, t);
    } else {
      KeptIsPlaced(c.app, s.fleet);
      s' := CanSync(c, s, ALL_WELL, build);
    }
    SyncMakesNextChange(c, s, ALL_WELL, build, s');
    RefillIsNext(c, s, build, t);
    NewPodFacts(c, build, RefillRevision(c, s, t), t);
  }

  predicate IsFilled(c: Config, s: State, s': State, t: int) {
    && s' == State(s'.fleet, if Old(c, s) - {t} == {} then c.update else s.current, s.now)
    && t in s'.fleet && s'.fleet == s.fleet[t := s'.fleet[t]]
    && var pod := s'.fleet[t];
       pod.phase.Pending? && !pod.terminating && pod.ready.Absent? && RevisionOf(pod) == RefillRevision(c, s, t).name
  }

  lemma HealthyAgain(c: Config, s: State, filled: State, s': State, t: int)
    requires OneMissing(c, s, t) && IsFilled(c, s, filled, t)
    requires s'.now >= filled.now && s'.current == filled.current
    requires t in s'.fleet && s'.fleet == filled.fleet[t := s'.fleet[t]]
    requires InService(c, s', t) && RevisionOf(s'.fleet[t]) == RevisionOf(filled.fleet[t])
    ensures AllHealthy(c, s') && CameBack(c, s, t, s')
  {
    forall o | 0 <= o < c.app.replicas ensures InService(c, s', o) {
      assert o != t ==> InService(c, s, o);
    }
    OldAfter(c, s, s', t, s'.fleet[t]);
  }

  lemma OldAfter(c: Config, s: State, s': State, t: int, pod: Pod)
    requires 0 <= t < c.app.replicas && s'.fleet == s.fleet[t := pod]
    ensures Old(c, s') == if RevisionOf(pod) != c.update.name then Old(c, s) + {t} else Old(c, s) - {t}
  {
    forall o ensures o in Old(c, s') <==> if o == t then RevisionOf(pod) != c.update.name else o in Old(c, s) {
    }
  }

  lemma LeadsKeepsInv(c: Config, s: State, s': State)
    requires ValidConfig(c) && Inv(c, s) && Leads(c, s, s')
    ensures Inv(c, s')
  {
    var states, events := LeadingRun(c, s, s');
    RunKeepsInv(c, states, events);
  }

  /** One whole round. */
  lemma Round(c: Config, s: State, t: int) returns (s': State)
    requires ByCount(c) && Inv(c, s) && AllHealthy(c, s)
    requires NextChange(JobAt(c, s), s.fleet, c.bound) == Evict(t)
    ensures Leads(c, s, s') && Inv(c, s') && AllHealthy(c, s') && CameBack(c, s, t, s')
  {
    assert t in s.fleet by {
      NextAmongHealthy(c, s);
    }
    var build := SomeBuilder(c.app);
    var gone := s.(fleet := s.fleet - {t});
    WithoutOne(c, s, t);
    s' := Refills(c, gone, build, t);
    Evicts(c, s, build, t, s');
    SameCameBack(c, s, gone, t, s');
  }

  lemma SameCameBack(c: Config, s: State, gone: State, t: int, s': State)
    requires Old(c, gone) == Old(c, s) - {t} && gone.current == s.current
    requires RefillRevision(c, gone, t) == RefillRevision(c, s, t) && CameBack(c, gone, t, s')
    ensures CameBack(c, s, t, s')
  {
    assert Old(c, gone) - {t} == Old(c, s) - {t};
    assert Old(c, gone) + {t} == Old(c, s) + {t};
  }

  lemma WithoutOne(c: Config, s: State, t: int)
    requires AllHealthy(c, s) && t in s.fleet
    ensures
      var gone := s.(fleet := s.fleet - {t});
      && OneMissing(c, gone, t)
      && Old(c, gone) == Old(c, s) - {t} && RefillRevision(c, gone, t) == RefillRevision(c, s, t)
      && (Inv(c, s) ==> Inv(c, gone))
  {
    var gone := s.(fleet := s.fleet - {t});
    forall o | 0 <= o < c.app.replicas && o != t ensures InService(c, gone, o) {
      assert InService(c, s, o);
    }
    assert Old(c, gone) == Old(c, s) - {t} == Old(c, gone) - {t};
  }

  // ---- updates that can end ----

  /** From a healthy App whose update can end, rounds lead to the end. */
  lemma {:induction false} CanEndEnds(c: Config, s: State) returns (s': State)
    requires ByCount(c) && Inv(c, s) && AllHealthy(c, s) && CanEnd(c, s)
    ensures Leads(c, s, s') && Final(c, s')
    decreases if s.current.name == c.update.name then 0 else 1, |Old(c, s)|
  {
    NextAmongHealthy(c, s);
    match NextChange(JobAt(c, s), s.fleet, c.bound) {
      case Stay =>
        s' := s;
        Runs.StayingLeads(StepsOf(c), s);
      case Evict(t) =>
        var next := Round(c, s, t);
        RoundGoesOn(c, s, t, next);
        s' := CanEndEnds(c, next);
        Runs.LeadsOn(StepsOf(c), s, next, s');
    }
  }

  lemma RoundGoesOn(c: Config, s: State, t: int, s': State)
    requires CanEnd(c, s) && t in Old(c, s) && t >= c.app.strategy.partition
    requires CameBack(c, s, t, s')
    ensures CanEnd(c, s')
    ensures s'.current.name == c.update.name || s.current.name != c.update.name
    ensures (s.current.name == c.update.name <==> s'.current.name == c.update.name) ==> |Old(c, s')| < |Old(c, s)|
  {
    var stale, p := Old(c, s), c.app.strategy.partition;
    assert |stale - {t}| == |stale| - 1 && stale + {t} == stale;
    if |stale| == 1 {
      OnlyElement(stale, t);
    } else if s.current.name != c.update.name {
      if |stale| <= p {
        AllOfRange(stale, p, t);
      }
    }
  }

  lemma OnlyElement(items: set<int>, item: int)
    requires item in items && |items| == 1
    ensures items == {item}
  {
    assert |items - {item}| == 0;
  }

  /** A set that holds all numbers below p, and another one, has more than p elements. */
  lemma AllOfRange(items: set<int>, p: nat, other: int)
    requires other in items && other >= p
    ensures (forall o | 0 <= o < p :: o in items) ==> |items| > p
  {
    if forall o | 0 <= o < p :: o in items {
      assert Range(p) + {other} <= items;
      SubsetSize(Range(p) + {other}, items);
    }
  }

  function Range(p: nat): (range: set<int>)
    ensures |range| == p && forall o :: o in range <==> 0 <= o < p
  {
    if p == 0 then {} else Range(p - 1) + {p - 1}
  }

  lemma SubsetSize(part: set<int>, whole: set<int>)
    requires part <= whole
    ensures |part| <= |whole|
  {
    assert whole == part + (whole - part);
  }

  // ---- updates that cannot end ----

  /** Too many outdated pods to be promoted, one of them too high, and too few of the lowest ordinals. */
  ghost predicate IsBad(stale: set<int>, p: nat) {
    p >= 2 && |stale| >= 2 && (exists o | 0 <= o < p :: o !in stale) && (exists o <- stale :: o >= p)
  }

  /** The outdated pods, together with the one that will come back at d. */
  ghost predicate Marks(c: Config, s: State, d: int, stale: set<int>) {
    stale - {d} == Old(c, s) - {d} && (d in stale <==> d < c.app.replicas && ComesBackOld(c, s, d))
  }

  /** What holds throughout. */
  ghost predicate Held(c: Config, s: State, d: int, stale: set<int>) {
    && s.current.name != c.update.name
    && Calm(c, s, d) && Marks(c, s, d, stale) && IsBad(stale, c.app.strategy.partition)
  }

  predicate ComesBackOld(c: Config, s: State, d: int) {
    if d in s.fleet && !s.fleet[d].terminating then d in Old(c, s) else |Old(c, s) - {d}| < c.app.strategy.partition
  }

  ghost predicate Endless(c: Config, s: State) {
    exists d, stale :: Held(c, s, d, stale)
  }

  /** Two of a set: one that is not a given element. */
  lemma AnotherOne(items: set<int>, d: int) returns (o: int)
    requires |items| >= 2
    ensures o in items && o != d
  {
    SubsetSize(items, items - {d} + {d});
    o := Listing.AnyOf(items - {d});
  }

  lemma NotPromoted(c: Config, s: State, w: World, build: Builder, s': State, d: int, stale: set<int>)
    requires ByCount(c) && Inv(c, s) && Held(c, s, d, stale) && Syncs(c, s, w, build, s')
    ensures s'.current == s.current
  {
    var job := JobAt(c, s);
    var pods, replicas, surplus :| SyncsOver(c, s, w, build, s', pods, replicas, surplus);
    var o := AnotherOne(stale, d);
    assert o in stale - {d} && o in Old(c, s) && InService(c, s, o);
    FleetReplicas(job, s.fleet, pods, build);
    var pod := s.fleet[o];
    assert replicas[o] == pod && pod in replicas + surplus;
    CompleteReport(job, pods, replicas + surplus, Act(job, replicas, surplus, w).evicted);
    assert ReplicaStatus.IsStored(pod) && RevisionOf(pod) != c.update.name;
  }

  lemma MarksCreate(c: Config, s: State, s': State, d: int, stale: set<int>, pod: Pod)
    requires Marks(c, s, d, stale) && 0 <= d < c.app.replicas && d !in s.fleet
    requires s' == s.(fleet := s.fleet[d := pod]) && !pod.terminating
    requires s.current.name != c.update.name && RevisionOf(pod) == RefillRevision(c, s, d).name
    ensures Marks(c, s', d, stale)
  {
    SameBelowAndAbove(c, s, s', d);
    assert d in Old(c, s') <==> RevisionOf(pod) != c.update.name;
    assert ComesBackOld(c, s', d) <==> ComesBackOld(c, s, d);
  }

  lemma SameBelowAndAbove(c: Config, s: State, s': State, d: int)
    requires forall o | o != d :: (o in s'.fleet <==> o in s.fleet) && (o in s.fleet ==> s'.fleet[o] == s.fleet[o])
    ensures Old(c, s') - {d} == Old(c, s) - {d}
  {
    assert forall o | o != d :: o in Old(c, s') <==> o in Old(c, s);
  }

  /** When a healthy outdated pod goes, either the same pods are marked after, or one less. */
  lemma MarksEvict(c: Config, s: State, s': State, t: int) returns (stale': set<int>)
    requires t in s.fleet && t in Old(c, s) && t >= c.app.strategy.partition
    requires IsBad(Old(c, s), c.app.strategy.partition)
    requires s' == s.(fleet := s.fleet[t := s.fleet[t].(terminating := true)])
    ensures Marks(c, s', t, stale') && IsBad(stale', c.app.strategy.partition)
  {
    var p, stale := c.app.strategy.partition, Old(c, s);
    assert Old(c, s') == stale;
    stale' := if |stale - {t}| < p then stale else stale - {t};
    assert stale' - {t} == stale - {t};
    var low :| 0 <= low < p && low !in stale;
    if |stale - {t}| >= p {
      TooFewBelow(stale', p, low);
    }
    assert low !in stale';
  }

  /** With all pods healthy it is just the outdated ones that are marked. */
  lemma HealthyMarks(c: Config, s: State, d: int, stale: set<int>)
    requires Calm(c, s, d) && Marks(c, s, d, stale) && forall o | 0 <= o < c.app.replicas :: InService(c, s, o)
    ensures stale == Old(c, s)
  {
    assert d < c.app.replicas ==> InService(c, s, d);
    assert d in stale <==> d in Old(c, s);
    SameBut(stale, Old(c, s), d);
  }

  lemma SameBut(a: set<int>, b: set<int>, d: int)
    requires a - {d} == b - {d} && (d in a <==> d in b)
    ensures a == b
  {
    forall o ensures o in a <==> o in b {
      assert o != d ==> (o in a <==> o in a - {d}) && (o in b <==> o in b - {d});
    }
  }

  /** At least p numbers, and not all those below p, include one from p on. */
  lemma TooFewBelow(items: set<int>, p: nat, missing: int)
    requires |items| >= p && 0 <= missing < p && missing !in items && forall o <- items :: o >= 0
    ensures exists o <- items :: o >= p
  {
    if forall o <- items :: o < p {
      assert items <= Range(p) - {missing};
      SubsetSize(items, Range(p) - {missing});
    }
  }

  lemma HeldSync(c: Config, s: State, w: World, build: Builder, s': State, d: int, stale: set<int>)
    requires ByCount(c) && Inv(c, s) && BuildsKept(c.app, build) && Syncs(c, s, w, build, s') && Held(c, s, d, stale)
    ensures Endless(c, s')
  {
    var job := JobAt(c, s);
    NotPromoted(c, s, w, build, s', d, stale);
    SyncMakesNextChange(c, s, w, build, s');
    if s'.fleet == s.fleet {
      assert s' == s;
    } else {
      match NextChange(job, s.fleet, c.bound) {
        case Create(i) => HeldCreate(c, s, build, s', d, stale, i);
        case Evict(t) => HeldEvict(c, s, s', d, stale, t);
      }
    }
  }

  lemma HeldCreate(c: Config, s: State, build: Builder, s': State, d: int, stale: set<int>, i: int)
    requires ByCount(c) && BuildsKept(c.app, build) && Held(c, s, d, stale)
    requires NextChange(JobAt(c, s), s.fleet, c.bound) == Create(i)
    requires s' == s.(fleet := Changed(JobAt(c, s), s.fleet, build, Create(i)))
    ensures Endless(c, s')
  {
    assert i != d ==> InService(c, s, i);
    RefillIsNext(c, s, build, d);
    var revision := RefillRevision(c, s, d);
    var pod := build(revision, d).(phase := Pending);
    NewPodFacts(c, build, revision, d);
    CalmCreate(c, s, s', d, pod);
    MarksCreate(c, s, s', d, stale, pod);
    assert Held(c, s', d, stale);
  }

  lemma HeldEvict(c: Config, s: State, s': State, d: int, stale: set<int>, t: int)
    requires Held(c, s, d, stale) && NextChange(JobAt(c, s), s.fleet, c.bound) == Evict(t)
    requires s' == s.(fleet := s.fleet[t := s.fleet[t].(terminating := true)])
    ensures Endless(c, s')
  {
    var job := JobAt(c, s);
    EvictedIsLive(job, s.fleet, c.bound, t);
    assert t != d ==> InService(c, s, t);
    forall o | 0 <= o < c.app.replicas ensures InService(c, s, o) {
      assert HealthyAt(job, s.fleet, o);
    }
    HealthyMarks(c, s, d, stale);
    CalmEvict(c, s, s', d, t);
    var stale' := MarksEvict(c, s, s', t);
    assert Held(c, s', t, stale');
  }

  lemma HeldStep(c: Config, s: State, e: Event, s': State)
    requires ByCount(c) && Inv(c, s) && Step(c, s, e, s') && Endless(c, s)
    ensures Endless(c, s')
  {
    var d, stale :| Held(c, s, d, stale);
    if e.Reconcile? {
      HeldSync(c, s, e.w, e.build, s', d, stale);
    } else {
      HeldPodStep(c, s, e, s', d, stale);
    }
  }

  lemma HeldPodStep(c: Config, s: State, e: Event, s': State, d: int, stale: set<int>)
    requires Step(c, s, e, s') && !e.Reconcile? && Held(c, s, d, stale)
    ensures Held(c, s', d, stale)
  {
    CalmPodStep(c, s, e, s', d);
    MarksPodStep(c, s, e, s', d, stale);
  }

  lemma MarksPodStep(c: Config, s: State, e: Event, s': State, d: int, stale: set<int>)
    requires Step(c, s, e, s') && !e.Reconcile? && (!e.Pass? ==> e.o == d)
    requires Marks(c, s, d, stale)
    ensures Marks(c, s', d, stale)
  {
    assert forall o | o != d :: o in s'.fleet <==> o in s.fleet;
    MarksStay(c, s, s', d, stale);
  }

  /** Only labels, and what is missing or shutting down, matter to the marks. */
  lemma MarksStay(c: Config, s: State, s': State, d: int, stale: set<int>)
    requires s'.current == s.current
    requires forall o | o != d :: (o in s'.fleet <==> o in s.fleet) && (o in s.fleet ==> s'.fleet[o] == s.fleet[o])
    requires d in s'.fleet ==>
               && d in s.fleet && RevisionOf(s'.fleet[d]) == RevisionOf(s.fleet[d])
               && s'.fleet[d].terminating == s.fleet[d].terminating
    requires d in s.fleet && d !in s'.fleet ==> s.fleet[d].terminating
    requires Marks(c, s, d, stale)
    ensures Marks(c, s', d, stale)
  {
    SameBelowAndAbove(c, s, s', d);
    assert d in s'.fleet ==> (d in Old(c, s') <==> d in Old(c, s));
  }

  lemma {:induction false} EndlessRun(c: Config, states: seq<State>, events: seq<Event>)
    requires ByCount(c) && IsRun(c, states, events) && Inv(c, states[0]) && Endless(c, states[0])
    ensures Inv(c, states[|events|]) && Endless(c, states[|events|])
  {
    if events != [] {
      var last := |events| - 1;
      EndlessRun(c, states[..|states| - 1], events[..last]);
      StepKeepsInv(c, states[last], events[last], states[last + 1]);
      HeldStep(c, states[last], events[last], states[last + 1]);
    }
  }

  lemma EndlessIsNotFinal(c: Config, s: State)
    requires ByCount(c) && Endless(c, s)
    ensures !Final(c, s)
  {
    var d, stale :| Held(c, s, d, stale);
    if Final(c, s) {
      FinalHasNone(c, s, d, stale);
    }
  }

  lemma FinalHasNone(c: Config, s: State, d: int, stale: set<int>)
    requires Rolling(c) && Final(c, s) && Calm(c, s, d) && Marks(c, s, d, stale)
    ensures forall o <- stale :: o < c.app.strategy.partition
  {
    forall o | 0 <= o < c.app.replicas ensures InService(c, s, o) {
      assert o in s.fleet && Healthy(JobAt(c, s), s.fleet[o]);
    }
    HealthyMarks(c, s, d, stale);
  }

  // ---- exactly which updates can end ----

  /** An unordered update of a healthy App can end if and only if CanEnd says so; otherwise it never does. */
  lemma UnorderedCondition(c: Config, s: State)
    requires ByCount(c) && Inv(c, s) && AllHealthy(c, s)
    ensures CanEnd(c, s) <==> exists states, events :: ReachesFinal(c, s, states, events)
  {
    if CanEnd(c, s) {
      var s' := CanEndEnds(c, s);
      var states, events := LeadingRun(c, s, s');
      assert ReachesFinal(c, s, states, events);
    } else {
      assert Held(c, s, c.app.replicas, Old(c, s)) by {
        assert c.app.replicas !in s.fleet && c.app.replicas !in Old(c, s);
      }
      forall states, events | IsRun(c, states, events) && states[0] == s ensures !Final(c, states[|events|]) {
        EndlessRun(c, states, events);
        EndlessIsNotFinal(c, states[|events|]);
      }
    }
  }

  /** A healthy App whose update never ends: of three pods the upper two are outdated, and two are to stay so. */
  lemma EndlessExample(c: Config, current: Revision) returns (s: State)
    requires ByCount(c) && c.app.replicas == 3 && c.app.strategy.partition == 2
    requires current.name != c.update.name && c.app.strategy.minReadySeconds == 0
    ensures Inv(c, s) && AllHealthy(c, s) && Old(c, s) == {1, 2} && !CanEnd(c, s)
  {
    var build := SomeBuilder(c.app);
    var pod0 := ReadyPod(c, build, c.update, 0);
    var pod1 := ReadyPod(c, build, current, 1);
    var pod2 := ReadyPod(c, build, current, 2);
    s := State(map[0 := pod0, 1 := pod1, 2 := pod2], current, 0);
    ThreeAreHealthy(c, s);
    ThreePods(c, s);
  }

  lemma ThreeAreHealthy(c: Config, s: State)
    requires ValidConfig(c) && c.app.replicas == 3 && c.app.strategy.minReadySeconds == 0
    requires s.fleet.Keys == {0, 1, 2} && forall o <- s.fleet :: IsReadyAt(c, o, s.fleet[o])
    ensures Inv(c, s) && AllHealthy(c, s)
  {
    KeysOfThree(s.fleet);
    forall o | 0 <= o < 3
      ensures IsKept(c.app, o, s.fleet[o]) && InService(c, s, o) && s.fleet[o].inPlace.NoMark?
    {
      ReadyIsHealthy(c, s, o);
    }
  }

  lemma KeysOfThree(fleet: Fleet)
    requires fleet.Keys == {0, 1, 2}
    ensures forall o :: o in fleet <==> 0 <= o < 3
  {
    forall o ensures o in fleet <==> 0 <= o < 3 {
      assert o in fleet <==> o in fleet.Keys;
    }
  }

  lemma ReadyIsHealthy(c: Config, s: State, o: int)
    requires c.app.strategy.minReadySeconds == 0 && o in s.fleet && IsReadyAt(c, o, s.fleet[o])
    ensures IsKept(c.app, o, s.fleet[o]) && InService(c, s, o) && s.fleet[o].inPlace.NoMark?
  {}

  ghost predicate IsReadyAt(c: Config, o: int, pod: Pod) {
    IsKept(c.app, o, pod) && pod.phase.Running? && IsReady(pod) && !pod.terminating && pod.inPlace.NoMark?
  }

  lemma ThreePods(c: Config, s: State)
    requires c.app.replicas == 3 && c.app.strategy.partition == 2 && s.current.name != c.update.name
    requires s.fleet.Keys == {0, 1, 2} && RevisionOf(s.fleet[0]) == c.update.name
    requires RevisionOf(s.fleet[1]) == s.current.name == RevisionOf(s.fleet[2])
    ensures Old(c, s) == {1, 2} && !CanEnd(c, s)
  {
    assert Old(c, s) == {1, 2};
    assert 0 !in Old(c, s) && 2 in Old(c, s);
    assert |Old(c, s)| == |{1, 2}| == 2;
  }

  lemma ReadyPod(c: Config, build: Builder, revision: Revision, i: nat) returns (pod: Pod)
    requires BuildsKept(c.app, build) && i < MAX_INT32
    ensures IsReadyAt(c, i, pod) && RevisionOf(pod) == revision.name
  {
    assert IsNew(c.app, revision, i, build(revision, i));
    var built := build(revision, i).(phase := Pending);
    pod := built.(phase := Running, ready := Since(0));
    KeptWhatever(c.app, i, built, Running, Since(0), built.terminating);
  }
}
