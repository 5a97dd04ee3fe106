/**
 An update of an ordered App takes its pods out of service one at a time; if the partition is an ordinal, from the
 top down.
 */
module Disruption {
  import opened Text
  import opened Kube
  import opened Slots
  import opened Sync
  import opened Discipline
  import opened Fleet
  import opened Rollout

  predicate InService(c: Config, s: State, o: int) {
    o in s.fleet && IsHealthy(s.fleet[o], c.app.strategy.minReadySeconds, s.now)
  }

  predicate IsUpdated(c: Config, s: State, o: int) {
    o in s.fleet && RevisionOf(s.fleet[o]) == c.update.name
  }

  /** The App as it is before the update: a healthy pod in every slot, and no surplus. */
  ghost predicate AllHealthy(c: Config, s: State) {
    && (forall o <- s.fleet :: 0 <= o < c.app.replicas)
    && (forall o | 0 <= o < c.app.replicas :: InService(c, s, o))
  }

  // ---- one at a time, whatever the partition means ----

  /** At most the pod with ordinal d is out of service, and it has not ended. */
  ghost predicate Calm(c: Config, s: State, d: int) {
    && 0 <= d <= c.app.replicas
    && (forall o <- s.fleet :: 0 <= o < c.app.replicas)
    && (forall o | 0 <= o < c.app.replicas && o != d :: InService(c, s, o))
    && (d in s.fleet && !s.fleet[d].terminating ==> !IsTerminal(s.fleet[d]))
  }

  lemma CalmCreate(c: Config, s: State, s': State, d: int, pod: Pod)
    requires Calm(c, s, d) && d < c.app.replicas
    requires s'.now == s.now && s'.fleet == s.fleet[d := pod] && pod.phase.Pending?
    ensures Calm(c, s', d)
  {
    forall o | 0 <= o < c.app.replicas && o != d ensures InService(c, s', o) {
      assert InService(c, s, o);
    }
  }

  lemma CalmEvict(c: Config, s: State, s': State, d: int, t: int)
    requires Calm(c, s, d) && t in s.fleet
    requires forall o | 0 <= o < c.app.replicas :: InService(c, s, o)
    requires s'.now == s.now && s'.fleet == s.fleet[t := s.fleet[t].(terminating := true)]
    ensures Calm(c, s', t)
  {
    forall o | 0 <= o < c.app.replicas && o != t ensures InService(c, s', o) {
      assert InService(c, s, o);
    }
  }

  lemma CalmPodStep(c: Config, s: State, e: Event, s': State, d: int)
    requires Step(c, s, e, s') && !e.Reconcile? && Calm(c, s, d)
    ensures Calm(c, s', d)
    ensures !e.Pass? ==> e.o == d
  {
    assert !e.Pass? && e.o != d ==> InService(c, s, e.o);
    forall o | 0 <= o < c.app.replicas && o != d ensures InService(c, s', o) {
      assert InService(c, s, o);
    }
  }

  /** And no pod below the partition has been touched. */
  ghost predicate Quiet(c: Config, start: State, s: State, d: int) {
    && Calm(c, s, d) && (d < c.app.replicas ==> d >= c.app.strategy.partition)
    && (forall o | 0 <= o < c.app.replicas && o < c.app.strategy.partition :: IsSame(start, s, o))
  }

  predicate IsSame(start: State, s: State, o: int) {
    o in start.fleet && o in s.fleet && s.fleet[o] == start.fleet[o]
  }

  lemma QuietSync(c: Config, start: State, s: State, w: World, build: Builder, s': State, d: int) returns (d': int)
    requires ValidConfig(c) && Inv(c, s) && BuildsKept(c.app, build) && Syncs(c, s, w, build, s')
    requires Quiet(c, start, s, d)
    ensures Quiet(c, start, s', d')
  {
    var job := JobAt(c, s);
    SyncMakesNextChange(c, s, w, build, s');
    d' := d;
    if s'.fleet == s.fleet {
      QuietStays(c, start, s, s', d);
    } else {
      match NextChange(job, s.fleet, c.bound) {
        case Create(i) => QuietCreate(c, start, s, build, s', d, i);
        case Evict(t) =>
          d' := t;
          QuietEvict(c, start, s, s', d, t);
      }
    }
  }

  lemma QuietStays(c: Config, start: State, s: State, s': State, d: int)
    requires Quiet(c, start, s, d) && s'.fleet == s.fleet && s'.now == s.now
    ensures Quiet(c, start, s', d)
  {
    SameFleetCalm(c, s, s', d);
    SameBelow(c, start, s, s');
  }

  lemma QuietCreate(c: Config, start: State, s: State, build: Builder, s': State, d: int, i: int)
    requires Quiet(c, start, s, d) && NextChange(JobAt(c, s), s.fleet, c.bound) == Create(i)
    requires s'.now == s.now && s'.fleet == Changed(JobAt(c, s), s.fleet, build, Create(i))
    ensures Quiet(c, start, s', d)
  {
    assert i != d ==> InService(c, s, i);
    var pod := build(SlotRevision(JobAt(c, s), s.fleet, d), d).(phase := Pending);
    CalmCreate(c, s, s', d, pod);
    SameBelow(c, start, s, s');
  }

  /** Pods below the partition stay those of the start if the step leaves them alone. */
  lemma SameBelow(c: Config, start: State, s: State, s': State)
    requires forall o | 0 <= o < c.app.replicas && o < c.app.strategy.partition :: IsSame(start, s, o)
    requires forall o | o < c.app.strategy.partition && o in s.fleet :: o in s'.fleet && s'.fleet[o] == s.fleet[o]
    ensures forall o | 0 <= o < c.app.replicas && o < c.app.strategy.partition :: IsSame(start, s', o)
  {
    forall o | 0 <= o < c.app.replicas && o < c.app.strategy.partition ensures IsSame(start, s', o) {
      assert IsSame(start, s, o);
    }
  }

  lemma SameFleetCalm(c: Config, s: State, s': State, d: int)
    requires Calm(c, s, d) && s'.fleet == s.fleet && s'.now == s.now
    ensures Calm(c, s', d)
  {
    forall o | 0 <= o < c.app.replicas && o != d ensures InService(c, s', o) {
      assert InService(c, s, o);
    }
  }

  lemma QuietEvict(c: Config, start: State, s: State, s': State, d: int, t: int)
    requires Quiet(c, start, s, d) && NextChange(JobAt(c, s), s.fleet, c.bound) == Evict(t)
    requires s'.now == s.now && s'.fleet == s.fleet[t := s.fleet[t].(terminating := true)]
    ensures Quiet(c, start, s', t)
  {
    var job := JobAt(c, s);
    EvictedIsLive(job, s.fleet, c.bound, t);
    assert t != d ==> InService(c, s, t);
    forall o | 0 <= o < c.app.replicas ensures InService(c, s, o) {
      assert HealthyAt(job, s.fleet, o);
    }
    CalmEvict(c, s, s', d, t);
    SameBelow(c, start, s, s');
  }

  /**
   At every point of a run that starts from an App with all its pods healthy, whatever requests fail and whether
   the partition is an ordinal or a number of pods, at most one ordinal is out of service, and no pod below the
   partition has been touched.
   */
  lemma {:induction false} OneAtATime(c: Config, states: seq<State>, events: seq<Event>) returns (d: int)
    requires ValidConfig(c) && IsRun(c, states, events) && Inv(c, states[0]) && AllHealthy(c, states[0])
    ensures Inv(c, states[|events|]) && Quiet(c, states[0], states[|events|], d)
  {
    if events == [] {
      d := c.app.replicas;
      forall o | 0 <= o < c.app.replicas ensures InService(c, states[0], o) && IsSame(states[0], states[0], o) {
        assert InService(c, states[0], o);
      }
    } else {
      var last := |events| - 1;
      d := OneAtATime(c, states[..|states| - 1], events[..last]);
      assert StepsOf(c)(states[last], events[last], states[last + 1]);
      StepKeepsInv(c, states[last], events[last], states[last + 1]);
      if events[last].Reconcile? {
        d := QuietSync(c, states[0], states[last], events[last].w, events[last].build, states[last + 1], d);
      } else {
        QuietPodStep(c, states[0], states[last], events[last], states[last + 1], d);
      }
    }
  }

  lemma QuietPodStep(c: Config, start: State, s: State, e: Event, s': State, d: int)
    requires Step(c, s, e, s') && !e.Reconcile? && Quiet(c, start, s, d)
    ensures Quiet(c, start, s', d)
  {
    CalmPodStep(c, s, e, s', d);
    SameBelow(c, start, s, s');
  }

  /** In particular: of any two ordinals one is in service, and pods below the partition are those of the start. */
  lemma QuietMeans(c: Config, start: State, s: State, d: int, i: int, j: int)
    requires Quiet(c, start, s, d) && 0 <= i < c.app.replicas && 0 <= j < c.app.replicas
    ensures !InService(c, s, i) && !InService(c, s, j) ==> i == j
    ensures i < c.app.strategy.partition ==> InService(c, s, i) && IsSame(start, s, i)
  {}

  // ---- from the top down, if the partition is an ordinal ----

  /** What holds of an ordinal once the update has come down to d: only d may be out of service. */
  predicate RightAt(c: Config, start: State, s: State, d: int, o: int) {
    if o > d then InService(c, s, o) && IsUpdated(c, s, o)
    else if o < d then InService(c, s, o) && o in start.fleet && s.fleet[o] == start.fleet[o]
    else o in s.fleet && !s.fleet[o].terminating ==> !IsTerminal(s.fleet[o]) && RevisionOf(s.fleet[o]) == c.update.name
  }

  ghost predicate Reached(c: Config, start: State, s: State, d: int) {
    && 0 <= d <= c.app.replicas
    && (d < c.app.replicas ==> d >= c.app.strategy.partition)
    && (forall o <- s.fleet :: 0 <= o < c.app.replicas)
    && (forall o | 0 <= o < c.app.replicas :: RightAt(c, start, s, d, o))
  }

  /** With one ordinal at most out of service, the next change can only fill or renew that ordinal or go below it. */
  lemma NextChangeWhileUpdating(c: Config, start: State, s: State, d: int)
    requires Reached(c, start, s, d) && c.app.replicas <= c.bound
    ensures match NextChange(JobAt(c, s), s.fleet, c.bound)
            case Stay => true
            case Create(i) => i == d < c.app.replicas
            case Evict(o) =>
              && 0 <= o < c.app.replicas && c.app.strategy.partition <= o <= d
              && (forall k | 0 <= k < c.app.replicas :: InService(c, s, k))
              && (forall k | o < k < c.app.replicas :: IsUpdated(c, s, k))
  {
    var job, n := JobAt(c, s), c.app.replicas;
    assert Highest(s.fleet, n, c.bound) == -1;
    var i := FirstSick(job, s.fleet, 0);
    assert i < n ==> RightAt(c, start, s, d, i);
    match NextChange(job, s.fleet, c.bound) {
      case Evict(o) =>
        EvictedIsLive(job, s.fleet, c.bound, o);
        assert 0 <= o < n && RightAt(c, start, s, d, o);
        forall k | 0 <= k < n
          ensures InService(c, s, k) && (k > o ==> IsUpdated(c, s, k))
        {
          assert HealthyAt(job, s.fleet, k);
          assert RightAt(c, start, s, d, k);
          assert k > o ==> !OutdatedAt(job, s.fleet, k);
        }
      case _ =>
    }
  }

  lemma SyncReaches(c: Config, start: State, s: State, w: World, build: Builder, s': State, d: int) returns (d': int)
    requires ValidConfig(c) && !c.app.strategy.unordered && Inv(c, s) && BuildsKept(c.app, build)
    requires Syncs(c, s, w, build, s') && Reached(c, start, s, d)
    ensures Reached(c, start, s', d') && d' <= d
  {
    var job := JobAt(c, s);
    SyncMakesNextChange(c, s, w, build, s');
    d' := d;
    if s'.fleet == s.fleet {
      SameFleetReaches(c, start, s, s', d);
    } else {
      NextChangeWhileUpdating(c, start, s, d);
      match NextChange(job, s.fleet, c.bound) {
        case Create(i) =>
          var revision := SlotRevision(job, s.fleet, i);
          NewPodFacts(c, build, revision, i);
          CreateReaches(c, start, s, s', d, build(revision, i).(phase := Pending));
        case Evict(o) =>
          d' := o;
          EvictReaches(c, start, s, s', d, o);
      }
    }
  }

  lemma SameFleetReaches(c: Config, start: State, s: State, s': State, d: int)
    requires Reached(c, start, s, d) && s'.fleet == s.fleet && s'.now == s.now
    ensures Reached(c, start, s', d)
  {
    forall o | 0 <= o < c.app.replicas ensures RightAt(c, start, s', d, o) {
      assert RightAt(c, start, s, d, o);
    }
  }

  lemma CreateReaches(c: Config, start: State, s: State, s': State, d: int, pod: Pod)
    requires Reached(c, start, s, d) && s'.now == s.now && 0 <= d < c.app.replicas
    requires s'.fleet == s.fleet[d := pod] && pod.phase.Pending? && RevisionOf(pod) == c.update.name
    ensures Reached(c, start, s', d)
  {
    forall o | 0 <= o < c.app.replicas ensures RightAt(c, start, s', d, o) {
      assert RightAt(c, start, s, d, o);
    }
  }

  lemma EvictReaches(c: Config, start: State, s: State, s': State, d: int, d': int)
    requires Reached(c, start, s, d) && s'.now == s.now && 0 <= d' < c.app.replicas && d' in s.fleet
    requires c.app.strategy.partition <= d' <= d
    requires s'.fleet == s.fleet[d' := s.fleet[d'].(terminating := true)]
    requires forall k | 0 <= k < c.app.replicas :: InService(c, s, k)
    requires forall k | d' < k < c.app.replicas :: IsUpdated(c, s, k)
    ensures Reached(c, start, s', d')
  {
    forall o | 0 <= o < c.app.replicas ensures RightAt(c, start, s', d', o) {
      assert RightAt(c, start, s, d, o) && InService(c, s, o);
      assert o > d' ==> IsUpdated(c, s, o);
    }
  }

  /** Pods that start up or shut down by themselves are only ever at d, and time does not make a pod less healthy. */
  lemma PodStepReaches(c: Config, start: State, s: State, e: Event, s': State, d: int)
    requires Step(c, s, e, s') && !e.Reconcile? && Reached(c, start, s, d)
    ensures Reached(c, start, s', d)
  {
    forall o | 0 <= o < c.app.replicas ensures RightAt(c, start, s', d, o) {
      assert RightAt(c, start, s, d, o);
    }
  }

  /** What a state with the update at d means for service. */
  ghost predicate OneDisruption(c: Config, start: State, s: State) {
    exists d | 0 <= d <= c.app.replicas :: Reached(c, start, s, d)
  }

  /**
   At every point of a run that starts from an App with all its pods healthy, whatever requests fail,
   at most one ordinal is out of service, and the update has not skipped any ordinal above it.
   */
  lemma {:induction false} UpdateDisruptsOneAtATime(c: Config, states: seq<State>, events: seq<Event>)
    requires ValidConfig(c) && !c.app.strategy.unordered
    requires IsRun(c, states, events) && Inv(c, states[0]) && AllHealthy(c, states[0])
    ensures Inv(c, states[|events|]) && OneDisruption(c, states[0], states[|events|])
  {
    if events == [] {
      var s := states[0];
      forall o | 0 <= o < c.app.replicas ensures RightAt(c, s, s, c.app.replicas, o) {
        assert InService(c, s, o);
      }
      assert Reached(c, s, s, c.app.replicas);
    } else {
      var last := |events| - 1;
      UpdateDisruptsOneAtATime(c, states[..|states| - 1], events[..last]);
      StepKeepsInv(c, states[last], events[last], states[last + 1]);
      var d :| 0 <= d <= c.app.replicas && Reached(c, states[0], states[last], d);
      if events[last].Reconcile? {
        var d' := SyncReaches(c, states[0], states[last], events[last].w, events[last].build, states[last + 1], d);
      } else {
        PodStepReaches(c, states[0], states[last], events[last], states[last + 1], d);
      }
    }
  }

  /** In particular: of any two ordinals one is in service, and pods below the partition are left alone. */
  lemma DisruptionBounds(c: Config, start: State, s: State)
    requires OneDisruption(c, start, s)
    ensures forall i, j | 0 <= i < c.app.replicas && 0 <= j < c.app.replicas ::
              !InService(c, s, i) && !InService(c, s, j) ==> i == j
    ensures forall o | 0 <= o < c.app.replicas && o < c.app.strategy.partition ::
              InService(c, s, o) && o in start.fleet && s.fleet[o] == start.fleet[o]
    ensures forall i, j | 0 <= i < j < c.app.replicas && !InService(c, s, i) ::
              InService(c, s, j) && IsUpdated(c, s, j)
  {
    var d :| 0 <= d <= c.app.replicas && Reached(c, start, s, d);
    assert forall o | 0 <= o < c.app.replicas && (o < d || !InService(c, s, o)) :: RightAt(c, start, s, d, o);
    forall o | 0 <= o < c.app.replicas && o < c.app.strategy.partition
      ensures InService(c, s, o) && o in start.fleet && s.fleet[o] == start.fleet[o]
    {
      assert RightAt(c, start, s, d, o);
    }
    forall i, j | 0 <= i < j < c.app.replicas && !InService(c, s, i)
      ensures InService(c, s, j) && IsUpdated(c, s, j)
    {
      assert RightAt(c, start, s, d, i) && RightAt(c, start, s, d, j);
    }
  }
}
