/**
 Runs that never end. If reconciles succeed again and again, and no pod waits forever for its next step, an App
 arrives at its final form and stays there, unless two of its surplus pods are dead.
 */
module Fairness {
  import opened Kube
  import opened Discipline
  import opened Fleet
  import opened Rollout

  ghost predicate IsForever(c: Config, states: nat -> State, events: nat -> Event) {
    forall i: nat :: Step(c, states(i), events(i), states(i + 1))
  }

  /** The pod takes one of its steps. */
  predicate Moves(e: Event, o: int) {
    (e.Start? || e.BecomeReady? || e.Vanish?) && e.o == o
  }

  /** A reconcile in which no request fails. */
  ghost predicate IsGood(e: Event) {
    e.Reconcile? && NothingFails(e.w)
  }

  ghost predicate GoodComes(events: nat -> Event, n: nat) {
    exists m: nat :: m >= n && IsGood(events(m))
  }

  ghost predicate WaitEnds(c: Config, states: nat -> State, events: nat -> Event, n: nat, o: int) {
    exists m: nat :: m >= n && (Moves(events(m), o) || !Waits(c, states(m), o))
  }

  /**
    A reconcile in which no request fails always comes again, and a pod that waits, for its start, for its readiness
    or for its end, takes a step or has no longer to wait.
   */
  ghost predicate IsFair(c: Config, states: nat -> State, events: nat -> Event) {
    && (forall n: nat :: GoodComes(events, n))
    && (forall n: nat, o: int | Waits(c, states(n), o) :: WaitEnds(c, states, events, n, o))
  }

  ghost predicate Holds(c: Config, s: State) {
    Inv(c, s) && AtMostOneDead(c, s)
  }

  lemma {:induction false} HoldsAlong(c: Config, states: nat -> State, events: nat -> Event, n: nat)
    requires ValidConfig(c) && IsForever(c, states, events) && Holds(c, states(0))
    ensures Holds(c, states(n))
  {
    if n > 0 {
      HoldsAlong(c, states, events, n - 1);
      assert Step(c, states(n - 1), events(n - 1), states(n - 1 + 1));
      StepKeepsInv(c, states(n - 1), events(n - 1), states(n));
      StepKeepsAtMostOneDead(c, states(n - 1), events(n - 1), states(n));
    }
  }

  lemma {:induction false} TotalFalls(c: Config, states: nat -> State, events: nat -> Event, n: nat, m: nat)
    requires ValidConfig(c) && ByOrdinal(c) && IsForever(c, states, events) && Holds(c, states(0)) && n <= m
    ensures Total(c, states(m)) <= Total(c, states(n))
    decreases m
  {
    if n < m {
      TotalFalls(c, states, events, n, m - 1);
      HoldsAlong(c, states, events, m - 1);
      assert Step(c, states(m - 1), events(m - 1), states(m - 1 + 1));
      StepLowersTotal(c, states(m - 1), events(m - 1), states(m));
    }
  }

  ghost predicate NeverRises(c: Config, states: nat -> State) {
    forall n: nat, m: nat | n <= m :: Total(c, states(m)) <= Total(c, states(n))
  }

  /** A pod's own step brings the fleet closer. */
  lemma MoveHelps(c: Config, s: State, e: Event, s': State, o: int)
    requires ValidConfig(c) && ByOrdinal(c) && Inv(c, s) && Step(c, s, e, s') && Moves(e, o)
    ensures Total(c, s') < Total(c, s)
  {
    assert o in s.fleet && (o in s'.fleet ==> s'.fleet[o] != s.fleet[o]);
    StepLowersTotal(c, s, e, s');
  }

  /** So does whatever ends a pod's wait. */
  lemma EndOfWaitHelps(c: Config, s: State, e: Event, s': State, o: int)
    requires ValidConfig(c) && ByOrdinal(c) && Inv(c, s) && Step(c, s, e, s')
    requires Waits(c, s, o) && !Waits(c, s', o)
    ensures Total(c, s') < Total(c, s)
  {
    if e.Pass? {
      PassHelps(c, s, s', o);
    } else if s'.fleet == s.fleet {
      SameFleetSameHealth(c, s, s', o);
    } else {
      assert e.Wither? ==> Waits(c, s', o) by {
        WitherKeepsWaiting(c, s, e, s', o);
      }
      StepLowersTotal(c, s, e, s');
    }
  }

  lemma SameFleetSameHealth(c: Config, s: State, s': State, o: int)
    requires s'.fleet == s.fleet && s'.now == s.now
    ensures Waits(c, s', o) == Waits(c, s, o)
  {}

  lemma WitherKeepsWaiting(c: Config, s: State, e: Event, s': State, o: int)
    requires Step(c, s, e, s') && Waits(c, s, o)
    ensures e.Wither? ==> Waits(c, s', o)
  {}

  lemma PassHelps(c: Config, s: State, s': State, o: int)
    requires InRange(c, s) && s' == s.(now := s'.now) && s'.now >= s.now && Waits(c, s, o) && !Waits(c, s', o)
    ensures Total(c, s') < Total(c, s)
  {
    assert Weight(c, s', o) < Weight(c, s, o);
    TotalMonotone(c, s, s', c.bound);
  }

  /** A wait that is over ended in one step. */
  lemma {:induction false} LastWait(c: Config, states: nat -> State, n: nat, m: nat, o: int) returns (k: nat)
    requires n <= m && Waits(c, states(n), o) && !Waits(c, states(m), o)
    ensures n <= k < m && Waits(c, states(k), o) && !Waits(c, states(k + 1), o)
    decreases m
  {
    if Waits(c, states(m - 1), o) {
      k := m - 1;
    } else {
      k := LastWait(c, states, n, m - 1, o);
    }
  }

  /** Between a time when a pod waits and a later one when it does not, the fleet has come closer. */
  lemma WaitOver(c: Config, states: nat -> State, events: nat -> Event, n: nat, m: nat, o: int)
    requires ValidConfig(c) && ByOrdinal(c) && IsForever(c, states, events) && Holds(c, states(0)) && n <= m
    requires NeverRises(c, states)
    requires Waits(c, states(n), o) && !Waits(c, states(m), o)
    ensures Total(c, states(m)) < Total(c, states(n))
  {
    var k := LastWait(c, states, n, m, o);
    WaitEndsAt(c, states, events, k, o);
    NeverRisesOn(c, states, n, k);
    NeverRisesOn(c, states, k + 1, m);
  }

  lemma NeverRisesOn(c: Config, states: nat -> State, n: nat, m: nat)
    requires NeverRises(c, states) && n <= m
    ensures Total(c, states(m)) <= Total(c, states(n))
  {}

  lemma WaitEndsAt(c: Config, states: nat -> State, events: nat -> Event, k: nat, o: int)
    requires ValidConfig(c) && ByOrdinal(c) && IsForever(c, states, events) && Holds(c, states(0))
    requires Waits(c, states(k), o) && !Waits(c, states(k + 1), o)
    ensures Total(c, states(k + 1)) < Total(c, states(k))
  {
    HoldsAlong(c, states, events, k);
    assert Step(c, states(k), events(k), states(k + 1));
    EndOfWaitHelps(c, states(k), events(k), states(k + 1), o);
  }

  /** Short of the final form the fleet comes closer sooner or later. */
  lemma ComesCloser(c: Config, states: nat -> State, events: nat -> Event, n: nat) returns (m: nat)
    requires ValidConfig(c) && ByOrdinal(c) && IsForever(c, states, events) && IsFair(c, states, events)
    requires Holds(c, states(0)) && !Final(c, states(n))
    ensures Total(c, states(m)) < Total(c, states(n))
  {
    assert GoodComes(events, n);
    var k: nat :| k >= n && IsGood(events(k));
    TotalFalls(c, states, events, n, k);
    if Total(c, states(k)) < Total(c, states(n)) {
      m := k;
    } else {
      HoldsAlong(c, states, events, n);
      HoldsAlong(c, states, events, k);
      FinalMeansNothingLeft(c, states(n));
      FinalMeansNothingLeft(c, states(k));
      m := ComesCloserAtReconcile(c, states, events, k);
    }
  }

  lemma ComesCloserAtReconcile(c: Config, states: nat -> State, events: nat -> Event, k: nat) returns (m: nat)
    requires ValidConfig(c) && ByOrdinal(c) && IsForever(c, states, events) && IsFair(c, states, events)
    requires Holds(c, states(0)) && Holds(c, states(k)) && !Final(c, states(k)) && IsGood(events(k))
    ensures Total(c, states(m)) < Total(c, states(k))
  {
    var s := states(k);
    if NextChange(JobAt(c, s), s.fleet, c.bound).Stay? {
      var o := SomeoneWaits(c, s);
      m := WaitedFor(c, states, events, k, o);
    } else {
      m := k + 1;
      assert Step(c, s, events(k), states(k + 1));
      SyncMakesNextChange(c, s, events(k).w, events(k).build, states(k + 1));
      ChangeLowersTotal(c, s, events(k).build, states(k + 1));
    }
  }

  lemma WaitedFor(c: Config, states: nat -> State, events: nat -> Event, k: nat, o: int) returns (m: nat)
    requires ValidConfig(c) && ByOrdinal(c) && IsForever(c, states, events) && IsFair(c, states, events)
    requires Holds(c, states(0)) && Waits(c, states(k), o)
    ensures Total(c, states(m)) < Total(c, states(k))
  {
    assert WaitEnds(c, states, events, k, o);
    var j: nat :| j >= k && (Moves(events(j), o) || !Waits(c, states(j), o));
    if Moves(events(j), o) {
      m := j + 1;
      HoldsAlong(c, states, events, j);
      TotalFalls(c, states, events, k, j);
      assert Step(c, states(j), events(j), states(j + 1));
      MoveHelps(c, states(j), events(j), states(j + 1), o);
    } else {
      m := j;
      forall n: nat, m: nat | n <= m ensures Total(c, states(m)) <= Total(c, states(n)) {
        TotalFalls(c, states, events, n, m);
      }
      WaitOver(c, states, events, k, j, o);
    }
  }

  lemma {:induction false} Arrives(c: Config, states: nat -> State, events: nat -> Event, n: nat) returns (m: nat)
    requires ValidConfig(c) && ByOrdinal(c) && IsForever(c, states, events) && IsFair(c, states, events)
    requires Holds(c, states(0))
    ensures Final(c, states(m))
    decreases Total(c, states(n))
  {
    if Final(c, states(n)) {
      m := n;
    } else {
      var k := ComesCloser(c, states, events, n);
      m := Arrives(c, states, events, k);
    }
  }

  lemma {:induction false} StaysFinal(c: Config, states: nat -> State, events: nat -> Event, m: nat, k: nat)
    requires ValidConfig(c) && IsForever(c, states, events) && Inv(c, states(0)) && m <= k && Final(c, states(m))
    ensures Final(c, states(k))
    decreases k
  {
    if m < k {
      StaysFinal(c, states, events, m, k - 1);
      InvAlong(c, states, events, k - 1);
      assert Step(c, states(k - 1), events(k - 1), states(k - 1 + 1));
      FinalIsKept(c, states(k - 1), events(k - 1), states(k));
    }
  }

  lemma {:induction false} InvAlong(c: Config, states: nat -> State, events: nat -> Event, n: nat)
    requires ValidConfig(c) && IsForever(c, states, events) && Inv(c, states(0))
    ensures Inv(c, states(n))
  {
    if n > 0 {
      InvAlong(c, states, events, n - 1);
      assert Step(c, states(n - 1), events(n - 1), states(n - 1 + 1));
      StepKeepsInv(c, states(n - 1), events(n - 1), states(n));
    }
  }

  lemma {:induction false} BothStayDead(
    c: Config, states: nat -> State, events: nat -> Event, n: nat, low: int, high: int)
    requires ValidConfig(c) && IsForever(c, states, events) && Inv(c, states(0))
    requires low < high && IsDead(c, states(0), low) && IsDead(c, states(0), high)
    ensures IsDead(c, states(n), low) && IsDead(c, states(n), high)
  {
    if n > 0 {
      BothStayDead(c, states, events, n - 1, low, high);
      InvAlong(c, states, events, n - 1);
      assert Step(c, states(n - 1), events(n - 1), states(n - 1 + 1));
      StepKeepsBothDead(c, states(n - 1), events(n - 1), states(n), low, high);
    }
  }

  ghost predicate FinalFrom(c: Config, states: nat -> State, m: nat) {
    forall k: nat | k >= m :: Final(c, states(k))
  }

  /** A fair run arrives, and stays, if and only if at most one surplus pod is dead when it begins. */
  lemma FairRunArrivesIff(c: Config, states: nat -> State, events: nat -> Event)
    requires ValidConfig(c) && ByOrdinal(c) && Inv(c, states(0))
    requires IsForever(c, states, events) && IsFair(c, states, events)
    ensures AtMostOneDead(c, states(0)) <==> exists m: nat :: FinalFrom(c, states, m)
  {
    if AtMostOneDead(c, states(0)) {
      var m := Arrives(c, states, events, 0);
      forall k: nat | k >= m ensures Final(c, states(k)) {
        StaysFinal(c, states, events, m, k);
      }
      assert FinalFrom(c, states, m);
    } else {
      var low, high :| IsDead(c, states(0), low) && IsDead(c, states(0), high) && low < high;
      forall m: nat ensures !FinalFrom(c, states, m) {
        BothStayDead(c, states, events, m, low, high);
        assert !Final(c, states(m));
      }
    }
  }

  /** A state in which no pod has a step to take and the controller wants nothing is that of a fair run. */
  lemma RestsForever(c: Config, s: State) returns (states: nat -> State, events: nat -> Event)
    requires ValidConfig(c) && Inv(c, s) && NextChange(JobAt(c, s), s.fleet, c.bound).Stay?
    requires forall o <- s.fleet :: !Waits(c, s, o)
    ensures IsForever(c, states, events) && IsFair(c, states, events)
    ensures forall n: nat :: states(n) == s
  {
    var build := SomeBuilder(c.app);
    KeptIsPlaced(c.app, s.fleet);
    var s' := CanSync(c, s, ALL_WELL, build);
    SyncMakesNextChange(c, s, ALL_WELL, build, s');
    assert s' == s;
    states, events := (_ => s), (_ => Reconcile(ALL_WELL, build));
    forall n: nat ensures GoodComes(events, n) {
      assert IsGood(events(n));
    }
  }

  /** There are fair runs that never arrive: an App scaled to none, with two pods that are dead. */
  lemma NeverArrives(c: Config, revision: Revision) returns (states: nat -> State, events: nat -> Event)
    requires ValidConfig(c) && c.app.replicas == 0 && c.bound >= 2
    ensures Inv(c, states(0)) && IsForever(c, states, events) && IsFair(c, states, events)
    ensures forall m: nat :: !Final(c, states(m))
  {
    var s := StuckExample(c, revision);
    TwoDeadRest(c, s);
    states, events := RestsForever(c, s);
    assert states(0) == s;
    forall m: nat ensures !Final(c, states(m)) {
      assert states(m) == s && 0 in s.fleet;
    }
  }

  lemma TwoDeadRest(c: Config, s: State)
    requires ValidConfig(c) && c.app.replicas == 0 && c.bound >= 2 && s.fleet.Keys == {0, 1} && !AtMostOneDead(c, s)
    ensures NextChange(JobAt(c, s), s.fleet, c.bound).Stay?
    ensures forall o <- s.fleet :: !Waits(c, s, o)
  {
    var low, high :| IsDead(c, s, low) && IsDead(c, s, high) && low != high;
    assert low in s.fleet.Keys && high in s.fleet.Keys;
    assert IsDead(c, s, 0) && IsDead(c, s, 1);
    DeadAreLeft(s.fleet, c.bound);
  }

  lemma DeadAreLeft(fleet: Fleet, bound: int)
    requires bound >= 2 && fleet.Keys == {0, 1} && !IsReady(fleet[0]) && !IsReady(fleet[1])
    ensures var top := Highest(fleet, 0, bound); top in fleet && NextShrink(fleet, 0, bound, top).Stay?
  {
    assert 0 in fleet.Keys && 1 in fleet.Keys;
    assert Highest(fleet, 0, bound) >= 1;
    assert LowestUnhealthy(fleet, 0, bound) <= 0;
  }
}
