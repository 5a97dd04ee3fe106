/**
 Deleting an App: the controller scales it to none, waits for its pods, and lets it go. This tells exactly when
 the App can go, if its pods do no more than start, become ready, and shut down when they are told to.
 */
module Deletion {
  import opened Text
  import opened Kube
  import opened Identity
  import opened Slots
  import opened Sync
  import opened Discipline
  import opened Fleet
  import opened Revisions
  import opened Reconciler
  import opened Lifecycle
  import opened Steady
  import Listing
  import Rollout
  import Runs

  /** A reconcile, a step of a pod or of the clock, or a finalizer of someone else that is taken off. */
  datatype LeavingEvent = Reconciled(turn: Turn) | Moved(event: Rollout.Event) | Dropped(finalizer: string)

  function WithoutOther(finalizers: seq<string>, dropped: string): (left: seq<string>)
    ensures |left| <= |finalizers| && forall f :: f in left <==> f in finalizers && f != dropped
    ensures dropped in finalizers ==> |left| < |finalizers|
  {
    if finalizers == [] then []
    else
      assert finalizers == [finalizers[0]] + finalizers[1..];
      var rest := WithoutOther(finalizers[1..], dropped);
      if finalizers[0] == dropped then rest else [finalizers[0]] + rest
  }

  /** The App once it is scaled to none, as the rollout sees it. */
  function Scaled(app: App, bound: int): Rollout.Config {
    Rollout.Config(app.(replicas := 0, deleting := true), Revision("", 0, app.template), bound)
  }

  function Bare(m: Moment, app: App): Rollout.State {
    Rollout.State(m.cluster.fleet, Revision("", 0, app.template), m.now)
  }

  ghost predicate LeavingStep(bound: int, m: Moment, e: LeavingEvent, m': Moment) {
    match e
    case Reconciled(turn) =>
      turn.now == m.now == m'.now && ValidTurn(m.cluster, turn) && Reconciles(m.cluster, turn, m'.cluster)
    case Moved(event) =>
      && m.cluster.app.Some? && !event.Reconcile? && m'.cluster == m.cluster.(fleet := m'.cluster.fleet)
      && var app := m.cluster.app.value;
         Rollout.Step(Scaled(app, bound), Bare(m, app), event, Bare(m', app))
    case Dropped(finalizer) =>
      && m.cluster.app.Some? && finalizer != APP_FINALIZER && m'.now == m.now
      && var app := m.cluster.app.value;
         m'.cluster == StoreApp(m.cluster, app.(finalizers := WithoutOther(app.finalizers, finalizer)), false)
  }

  ghost function LeavingSteps(bound: int): (Moment, LeavingEvent, Moment) -> bool {
    (m, e, m') => LeavingStep(bound, m, e, m')
  }

  /** An ordered App that is being deleted and still held back, with well-kept pods. */
  ghost predicate IsLeaving(c: Cluster, bound: int) {
    && IsGuarded(c) && c.app.Some? && 0 <= bound <= MAX_INT32
    && var app := c.app.value;
       && app.deleting && APP_FINALIZER in app.finalizers && !app.parallel
       && WellKept(app, c.fleet) && Bounded(c.fleet, bound)
  }

  /** A pod that has ended without ever getting a Ready condition, and is not told to go. */
  predicate DeadAt(fleet: Fleet, o: int) {
    o in fleet && IsTerminal(fleet[o]) && fleet[o].ready.Absent? && !fleet[o].terminating
  }

  ghost predicate FewDeadAt(fleet: Fleet) {
    forall o, o' | DeadAt(fleet, o) && DeadAt(fleet, o') :: o == o'
  }

  // ---- what a reconcile does once the App is scaled to none ----

  /** What is next for an App without replicas depends on nothing but its pods. */
  lemma SameNextChange(a: Job, b: Job, fleet: Fleet, bound: int)
    requires a.app.replicas == 0 && b.app.replicas == 0 && a.app.deleting && b.app.deleting
    ensures NextChange(a, fleet, bound) == NextChange(b, fleet, bound) && !NextChange(a, fleet, bound).Create?
  {}

  /** A reconcile keeps the App leaving, or finds it without pods and lets it go. */
  lemma ReconcileWhileLeaving(c: Cluster, turn: Turn, c': Cluster, bound: int)
    requires IsLeaving(c, bound) && ValidTurn(c, turn) && Reconciles(c, turn, c')
    requires c.fleet != map[]
    ensures IsLeaving(c', bound) && SameIdentity(c'.app.value, c.app.value)
    ensures c'.app.value.replicas == 0 || c' == c
    ensures c.app.value.replicas != 0 ==> c'.fleet == c.fleet
    ensures forall o | o >= 0 :: OnSurplus(c.fleet, c'.fleet, 0, bound, o)
  {
    var app := c.app.value;
    ReconcileKeeps(c, turn, c');
    if app.replicas == 0 {
      var mid, failed :| UpdatesApp(c, app, turn, mid, failed) && c' == Finish(c, app, turn, mid, failed);
      UpdateKeepsPods(c, app, turn, mid, failed);
      UpdateMakesNextChange(c, app, turn, mid, failed, bound);
      SameWellKept(app, c'.app.value, c'.fleet);
      forall o | o >= 0 ensures OnSurplus(c.fleet, c'.fleet, 0, bound, o) {
        ChangeOnSurplus(JobFor(app, c.revisions, turn), c.fleet, PodBuilder(app, turn.order), bound, o);
      }
    } else if c' != c {
      SameWellKept(app, c'.app.value, c'.fleet);
    }
  }

  // ---- two dead pods hold the App for good ----

  ghost predicate IsHeld(c: Cluster, bound: int, low: int, high: int) {
    IsLeaving(c, bound) && 0 <= low < high && DeadAt(c.fleet, low) && DeadAt(c.fleet, high)
  }

  lemma StepKeepsHeld(bound: int, m: Moment, e: LeavingEvent, m': Moment, low: int, high: int)
    requires IsHeld(m.cluster, bound, low, high) && LeavingStep(bound, m, e, m')
    ensures IsHeld(m'.cluster, bound, low, high)
  {
    var c, app := m.cluster, m.cluster.app.value;
    match e
    case Reconciled(turn) =>
      ReconcileWhileLeaving(c, turn, m'.cluster, bound);
      DeadStaysDead(c.fleet, m'.cluster.fleet, bound, low, high);
    case Moved(event) =>
      MoveKeepsLeaving(bound, m, event, m');
      Rollout.PodStepOnDead(Scaled(app, bound), Bare(m, app), event, Bare(m', app), low);
      Rollout.PodStepOnDead(Scaled(app, bound), Bare(m, app), event, Bare(m', app), high);
    case Dropped(finalizer) => DropKeepsLeaving(bound, m, finalizer, m');
  }

  lemma DeadStaysDead(fleet: Fleet, fleet': Fleet, bound: int, low: int, high: int)
    requires 0 <= low < high && DeadAt(fleet, low) && DeadAt(fleet, high) && Bounded(fleet, bound)
    requires forall o | o >= 0 :: OnSurplus(fleet, fleet', 0, bound, o)
    ensures DeadAt(fleet', low) && DeadAt(fleet', high)
  {
    assert LowestUnhealthy(fleet, 0, bound) <= low && Highest(fleet, 0, bound) >= high;
    assert OnSurplus(fleet, fleet', 0, bound, low) && OnSurplus(fleet, fleet', 0, bound, high);
  }

  lemma MoveKeepsLeaving(bound: int, m: Moment, event: Rollout.Event, m': Moment)
    requires IsLeaving(m.cluster, bound) && LeavingStep(bound, m, Moved(event), m')
    ensures IsLeaving(m'.cluster, bound)
  {
    var c, app := m.cluster, m.cluster.app.value;
    var config := Scaled(app, bound);
    SameWellKept(app, config.app, c.fleet);
    Rollout.StepKeepsInv(config, Bare(m, app), event, Bare(m', app));
    SameWellKept(config.app, app, m'.cluster.fleet);
    PodStepKeepsStored(config, Bare(m, app), event, Bare(m', app));
  }

  lemma DropKeepsLeaving(bound: int, m: Moment, finalizer: string, m': Moment)
    requires IsLeaving(m.cluster, bound) && LeavingStep(bound, m, Dropped(finalizer), m')
    ensures IsLeaving(m'.cluster, bound) && m'.cluster.fleet == m.cluster.fleet
    ensures m'.cluster.app.value.replicas == m.cluster.app.value.replicas
  {
    SameWellKept(m.cluster.app.value, m'.cluster.app.value, m.cluster.fleet);
  }

  // ---- otherwise it can go ----

  /** A name that is not among some others: one that is longer. */
  lemma FreshName(names: set<string>) returns (name: string)
    ensures name !in names
  {
    var bound := LongerThan(names);
    name := seq(bound, _ => 'x');
    assert |name| == bound;
  }

  lemma {:induction false} LongerThan(names: set<string>) returns (bound: nat)
    ensures forall name <- names :: |name| < bound
  {
    if names == {} {
      bound := 0;
    } else {
      var name := Listing.AnyOf(names);
      var rest := LongerThan(names - {name});
      bound := if |name| < rest then rest else |name| + 1;
      assert forall other <- names :: other == name || other in names - {name};
    }
  }

  /** A turn in which nothing fails. */
  lemma SomeTurn(c: Cluster, now: int) returns (turn: Turn)
    ensures ValidTurn(c, turn) && turn.now == now && turn.w == Rollout.ALL_WELL
    ensures !turn.appFails && !turn.historyFails && !turn.statusFails && forall name :: !turn.deleteFails(name)
  {
    var newName := FreshName(Names(c.revisions));
    var order: seq<string> := [];
    if c.app.Some? {
      order := Rollout.SomeClaimOrder(c.app.value.claims);
    }
    turn := Turn(now, Rollout.ALL_WELL, _ => order, newName, false, false, false, false, _ => false);
  }

  lemma CanUpdate(c: Cluster, app: App, turn: Turn) returns (c': Cluster, failed: bool)
    requires Keyed(c.fleet) && !turn.historyFails
    ensures UpdatesApp(c, app, turn, c', failed)
  {
    var ensured := Ensure(c.revisions, app.template, turn.freshName);
    var job := JobFor(app, c.revisions, turn);
    var pods, replicas, surplus := Rollout.SomeLayout(job, c.fleet, PodBuilder(app, turn.order));
    var acted := Act(job, replicas, surplus, turn.w);
    var stored := StoreStatus(app, Report(job, pods, replicas + surplus, acted.evicted), turn);
    var live := LiveNames(pods, job.current.name, job.update.name);
    var (left, stuck) := Truncate(ensured.revisions, c.revisions, live, LimitOf(app), turn.deleteFails);
    c' := Cluster(Some(app.(status := stored.status)), PerformAll(app, c.fleet, acted.commands, turn.w), left);
    failed := acted.failed || stored.failed || stuck;
    assert UpdatesOver(c, app, turn, c', failed, pods, replicas, surplus);
  }

  lemma CanReconcile(c: Cluster, turn: Turn) returns (c': Cluster)
    requires IsGuarded(c) && c.app.Some? && c.app.value.deleting && c.app.value.replicas == 0 && !turn.historyFails
    ensures Reconciles(c, turn, c')
    ensures exists mid, failed ::
              UpdatesApp(c, c.app.value, turn, mid, failed) && c' == Finish(c, c.app.value, turn, mid, failed)
  {
    StoredIsKeyed(c.fleet, Free);
    var mid, failed := CanUpdate(c, c.app.value, turn);
    c' := Finish(c, c.app.value, turn, mid, failed);
  }

  function Distance(m: Moment, bound: int): nat
    requires m.cluster.app.Some?
  {
    Rollout.Total(Scaled(m.cluster.app.value, bound), Bare(m, m.cluster.app.value))
  }

  /** As long as pods are left, some step brings the App closer to having none. */
  lemma SomeStepHelps(bound: int, m: Moment) returns (e: LeavingEvent, m': Moment)
    requires IsLeaving(m.cluster, bound) && m.cluster.app.value.replicas == 0
    requires FewDeadAt(m.cluster.fleet) && m.cluster.fleet != map[]
    ensures LeavingStep(bound, m, e, m') && IsLeaving(m'.cluster, bound) && m'.cluster.app.value.replicas == 0
    ensures FewDeadAt(m'.cluster.fleet) && Distance(m', bound) < Distance(m, bound)
  {
    var c, app := m.cluster, m.cluster.app.value;
    var config, s := Scaled(app, bound), Bare(m, app);
    SameWellKept(app, config.app, c.fleet);
    assert forall o <- c.fleet :: IsKept(config.app, o, c.fleet[o]);
    if NextChange(Rollout.JobAt(config, s), c.fleet, bound).Stay? {
      assert !Rollout.Final(config, s) by {
        NoneIsFinal(config, s);
      }
      AlikeDead(config, s);
      var event, s' := Rollout.WaitingOnPods(config, s);
      e, m' := Moved(event), Moment(c.(fleet := s'.fleet), s'.now);
      assert Bare(m', app) == s';
      MoveKeepsLeaving(bound, m, event, m');
      Rollout.StepKeepsAtMostOneDead(config, s, event, s');
      AlikeDead(config, s');
    } else {
      var turn := SomeTurn(c, m.now);
      var c' := CanReconcile(c, turn);
      e, m' := Reconciled(turn), Moment(c', m.now);
      ReconcileHelps(bound, m, turn, m');
    }
  }

  lemma NoneIsFinal(config: Rollout.Config, s: Rollout.State)
    requires config.app.replicas == 0 && s.fleet != map[]
    ensures !Rollout.Final(config, s)
  {
    var o := Listing.AnyOf(s.fleet.Keys);
    assert o in s.fleet;
  }

  lemma AlikeDead(config: Rollout.Config, s: Rollout.State)
    requires config.app.replicas == 0 && forall o <- s.fleet :: o >= 0
    ensures FewDeadAt(s.fleet) <==> Rollout.AtMostOneDead(config, s)
  {
    assert forall o :: DeadAt(s.fleet, o) <==> Rollout.IsDead(config, s, o);
  }

  lemma ReconcileHelps(bound: int, m: Moment, turn: Turn, m': Moment)
    requires IsLeaving(m.cluster, bound) && m.cluster.app.value.replicas == 0 && m.cluster.fleet != map[]
    requires FewDeadAt(m.cluster.fleet)
    requires LeavingStep(bound, m, Reconciled(turn), m') && turn.w == Rollout.ALL_WELL && !turn.historyFails
    requires !NextChange(Rollout.JobAt(Scaled(m.cluster.app.value, bound), Bare(m, m.cluster.app.value)),
                         m.cluster.fleet, bound).Stay?
    ensures IsLeaving(m'.cluster, bound) && m'.cluster.app.value.replicas == 0
    ensures FewDeadAt(m'.cluster.fleet) && Distance(m', bound) < Distance(m, bound)
  {
    var c, app := m.cluster, m.cluster.app.value;
    ReconcileWhileLeaving(c, turn, m'.cluster, bound);
    DeadWereDead(c.fleet, m'.cluster.fleet, bound);
    ReconcileChanges(c, app, turn, m'.cluster, bound);
    ChangeHelps(bound, m, JobFor(app, c.revisions, turn), PodBuilder(app, turn.order), m');
    SameDistance(m', app, bound);
  }

  lemma ReconcileChanges(c: Cluster, app: App, turn: Turn, c': Cluster, bound: int)
    requires IsLeaving(c, bound) && c.app == Some(app) && app.replicas == 0 && c.fleet != map[]
    requires ValidTurn(c, turn) && Reconciles(c, turn, c') && turn.w == Rollout.ALL_WELL && !turn.historyFails
    ensures
      var job := JobFor(app, c.revisions, turn);
      c'.fleet == Changed(job, c.fleet, PodBuilder(app, turn.order), NextChange(job, c.fleet, bound))
    ensures c'.app.Some? && c'.app.value == app.(status := c'.app.value.status)
    ensures BuildsKept(app, PodBuilder(app, turn.order))
  {
    var mid, failed :| UpdatesApp(c, app, turn, mid, failed) && c' == Finish(c, app, turn, mid, failed);
    UpdateMakesNextChange(c, app, turn, mid, failed, bound);
    UpdateKeepsPods(c, app, turn, mid, failed);
    PodBuilderKeeps(app, turn.order);
  }

  lemma ChangeHelps(bound: int, m: Moment, job: Job, build: Builder, m': Moment)
    requires IsLeaving(m.cluster, bound) && job.app == m.cluster.app.value && job.app.replicas == 0
    requires BuildsKept(job.app, build) && m'.now == m.now
    requires !NextChange(Rollout.JobAt(Scaled(job.app, bound), Bare(m, job.app)), m.cluster.fleet, bound).Stay?
    requires m'.cluster.fleet == Changed(job, m.cluster.fleet, build, NextChange(job, m.cluster.fleet, bound))
    ensures Rollout.Total(Scaled(job.app, bound), Bare(m', job.app)) < Distance(m, bound)
  {
    var config, s := Scaled(job.app, bound), Bare(m, job.app);
    SameNextChange(job, Rollout.JobAt(config, s), m.cluster.fleet, bound);
    SameBuildsKept(job.app, config.app, build);
    Rollout.ChangeLowersTotal(config, s, build, Bare(m', job.app));
  }

  lemma DeadWereDead(fleet: Fleet, fleet': Fleet, bound: int)
    requires FewDeadAt(fleet) && (forall o <- fleet' :: o >= 0)
    requires forall o | o >= 0 :: OnSurplus(fleet, fleet', 0, bound, o)
    ensures FewDeadAt(fleet')
  {
    forall o | DeadAt(fleet', o) ensures DeadAt(fleet, o) {
      assert OnSurplus(fleet, fleet', 0, bound, o);
    }
  }

  /** The distance does not depend on the status. */
  lemma SameDistance(m: Moment, app: App, bound: int)
    requires m.cluster.app.Some? && m.cluster.app.value == app.(status := m.cluster.app.value.status)
    ensures Distance(m, bound) == Rollout.Total(Scaled(app, bound), Bare(m, app))
  {
    var a, b := Scaled(m.cluster.app.value, bound), Scaled(app, bound);
    var s := Bare(m, app);
    if bound >= 0 {
      SameTotal(a, b, s, bound);
    }
  }

  lemma {:induction false} SameTotal(a: Rollout.Config, b: Rollout.Config, s: Rollout.State, n: nat)
    requires a == b.(app := b.app.(status := a.app.status))
    ensures Rollout.TotalBelow(a, s, n) == Rollout.TotalBelow(b, s, n)
  {
    if n > 0 {
      SameTotal(a, b, s, n - 1);
      assert Rollout.Weight(a, s, n - 1) == Rollout.Weight(b, s, n - 1);
    }
  }

  /** Without pods the App is released by the next reconcile in which nothing fails. */
  lemma ReleasedWithoutPods(c: Cluster, turn: Turn, c': Cluster)
    requires c.app.Some? && c.app.value.deleting && APP_FINALIZER in c.app.value.finalizers
    requires c.fleet == map[] && c.app.value.replicas == 0 && ValidTurn(c, turn)
    requires turn.w == Rollout.ALL_WELL && !turn.appFails && !turn.historyFails && !turn.statusFails
    requires forall name :: !turn.deleteFails(name)
    requires Reconciles(c, turn, c')
    ensures c'.app.Some? ==> c'.app.value.deleting && APP_FINALIZER !in c'.app.value.finalizers
  {
    var app := c.app.value;
    var mid, failed :| UpdatesApp(c, app, turn, mid, failed) && c' == Finish(c, app, turn, mid, failed);
    var pods, replicas, surplus :| UpdatesOver(c, app, turn, mid, failed, pods, replicas, surplus);
    NothingToDo(c, app, turn, mid, failed, pods, replicas, surplus);
    FinishReleases(c, app, turn, mid);
  }

  lemma FinishReleases(c: Cluster, app: App, turn: Turn, mid: Cluster)
    requires app.deleting && APP_FINALIZER in app.finalizers && c.fleet == map[] && !turn.appFails
    requires mid.app.Some? && mid.app.value.deleting
    ensures
      var c' := Finish(c, app, turn, mid, false);
      c'.app.Some? ==> c'.app.value.deleting && APP_FINALIZER !in c'.app.value.finalizers
  {
    OtherFinalizersStay(app.finalizers);
  }

  lemma NothingToDo(c: Cluster, app: App, turn: Turn, mid: Cluster, failed: bool,
                    pods: seq<Pod>, replicas: seq<Pod>, surplus: seq<Pod>)
    requires c.fleet == map[] && app.replicas == 0 && app.deleting
    requires !turn.statusFails && forall name :: !turn.deleteFails(name)
    requires UpdatesOver(c, app, turn, mid, failed, pods, replicas, surplus)
    ensures !failed
  {
    EmptyListing(c.fleet, pods);
    assert |surplus| == |multiset(surplus)| == 0;
    var job := JobFor(app, c.revisions, turn);
    var ensured := Ensure(c.revisions, app.template, turn.freshName);
    DeletesAll(ensured.revisions, Doomed(c.revisions, LiveNames(pods, job.current.name, job.update.name), LimitOf(app)),
               turn.deleteFails);
  }

  lemma {:induction false} DeletesAll(revisions: seq<Revision>, doomed: seq<Revision>, fails: string -> bool)
    requires forall name :: !fails(name)
    ensures !DeleteAll(revisions, doomed, fails).1
    decreases |doomed|
  {
    if doomed != [] {
      DeletesAll(Without(revisions, doomed[0].name), doomed[1..], fails);
    }
  }

  ghost predicate CanGo(bound: int, m: Moment) {
    exists m' :: Runs.Leads(LeavingSteps(bound), m, m') && m'.cluster.app.None?
  }

  lemma StepGoes(bound: int, m: Moment, e: LeavingEvent, m': Moment)
    requires LeavingStep(bound, m, e, m') && CanGo(bound, m')
    ensures CanGo(bound, m)
  {
    var end :| Runs.Leads(LeavingSteps(bound), m', end) && end.cluster.app.None?;
    Runs.StepLeads(LeavingSteps(bound), m, e, m', end);
  }

  lemma GoneGoes(bound: int, m: Moment)
    requires m.cluster.app.None?
    ensures CanGo(bound, m)
  {
    Runs.StayingLeads(LeavingSteps(bound), m);
  }

  /** Once it is released, the App goes when the finalizers of others are taken off. */
  lemma {:induction false} ReleasedGoes(bound: int, m: Moment)
    requires m.cluster.app.Some? ==> m.cluster.app.value.deleting && APP_FINALIZER !in m.cluster.app.value.finalizers
    ensures CanGo(bound, m)
    decreases if m.cluster.app.Some? then 1 + |m.cluster.app.value.finalizers| else 0
  {
    if m.cluster.app.None? {
      GoneGoes(bound, m);
    } else {
      var app := m.cluster.app.value;
      var finalizer := if app.finalizers == [] then "" else app.finalizers[0];
      var left := app.(finalizers := WithoutOther(app.finalizers, finalizer));
      var m' := Moment(StoreApp(m.cluster, left, false), m.now);
      assert finalizer != APP_FINALIZER;
      assert LeavingStep(bound, m, Dropped(finalizer), m');
      ReleasedGoes(bound, m');
      StepGoes(bound, m, Dropped(finalizer), m');
    }
  }

  lemma {:induction false} ScaledGoes(bound: int, m: Moment)
    requires IsLeaving(m.cluster, bound) && m.cluster.app.value.replicas == 0 && FewDeadAt(m.cluster.fleet)
    ensures CanGo(bound, m)
    decreases Distance(m, bound)
  {
    if m.cluster.fleet == map[] {
      var turn := SomeTurn(m.cluster, m.now);
      var c' := CanReconcile(m.cluster, turn);
      var m' := Moment(c', m.now);
      ReleasedWithoutPods(m.cluster, turn, c');
      ReleasedGoes(bound, m');
      StepGoes(bound, m, Reconciled(turn), m');
    } else {
      var e, m' := SomeStepHelps(bound, m);
      ScaledGoes(bound, m');
      StepGoes(bound, m, e, m');
    }
  }

  lemma LeavingGoes(bound: int, m: Moment)
    requires IsLeaving(m.cluster, bound) && FewDeadAt(m.cluster.fleet)
    ensures CanGo(bound, m)
  {
    var app := m.cluster.app.value;
    if app.replicas == 0 {
      ScaledGoes(bound, m);
    } else {
      var turn := SomeTurn(m.cluster, m.now);
      var m' := Moment(StoreApp(m.cluster, app.(replicas := 0), false), m.now);
      SameWellKept(app, m'.cluster.app.value, m.cluster.fleet);
      assert LeavingStep(bound, m, Reconciled(turn), m');
      ReconcileKeeps(m.cluster, turn, m'.cluster);
      ScaledGoes(bound, m');
      StepGoes(bound, m, Reconciled(turn), m');
    }
  }

  lemma {:induction false} HeldRun(bound: int, moments: seq<Moment>, events: seq<LeavingEvent>, low: int, high: int)
    requires Runs.IsRunOf(LeavingSteps(bound), moments, events) && IsHeld(moments[0].cluster, bound, low, high)
    ensures IsHeld(moments[|events|].cluster, bound, low, high)
  {
    if events != [] {
      var last := |events| - 1;
      HeldRun(bound, moments[..|moments| - 1], events[..last], low, high);
      assert LeavingSteps(bound)(moments[last], events[last], moments[last + 1]);
      StepKeepsHeld(bound, moments[last], events[last], moments[last + 1], low, high);
    }
  }

  /**
   As long as nobody deletes a pod by hand, an ordered App that is being deleted can go if and only if at most
   one of its pods has ended without a Ready condition. With two of them its finalizer stays, whatever the
   controller, the other pods and the owners of other finalizers do.
   */
  lemma DeletionCondition(bound: int, m: Moment)
    requires IsLeaving(m.cluster, bound)
    ensures FewDeadAt(m.cluster.fleet) <==> CanGo(bound, m)
  {
    if FewDeadAt(m.cluster.fleet) {
      LeavingGoes(bound, m);
    } else {
      var low, high := TwoDead(m.cluster.fleet);
      assert forall o <- m.cluster.fleet :: o >= 0;
      forall m' | Runs.Leads(LeavingSteps(bound), m, m') ensures m'.cluster.app.Some? {
        var moments, events :| Runs.LeadsBy(LeavingSteps(bound), moments, events, m, m');
        HeldRun(bound, moments, events, low, high);
      }
    }
  }

  lemma TwoDead(fleet: Fleet) returns (low: int, high: int)
    requires !FewDeadAt(fleet)
    ensures DeadAt(fleet, low) && DeadAt(fleet, high) && low < high
  {
    var o, o' :| DeadAt(fleet, o) && DeadAt(fleet, o') && o != o';
    low, high := if o < o' then o else o', if o < o' then o' else o;
  }

  /** Such an App: two pods that have ended, and no other finalizer. */
  lemma HeldExample(app: App, revision: Revision) returns (c: Cluster)
    requires app.deleting && app.finalizers == [APP_FINALIZER] && app.replicas == 0 && !app.parallel
    ensures IsHeld(c, 2, 0, 1) && c.app == Some(app)
  {
    var s := Rollout.StuckExample(Scaled(app, 2), revision);
    c := Cluster(Some(app), s.fleet, []);
    SameWellKept(Scaled(app, 2).app, app, s.fleet);
    AlikeDead(Scaled(app, 2), s);
    var low, high := TwoDead(s.fleet);
    assert low in s.fleet.Keys && high in s.fleet.Keys;
    forall o <- s.fleet ensures IsStoredPod(o, s.fleet[o], Free) {
      assert IsKept(app, o, s.fleet[o]);
    }
  }

  /** Deleting one of two dead pods by hand frees the App, if there are no more of them. */
  lemma DeletingByHandFrees(bound: int, m: Moment, low: int, high: int, m': Moment)
    requires IsHeld(m.cluster, bound, low, high)
    requires forall o | DeadAt(m.cluster.fleet, o) :: o == low || o == high
    requires
      var fleet := m.cluster.fleet;
      m' == m.(cluster := m.cluster.(fleet := fleet[low := fleet[low].(terminating := true)]))
    ensures !CanGo(bound, m) && CanGo(bound, m')
  {
    assert !CanGo(bound, m) by {
      DeletionCondition(bound, m);
    }
    DeletedByHand(bound, m.cluster, low, high, m'.cluster);
    DeletionCondition(bound, m');
  }

  lemma DeletedByHand(bound: int, c: Cluster, low: int, high: int, c': Cluster)
    requires IsLeaving(c, bound) && low in c.fleet
    requires forall o | DeadAt(c.fleet, o) :: o == low || o == high
    requires c' == c.(fleet := c.fleet[low := c.fleet[low].(terminating := true)])
    ensures IsLeaving(c', bound) && FewDeadAt(c'.fleet)
  {
    assert IsStoredPod(low, c.fleet[low], Free);
    EvictKeeps(c.app.value, c.fleet, low);
    PodChangeKeeps(c, low, c.fleet[low].(terminating := true));
    assert forall o | DeadAt(c'.fleet, o) :: DeadAt(c.fleet, o);
  }
}
