/**
 An App gets where it is to go: what the first reconciles make of a new App, and the run of the whole reconciler,
 its pods and the clock that leads from there, and from any steady App that can get there, to the final form.
 */
module Arrival {
  import opened Text
  import opened Kube
  import opened Identity
  import opened Slots
  import opened Sync
  import opened Discipline
  import opened Fleet
  import opened Revisions
  import opened Reconciler
  import opened Lifecycle
  import opened Steady
  import Deletion
  import Rollout
  import Runs

  // ---- the first reconcile ----

  /** An App that is not being deleted and does not have the finalizer. */
  predicate LacksFinalizer(c: Cluster) {
    c.app.Some? && !c.app.value.deleting && APP_FINALIZER !in c.app.value.finalizers
  }

  /**
   It gets the finalizer, behind the ones that it has, and nothing else happens to it, its pods or its history,
   whatever other requests would do. If the request fails nothing happens at all, and the next reconcile tries again.
   */
  lemma FinalizerComesFirst(c: Cluster, turn: Turn, c': Cluster)
    requires LacksFinalizer(c) && Reconciles(c, turn, c')
    ensures turn.appFails ==> c' == c && LacksFinalizer(c')
    ensures !turn.appFails ==>
              && c'.fleet == c.fleet && c'.revisions == c.revisions && c'.app.Some?
              && |c'.app.value.finalizers| == |c.app.value.finalizers| + 1
              && c.app.value.finalizers < c'.app.value.finalizers
              && c'.app.value.finalizers[|c.app.value.finalizers|] == APP_FINALIZER
              && c'.app.value == c.app.value.(finalizers := c'.app.value.finalizers)
  {}

  /** As long as it does not have the finalizer it gets no pod and no revision. */
  lemma NoFinalizerNoPods(c: Cluster, turn: Turn, c': Cluster)
    requires LacksFinalizer(c) && Reconciles(c, turn, c')
    ensures c'.fleet == c.fleet && c'.revisions == c.revisions
  {
    FinalizerComesFirst(c, turn, c');
  }

  // ---- a steady App ----

  function ConfigAt(m: Moment, update: Revision, bound: int): Rollout.Config
    requires m.cluster.app.Some?
  {
    ConfigOf(m.cluster.app.value, update, bound)
  }

  /** Some run of the reconciler, the pods and the clock leads to the final form. */
  ghost predicate CanArrive(m: Moment, update: Revision, bound: int) {
    exists m' :: Runs.Leads(SteadySteps(update, bound), m, m') && HasArrived(m', update, bound)
  }

  ghost predicate HasArrived(m: Moment, update: Revision, bound: int) {
    IsSteady(m.cluster, update, bound) && Rollout.Final(ConfigAt(m, update, bound), ViewOf(m, update))
  }

  lemma CanReconcile(c: Cluster, turn: Turn, bound: int) returns (c': Cluster)
    requires IsLive(c, bound) && !turn.historyFails
    ensures Reconciles(c, turn, c')
  {
    StoredIsKeyed(c.fleet, Free);
    var app := c.app.value;
    var mid, failed := Deletion.CanUpdate(c, app, turn);
    c' := Finish(c, app, turn, mid, failed);
  }

  /** What the rollout says of a steady moment. */
  lemma SteadyFacts(m: Moment, update: Revision, bound: int)
    requires IsSteady(m.cluster, update, bound)
    ensures
      var config, s := ConfigAt(m, update, bound), ViewOf(m, update);
      && Rollout.ValidConfig(config) && Rollout.Inv(config, s) && Rollout.InRange(config, s)
      && forall o <- s.fleet :: !s.fleet[o].phase.Unset?
  {
    var app := m.cluster.app.value;
    SameWellKept(app, ConfigAt(m, update, bound).app, m.cluster.fleet);
    assert forall o <- m.cluster.fleet :: IsKept(app, o, m.cluster.fleet[o]);
  }

  /** A step that the rollout could make of a pod or the clock is one of the cluster. */
  lemma HappensToo(m: Moment, update: Revision, bound: int, event: Rollout.Event, s': Rollout.State)
    returns (m': Moment)
    requires IsSteady(m.cluster, update, bound) && !event.Reconcile?
    requires Rollout.Step(ConfigAt(m, update, bound), ViewOf(m, update), event, s')
    ensures SteadyStep(update, bound, m, Happened(event), m') && ViewOf(m', update) == s'
  {
    m' := Moment(m.cluster.(fleet := s'.fleet), s'.now);
  }

  /** A reconcile in which nothing fails, as the rollout sees it. */
  lemma TurnHelps(m: Moment, update: Revision, bound: int) returns (e: SteadyEvent, m': Moment)
    requires IsSteady(m.cluster, update, bound)
    ensures SteadyStep(update, bound, m, e, m') && e.Turned? && NothingFails(e.turn.w)
  {
    var turn := Deletion.SomeTurn(m.cluster, m.now);
    var c' := CanReconcile(m.cluster, turn, bound);
    SteadyReconcile(m.cluster, turn, c', update, bound);
    e, m' := Turned(turn), Moment(c', m.now);
  }

  /** Short of the final form some step of the cluster brings it closer. */
  lemma SomeStepHelps(m: Moment, update: Revision, bound: int) returns (e: SteadyEvent, m': Moment)
    requires IsSteady(m.cluster, update, bound)
    requires var config, s := ConfigAt(m, update, bound), ViewOf(m, update);
             Rollout.ByOrdinal(config) && Rollout.AtMostOneDead(config, s) && !Rollout.Final(config, s)
    ensures SteadyStep(update, bound, m, e, m')
    ensures IsSteady(m'.cluster, update, bound) && SameSpec(m'.cluster.app.value, m.cluster.app.value)
    ensures var config, s' := ConfigAt(m, update, bound), ViewOf(m', update);
            Rollout.AtMostOneDead(config, s') && Rollout.Total(config, s') < Rollout.Total(config, ViewOf(m, update))
  {
    var config, s := ConfigAt(m, update, bound), ViewOf(m, update);
    SteadyFacts(m, update, bound);
    if NextChange(Rollout.JobAt(config, s), s.fleet, bound).Stay? {
      var event, s' := Rollout.WaitingOnPods(config, s);
      m' := HappensToo(m, update, bound, event, s');
      e := Happened(event);
    } else {
      e, m' := TurnHelps(m, update, bound);
    }
    SteadyStepIsStep(update, bound, m, e, m');
    Rollout.StepKeepsAtMostOneDead(config, s, EventOf(m, e), ViewOf(m', update));
    if e.Turned? {
      ReconcileLowersTotal(m, update, bound, e, m');
    }
  }

  lemma ReconcileLowersTotal(m: Moment, update: Revision, bound: int, e: SteadyEvent, m': Moment)
    requires IsSteady(m.cluster, update, bound) && SteadyStep(update, bound, m, e, m')
    requires e.Turned? && NothingFails(e.turn.w) && Rollout.ByOrdinal(ConfigAt(m, update, bound))
    requires var config, s := ConfigAt(m, update, bound), ViewOf(m, update);
             !NextChange(Rollout.JobAt(config, s), s.fleet, bound).Stay?
    ensures var config := ConfigAt(m, update, bound);
            Rollout.Total(config, ViewOf(m', update)) < Rollout.Total(config, ViewOf(m, update))
  {
    var config, s, s' := ConfigAt(m, update, bound), ViewOf(m, update), ViewOf(m', update);
    var event := EventOf(m, e);
    SteadyFacts(m, update, bound);
    SteadyStepIsStep(update, bound, m, e, m');
    Rollout.SyncMakesNextChange(config, s, event.w, event.build, s');
    Rollout.ChangeLowersTotal(config, s, event.build, s');
  }

  lemma {:induction false} SteadyArrives(m: Moment, update: Revision, bound: int)
    requires IsSteady(m.cluster, update, bound)
    requires var config := ConfigAt(m, update, bound);
             Rollout.ByOrdinal(config) && Rollout.AtMostOneDead(config, ViewOf(m, update))
    ensures CanArrive(m, update, bound)
    decreases Rollout.Total(ConfigAt(m, update, bound), ViewOf(m, update))
  {
    var steps := SteadySteps(update, bound);
    if HasArrived(m, update, bound) {
      Runs.StayingLeads(steps, m);
    } else {
      var e, mid := SomeStepHelps(m, update, bound);
      assert ConfigAt(mid, update, bound) == ConfigAt(m, update, bound);
      SteadyArrives(mid, update, bound);
      var m' :| Runs.Leads(steps, mid, m') && HasArrived(m', update, bound);
      Runs.StepLeads(steps, m, e, mid, m');
    }
  }

  /** The whole reconciler can bring a steady App to its final form if and only if at most one surplus pod is dead. */
  lemma ArrivalCondition(m: Moment, update: Revision, bound: int)
    requires IsSteady(m.cluster, update, bound) && Rollout.ByOrdinal(ConfigAt(m, update, bound))
    ensures Rollout.AtMostOneDead(ConfigAt(m, update, bound), ViewOf(m, update)) <==> CanArrive(m, update, bound)
  {
    var config, s := ConfigAt(m, update, bound), ViewOf(m, update);
    SteadyFacts(m, update, bound);
    if Rollout.AtMostOneDead(config, s) {
      SteadyArrives(m, update, bound);
    } else {
      var low, high :| Rollout.IsDead(config, s, low) && Rollout.IsDead(config, s, high) && low < high;
      forall m' | Runs.Leads(SteadySteps(update, bound), m, m') ensures !HasArrived(m', update, bound) {
        var moments, events :| Runs.LeadsBy(SteadySteps(update, bound), moments, events, m, m');
        SteadyRunIsRollout(update, bound, moments, events);
        Rollout.RunKeepsBothDead(config, Views(moments, update), Events(moments, events), low, high);
        assert Views(moments, update)[|events|] == ViewOf(m', update);
      }
    }
  }

  // ---- a new App ----

  /** An ordered App that has just been created, with whatever finalizers and history, and no pods. */
  ghost predicate IsNewborn(c: Cluster, bound: int) {
    && LacksFinalizer(c) && c.fleet == map[] && ValidHistory(c.revisions)
    && var app := c.app.value;
       && !app.parallel && app.replicas <= bound <= MAX_INT32
       && (IsRolling(app) ==> !app.strategy.inPlace && !app.strategy.unordered)
  }

  /** The App with the finalizer, and with whatever status. */
  predicate IsGrown(before: App, after: App) {
    after == before.(finalizers := before.finalizers + [APP_FINALIZER], status := after.status)
  }

  lemma FirstStep(m: Moment, bound: int) returns (first: Turn, held: Moment)
    requires IsNewborn(m.cluster, bound)
    ensures forall update :: SteadyStep(update, bound, m, Turned(first), held)
    ensures IsLive(held.cluster, bound) && held.cluster.fleet == map[] && held.now == m.now
    ensures IsGrown(m.cluster.app.value, held.cluster.app.value)
  {
    var app := m.cluster.app.value;
    first := Deletion.SomeTurn(m.cluster, m.now);
    held := Moment(StoreApp(m.cluster, app.(finalizers := app.finalizers + [APP_FINALIZER]), false), m.now);
  }

  /** Two reconciles in which nothing fails make a new App steady. */
  lemma NewbornBecomesSteady(m: Moment, bound: int) returns (update: Revision, m': Moment)
    requires IsNewborn(m.cluster, bound)
    ensures Runs.Leads(SteadySteps(update, bound), m, m')
    ensures IsSteady(m'.cluster, update, bound) && IsGrown(m.cluster.app.value, m'.cluster.app.value)
    ensures Rollout.AtMostOneDead(ConfigAt(m', update, bound), ViewOf(m', update))
  {
    var first, held := FirstStep(m, bound);
    var second := Deletion.SomeTurn(held.cluster, held.now);
    var c' := CanReconcile(held.cluster, second, bound);
    update := JobFor(held.cluster.app.value, held.cluster.revisions, second).update;
    BecomesSteady(held.cluster, second, c', bound);
    m' := Moment(c', m.now);
    var steps := SteadySteps(update, bound);
    Runs.StayingLeads(steps, m');
    Runs.StepLeads(steps, held, Turned(second), m', m');
    Runs.StepLeads(steps, m, Turned(first), held, m');
    NoSurplus(held.cluster, second, c', bound);
  }

  /** The first reconcile that makes pods makes none but those asked for, so that there is no surplus. */
  lemma NoSurplus(c: Cluster, turn: Turn, c': Cluster, bound: int)
    requires IsLive(c, bound) && c.fleet == map[] && ValidTurn(c, turn) && Reconciles(c, turn, c')
    ensures forall o <- c'.fleet :: 0 <= o < c.app.value.replicas
  {
    var app := c.app.value;
    var mid, failed :| UpdatesApp(c, app, turn, mid, failed) && c' == Finish(c, app, turn, mid, failed);
    var job, build := JobFor(app, c.revisions, turn), PodBuilder(app, turn.order);
    assert mid.fleet == c.fleet || mid.fleet == Changed(job, c.fleet, build, NextChange(job, c.fleet, bound)) by {
      UpdateMakesNextChange(c, app, turn, mid, failed, bound);
    }
    FirstChange(job, c.fleet, build, bound);
  }

  lemma FirstChange(job: Job, fleet: Fleet, build: Builder, bound: int)
    requires fleet == map[]
    ensures forall o <- Changed(job, fleet, build, NextChange(job, fleet, bound)) :: 0 <= o < job.app.replicas
  {
    ChangeInRange(job, fleet, bound);
  }

  /** From a new ordered App some run leads to the final form: as many healthy pods as it asks for. */
  lemma NewAppArrives(m: Moment, bound: int) returns (update: Revision, m': Moment)
    requires IsNewborn(m.cluster, bound)
    ensures Runs.Leads(SteadySteps(update, bound), m, m') && HasArrived(m', update, bound)
    ensures update.data == m.cluster.app.value.template
    ensures IsGrown(m.cluster.app.value, m'.cluster.app.value)
    ensures forall o :: o in m'.cluster.fleet <==> 0 <= o < m.cluster.app.value.replicas
  {
    var mid;
    update, mid := NewbornBecomesSteady(m, bound);
    SteadyArrives(mid, update, bound);
    m' :| Runs.Leads(SteadySteps(update, bound), mid, m') && HasArrived(m', update, bound);
    SpecStays(mid, m', update, bound);
    Runs.LeadsOn(SteadySteps(update, bound), m, mid, m');
  }

  lemma SpecStays(m: Moment, m': Moment, update: Revision, bound: int)
    requires IsSteady(m.cluster, update, bound) && Runs.Leads(SteadySteps(update, bound), m, m')
    ensures m'.cluster.app.Some? && SameSpec(m'.cluster.app.value, m.cluster.app.value)
  {
    var moments, events :| Runs.LeadsBy(SteadySteps(update, bound), moments, events, m, m');
    SteadyRunIsRollout(update, bound, moments, events);
  }
}
