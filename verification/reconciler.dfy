/** The App reconciler: the finalizer protocol around one update of the App, its pods and its revisions. */
module Reconciler {
  import opened Text
  import opened Kube
  import opened Identity
  import opened ReplicaStatus
  import opened Slots
  import opened Sync
  import opened Fleet
  import opened Revisions
  import Listing

  const APP_FINALIZER := "unicore.mcyou.cn/app-finalizer"

  /** One App, if it exists, with the pods it owns and its revisions. */
  datatype Cluster = Cluster(app: Option<App>, fleet: Fleet, revisions: seq<Revision>)

  /** What one reconcile meets: the time, a name for a new revision, and which requests fail. */
  datatype Turn = Turn(
    now: int, w: World, order: ClaimOrder, freshName: string, specSeen: bool,
    appFails: bool, historyFails: bool, statusFails: bool, deleteFails: string -> bool)

  // ---- UpdateApp ----

  /** The fields whose change makes the status worth storing. */
  predicate Consistent(stored: Status, status: Status) {
    && status.replicas == stored.replicas && status.currentReplicas == stored.currentReplicas
    && status.readyReplicas == stored.readyReplicas && status.availableReplicas == stored.availableReplicas
    && status.updatedReplicas == stored.updatedReplicas
    && status.currentRevision == stored.currentRevision && status.updateRevision == stored.updateRevision
  }

  function CurrentOf(app: App, revisions: seq<Revision>, update: Revision): Revision {
    FindNamed(revisions, app.status.currentRevision, update)
  }

  function JobFor(app: App, revisions: seq<Revision>, turn: Turn): Job {
    var update := Ensure(revisions, app.template, turn.freshName).update;
    Job(app, CurrentOf(app, revisions, update), update, turn.now)
  }

  datatype Stored = Stored(status: Status, failed: bool)

  function StoreStatus(app: App, status: Status, turn: Turn): Stored {
    var promoted := Promoted(app.strategy, status);
    if turn.specSeen && Consistent(app.status, promoted) then Stored(app.status, false)
    else if turn.statusFails then Stored(app.status, true)
    else Stored(promoted, false)
  }

  ghost predicate UpdatesOver(c: Cluster, app: App, turn: Turn, c': Cluster, failed: bool,
                              pods: seq<Pod>, replicas: seq<Pod>, surplus: seq<Pod>) {
    var ensured := Ensure(c.revisions, app.template, turn.freshName);
    var job := JobFor(app, c.revisions, turn);
    var acted := Act(job, replicas, surplus, turn.w);
    var stored := StoreStatus(app, Report(job, pods, replicas + surplus, acted.evicted), turn);
    var live := LiveNames(pods, job.current.name, job.update.name);
    var (left, stuck) := Truncate(ensured.revisions, c.revisions, live, LimitOf(app), turn.deleteFails);
    && LaidOut(job, c.fleet, pods, PodBuilder(app, turn.order), replicas, surplus)
    && c' == Cluster(Some(app.(status := stored.status)), PerformAll(app, c.fleet, acted.commands, turn.w), left)
    && failed == (acted.failed || stored.failed || stuck)
  }

  ghost predicate UpdatesApp(c: Cluster, app: App, turn: Turn, c': Cluster, failed: bool) {
    if Ensure(c.revisions, app.template, turn.freshName).changed && turn.historyFails then c' == c && failed
    else exists pods, replicas, surplus :: UpdatesOver(c, app, turn, c', failed, pods, replicas, surplus)
  }

  // ---- Reconcile ----

  function WithoutFinalizer(finalizers: seq<string>): seq<string> {
    if finalizers == [] then []
    else
      var last := |finalizers| - 1;
      WithoutFinalizer(finalizers[..last]) + (if finalizers[last] != APP_FINALIZER then [finalizers[last]] else [])
  }

  /** An App that is being deleted is gone as soon as it has no finalizer left. */
  function Settled(app: App): Option<App> {
    if app.deleting && app.finalizers == [] then None else Some(app)
  }

  function StoreApp(c: Cluster, app: App, fails: bool): Cluster {
    if fails then c else c.(app := Settled(app))
  }

  /** After an update that did not fail, an App that is being deleted and was seen without pods is released. */
  function Finish(c: Cluster, app: App, turn: Turn, mid: Cluster, failed: bool): Cluster {
    if app.deleting && !failed && APP_FINALIZER in app.finalizers && c.fleet == map[] && mid.app.Some?
    then StoreApp(mid, mid.app.value.(finalizers := WithoutFinalizer(app.finalizers)), turn.appFails)
    else mid
  }

  ghost predicate Reconciles(c: Cluster, turn: Turn, c': Cluster) {
    match c.app
    case None => c' == c
    case Some(app) =>
      if !app.deleting && APP_FINALIZER !in app.finalizers then
        c' == StoreApp(c, app.(finalizers := app.finalizers + [APP_FINALIZER]), turn.appFails)
      else if app.deleting && app.replicas != 0 then
        c' == StoreApp(c, app.(replicas := 0), turn.appFails)
      else
        exists mid, failed :: UpdatesApp(c, app, turn, mid, failed) && c' == Finish(c, app, turn, mid, failed)
  }

  // ---- the same, as the source runs it ----

  class AppReconciler {
    var app: Option<App>
    var fleet: Fleet
    const history: History
    const podController: PodController

    constructor (app: Option<App>, fleet: Fleet, history: History, podController: PodController)
      ensures this.app == app && this.fleet == fleet && this.history == history && this.podController == podController
    {
      this.app, this.fleet, this.history, this.podController := app, fleet, history, podController;
    }

    function State(): Cluster
      reads this, history
    {
      Cluster(app, fleet, history.revisions)
    }

    method ListPods() returns (pods: seq<Pod>)
      requires Keyed(fleet)
      ensures Lists(fleet, pods)
    {
      pods := Listing.ListValues(OrdinalOf, fleet);
    }

    method UpdateApp(app: App, pods: seq<Pod>, turn: Turn) returns (failed: bool)
      requires this.app == Some(app) && Keyed(fleet) && Lists(fleet, pods)
      modifies this, history, podController
      ensures UpdatesApp(old(State()), app, turn, State(), failed) && this.app.Some?
    {
      ghost var before := State();
      var listed := history.revisions;
      var storeFailed, update := history.EnsureRevision(app.template, turn.freshName, turn.historyFails);
      if storeFailed {
        return true;
      }
      var current := FindCurrent(listed, app.status.currentRevision, update);
      var job := Job(app, current, update, turn.now);
      assert job == JobFor(app, listed, turn);

      ListedHaveOrdinals(fleet, pods);
      var sent := |podController.issued|;
      var status, actFailed, replicas, surplus :=
        podController.ApplyUpdate(job, pods, PodBuilder(app, turn.order), turn.w);
      fleet := PerformAll(app, fleet, podController.issued[sent..], turn.w);
      assert podController.issued[sent..] == Act(job, replicas, surplus, turn.w).commands;

      var statusFailed := UpdateAppStatus(app, status, turn);
      var truncateFailed := history.TruncateHistory(app, pods, listed, current.name, update.name, turn.deleteFails);
      failed := actFailed || statusFailed || truncateFailed;
      assert UpdatesOver(before, app, turn, State(), failed, pods, replicas, surplus);
    }

    method UpdateAppStatus(app: App, status: Status, turn: Turn) returns (failed: bool)
      requires this.app == Some(app)
      modifies this`app
      ensures var stored := StoreStatus(app, status, turn);
              this.app == Some(app.(status := stored.status)) && failed == stored.failed
    {
      var promoted := status;
      if
        && !app.strategy.onDelete
        && status.updatedReplicas == status.replicas && status.readyReplicas == status.replicas
      {
        promoted := status.(currentReplicas := status.updatedReplicas, currentRevision := status.updateRevision);
      }
      if turn.specSeen && Consistent(app.status, promoted) {
        return false;
      }
      if turn.statusFails {
        return true;
      }
      this.app := Some(app.(status := promoted));
      return false;
    }

    method Reconcile(turn: Turn)
      requires Keyed(fleet)
      modifies this, history, podController
      ensures Reconciles(old(State()), turn, State())
    {
      if app.None? {
        return;
      }
      ghost var before := State();
      var found := app.value;
      if !found.deleting {
        var hasFinalizer := false;
        for i := 0 to |found.finalizers|
          invariant !hasFinalizer && APP_FINALIZER !in found.finalizers[..i]
        {
          if found.finalizers[i] == APP_FINALIZER {
            hasFinalizer := true;
            break;
          }
        }
        if !hasFinalizer {
          if !turn.appFails {
            app := Some(found.(finalizers := found.finalizers + [APP_FINALIZER]));
          }
          return;
        }
      }

      var pods := ListPods();
      if found.deleting && found.replicas != 0 {
        if !turn.appFails {
          app := Settled(found.(replicas := 0));
        }
        return;
      }

      var failed := UpdateApp(found, pods, turn);
      ghost var mid := State();
      assert UpdatesApp(before, found, turn, mid, failed);
      if found.deleting && !failed {
        var remaining, removed := DropFinalizer(found.finalizers);
        EmptyListing(before.fleet, pods);
        if removed && |pods| == 0 && !turn.appFails {
          app := Settled(app.value.(finalizers := remaining));
        }
      }
      assert State() == Finish(before, found, turn, mid, failed);
    }
  }

  method DropFinalizer(finalizers: seq<string>) returns (remaining: seq<string>, removed: bool)
    ensures remaining == WithoutFinalizer(finalizers) && removed == (APP_FINALIZER in finalizers)
  {
    remaining, removed := [], false;
    for i := 0 to |finalizers|
      invariant remaining == WithoutFinalizer(finalizers[..i]) && removed == (APP_FINALIZER in finalizers[..i])
    {
      assert finalizers[..i + 1][..i] == finalizers[..i];
      if finalizers[i] != APP_FINALIZER {
        remaining := remaining + [finalizers[i]];
      } else {
        removed := true;
      }
    }
    assert finalizers[..|finalizers|] == finalizers;
  }

  lemma ListedHaveOrdinals(fleet: Fleet, pods: seq<Pod>)
    requires Keyed(fleet) && Lists(fleet, pods)
    ensures HaveOrdinals(pods)
  {}

  lemma EmptyListing(fleet: Fleet, pods: seq<Pod>)
    requires Lists(fleet, pods)
    ensures |pods| == 0 <==> fleet == map[]
  {
    if |pods| > 0 {
      assert pods[0] in pods;
    } else {
      assert forall o <- fleet :: fleet[o] in pods;
    }
  }
}
