/**
 The status that a reconcile stores is true: each counter is the number of stored pods that it is about, the names
 are those of the two revisions, and a complete update promotes its revision.
 */
module Tally {
  import opened Text
  import opened Kube
  import opened Identity
  import opened ReplicaStatus
  import opened Slots
  import opened Sync
  import opened Discipline
  import opened Fleet
  import opened Requests
  import opened Revisions
  import opened Reconciler
  import opened Lifecycle

  // ---- counting a listing is counting the fleet ----

  /** The ordinals of the stored pods that pass a test. */
  function Those(fleet: Fleet, counts: Pod -> bool): set<int> {
    set o <- fleet | counts(fleet[o])
  }

  function KeysOf(key: Pod -> int, pods: seq<Pod>, counts: Pod -> bool): set<int> {
    set pod <- pods | counts(pod) :: key(pod)
  }

  /** Of the pods that pass the test no two have one key. */
  ghost predicate DistinctKeys(key: Pod -> int, pods: seq<Pod>, counts: Pod -> bool) {
    forall i, j | 0 <= i < j < |pods| && counts(pods[i]) && counts(pods[j]) :: key(pods[i]) != key(pods[j])
  }

  lemma LastIsNew(key: Pod -> int, front: seq<Pod>, last: Pod, counts: Pod -> bool)
    requires DistinctKeys(key, front + [last], counts)
    ensures DistinctKeys(key, front, counts)
    ensures counts(last) ==> key(last) !in KeysOf(key, front, counts)
  {
    var pods := front + [last];
    assert forall i | 0 <= i < |front| :: pods[i] == front[i];
    assert pods[|front|] == last;
  }

  lemma {:induction false} CountIsSize(key: Pod -> int, pods: seq<Pod>, counts: Pod -> bool)
    requires DistinctKeys(key, pods, counts)
    ensures Count(pods, counts) == |KeysOf(key, pods, counts)|
  {
    if pods != [] {
      var front, last := pods[..|pods| - 1], pods[|pods| - 1];
      assert pods == front + [last];
      LastIsNew(key, front, last, counts);
      CountIsSize(key, front, counts);
      OneMoreKey(key, front, last, counts);
    }
  }

  lemma OneMoreKey(key: Pod -> int, front: seq<Pod>, last: Pod, counts: Pod -> bool)
    ensures KeysOf(key, front + [last], counts)
         == KeysOf(key, front, counts) + (if counts(last) then {key(last)} else {})
  {
    assert forall pod :: pod in front + [last] <==> pod in front || pod == last;
  }

  lemma {:induction false} CountPermuted(a: seq<Pod>, b: seq<Pod>, counts: Pod -> bool)
    requires multiset(a) == multiset(b)
    ensures Count(a, counts) == Count(b, counts)
  {
    if a == [] {
      assert |b| == |multiset(b)| == 0;
    } else {
      var front, last := a[..|a| - 1], a[|a| - 1];
      assert a == front + [last] && last in multiset(b);
      var i :| 0 <= i < |b| && b[i] == last;
      var before, after := b[..i], b[i + 1..];
      assert b == before + [last] + after;
      SameRest(front, before, after, last);
      CountPermuted(front, before + after, counts);
      CountConcat(before + [last], after, counts);
      CountConcat(before, [last], counts);
      CountConcat(before, after, counts);
      CountConcat(front, [last], counts);
    }
  }

  lemma SameRest(front: seq<Pod>, before: seq<Pod>, after: seq<Pod>, pod: Pod)
    requires multiset(front + [pod]) == multiset(before + [pod] + after)
    ensures multiset(front) == multiset(before + after)
  {
    assert multiset(front + [pod]) == multiset(front) + multiset{pod};
    assert multiset(before + [pod] + after) == multiset(before + after) + multiset{pod};
    assert multiset(front) == multiset(front) + multiset{pod} - multiset{pod};
  }

  /** New pods have no phase yet, and so are in no counter. */
  ghost predicate SkipsNew(counts: Pod -> bool) {
    forall pod: Pod :: counts(pod) ==> IsStored(pod)
  }

  ghost predicate BuildsNew(build: Builder) {
    forall revision, i: nat :: build(revision, i).phase.Unset?
  }

  lemma PodBuilderBuildsNew(app: App, order: ClaimOrder)
    ensures BuildsNew(PodBuilder(app, order))
  {}

  lemma CountReplicas(job: Job, fleet: Fleet, pods: seq<Pod>, build: Builder, replicas: seq<Pod>, counts: Pod -> bool)
    requires Keyed(fleet) && Lists(fleet, pods) && replicas == Replicas(job, pods, build)
    requires SkipsNew(counts) && BuildsNew(build)
    ensures Count(replicas, counts) == |set o <- fleet | o < job.app.replicas && counts(fleet[o])|
  {
    FleetReplicas(job, fleet, pods, build);
    forall i | 0 <= i < |replicas| && counts(replicas[i]) ensures i in fleet && replicas[i] == fleet[i] {
      assert i !in fleet ==> IsBuilt(job, build, i, replicas[i]);
    }
    CountIsSize(OrdinalOf, replicas, counts);
    assert KeysOf(OrdinalOf, replicas, counts) == set o <- fleet | o < job.app.replicas && counts(fleet[o]) by {
      forall o | o in fleet && o < job.app.replicas && counts(fleet[o])
        ensures o in KeysOf(OrdinalOf, replicas, counts)
      {
        assert replicas[o] in replicas;
      }
    }
  }

  lemma CountSurplus(fleet: Fleet, pods: seq<Pod>, n: nat, surplus: seq<Pod>, counts: Pod -> bool)
    requires Keyed(fleet) && Lists(fleet, pods) && multiset(surplus) == multiset(Surplus(pods, n))
    ensures Count(surplus, counts) == |set o <- fleet | o >= n && counts(fleet[o])|
  {
    var listed := Surplus(pods, n);
    SurplusKeepsAll(pods, n);
    CountPermuted(surplus, listed, counts);
    CountIsSize(OrdinalOf, listed, counts);
    KeysOfSurplus(OrdinalOf, fleet, listed, n, counts);
  }

  lemma KeysOfSurplus(key: Pod -> int, fleet: Fleet, listed: seq<Pod>, n: nat, counts: Pod -> bool)
    requires forall pod <- listed :: key(pod) in fleet && key(pod) >= n && fleet[key(pod)] == pod
    requires forall o <- fleet | o >= n :: fleet[o] in listed && key(fleet[o]) == o
    ensures KeysOf(key, listed, counts) == set o <- fleet | o >= n && counts(fleet[o])
  {}

  /** The pods as laid out show every stored pod once. */
  lemma CountLaidOut(job: Job, fleet: Fleet, pods: seq<Pod>, build: Builder, replicas: seq<Pod>, surplus: seq<Pod>,
                     counts: Pod -> bool)
    requires Keyed(fleet) && LaidOut(job, fleet, pods, build, replicas, surplus)
    requires SkipsNew(counts) && BuildsNew(build)
    ensures Count(replicas + surplus, counts) == |Those(fleet, counts)|
  {
    CountReplicas(job, fleet, pods, build, replicas, counts);
    CountSurplus(fleet, pods, job.app.replicas, surplus, counts);
    CountConcat(replicas, surplus, counts);
    BelowAndFrom(fleet, job.app.replicas, counts);
  }

  lemma BelowAndFrom(fleet: Fleet, n: nat, counts: Pod -> bool)
    ensures |Those(fleet, counts)|
         == |set o <- fleet | o < n && counts(fleet[o])| + |set o <- fleet | o >= n && counts(fleet[o])|
  {
    var low, high := set o <- fleet | o < n && counts(fleet[o]), set o <- fleet | o >= n && counts(fleet[o]);
    forall o ensures o in Those(fleet, counts) <==> o in low + high {}
    assert Those(fleet, counts) == low + high && low !! high;
  }

  // ---- what a run reports ----

  predicate IsReadyPod(pod: Pod) {
    pod.phase.Running? && IsReady(pod)
  }

  /** Ready for longer than an App asks for that asks for some time. */
  predicate IsLongReady(pod: Pod, minReadySeconds: int, now: int) {
    && pod.phase.Running? && pod.ready.Since?
    && minReadySeconds != 0 && now > pod.ready.at + minReadySeconds * SECOND
  }

  predicate IsStayingAt(pod: Pod, revision: string) {
    !pod.terminating && RevisionOf(pod) == revision
  }

  /** The counters of a status are the numbers of stored pods that they are about. */
  ghost predicate CountsFleet(job: Job, fleet: Fleet, status: Status, evicted: bool) {
    var seconds := job.app.strategy.minReadySeconds;
    && status.replicas == |fleet|
    && status.readyReplicas == |set o <- fleet | IsReadyPod(fleet[o])|
    && status.availableReplicas == |set o <- fleet | IsLongReady(fleet[o], seconds, job.now)|
    && status.updatedReplicas == |set o <- fleet | IsStayingAt(fleet[o], job.update.name)|
    && status.currentReplicas
    == |set o <- fleet | IsStayingAt(fleet[o], job.current.name)| - (if evicted then 1 else 0)
    && status.updatedAvailableReplicas == |set o <- fleet |
           LABEL_REVISION in fleet[o].labels && RevisionOf(fleet[o]) == job.update.name
           && IsLongReady(fleet[o], seconds, job.now)|
    && status.currentRevision == job.current.name && status.updateRevision == job.update.name
  }

  ghost predicate AllStored(fleet: Fleet) {
    forall o <- fleet :: IsStored(fleet[o])
  }

  /** One counter: how many pods, as laid out, pass a test. */
  lemma OneCounter(job: Job, fleet: Fleet, pods: seq<Pod>, build: Builder, replicas: seq<Pod>, surplus: seq<Pod>,
                   counts: Pod -> bool, those: set<int>)
    requires Keyed(fleet) && LaidOut(job, fleet, pods, build, replicas, surplus) && BuildsNew(build)
    requires SkipsNew(counts) && forall o :: o in those <==> o in fleet && counts(fleet[o])
    ensures Count(replicas + surplus, counts) == |those|
  {
    CountLaidOut(job, fleet, pods, build, replicas, surplus, counts);
    forall o ensures o in those <==> o in Those(fleet, counts) {}
    assert those == Those(fleet, counts);
  }

  /** The same numbers, counted over a list. */
  predicate CountsList(job: Job, laidOut: seq<Pod>, status: Status, evicted: bool) {
    var seconds, now := job.app.strategy.minReadySeconds, job.now;
    var current, update := job.current.name, job.update.name;
    && status.replicas == Count(laidOut, IsStored)
    && status.readyReplicas == Count(laidOut, CountsAsReady)
    && status.availableReplicas == Count(laidOut, pod => CountsAsReady(pod) && ReadyForLong(pod, seconds, now))
    && status.updatedReplicas == Count(laidOut, pod => CountsAtRevision(pod, update))
    && status.currentReplicas
    == Count(laidOut, pod => CountsAtRevision(pod, current)) - (if evicted then 1 else 0)
    && status.updatedAvailableReplicas
    == Count(laidOut, pod => CountsAsReadyAt(pod, update) && ReadyForLong(pod, seconds, now))
    && status.currentRevision == current && status.updateRevision == update
  }

  lemma ReportCountsList(job: Job, pods: seq<Pod>, laidOut: seq<Pod>, evicted: bool)
    ensures CountsList(job, laidOut, Report(job, pods, laidOut, evicted), evicted)
  {}

  /** The pods of a fleet as a run lays them out. */
  ghost predicate Shows(job: Job, fleet: Fleet, pods: seq<Pod>, build: Builder, replicas: seq<Pod>, surplus: seq<Pod>) {
    && Keyed(fleet) && AllStored(fleet) && BuildsNew(build)
    && LaidOut(job, fleet, pods, build, replicas, surplus)
  }

  lemma StoredCounter(job: Job, fleet: Fleet, pods: seq<Pod>, build: Builder, replicas: seq<Pod>, surplus: seq<Pod>)
    requires Shows(job, fleet, pods, build, replicas, surplus)
    ensures Count(replicas + surplus, IsStored) == |fleet|
  {
    OneCounter(job, fleet, pods, build, replicas, surplus, IsStored, fleet.Keys);
    assert |fleet.Keys| == |fleet|;
  }

  lemma ReadyCounter(job: Job, fleet: Fleet, pods: seq<Pod>, build: Builder, replicas: seq<Pod>, surplus: seq<Pod>)
    requires Shows(job, fleet, pods, build, replicas, surplus)
    ensures Count(replicas + surplus, CountsAsReady) == |set o <- fleet | IsReadyPod(fleet[o])|
  {
    OneCounter(job, fleet, pods, build, replicas, surplus, CountsAsReady, set o <- fleet | IsReadyPod(fleet[o]));
  }

  lemma AvailableCounter(job: Job, fleet: Fleet, pods: seq<Pod>, build: Builder, replicas: seq<Pod>, surplus: seq<Pod>)
    requires Shows(job, fleet, pods, build, replicas, surplus)
    ensures
      var seconds, now := job.app.strategy.minReadySeconds, job.now;
      Count(replicas + surplus, pod => CountsAsReady(pod) && ReadyForLong(pod, seconds, now))
      == |set o <- fleet | IsLongReady(fleet[o], seconds, now)|
  {
    var seconds, now := job.app.strategy.minReadySeconds, job.now;
    OneCounter(job, fleet, pods, build, replicas, surplus,
               pod => CountsAsReady(pod) && ReadyForLong(pod, seconds, now),
               set o <- fleet | IsLongReady(fleet[o], seconds, now));
  }

  lemma RevisionCounter(job: Job, fleet: Fleet, pods: seq<Pod>, build: Builder, replicas: seq<Pod>, surplus: seq<Pod>,
                        revision: string)
    requires Shows(job, fleet, pods, build, replicas, surplus)
    ensures Count(replicas + surplus, pod => CountsAtRevision(pod, revision))
         == |set o <- fleet | IsStayingAt(fleet[o], revision)|
  {
    OneCounter(job, fleet, pods, build, replicas, surplus, pod => CountsAtRevision(pod, revision),
               set o <- fleet | IsStayingAt(fleet[o], revision));
  }

  lemma UpdatedAvailableCounter(job: Job, fleet: Fleet, pods: seq<Pod>, build: Builder, replicas: seq<Pod>,
                                surplus: seq<Pod>)
    requires Shows(job, fleet, pods, build, replicas, surplus)
    ensures
      var seconds, now, update := job.app.strategy.minReadySeconds, job.now, job.update.name;
      Count(replicas + surplus, pod => CountsAsReadyAt(pod, update) && ReadyForLong(pod, seconds, now))
      == |set o <- fleet |
             LABEL_REVISION in fleet[o].labels && RevisionOf(fleet[o]) == update
             && IsLongReady(fleet[o], seconds, now)|
  {
    var seconds, now, update := job.app.strategy.minReadySeconds, job.now, job.update.name;
    OneCounter(job, fleet, pods, build, replicas, surplus,
               pod => CountsAsReadyAt(pod, update) && ReadyForLong(pod, seconds, now),
               set o <- fleet |
                 LABEL_REVISION in fleet[o].labels && RevisionOf(fleet[o]) == update
                 && IsLongReady(fleet[o], seconds, now));
  }

  /** The counters that a run reports, however the pods were listed and laid out. */
  lemma ReportCountsFleet(job: Job, fleet: Fleet, pods: seq<Pod>, build: Builder, replicas: seq<Pod>,
                          surplus: seq<Pod>, evicted: bool)
    requires Shows(job, fleet, pods, build, replicas, surplus)
    ensures CountsFleet(job, fleet, Report(job, pods, replicas + surplus, evicted), evicted)
  {
    ReportCountsList(job, pods, replicas + surplus, evicted);
    StoredCounter(job, fleet, pods, build, replicas, surplus);
    ReadyCounter(job, fleet, pods, build, replicas, surplus);
    AvailableCounter(job, fleet, pods, build, replicas, surplus);
    RevisionCounter(job, fleet, pods, build, replicas, surplus, job.current.name);
    RevisionCounter(job, fleet, pods, build, replicas, surplus, job.update.name);
    UpdatedAvailableCounter(job, fleet, pods, build, replicas, surplus);
  }

  // ---- what a reconcile stores ----

  /** Every stored pod is running, ready, staying and at the update revision. */
  ghost predicate AllUpdated(job: Job, fleet: Fleet) {
    forall o <- fleet :: IsReadyPod(fleet[o]) && IsStayingAt(fleet[o], job.update.name)
  }

  /** A complete update, which promotes its revision; with OnDelete none ever does. */
  ghost predicate IsComplete(job: Job, fleet: Fleet) {
    !job.app.strategy.onDelete && AllUpdated(job, fleet)
  }

  /** What a stored status says of the fleet that the run found. */
  ghost predicate StatusIsTrue(job: Job, fleet: Fleet, status: Status, evicted: bool) {
    && status.replicas == |fleet|
    && status.readyReplicas == |set o <- fleet | IsReadyPod(fleet[o])|
    && status.availableReplicas
    == |set o <- fleet | IsLongReady(fleet[o], job.app.strategy.minReadySeconds, job.now)|
    && status.updatedReplicas == |set o <- fleet | IsStayingAt(fleet[o], job.update.name)|
    && status.updateRevision == job.update.name
    && (if IsComplete(job, fleet) then
          status.currentRevision == job.update.name && status.currentReplicas == |fleet|
        else
          && status.currentRevision == job.current.name
          && status.currentReplicas
          == |set o <- fleet | IsStayingAt(fleet[o], job.current.name)| - (if evicted then 1 else 0))
  }

  lemma SizeOfAll<T>(some: set<T>, all: set<T>)
    requires some <= all
    ensures |some| == |all| <==> some == all
  {
    assert all == some + (all - some);
  }

  lemma CompleteMeansPromoted(job: Job, fleet: Fleet, status: Status, evicted: bool)
    requires CountsFleet(job, fleet, status, evicted)
    ensures UpdateComplete(job.app.strategy, status) <==> IsComplete(job, fleet)
    ensures StatusIsTrue(job, fleet, Promoted(job.app.strategy, status), evicted)
  {
    var ready := set o <- fleet | IsReadyPod(fleet[o]);
    var updated := set o <- fleet | IsStayingAt(fleet[o], job.update.name);
    SizeOfAll(ready, fleet.Keys);
    SizeOfAll(updated, fleet.Keys);
    assert |fleet.Keys| == |fleet|;
    assert AllUpdated(job, fleet) <==> ready == fleet.Keys && updated == fleet.Keys by {
      if ready == fleet.Keys && updated == fleet.Keys {
        forall o <- fleet ensures IsReadyPod(fleet[o]) && IsStayingAt(fleet[o], job.update.name) {
          assert o in ready && o in updated;
        }
      }
      if AllUpdated(job, fleet) {
        assert forall o :: o in ready <==> o in fleet.Keys;
        assert forall o :: o in updated <==> o in fleet.Keys;
      }
    }
  }

  /** A status that is not stored anew is true all the same, as it differs in no field that counts. */
  lemma StoredIsTrue(job: Job, fleet: Fleet, status: Status, turn: Turn, evicted: bool)
    requires StatusIsTrue(job, fleet, Promoted(job.app.strategy, status), evicted)
    ensures
      var stored := StoreStatus(job.app, status, turn);
      && (stored.failed ==> turn.statusFails && stored.status == job.app.status)
      && (stored.failed || StatusIsTrue(job, fleet, stored.status, evicted))
  {}

  /**
   After an update that could store the history, the App's status tells the truth about the fleet that the run found,
   promotion included, unless the request to store it failed; then it is the one from before, and the update fails.
   */
  lemma StatusAfterUpdate(c: Cluster, app: App, turn: Turn, c': Cluster, failed: bool,
                          pods: seq<Pod>, replicas: seq<Pod>, surplus: seq<Pod>)
    requires IsGuarded(c) && c.app == Some(app) && UpdatesOver(c, app, turn, c', failed, pods, replicas, surplus)
    ensures
      var job := JobFor(app, c.revisions, turn);
      || (c'.app.Some? && StatusIsTrue(job, c.fleet, c'.app.value.status, Act(job, replicas, surplus, turn.w).evicted))
      || (failed && turn.statusFails && c'.app == Some(app))
  {
    var job, build := JobFor(app, c.revisions, turn), PodBuilder(app, turn.order);
    var evicted := Act(job, replicas, surplus, turn.w).evicted;
    var status := Report(job, pods, replicas + surplus, evicted);
    StoredIsKeyed(c.fleet, Free);
    assert Shows(job, c.fleet, pods, build, replicas, surplus) by {
      PodBuilderBuildsNew(app, turn.order);
      assert forall o <- c.fleet :: IsStoredPod(o, c.fleet[o], Free);
    }
    ReportCountsFleet(job, c.fleet, pods, build, replicas, surplus, evicted);
    CompleteMeansPromoted(job, c.fleet, status, evicted);
    StoredIsTrue(job, c.fleet, status, turn, evicted);
  }

  /** So it is after every reconcile of an App that is not being deleted and has its finalizer. */
  lemma StatusAfterReconcile(c: Cluster, turn: Turn, c': Cluster) returns (evicted: bool)
    requires IsGuarded(c) && c.app.Some? && !c.app.value.deleting && APP_FINALIZER in c.app.value.finalizers
    requires Reconciles(c, turn, c') && !turn.historyFails && !turn.statusFails
    ensures c'.app.Some?
    ensures StatusIsTrue(JobFor(c.app.value, c.revisions, turn), c.fleet, c'.app.value.status, evicted)
    ensures evicted ==> IsRolling(c.app.value)
  {
    var app := c.app.value;
    var mid, failed :| UpdatesApp(c, app, turn, mid, failed) && c' == Finish(c, app, turn, mid, failed);
    var pods, replicas, surplus :| UpdatesOver(c, app, turn, mid, failed, pods, replicas, surplus);
    StatusAfterUpdate(c, app, turn, mid, failed, pods, replicas, surplus);
    evicted := Act(JobFor(app, c.revisions, turn), replicas, surplus, turn.w).evicted;
    OnlyRollingEvicts(JobFor(app, c.revisions, turn), replicas, surplus, turn.w);
  }

  lemma OnlyRollingEvicts(job: Job, replicas: seq<Pod>, surplus: seq<Pod>, w: World)
    ensures Act(job, replicas, surplus, w).evicted ==> IsRolling(job.app)
  {}

  /** The current revision is the stored one that the status names, and the update revision if there is none. */
  lemma CurrentIsNamed(app: App, revisions: seq<Revision>, update: Revision)
    ensures
      var current := CurrentOf(app, revisions, update);
      if app.status.currentRevision in Names(revisions)
      then current in revisions && current.name == app.status.currentRevision
      else current == update
  {
    FoundNamed(revisions, app.status.currentRevision, update);
  }

  /** In the next reconcile the current revision is the promoted one after a complete update, and otherwise the same. */
  lemma CurrentLasts(c: Cluster, turn: Turn, c': Cluster, freshName: string)
    requires IsGuarded(c) && ValidTurn(c, turn)
    requires c.app.Some? && !c.app.value.deleting && APP_FINALIZER in c.app.value.finalizers
    requires Reconciles(c, turn, c') && !turn.historyFails && !turn.statusFails
    ensures
      var job := JobFor(c.app.value, c.revisions, turn);
      && c'.app.Some?
      && var newest := Ensure(c'.revisions, c'.app.value.template, freshName).update;
         CurrentOf(c'.app.value, c'.revisions, newest).name
         == (if IsComplete(job, c.fleet) then job.update.name else job.current.name)
  {
    var app, job := c.app.value, JobFor(c.app.value, c.revisions, turn);
    var mid, failed :| UpdatesApp(c, app, turn, mid, failed) && c' == Finish(c, app, turn, mid, failed);
    var pods, replicas, surplus :| UpdatesOver(c, app, turn, mid, failed, pods, replicas, surplus);
    StatusAfterUpdate(c, app, turn, mid, failed, pods, replicas, surplus);
    LiveNamesKept(c.revisions, app, turn, pods);
    assert job.update.name in Names(c'.revisions) && job.current.name in Names(c'.revisions);
    CurrentIsNamed(c'.app.value, c'.revisions, Ensure(c'.revisions, c'.app.value.template, freshName).update);
  }

  // ---- what a success means ----

  /**
   An update that does not fail leaves nothing undone: none of its requests to change pods failed, other than one to
   update in place, the stored status is true, and every revision that had to go is gone.
   */
  lemma SuccessMeans(c: Cluster, app: App, turn: Turn, c': Cluster, pods: seq<Pod>, replicas: seq<Pod>,
                     surplus: seq<Pod>)
    requires IsGuarded(c) && c.app == Some(app) && UpdatesOver(c, app, turn, c', false, pods, replicas, surplus)
    ensures
      var job := JobFor(app, c.revisions, turn);
      var acted := Act(job, replicas, surplus, turn.w);
      && !SomeFails(acted.commands, turn.w)
      && c'.app.Some? && StatusIsTrue(job, c.fleet, c'.app.value.status, acted.evicted)
    ensures
      var job := JobFor(app, c.revisions, turn);
      forall r <- Doomed(c.revisions, LiveNames(pods, job.current.name, job.update.name), LimitOf(app)) ::
        !turn.deleteFails(r.name)
  {
    var job := JobFor(app, c.revisions, turn);
    NoFailureIsLost(job, replicas, surplus, turn.w);
    StatusAfterUpdate(c, app, turn, c', false, pods, replicas, surplus);
    AllDeleted(c, app, turn, c', pods, replicas, surplus);
  }

  lemma AllDeleted(c: Cluster, app: App, turn: Turn, c': Cluster, pods: seq<Pod>, replicas: seq<Pod>,
                   surplus: seq<Pod>)
    requires UpdatesOver(c, app, turn, c', false, pods, replicas, surplus)
    ensures
      var job := JobFor(app, c.revisions, turn);
      forall r <- Doomed(c.revisions, LiveNames(pods, job.current.name, job.update.name), LimitOf(app)) ::
        !turn.deleteFails(r.name)
  {
    var job := JobFor(app, c.revisions, turn);
    var ensured := Ensure(c.revisions, app.template, turn.freshName);
    var doomed := Doomed(c.revisions, LiveNames(pods, job.current.name, job.update.name), LimitOf(app));
    var k := DeletesUpToFailure(ensured.revisions, doomed, turn.deleteFails);
    forall r <- doomed ensures !turn.deleteFails(r.name) {
      var i :| 0 <= i < |doomed| && doomed[i] == r;
    }
  }
}
