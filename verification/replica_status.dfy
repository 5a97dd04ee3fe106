/** Counting pods for the App's status, and promoting the current revision once an update is done. */
module ReplicaStatus {
  import opened Text
  import opened Kube

  function Count(pods: seq<Pod>, counts: Pod -> bool): nat {
    if pods == [] then 0
    else Count(pods[..|pods| - 1], counts) + (if counts(pods[|pods| - 1]) then 1 else 0)
  }

  function Flatten(lists: seq<seq<Pod>>): seq<Pod> {
    if lists == [] then [] else Flatten(lists[..|lists| - 1]) + lists[|lists| - 1]
  }

  predicate IsStored(pod: Pod) {
    !pod.phase.Unset?
  }

  predicate CountsAsReady(pod: Pod) {
    pod.phase.Running? && IsReady(pod)
  }

  /** Unlike IsAvailable, the test behind the counters never holds when minReadySeconds is 0. */
  predicate ReadyForLong(pod: Pod, minReadySeconds: int, now: int) {
    minReadySeconds != 0 && pod.ready.Since? && pod.ready.at + minReadySeconds * SECOND < now
  }

  predicate CountsAtRevision(pod: Pod, revision: string) {
    IsStored(pod) && !pod.terminating && RevisionOf(pod) == revision
  }

  predicate CountsAsReadyAt(pod: Pod, revision: string) {
    CountsAsReady(pod) && LABEL_REVISION in pod.labels && pod.labels[LABEL_REVISION] == revision
  }

  /** What one list of pods adds to each counter. */
  function Added(status: Status, pods: seq<Pod>, minReadySeconds: int, now: int, current: string,
                 update: string): Status {
    status.(
      replicas := status.replicas + Count(pods, IsStored),
      readyReplicas := status.readyReplicas + Count(pods, CountsAsReady),
      availableReplicas := status.availableReplicas
        + Count(pods, pod => CountsAsReady(pod) && ReadyForLong(pod, minReadySeconds, now)),
      currentReplicas := status.currentReplicas + Count(pods, pod => CountsAtRevision(pod, current)),
      updatedReplicas := status.updatedReplicas + Count(pods, pod => CountsAtRevision(pod, update)),
      updatedReadyReplicas := status.updatedReadyReplicas + Count(pods, pod => CountsAsReadyAt(pod, update)),
      updatedAvailableReplicas := status.updatedAvailableReplicas
        + Count(pods, pod => CountsAsReadyAt(pod, update) && ReadyForLong(pod, minReadySeconds, now)))
  }

  /** Every counter starts again from 0, except the one the source forgets to reset. */
  function Reset(status: Status): Status {
    status.(replicas := 0, readyReplicas := 0, availableReplicas := 0, currentReplicas := 0,
            updatedReplicas := 0, updatedAvailableReplicas := 0)
  }

  function Tallied(status: Status, pods: seq<Pod>, minReadySeconds: int, now: int): Status {
    Added(Reset(status), pods, minReadySeconds, now, status.currentRevision, status.updateRevision)
  }

  function One(counted: bool): nat {
    if counted then 1 else 0
  }

  /** The body of the counting loop: one pod. */
  method CountPod(status: Status, pod: Pod, minReadySeconds: int, now: int) returns (result: Status)
    ensures result == Added(status, [pod], minReadySeconds, now, status.currentRevision, status.updateRevision)
  {
    var current, update := status.currentRevision, status.updateRevision;
    result := status;
    if !pod.phase.Unset? {
      result := result.(replicas := result.replicas + 1);
    }
    if pod.phase.Running? && IsReady(pod) {
      result := result.(readyReplicas := result.readyReplicas + 1);
      if LABEL_REVISION in pod.labels && pod.labels[LABEL_REVISION] == update {
        result := result.(updatedReadyReplicas := result.updatedReadyReplicas + 1);
        if ReadyForLong(pod, minReadySeconds, now) {
          result := result.(updatedAvailableReplicas := result.updatedAvailableReplicas + 1);
        }
      }
      if ReadyForLong(pod, minReadySeconds, now) {
        result := result.(availableReplicas := result.availableReplicas + 1);
      }
    }
    if !pod.phase.Unset? && !pod.terminating {
      if RevisionOf(pod) == current {
        result := result.(currentReplicas := result.currentReplicas + 1);
      }
      if RevisionOf(pod) == update {
        result := result.(updatedReplicas := result.updatedReplicas + 1);
      }
    }
    forall counts: Pod -> bool ensures Count([pod], counts) == One(counts(pod)) {
      CountSingle(pod, counts);
    }
  }

  lemma CountSingle(pod: Pod, counts: Pod -> bool)
    ensures Count([pod], counts) == One(counts(pod))
  {
    assert [pod][..0] == [];
  }

  method AddCounts(status: Status, pods: seq<Pod>, minReadySeconds: int, now: int) returns (result: Status)
    ensures result == Added(status, pods, minReadySeconds, now, status.currentRevision, status.updateRevision)
  {
    result := status;
    for i := 0 to |pods|
      invariant result == Added(status, pods[..i], minReadySeconds, now, status.currentRevision, status.updateRevision)
    {
      AddedConcat(status, pods[..i], [pods[i]], minReadySeconds, now);
      assert pods[..i + 1] == pods[..i] + [pods[i]];
      result := CountPod(result, pods[i], minReadySeconds, now);
    }
    assert pods[..|pods|] == pods;
  }

  method UpdateStatus(status: Status, minReadySeconds: int, now: int, lists: seq<seq<Pod>>) returns (result: Status)
    ensures result == Tallied(status, Flatten(lists), minReadySeconds, now)
  {
    result := Reset(status);
    for i := 0 to |lists|
      invariant result == Tallied(status, Flatten(lists[..i]), minReadySeconds, now)
    {
      assert lists[..i + 1][..i] == lists[..i];
      AddedConcat(Reset(status), Flatten(lists[..i]), lists[i], minReadySeconds, now);
      result := AddCounts(result, lists[i], minReadySeconds, now);
    }
    assert lists[..|lists|] == lists;
  }

  lemma {:induction false} CountConcat(a: seq<Pod>, b: seq<Pod>, counts: Pod -> bool)
    ensures Count(a + b, counts) == Count(a, counts) + Count(b, counts)
  {
    if b == [] {
      assert a + b == a;
    } else {
      CountConcat(a, b[..|b| - 1], counts);
      assert (a + b)[..|a + b| - 1] == a + b[..|b| - 1];
    }
  }

  lemma AddedConcat(status: Status, a: seq<Pod>, b: seq<Pod>, minReadySeconds: int, now: int)
    ensures var (current, update) := (status.currentRevision, status.updateRevision);
            Added(status, a + b, minReadySeconds, now, current, update)
              == Added(Added(status, a, minReadySeconds, now, current, update),
                       b, minReadySeconds, now, current, update)
  {
    var current, update := status.currentRevision, status.updateRevision;
    CountConcat(a, b, IsStored);
    CountConcat(a, b, CountsAsReady);
    CountConcat(a, b, pod => CountsAsReady(pod) && ReadyForLong(pod, minReadySeconds, now));
    CountConcat(a, b, pod => CountsAtRevision(pod, current));
    CountConcat(a, b, pod => CountsAtRevision(pod, update));
    CountConcat(a, b, pod => CountsAsReadyAt(pod, update));
    CountConcat(a, b, pod => CountsAsReadyAt(pod, update) && ReadyForLong(pod, minReadySeconds, now));
  }

  // ---- what the counters mean ----

  /** A stricter test counts no more, and counts the same only if the two tests agree on every pod. */
  lemma {:induction false} CountMonotone(pods: seq<Pod>, strict: Pod -> bool, lax: Pod -> bool)
    requires forall pod <- pods :: strict(pod) ==> lax(pod)
    ensures Count(pods, strict) <= Count(pods, lax)
    ensures Count(pods, strict) == Count(pods, lax) <==> forall pod <- pods :: lax(pod) ==> strict(pod)
  {
    if pods != [] {
      var front, last := pods[..|pods| - 1], pods[|pods| - 1];
      assert pods == front + [last];
      CountMonotone(front, strict, lax);
    }
  }

  lemma CounterOrder(status: Status, pods: seq<Pod>, minReadySeconds: int, now: int)
    ensures var s := Tallied(status, pods, minReadySeconds, now);
            && 0 <= s.updatedReplicas <= s.replicas <= |pods|
            && 0 <= s.currentReplicas <= s.replicas
            && 0 <= s.updatedAvailableReplicas <= s.availableReplicas <= s.readyReplicas <= s.replicas
            && s.updatedAvailableReplicas <= s.updatedReadyReplicas - status.updatedReadyReplicas <= s.readyReplicas
            && (minReadySeconds == 0 ==> s.availableReplicas == 0)
  {
    var current, update := status.currentRevision, status.updateRevision;
    var available := (pod: Pod) => CountsAsReady(pod) && ReadyForLong(pod, minReadySeconds, now);
    var updated := (pod: Pod) => CountsAsReadyAt(pod, update);
    var updatedAvailable := (pod: Pod) => CountsAsReadyAt(pod, update) && ReadyForLong(pod, minReadySeconds, now);
    CountMonotone(pods, pod => CountsAtRevision(pod, update), IsStored);
    CountMonotone(pods, pod => CountsAtRevision(pod, current), IsStored);
    CountMonotone(pods, available, CountsAsReady);
    CountMonotone(pods, CountsAsReady, IsStored);
    CountMonotone(pods, updatedAvailable, available);
    CountMonotone(pods, updatedAvailable, updated);
    CountMonotone(pods, updated, CountsAsReady);
    CountMonotone(pods, IsStored, pod => true);
    CountAll(pods);
    if minReadySeconds == 0 {
      CountNone(pods, available);
    }
  }

  lemma CountAll(pods: seq<Pod>)
    ensures Count(pods, pod => true) == |pods|
  {}

  lemma {:induction false} CountNone(pods: seq<Pod>, counts: Pod -> bool)
    requires forall pod <- pods :: !counts(pod)
    ensures Count(pods, counts) == 0
  {
    if pods != [] {
      CountNone(pods[..|pods| - 1], counts);
    }
  }

  // ---- promotion ----

  predicate UpdateComplete(strategy: Strategy, status: Status) {
    !strategy.onDelete && status.updatedReplicas == status.replicas && status.readyReplicas == status.replicas
  }

  function Promoted(strategy: Strategy, status: Status): Status {
    if UpdateComplete(strategy, status)
    then status.(currentReplicas := status.updatedReplicas, currentRevision := status.updateRevision)
    else status
  }

  /** The counters are equal exactly when each counted pod is running, ready, staying, and updated. */
  lemma CompleteMeansAllUpdated(strategy: Strategy, status: Status, pods: seq<Pod>, minReadySeconds: int, now: int)
    requires !strategy.onDelete
    ensures UpdateComplete(strategy, Tallied(status, pods, minReadySeconds, now))
       <==> forall pod <- pods | IsStored(pod) ::
              CountsAsReady(pod) && !pod.terminating && RevisionOf(pod) == status.updateRevision
  {
    CountMonotone(pods, pod => CountsAtRevision(pod, status.updateRevision), IsStored);
    CountMonotone(pods, CountsAsReady, IsStored);
  }
}
