/** The status that a run reports: what its two tallies come to, and when its counters are right. */
module Reporting {
  import opened Kube
  import opened ReplicaStatus
  import opened Slots
  import opened Sync

  /** The update is complete when every stored pod, as laid out, is ready, stays, and is updated. */
  lemma CompleteReport(job: Job, pods: seq<Pod>, laidOut: seq<Pod>, evicted: bool)
    requires !job.app.strategy.onDelete
    ensures UpdateComplete(job.app.strategy, Report(job, pods, laidOut, evicted))
       <==> forall pod <- laidOut | IsStored(pod) ::
              CountsAsReady(pod) && !pod.terminating && RevisionOf(pod) == job.update.name
  {
    var minReadySeconds := job.app.strategy.minReadySeconds;
    var listed := Tallied(InitialStatus(job), pods, minReadySeconds, job.now);
    CompleteMeansAllUpdated(job.app.strategy, listed, laidOut, minReadySeconds, job.now);
  }

  /** Running, ready pods at the update revision. */
  function UpdatedReady(pods: seq<Pod>, update: string): nat {
    Count(pods, pod => CountsAsReadyAt(pod, update))
  }

  lemma {:induction false} CountPositive(pods: seq<Pod>, counts: Pod -> bool)
    ensures Count(pods, counts) > 0 <==> exists pod <- pods :: counts(pod)
  {
    if pods != [] {
      var front, last := pods[..|pods| - 1], pods[|pods| - 1];
      CountPositive(front, counts);
      assert pods == front + [last];
    }
  }

  /**
   The counter of updated ready pods is not reset between the two tallies. It counts pods both as listed and
   as laid out, so it is right if and only if no listed pod is running, ready and updated.
   */
  lemma UpdatedReadyCountsTwice(job: Job, pods: seq<Pod>, laidOut: seq<Pod>, evicted: bool)
    ensures
      var reported := Report(job, pods, laidOut, evicted).updatedReadyReplicas;
      && reported == UpdatedReady(pods, job.update.name) + UpdatedReady(laidOut, job.update.name)
      && (reported == UpdatedReady(laidOut, job.update.name)
          <==> forall pod <- pods :: !CountsAsReadyAt(pod, job.update.name))
  {
    CountPositive(pods, pod => CountsAsReadyAt(pod, job.update.name));
  }

  /** Pods that a run takes for available, but that the counter leaves out. */
  predicate IsOverlooked(pod: Pod, minReadySeconds: int, now: int) {
    IsAvailable(pod, minReadySeconds, now) && (minReadySeconds == 0 || pod.ready.at + minReadySeconds * SECOND == now)
  }

  /**
   The counter of available pods is at most the number of pods that a run takes for available. The two are
   equal if and only if there is no available pod while minReadySeconds is 0, or none that becomes available
   at this very instant while it is not.
   */
  lemma AvailableIsRightIff(job: Job, pods: seq<Pod>, laidOut: seq<Pod>, evicted: bool)
    ensures
      var minReadySeconds := job.app.strategy.minReadySeconds;
      var available := Count(laidOut, pod => IsAvailable(pod, minReadySeconds, job.now));
      var reported := Report(job, pods, laidOut, evicted).availableReplicas;
      && reported <= available
      && (reported == available <==> forall pod <- laidOut :: !IsOverlooked(pod, minReadySeconds, job.now))
  {
    var minReadySeconds, now := job.app.strategy.minReadySeconds, job.now;
    var counted := (pod: Pod) => CountsAsReady(pod) && ReadyForLong(pod, minReadySeconds, now);
    var available := (pod: Pod) => IsAvailable(pod, minReadySeconds, now);
    forall pod ensures available(pod) == (counted(pod) || IsOverlooked(pod, minReadySeconds, now)) {
      assert CountsAsReady(pod) <==> pod.phase.Running? && IsReady(pod);
    }
    CountMonotone(laidOut, counted, available);
  }

  /** A pod that shows each failure: one ready and updated pod of an App without minReadySeconds. */
  lemma OnePodMiscounted(job: Job, pod: Pod)
    requires job.app.strategy.minReadySeconds == 0
    requires pod.phase.Running? && pod.ready.Since?
    requires LABEL_REVISION in pod.labels && RevisionOf(pod) == job.update.name
    ensures
      var status := Report(job, [pod], [pod], false);
      status.updatedReadyReplicas == 2 && status.availableReplicas == 0 && status.readyReplicas == 1
  {
    UpdatedReadyCountsTwice(job, [pod], [pod], false);
    CountSingle(pod, pod => CountsAsReadyAt(pod, job.update.name));
    CountSingle(pod, pod => CountsAsReady(pod) && ReadyForLong(pod, 0, job.now));
    CountSingle(pod, CountsAsReady);
  }

  /** One that became available at this very instant: a run goes on, but the counter waits. */
  lemma OnePodOverlooked(job: Job, pod: Pod)
    requires job.app.strategy.minReadySeconds > 0
    requires pod.phase.Running? && pod.ready == Since(job.now - job.app.strategy.minReadySeconds * SECOND)
    ensures IsAvailable(pod, job.app.strategy.minReadySeconds, job.now)
    ensures Report(job, [pod], [pod], false).availableReplicas == 0
  {
    CountSingle(pod, pod => CountsAsReady(pod) && ReadyForLong(pod, job.app.strategy.minReadySeconds, job.now));
  }
}
