/** The parts of the Kubernetes objects, and of the App resource, that the controllers read or write. */
module Kube {
  import opened Text

  const LABEL_OWNER_APP := "unicore.mcyou.cn/app-name"
  const LABEL_ORDINAL := "unicore.mcyou.cn/pod-ordinal"
  // apps.StatefulSetRevisionLabel and apps.ControllerRevisionHashLabelKey are the same label
  const LABEL_REVISION := "controller-revision-hash"
  const SECOND: int := 1_000_000_000

  /** Unset is the empty phase: only a pod that was built and not yet stored has it. */
  datatype Phase = Unset | Pending | Running | Succeeded | Failed | Unknown

  /** The pod's Ready condition: missing, without a transition time, or with one (in nanoseconds). */
  datatype ReadyCondition = Absent | Unstamped | Since(at: int)

  datatype VolumeSource = FromClaim(claimName: string) | OtherSource(id: string)

  datatype Volume = Volume(name: string, source: VolumeSource)

  /** Everything about a container besides its name and image is one opaque field. */
  datatype Container = Container(name: string, image: string, rest: string)

  datatype Template = Template(labels: map<string, string>, volumes: seq<Volume>, containers: seq<Container>)

  /** The in-place annotation, and whether the InPlaceUpdateReady condition is present and not true. */
  datatype InPlaceMark = NoMark | Mark(pending: bool)

  datatype Pod = Pod(
    name: string, namespace: string, labels: map<string, string>,
    phase: Phase, ready: ReadyCondition, terminating: bool,
    hostname: string, subdomain: string,
    volumes: seq<Volume>, containers: seq<Container>, inPlace: InPlaceMark)

  datatype Revision = Revision(name: string, number: int, data: Template)

  /** The update strategy once it has its defaults; minReadySeconds is 0 where the source has none. */
  datatype Strategy = Strategy(
    onDelete: bool, partition: nat, paused: bool, unordered: bool, inPlace: bool, minReadySeconds: int)

  datatype Status = Status(
    replicas: int, readyReplicas: int, availableReplicas: int, currentReplicas: int,
    updatedReplicas: int, updatedReadyReplicas: int, updatedAvailableReplicas: int,
    currentRevision: string, updateRevision: string)

  datatype App = App(
    name: string, namespace: string, replicas: nat, template: Template, claims: seq<string>,
    serviceName: string, strategy: Strategy, parallel: bool, historyLimit: Option<nat>,
    deleting: bool, finalizers: seq<string>, status: Status)

  function RevisionOf(pod: Pod): string {
    if LABEL_REVISION in pod.labels then pod.labels[LABEL_REVISION] else ""
  }

  /** The source counts any Ready condition, whatever its status, as ready. */
  predicate IsReady(pod: Pod) {
    !pod.ready.Absent?
  }

  /** Running, ready, and ready for at least minReadySeconds; none are asked for when it is 0. */
  predicate IsAvailable(pod: Pod, minReadySeconds: int, now: int) {
    && pod.phase.Running?
    && IsReady(pod)
    && (minReadySeconds == 0 || (pod.ready.Since? && pod.ready.at + minReadySeconds * SECOND <= now))
  }

  /** Available and not on its way out: what an ordered step asks of every predecessor. */
  predicate IsHealthy(pod: Pod, minReadySeconds: int, now: int) {
    IsAvailable(pod, minReadySeconds, now) && !pod.terminating
  }
}
