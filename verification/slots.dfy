/** Laying the pods out by ordinal, and building a pod for every ordinal that has none. */
module Slots {
  import opened Text
  import opened Kube
  import opened Identity

  /** What one run of the update works on: the App, its two revisions, and the time. */
  datatype Job = Job(app: App, current: Revision, update: Revision, now: int)

  /** What builds and labels the pod for a revision and an ordinal. */
  type Builder = (Revision, nat) -> Pod

  /** The order in which Go happens to iterate over the claims, for each new pod. */
  type ClaimOrder = nat -> seq<string>

  function VersionedPod(app: App, revision: Revision, ordinal: nat, order: ClaimOrder): Pod {
    var pod := NewPod(app, revision.data, ordinal, order(ordinal));
    pod.(labels := pod.labels[LABEL_REVISION := revision.name])
  }

  function PodBuilder(app: App, order: ClaimOrder): Builder {
    (revision, ordinal: nat) => VersionedPod(app, revision, ordinal, order)
  }

  ghost predicate LabelsPods(build: Builder) {
    forall revision, ordinal :: RevisionOf(build(revision, ordinal)) == revision.name
  }

  ghost predicate HaveOrdinals(pods: seq<Pod>) {
    forall pod <- pods :: OrdinalOf(pod) >= 0
  }

  // ---- the slots ----

  /** Pods with an ordinal below n, each in its slot; of two with one ordinal the later stays. */
  function Place(pods: seq<Pod>, n: nat): (slots: seq<Option<Pod>>)
    ensures |slots| == n
  {
    if pods == [] then seq(n, i => None)
    else
      var slots := Place(pods[..|pods| - 1], n);
      var ordinal := OrdinalOf(pods[|pods| - 1]);
      if 0 <= ordinal < n then slots[ordinal := Some(pods[|pods| - 1])] else slots
  }

  function Surplus(pods: seq<Pod>, n: nat): seq<Pod> {
    if pods == [] then []
    else
      var last := pods[|pods| - 1];
      Surplus(pods[..|pods| - 1], n) + (if OrdinalOf(last) >= n then [last] else [])
  }

  /** How many pods in the slots, other than the one left out, are not at the update revision. */
  function Outdated(slots: seq<Option<Pod>>, update: string, except: int): nat {
    if slots == [] then 0
    else
      var last := |slots| - 1;
      Outdated(slots[..last], update, except) +
      (if slots[last].Some? && last != except && RevisionOf(slots[last].value) != update then 1 else 0)
  }

  predicate IsCurrentExpected(job: Job, ordinal: nat, slots: seq<Option<Pod>>) {
    var strategy := job.app.strategy;
    !strategy.onDelete &&
    if strategy.unordered then Outdated(slots, job.update.name, ordinal) < strategy.partition
    else ordinal < strategy.partition
  }

  function NewVersionedPod(job: Job, ordinal: nat, slots: seq<Option<Pod>>, build: Builder): Pod {
    build(if IsCurrentExpected(job, ordinal, slots) then job.current else job.update, ordinal)
  }

  predicate FilledBelow(slots: seq<Option<Pod>>, i: nat) {
    i <= |slots| && forall k | 0 <= k < i :: slots[k].Some?
  }

  function FillSlot(job: Job, slots: seq<Option<Pod>>, build: Builder, i: nat): (filled: seq<Option<Pod>>)
    requires i < |slots|
    ensures |filled| == |slots|
    ensures FilledBelow(slots, i) ==> FilledBelow(filled, i + 1)
    ensures forall k | 0 <= k < |slots| && (k != i || slots[k].Some?) :: filled[k] == slots[k]
  {
    if slots[i].Some? then slots else slots[i := Some(NewVersionedPod(job, i, slots, build))]
  }

  /** Every empty slot from i on gets a new pod; earlier choices can sway later ones. */
  function Fill(job: Job, slots: seq<Option<Pod>>, build: Builder, i: nat): (filled: seq<Option<Pod>>)
    requires i <= |slots|
    ensures |filled| == |slots|
    ensures FilledBelow(slots, i) ==> FilledBelow(filled, |slots|)
    ensures forall k | 0 <= k < |slots| && slots[k].Some? :: filled[k] == slots[k]
    decreases |slots| - i
  {
    if i == |slots| then slots else Fill(job, FillSlot(job, slots, build, i), build, i + 1)
  }

  /** The pods that should be there, one per ordinal: stored ones, and new ones for the gaps. */
  function Replicas(job: Job, pods: seq<Pod>, build: Builder): (replicas: seq<Pod>)
    ensures |replicas| == job.app.replicas
  {
    var filled := Fill(job, Place(pods, job.app.replicas), build, 0);
    seq(job.app.replicas, i requires 0 <= i < |filled| => filled[i].value)
  }

  // ---- the same, as the source runs it ----

  method ExpectsCurrent(job: Job, ordinal: nat, slots: array<Option<Pod>>) returns (expected: bool)
    ensures expected == IsCurrentExpected(job, ordinal, slots[..])
  {
    if job.app.strategy.onDelete {
      return false;
    }
    if !job.app.strategy.unordered {
      return ordinal < job.app.strategy.partition;
    }
    var count := 0;
    for i := 0 to slots.Length
      invariant count == Outdated(slots[..i], job.update.name, ordinal)
    {
      assert slots[..i + 1][..i] == slots[..i];
      if slots[i].Some? && i != ordinal && RevisionOf(slots[i].value) != job.update.name {
        count := count + 1;
      }
    }
    assert slots[..slots.Length] == slots[..];
    return count < job.app.strategy.partition;
  }

  method PlacePods(pods: seq<Pod>, slots: array<Option<Pod>>) returns (surplus: seq<Pod>)
    requires HaveOrdinals(pods)
    requires forall i | 0 <= i < slots.Length :: slots[i] == None
    modifies slots
    ensures slots[..] == Place(pods, slots.Length) && surplus == Surplus(pods, slots.Length)
  {
    surplus := [];
    for i := 0 to |pods|
      invariant slots[..] == Place(pods[..i], slots.Length)
      invariant surplus == Surplus(pods[..i], slots.Length)
    {
      assert pods[..i + 1][..i] == pods[..i];
      var ordinal := OrdinalOf(pods[i]);
      if ordinal < slots.Length {
        slots[ordinal] := Some(pods[i]);
      } else {
        surplus := surplus + [pods[i]];
      }
    }
    assert pods[..|pods|] == pods;
  }

  method FillGap(job: Job, slots: array<Option<Pod>>, build: Builder, i: nat)
    requires i < slots.Length
    modifies slots
    ensures slots[..] == old(FillSlot(job, slots[..], build, i))
  {
    if slots[i].None? {
      var expected := ExpectsCurrent(job, i, slots);
      var pod := build(if expected then job.current else job.update, i);
      assert pod == NewVersionedPod(job, i, slots[..], build);
      slots[i] := Some(pod);
    }
  }

  method FillGaps(job: Job, slots: array<Option<Pod>>, build: Builder)
    modifies slots
    ensures slots[..] == old(Fill(job, slots[..], build, 0))
  {
    for i := 0 to slots.Length
      invariant Fill(job, slots[..], build, i) == old(Fill(job, slots[..], build, 0))
    {
      ghost var before := slots[..];
      FillGap(job, slots, build, i);
      assert Fill(job, before, build, i) == Fill(job, slots[..], build, i + 1);
    }
  }

  ghost predicate DescendingBy<T>(key: T -> int, items: seq<T>) {
    forall i, j | 0 <= i < j < |items| :: key(items[i]) >= key(items[j])
  }

  function InsertDescending<T>(key: T -> int, sorted: seq<T>, item: T): seq<T> {
    if sorted == [] || key(sorted[0]) <= key(item) then [item] + sorted
    else [sorted[0]] + InsertDescending(key, sorted[1..], item)
  }

  lemma {:induction false} InsertKeepsItems<T>(key: T -> int, sorted: seq<T>, item: T)
    ensures multiset(InsertDescending(key, sorted, item)) == multiset(sorted) + multiset{item}
    ensures forall other <- InsertDescending(key, sorted, item) :: other == item || other in sorted
  {
    if sorted != [] && key(sorted[0]) > key(item) {
      InsertKeepsItems(key, sorted[1..], item);
      assert sorted == [sorted[0]] + sorted[1..];
    }
  }

  lemma {:induction false} InsertKeepsOrder<T>(key: T -> int, sorted: seq<T>, item: T)
    requires DescendingBy(key, sorted)
    ensures DescendingBy(key, InsertDescending(key, sorted, item))
  {
    if sorted != [] && key(sorted[0]) > key(item) {
      InsertKeepsOrder(key, sorted[1..], item);
      InsertKeepsItems(key, sorted[1..], item);
      forall other <- InsertDescending(key, sorted[1..], item) ensures key(other) <= key(sorted[0]) {
        if other in sorted[1..] {
          var i :| 1 <= i < |sorted| && sorted[i] == other;
        }
      }
    }
  }

  /** sort.Sort, which puts the items in an order where the keys descend. */
  method SortDescending<T>(key: T -> int, items: seq<T>) returns (sorted: seq<T>)
    ensures DescendingBy(key, sorted) && multiset(sorted) == multiset(items)
  {
    sorted := [];
    for i := 0 to |items|
      invariant DescendingBy(key, sorted) && multiset(sorted) == multiset(items[..i])
    {
      InsertKeepsOrder(key, sorted, items[i]);
      InsertKeepsItems(key, sorted, items[i]);
      sorted := InsertDescending(key, sorted, items[i]);
      assert items[..i + 1] == items[..i] + [items[i]];
    }
    assert items[..|items|] == items;
  }

  // ---- what slot filling guarantees ----

  ghost predicate DistinctOrdinals(pods: seq<Pod>) {
    forall i, j | 0 <= i < j < |pods| :: OrdinalOf(pods[i]) != OrdinalOf(pods[j])
  }

  /** A pod whose ordinal no other pod shares is placed in the slot of its ordinal. */
  lemma {:induction false} PlaceKeepsAll(pods: seq<Pod>, n: nat)
    requires HaveOrdinals(pods) && DistinctOrdinals(pods)
    ensures forall i | 0 <= i < n && Place(pods, n)[i].Some? ::
              Place(pods, n)[i].value in pods && OrdinalOf(Place(pods, n)[i].value) == i
    ensures forall pod <- pods | OrdinalOf(pod) < n :: Place(pods, n)[OrdinalOf(pod)] == Some(pod)
  {
    if pods != [] {
      var front, last := pods[..|pods| - 1], pods[|pods| - 1];
      assert pods == front + [last];
      PlaceKeepsAll(front, n);
    }
  }

  /** Every other pod is among the surplus, which holds nothing else. */
  lemma {:induction false} SurplusKeepsAll(pods: seq<Pod>, n: nat)
    requires DistinctOrdinals(pods)
    ensures forall pod :: pod in Surplus(pods, n) <==> pod in pods && OrdinalOf(pod) >= n
    ensures DistinctOrdinals(Surplus(pods, n))
  {
    if pods != [] {
      var front, last := pods[..|pods| - 1], pods[|pods| - 1];
      assert pods == front + [last];
      SurplusKeepsAll(front, n);
    }
  }

  /** What the source builds for an ordinal carries it, its revision, and a matching identity. */
  lemma BuiltPod(app: App, order: ClaimOrder, revision: Revision, ordinal: nat)
    requires ordinal <= MAX_INT64 && IsClaimOrder(app, order(ordinal))
    ensures var pod := PodBuilder(app, order)(revision, ordinal);
            && ParsePodName(pod.name) == (app.name, ordinal)
            && RevisionOf(pod) == revision.name
            && MatchesApp(app, pod) && MatchesClaims(app, pod)
            && pod.phase.Unset? && pod.ready.Absent? && !pod.terminating && pod.inPlace.NoMark?
  {
    NewPodMatches(app, revision.data, ordinal, order(ordinal));
  }

  lemma {:induction false} FilledShape(job: Job, slots: seq<Option<Pod>>, build: Builder, i: nat, k: nat)
    requires i <= k < |slots| && slots[k].None?
    ensures exists revision :: revision in {job.current, job.update} &&
              Fill(job, slots, build, i)[k] == Some(build(revision, k))
    decreases |slots| - i
  {
    var slots' := FillSlot(job, slots, build, i);
    if i == k {
      assert Fill(job, slots', build, i + 1)[k] == slots'[k];
      var revision := if IsCurrentExpected(job, i, slots) then job.current else job.update;
      assert slots'[k] == Some(build(revision, k));
    } else {
      FilledShape(job, slots', build, i + 1, k);
    }
  }

  /** Slot i holds the stored pod with ordinal i if there is one, and otherwise a new pod for i. */
  lemma ReplicasByOrdinal(job: Job, pods: seq<Pod>, build: Builder)
    requires HaveOrdinals(pods) && DistinctOrdinals(pods)
    ensures var replicas := Replicas(job, pods, build);
            && (forall pod <- pods | OrdinalOf(pod) < |replicas| :: replicas[OrdinalOf(pod)] == pod)
            && (forall i | 0 <= i < |replicas| ::
                  || (replicas[i] in pods && OrdinalOf(replicas[i]) == i)
                  || (exists revision :: revision in {job.current, job.update} && replicas[i] == build(revision, i)))
  {
    var n := job.app.replicas;
    PlaceKeepsAll(pods, n);
    var slots := Place(pods, n);
    forall i | 0 <= i < n && slots[i].None?
      ensures exists revision ::
                revision in {job.current, job.update} && Replicas(job, pods, build)[i] == build(revision, i)
    {
      FilledShape(job, slots, build, 0, i);
    }
  }

  // ---- unordered updates: the partition as a number of pods ----

  function Gaps(slots: seq<Option<Pod>>): nat {
    if slots == [] then 0 else Gaps(slots[..|slots| - 1]) + (if slots[|slots| - 1].None? then 1 else 0)
  }

  lemma {:induction false} FillOne(slots: seq<Option<Pod>>, i: nat, pod: Pod, update: string)
    requires i < |slots| && slots[i].None?
    ensures Gaps(slots[i := Some(pod)]) == Gaps(slots) - 1
    ensures Outdated(slots[i := Some(pod)], update, -1)
         == Outdated(slots, update, i) + (if RevisionOf(pod) != update then 1 else 0)
    ensures Outdated(slots, update, i) == Outdated(slots, update, -1)
  {
    var last := |slots| - 1;
    if i == last {
      assert slots[i := Some(pod)][..last] == slots[..last];
      ExceptOutside(slots[..last], update, i);
    } else {
      FillOne(slots[..last], i, pod, update);
      assert slots[i := Some(pod)][..last] == slots[..last][i := Some(pod)];
    }
  }

  lemma {:induction false} ExceptOutside(slots: seq<Option<Pod>>, update: string, except: int)
    requires except >= |slots|
    ensures Outdated(slots, update, except) == Outdated(slots, update, -1)
  {
    if slots != [] {
      ExceptOutside(slots[..|slots| - 1], update, except);
    }
  }

  lemma {:induction false} NoGaps(slots: seq<Option<Pod>>)
    requires FilledBelow(slots, |slots|)
    ensures Gaps(slots) == 0
  {
    if slots != [] {
      NoGaps(slots[..|slots| - 1]);
    }
  }

  function Min(a: int, b: int): int {
    if a <= b then a else b
  }

  function Max(a: int, b: int): int {
    if a >= b then a else b
  }

  /** Where filling gaps takes a number of outdated pods that a partition asks for. */
  function ToppedUp(outdated: nat, gaps: nat, partition: nat): int {
    Max(outdated, Min(partition, outdated + gaps))
  }

  /** A new pod is outdated exactly while the outdated pods are fewer than the partition. */
  lemma NewPodCounts(job: Job, slots: seq<Option<Pod>>, build: Builder, i: nat)
    requires i < |slots| && slots[i].None?
    requires !job.app.strategy.onDelete && job.app.strategy.unordered
    requires job.current.name != job.update.name && LabelsPods(build)
    ensures var slots' := slots[i := Some(NewVersionedPod(job, i, slots, build))];
            var before := Outdated(slots, job.update.name, -1);
            && Outdated(slots', job.update.name, -1) == before + (if before < job.app.strategy.partition then 1 else 0)
            && Gaps(slots') == Gaps(slots) - 1
  {
    FillOne(slots, i, NewVersionedPod(job, i, slots, build), job.update.name);
  }

  /** With unordered updates the partition is a number of outdated pods, which new pods fill up. */
  lemma {:induction false} UnorderedCount(job: Job, slots: seq<Option<Pod>>, build: Builder, i: nat)
    requires i <= |slots|
    requires !job.app.strategy.onDelete && job.app.strategy.unordered
    requires job.current.name != job.update.name && LabelsPods(build)
    requires FilledBelow(slots, i)
    ensures Outdated(Fill(job, slots, build, i), job.update.name, -1)
         == ToppedUp(Outdated(slots, job.update.name, -1), Gaps(slots), job.app.strategy.partition)
    decreases |slots| - i
  {
    if i == |slots| {
      NoGaps(slots);
    } else {
      var slots' := FillSlot(job, slots, build, i);
      assert Fill(job, slots, build, i) == Fill(job, slots', build, i + 1);
      if slots[i].None? {
        NewPodCounts(job, slots, build, i);
      }
      UnorderedCount(job, slots', build, i + 1);
    }
  }

  // ---- what else of the template and the App is in a new pod ----

  /**
   A new pod runs the containers of its revision's template under the name, namespace, host name and subdomain that
   the App and the ordinal give it. It has the template's labels, besides the three that tell its App, its ordinal
   and its revision.
   */
  lemma NewPodIsTemplates(app: App, order: ClaimOrder, revision: Revision, ordinal: nat)
    requires ordinal <= MAX_INT64 && IsClaimOrder(app, order(ordinal))
    ensures
      var pod := PodBuilder(app, order)(revision, ordinal);
      && pod.containers == revision.data.containers
      && pod.name == pod.hostname == app.name + "-" + Itoa(ordinal)
      && pod.namespace == app.namespace && pod.subdomain == app.serviceName
      && pod.labels.Keys == revision.data.labels.Keys + {LABEL_OWNER_APP, LABEL_ORDINAL, LABEL_REVISION}
      && pod.labels[LABEL_OWNER_APP] == app.name && pod.labels[LABEL_ORDINAL] == Itoa(ordinal)
      && pod.labels[LABEL_REVISION] == revision.name
      && (forall key | key in revision.data.labels && key !in {LABEL_OWNER_APP, LABEL_ORDINAL, LABEL_REVISION} ::
            pod.labels[key] == revision.data.labels[key])
  {
    ParsePrintedName(app.name, ordinal);
    LabelsDiffer();
  }
}
