/** Runs of the gang plugin: pods arrive, ask for a permit, start, finish and leave; gangs get rejected. */
module GangRuns {
  import opened Text
  import opened Kube
  import opened Gang
  import Runs

  /** The available-count label that the pods of each gang carry. */
  type Counts = string -> string

  datatype Event =
    | Arrive(p: Member)
    | Permit(p: Member)
    | Unreserve(p: Member)
    | Start(i: nat)
    | Finish(i: nat, phase: Phase)
    | Leave(i: nat)

  predicate Labelled(counts: Counts, p: Member) {
    p.gang != "" ==> p.available == counts(p.gang)
  }

  predicate IsGangPod(p: Member) {
    p.gang != "" && p.available != ""
  }

  ghost predicate Distinct(pods: seq<Member>) {
    forall i, j | 0 <= i < j < |pods| :: pods[i].key != pods[j].key
  }

  function Pods(listed: seq<Listed>): seq<Member> {
    seq(|listed|, i requires 0 <= i < |listed| => listed[i].pod)
  }

  /**
    What can happen next. Pods have identities of their own, though one may come again under the name of one
    that left. A gang pod starts only once it was admitted, and asks for its permit while it is pending. It may
    ask again after it was admitted, as it does when its binding failed.
   */
  ghost predicate Step(counts: Counts, s: Gangs, e: Event, s': Gangs) {
    match e
    case Arrive(p) =>
      && Labelled(counts, p) && p.key !in Keys(Pods(s.listed))
      && s' == s.(listed := s.listed + [Listed(p, Pending)])
    case Permit(p) =>
      && Listed(p, Pending) in s.listed && p.key !in Keys(s.waiting)
      && s' == AfterPermit(s, p)
    case Unreserve(p) =>
      s' == AfterUnreserve(s, p)
    case Start(i) =>
      && i < |s.listed| && s.listed[i].phase.Pending?
      && (IsGangPod(s.listed[i].pod) ==> s.listed[i].pod.key in PermittedIn(s, s.listed[i].pod.gang))
      && s' == s.(listed := s.listed[i := s.listed[i].(phase := Running)])
    case Finish(i, phase) =>
      && i < |s.listed| && s.listed[i].phase.Running? && (phase.Succeeded? || phase.Failed?)
      && s' == s.(listed := s.listed[i := s.listed[i].(phase := phase)])
    case Leave(i) =>
      && i < |s.listed| && s.listed[i].pod.key !in Keys(s.waiting)
      && s' == s.(listed := s.listed[..i] + s.listed[i + 1..])
  }

  ghost function StepsOf(counts: Counts): (Gangs, Event, Gangs) -> bool {
    (s, e, s') => Step(counts, s, e, s')
  }

  ghost predicate IsRun(counts: Counts, states: seq<Gangs>, events: seq<Event>) {
    Runs.IsRunOf(StepsOf(counts), states, events)
  }

  // ---- what holds throughout ----

  predicate IsParked(counts: Counts, s: Gangs, p: Member) {
    && IsGangPod(p) && Labelled(counts, p) && p.gang !in s.rejected
    && p.key !in PermittedIn(s, p.gang) && Listed(p, Pending) in s.listed
  }

  predicate IsKnown(counts: Counts, s: Gangs, l: Listed) {
    && Labelled(counts, l.pod)
    && (IsGangPod(l.pod) && l.phase.Running? ==> l.pod.key in PermittedIn(s, l.pod.gang))
  }

  /** None of a gang's pods has been admitted, or at least as many as its label asks for. */
  predicate AllOrNothing(counts: Counts, s: Gangs, gang: string) {
    || PermittedIn(s, gang) == {}
    || (Atoi(counts(gang)).Some? && |PermittedIn(s, gang)| >= Atoi(counts(gang)).value)
  }

  /** Pods wait only for a gang of which none has been admitted, and only while they are too few. */
  predicate NoneWaitsInVain(counts: Counts, s: Gangs, gang: string) {
    OfGang(s.waiting, gang) != [] ==>
      && PermittedIn(s, gang) == {}
      && Atoi(counts(gang)).Some? && |OfGang(s.waiting, gang)| < Atoi(counts(gang)).value
  }

  ghost predicate Inv(counts: Counts, s: Gangs) {
    && Distinct(s.waiting) && Distinct(Pods(s.listed))
    && (forall p <- s.waiting :: IsParked(counts, s, p))
    && (forall l <- s.listed :: IsKnown(counts, s, l))
    && (forall gang :: AllOrNothing(counts, s, gang) && NoneWaitsInVain(counts, s, gang))
  }

  // ---- counting ----

  lemma {:induction false} KeysCount(pods: seq<Member>)
    requires Distinct(pods)
    ensures |Keys(pods)| == |pods|
  {
    if pods != [] {
      var front, last := pods[..|pods| - 1], pods[|pods| - 1];
      KeysCount(front);
      KeysOfOneMore(front, last);
      assert front + [last] == pods;
    }
  }

  lemma {:induction false} OfGangMembers(pods: seq<Member>, gang: string)
    ensures forall p :: p in OfGang(pods, gang) <==> p in pods && p.gang == gang
    ensures forall p :: p in OutsideGang(pods, gang) <==> p in pods && p.gang != gang
    ensures Distinct(pods) ==> Distinct(OfGang(pods, gang)) && Distinct(OutsideGang(pods, gang))
  {
    if pods != [] {
      var front, last := pods[..|pods| - 1], pods[|pods| - 1];
      OfGangMembers(front, gang);
      assert pods == front + [last];
    }
  }

  lemma {:induction false} InPhaseMembers(listed: seq<Listed>, gang: string, phase: Phase)
    ensures forall p :: p in InPhase(listed, gang, phase) <==> Listed(p, phase) in listed && p.gang == gang
    ensures Distinct(Pods(listed)) ==> Distinct(InPhase(listed, gang, phase))
  {
    if listed != [] {
      var front, last := listed[..|listed| - 1], listed[|listed| - 1];
      InPhaseMembers(front, gang, phase);
      assert listed == front + [last];
      if Distinct(Pods(listed)) {
        assert Pods(front) == Pods(listed)[..|front|];
        forall p <- InPhase(front, gang, phase) ensures p.key != last.pod.key {
          var i :| 0 <= i < |front| && front[i] == Listed(p, phase);
          assert Pods(listed)[i] == p && Pods(listed)[|front|] == last.pod;
        }
      }
    }
  }

  /** Two listed entries of one key are the same entry. */
  lemma SameKeySameEntry(listed: seq<Listed>, a: Listed, b: Listed)
    requires Distinct(Pods(listed)) && a in listed && b in listed && a.pod.key == b.pod.key
    ensures a == b
  {
    var i :| 0 <= i < |listed| && listed[i] == a;
    var j :| 0 <= j < |listed| && listed[j] == b;
    assert Pods(listed)[i].key == Pods(listed)[j].key;
  }

  /** A running pod of a gang has been admitted before. */
  lemma RunningArePermitted(counts: Counts, s: Gangs, gang: string)
    requires Inv(counts, s) && gang != "" && counts(gang) != ""
    ensures Keys(InPhase(s.listed, gang, Running)) <= PermittedIn(s, gang)
    ensures |Keys(InPhase(s.listed, gang, Running))| == |InPhase(s.listed, gang, Running)|
  {
    var running := InPhase(s.listed, gang, Running);
    InPhaseMembers(s.listed, gang, Running);
    KeysCount(running);
    forall q <- running ensures q.key in PermittedIn(s, gang) {
      assert IsKnown(counts, s, Listed(q, Running));
    }
  }

  /** A waiting pod of a gang is pending and has not been admitted. */
  lemma ParkedArePending(counts: Counts, s: Gangs, gang: string)
    requires Inv(counts, s)
    ensures Keys(OfGang(s.waiting, gang)) <= Keys(InPhase(s.listed, gang, Pending))
    ensures Keys(OfGang(s.waiting, gang)) !! PermittedIn(s, gang)
    ensures |Keys(OfGang(s.waiting, gang))| == |OfGang(s.waiting, gang)|
  {
    var parked := OfGang(s.waiting, gang);
    OfGangMembers(s.waiting, gang);
    InPhaseMembers(s.listed, gang, Pending);
    KeysCount(parked);
    forall q <- parked ensures q.key !in PermittedIn(s, gang) && q in InPhase(s.listed, gang, Pending) {
      assert IsParked(counts, s, q);
    }
  }

  /**
    The number that Permit compares is the number of pods that admitting would leave admitted, so none
    counts twice, except a pod that asks again: it counts once as admitted and once as itself.
   */
  lemma TogetherCountsAdmitted(counts: Counts, s: Gangs, p: Member)
    requires Inv(counts, s) && IsGangPod(p) && Labelled(counts, p) && p.key !in Keys(s.waiting)
    ensures Together(s, p.gang) == |Admitted(s, p)| + Again(s, p)
  {
    var running, parked := Keys(InPhase(s.listed, p.gang, Running)), Keys(OfGang(s.waiting, p.gang));
    RunningArePermitted(counts, s, p.gang);
    ParkedArePending(counts, s, p.gang);
    assert p.key !in parked by {
      OfGangMembers(s.waiting, p.gang);
    }
    AdmittedSize(PermittedIn(s, p.gang), parked, running, p.key);
  }

  /** One for a pod that was admitted before. */
  function Again(s: Gangs, p: Member): nat {
    if p.key in PermittedIn(s, p.gang) then 1 else 0
  }

  lemma AdmittedSize<K>(permitted: set<K>, parked: set<K>, running: set<K>, key: K)
    requires running <= permitted && parked !! permitted && key !in parked
    ensures |parked| + |permitted - running| + |running| + 1
         == |permitted + parked + {key}| + (if key in permitted then 1 else 0)
  {
    Partition(permitted, running);
    assert |permitted + parked| == |permitted| + |parked|;
    if key in permitted {
      assert permitted + parked + {key} == permitted + parked;
    }
  }

  lemma Partition<K>(whole: set<K>, part: set<K>)
    requires part <= whole
    ensures |whole - part| + |part| == |whole|
  {
    assert whole == (whole - part) + part;
  }

  // ---- each step keeps it ----

  /** A pod is parked only as long as it has not been admitted. */
  lemma WaitIsNew(counts: Counts, s: Gangs, p: Member)
    requires Inv(counts, s) && IsGangPod(p) && Labelled(counts, p) && p.key !in Keys(s.waiting)
    requires PermitVerdict(s, p).Wait?
    ensures PermittedIn(s, p.gang) == {} && |OfGang(s.waiting, p.gang)| + 1 < Atoi(p.available).value
  {
    TogetherCountsAdmitted(counts, s, p);
    Partition(Admitted(s, p), PermittedIn(s, p.gang));
    assert AllOrNothing(counts, s, p.gang);
  }

  lemma WaitKeepsInv(counts: Counts, s: Gangs, p: Member)
    requires Inv(counts, s) && Listed(p, Pending) in s.listed && p.key !in Keys(s.waiting)
    requires PermitVerdict(s, p).Wait?
    ensures Inv(counts, AfterPermit(s, p))
  {
    var s' := AfterPermit(s, p);
    assert IsKnown(counts, s, Listed(p, Pending));
    WaitIsNew(counts, s, p);
    forall q <- s'.waiting ensures IsParked(counts, s', q) {
      assert q != p ==> q in s.waiting && IsParked(counts, s, q);
    }
    forall q <- s.waiting ensures q.key != p.key {
      assert q.key in Keys(s.waiting);
    }
    forall l <- s'.listed ensures IsKnown(counts, s', l) {
      assert IsKnown(counts, s, l);
    }
    forall gang ensures AllOrNothing(counts, s', gang) && NoneWaitsInVain(counts, s', gang) {
      assert AllOrNothing(counts, s, gang) && NoneWaitsInVain(counts, s, gang);
      OneMoreParked(s.waiting, p, gang);
    }
  }

  lemma OneMoreParked(pods: seq<Member>, p: Member, gang: string)
    ensures OfGang(pods + [p], gang) == if p.gang == gang then OfGang(pods, gang) + [p] else OfGang(pods, gang)
  {
    assert (pods + [p])[..|pods|] == pods;
  }

  lemma AdmitKeepsParked(counts: Counts, s: Gangs, p: Member)
    requires Inv(counts, s)
    ensures
      var s' := WithGangAdmitted(s, p);
      Distinct(s'.waiting) && forall q <- s'.waiting :: IsParked(counts, s', q)
  {
    var s' := WithGangAdmitted(s, p);
    OfGangMembers(s.waiting, p.gang);
    forall q <- s'.waiting ensures IsParked(counts, s', q) {
      assert IsParked(counts, s, q);
    }
  }

  lemma AdmitKeepsInv(counts: Counts, s: Gangs, p: Member)
    requires Inv(counts, s)
    requires Atoi(counts(p.gang)).Some? && |Admitted(s, p)| >= Atoi(counts(p.gang)).value
    ensures Inv(counts, WithGangAdmitted(s, p))
  {
    var s' := WithGangAdmitted(s, p);
    AdmitKeepsParked(counts, s, p);
    forall l <- s'.listed ensures IsKnown(counts, s', l) {
      assert IsKnown(counts, s, l);
      AdmittedGrows(s, p, l.pod.gang);
    }
    forall gang ensures AllOrNothing(counts, s', gang) && NoneWaitsInVain(counts, s', gang) {
      assert AllOrNothing(counts, s, gang) && NoneWaitsInVain(counts, s, gang);
      AdmittedGrows(s, p, gang);
      OutsideOfGang(s.waiting, p.gang, gang);
    }
  }

  lemma AdmittedGrows(s: Gangs, p: Member, gang: string)
    ensures PermittedIn(WithGangAdmitted(s, p), gang) == if gang == p.gang then Admitted(s, p) else PermittedIn(s, gang)
    ensures PermittedIn(s, gang) <= PermittedIn(WithGangAdmitted(s, p), gang)
  {
  }

  lemma AdmittedSuffice(counts: Counts, s: Gangs, p: Member)
    requires Inv(counts, s) && Labelled(counts, p) && p.key !in Keys(s.waiting)
    requires PermitVerdict(s, p).Admit?
    ensures Atoi(counts(p.gang)).Some? && |Admitted(s, p)| >= Atoi(counts(p.gang)).value
  {
    TogetherCountsAdmitted(counts, s, p);
    if p.key in PermittedIn(s, p.gang) {
      assert AllOrNothing(counts, s, p.gang);
      Partition(Admitted(s, p), PermittedIn(s, p.gang));
    }
  }

  lemma RejectKeepsInv(counts: Counts, s: Gangs, p: Member)
    requires Inv(counts, s)
    ensures Inv(counts, AfterUnreserve(s, p))
  {
    var s' := AfterUnreserve(s, p);
    OfGangMembers(s.waiting, p.gang);
    forall q <- s'.waiting ensures IsParked(counts, s', q) {
      assert IsParked(counts, s, q);
    }
    forall l <- s'.listed ensures IsKnown(counts, s', l) {
      assert IsKnown(counts, s, l);
    }
    forall gang ensures AllOrNothing(counts, s', gang) && NoneWaitsInVain(counts, s', gang) {
      assert AllOrNothing(counts, s, gang) && NoneWaitsInVain(counts, s, gang);
      OutsideOfGang(s.waiting, p.gang, gang);
    }
  }

  /** The plugin's own maps stay as they are when pods come, change phase and go. */
  lemma ListKeepsInv(counts: Counts, s: Gangs, listed: seq<Listed>)
    requires Inv(counts, s)
    requires Distinct(Pods(listed))
    requires forall l <- listed :: IsKnown(counts, s, l)
    requires forall q <- s.waiting :: Listed(q, Pending) in listed
    ensures Inv(counts, s.(listed := listed))
  {
    var s' := s.(listed := listed);
    forall q <- s'.waiting ensures IsParked(counts, s', q) {
      assert IsParked(counts, s, q);
    }
    forall l <- s'.listed ensures IsKnown(counts, s', l) {
      assert IsKnown(counts, s, l);
    }
    forall gang ensures AllOrNothing(counts, s', gang) && NoneWaitsInVain(counts, s', gang) {
      assert AllOrNothing(counts, s, gang) && NoneWaitsInVain(counts, s, gang);
    }
  }

  lemma ArriveKeepsInv(counts: Counts, s: Gangs, p: Member)
    requires Inv(counts, s) && Labelled(counts, p) && p.key !in Keys(Pods(s.listed))
    ensures Inv(counts, s.(listed := s.listed + [Listed(p, Pending)]))
  {
    var listed := s.listed + [Listed(p, Pending)];
    assert Pods(listed) == Pods(s.listed) + [p];
    forall q <- Pods(s.listed) ensures q.key != p.key {
      assert q.key in Keys(Pods(s.listed));
    }
    forall q <- s.waiting ensures Listed(q, Pending) in listed {
      assert IsParked(counts, s, q);
    }
    ListKeepsInv(counts, s, listed);
  }

  lemma PhaseKeepsInv(counts: Counts, s: Gangs, i: nat, phase: Phase)
    requires Inv(counts, s) && i < |s.listed|
    requires s.listed[i].pod !in s.waiting || !s.listed[i].phase.Pending?
    requires IsKnown(counts, s, s.listed[i].(phase := phase))
    ensures Inv(counts, s.(listed := s.listed[i := s.listed[i].(phase := phase)]))
  {
    var listed := s.listed[i := s.listed[i].(phase := phase)];
    assert Pods(listed) == Pods(s.listed);
    forall l <- listed ensures IsKnown(counts, s, l) {
      assert l in s.listed || l == s.listed[i].(phase := phase);
    }
    forall q <- s.waiting ensures Listed(q, Pending) in listed {
      assert IsParked(counts, s, q);
      var j :| 0 <= j < |s.listed| && s.listed[j] == Listed(q, Pending);
      assert listed[j] == s.listed[j];
    }
    ListKeepsInv(counts, s, listed);
  }

  lemma LeaveKeepsInv(counts: Counts, s: Gangs, i: nat)
    requires Inv(counts, s) && i < |s.listed| && s.listed[i].pod.key !in Keys(s.waiting)
    ensures Inv(counts, s.(listed := s.listed[..i] + s.listed[i + 1..]))
  {
    var listed := s.listed[..i] + s.listed[i + 1..];
    assert Pods(listed) == Pods(s.listed)[..i] + Pods(s.listed)[i + 1..];
    forall q <- s.waiting ensures Listed(q, Pending) in listed {
      assert IsParked(counts, s, q) && q.key in Keys(s.waiting);
      var j :| 0 <= j < |s.listed| && s.listed[j] == Listed(q, Pending);
      assert s.listed[j] in listed;
    }
    ListKeepsInv(counts, s, listed);
  }

  lemma StepKeepsInv(counts: Counts, s: Gangs, e: Event, s': Gangs)
    requires Inv(counts, s) && Step(counts, s, e, s')
    ensures Inv(counts, s')
  {
    match e
    case Arrive(p) => ArriveKeepsInv(counts, s, p);
    case Permit(p) =>
      match PermitVerdict(s, p) {
        case Wait => WaitKeepsInv(counts, s, p);
        case Admit =>
          assert IsKnown(counts, s, Listed(p, Pending));
          AdmittedSuffice(counts, s, p);
          AdmitKeepsInv(counts, s, p);
        case _ =>
      }
    case Unreserve(p) => RejectKeepsInv(counts, s, p);
    case Start(i) =>
      var l := s.listed[i];
      assert IsKnown(counts, s, l);
      assert l.pod in s.waiting ==> IsParked(counts, s, l.pod);
      PhaseKeepsInv(counts, s, i, Running);
    case Finish(i, phase) =>
      assert IsKnown(counts, s, s.listed[i]);
      PhaseKeepsInv(counts, s, i, phase);
    case Leave(i) => LeaveKeepsInv(counts, s, i);
  }

  lemma {:induction false} RunKeepsInv(counts: Counts, states: seq<Gangs>, events: seq<Event>)
    requires IsRun(counts, states, events) && states[0] == Gangs([], map[], {}, [])
    ensures Inv(counts, states[|events|])
  {
    if events != [] {
      var last := |events| - 1;
      RunKeepsInv(counts, states[..|states| - 1], events[..last]);
      assert StepsOf(counts)(states[last], events[last], states[last + 1]);
      StepKeepsInv(counts, states[last], events[last], states[last + 1]);
    }
  }

  // ---- what it means ----

  /** The gang's pods that were admitted, or are running. */
  function Released(s: Gangs, gang: string): set<string> {
    PermittedIn(s, gang) + Keys(InPhase(s.listed, gang, Running))
  }

  /**
    However a run goes, a gang has either no pod at all that was ever admitted or is running, or at least as many
    of them as its label asks for. Some of them may have finished or left since.
   */
  lemma AdmittedTogetherOrNotAtAll(counts: Counts, states: seq<Gangs>, events: seq<Event>, gang: string)
    requires IsRun(counts, states, events) && states[0] == Gangs([], map[], {}, [])
    requires gang != "" && counts(gang) != ""
    ensures
      var released := Released(states[|events|], gang);
      released != {} ==> Atoi(counts(gang)).Some? && |released| >= Atoi(counts(gang)).value
  {
    var s := states[|events|];
    RunKeepsInv(counts, states, events);
    RunningArePermitted(counts, s, gang);
    assert Released(s, gang) == PermittedIn(s, gang);
    assert AllOrNothing(counts, s, gang);
  }

  /**
    However a run goes, as long as pods of a gang wait none of the gang is admitted or running, and they are
    fewer than its label asks for: the pod that makes up the number takes them all along.
   */
  lemma WaitingAreTooFew(counts: Counts, states: seq<Gangs>, events: seq<Event>, gang: string)
    requires IsRun(counts, states, events) && states[0] == Gangs([], map[], {}, [])
    ensures
      var s := states[|events|];
      OfGang(s.waiting, gang) != [] ==>
        && Released(s, gang) == {}
        && Atoi(counts(gang)).Some? && |OfGang(s.waiting, gang)| < Atoi(counts(gang)).value
  {
    var s := states[|events|];
    RunKeepsInv(counts, states, events);
    assert NoneWaitsInVain(counts, s, gang);
    if OfGang(s.waiting, gang) != [] {
      OfGangMembers(s.waiting, gang);
      var p := OfGang(s.waiting, gang)[0];
      assert p in OfGang(s.waiting, gang) && IsParked(counts, s, p);
      RunningArePermitted(counts, s, gang);
    }
  }

  lemma {:induction false} OutsideOfGang(pods: seq<Member>, gang: string, other: string)
    ensures OfGang(OutsideGang(pods, gang), other) == if other == gang then [] else OfGang(pods, other)
  {
    if pods != [] {
      var front, last := pods[..|pods| - 1], pods[|pods| - 1];
      OutsideOfGang(front, gang, other);
      var outside := OutsideGang(front, gang);
      assert (outside + [last])[..|outside|] == outside;
    }
  }

  /** Admitting empties the gang's waiting pods into its admitted ones; other gangs notice nothing. */
  lemma AdmitMovesTheGang(s: Gangs, p: Member, other: string)
    requires PermitVerdict(s, p).Admit?
    ensures
      var s' := AfterPermit(s, p);
      && OfGang(s'.waiting, p.gang) == []
      && PermittedIn(s', p.gang) == PermittedIn(s, p.gang) + Keys(OfGang(s.waiting, p.gang)) + {p.key}
      && (other != p.gang ==>
            OfGang(s'.waiting, other) == OfGang(s.waiting, other) && PermittedIn(s', other) == PermittedIn(s, other))
  {
    OutsideOfGang(s.waiting, p.gang, p.gang);
    OutsideOfGang(s.waiting, p.gang, other);
  }

  /** Nothing waits and nothing more is admitted. */
  predicate IsOut(s: Gangs, gang: string, permitted: set<string>) {
    gang in s.rejected && OfGang(s.waiting, gang) == [] && PermittedIn(s, gang) == permitted
  }

  lemma OutStaysOut(counts: Counts, s: Gangs, e: Event, s': Gangs, gang: string, permitted: set<string>)
    requires Step(counts, s, e, s') && IsOut(s, gang, permitted)
    ensures IsOut(s', gang, permitted)
  {
    match e
    case Permit(p) => PermitKeepsOut(s, p, gang, permitted);
    case Unreserve(p) => OutsideOfGang(s.waiting, p.gang, gang);
    case _ =>
  }

  lemma PermitKeepsOut(s: Gangs, p: Member, gang: string, permitted: set<string>)
    requires IsOut(s, gang, permitted)
    ensures IsOut(AfterPermit(s, p), gang, permitted)
  {
    match PermitVerdict(s, p)
    case Wait => OneMoreParked(s.waiting, p, gang);
    case Admit => OutsideOfGang(s.waiting, p.gang, gang);
    case _ =>
  }

  /** A gang that lost a reservation is out for good: from then on none of its pods waits or is admitted. */
  lemma {:induction false} RejectedForGood(counts: Counts, states: seq<Gangs>, events: seq<Event>, p: Member)
    requires IsRun(counts, states, events) && events != [] && events[0] == Unreserve(p) && p.gang != ""
    ensures IsOut(states[|events|], p.gang, PermittedIn(states[0], p.gang))
  {
    var last := |events| - 1;
    if last == 0 {
      assert Step(counts, states[0], events[0], states[1]);
      OutsideOfGang(states[0].waiting, p.gang, p.gang);
    } else {
      RejectedForGood(counts, states[..|states| - 1], events[..last], p);
      OutStaysOut(counts, states[last], events[last], states[last + 1], p.gang, PermittedIn(states[0], p.gang));
    }
  }

  // ---- the early filter ----

  /** Admitted pods that are neither running nor pending any more. */
  function Gone(s: Gangs, gang: string): set<string> {
    PermittedIn(s, gang) - Keys(InPhase(s.listed, gang, Running)) - Keys(InPhase(s.listed, gang, Pending))
  }

  /** Pending pods, other than the one at hand, that neither wait nor have been admitted. */
  function Idle(s: Gangs, p: Member): set<string> {
    Keys(InPhase(s.listed, p.gang, Pending)) - Keys(OfGang(s.waiting, p.gang)) - PermittedIn(s, p.gang) - {p.key}
  }

  /** Pods of different phases are different pods. */
  lemma PhasesApart(s: Gangs, gang: string)
    requires Distinct(Pods(s.listed))
    ensures Keys(InPhase(s.listed, gang, Running)) !! Keys(InPhase(s.listed, gang, Pending))
  {
    var running, pending := InPhase(s.listed, gang, Running), InPhase(s.listed, gang, Pending);
    InPhaseMembers(s.listed, gang, Running);
    InPhaseMembers(s.listed, gang, Pending);
    forall a <- running, b <- pending ensures a.key != b.key {
      if a.key == b.key {
        SameKeySameEntry(s.listed, Listed(a, Running), Listed(b, Pending));
      }
    }
  }

  /**
    What Permit counts and what PreFilter counts differ by the pods that are gone and the idle ones, and by one
    for a pod that asks again.
   */
  lemma FiltersCompared(counts: Counts, s: Gangs, p: Member)
    requires Inv(counts, s) && IsGangPod(p) && Listed(p, Pending) in s.listed && p.key !in Keys(s.waiting)
    ensures Together(s, p.gang) + |Idle(s, p)|
         == |InPhase(s.listed, p.gang, Running)| + |InPhase(s.listed, p.gang, Pending)|
            + |Gone(s, p.gang)| + Again(s, p)
  {
    var running, pending := InPhase(s.listed, p.gang, Running), InPhase(s.listed, p.gang, Pending);
    assert IsKnown(counts, s, Listed(p, Pending));
    RunningArePermitted(counts, s, p.gang);
    ParkedArePending(counts, s, p.gang);
    TogetherCountsAdmitted(counts, s, p);
    PhasesApart(s, p.gang);
    assert p.key in Keys(pending) && |Keys(pending)| == |pending| by {
      InPhaseMembers(s.listed, p.gang, Pending);
      KeysCount(pending);
    }
    KeySets(PermittedIn(s, p.gang), Keys(OfGang(s.waiting, p.gang)), Keys(running), Keys(pending), p.key);
  }

  /** The sets behind both counts. */
  lemma KeySets<K>(permitted: set<K>, parked: set<K>, running: set<K>, pending: set<K>, key: K)
    requires parked <= pending && parked !! permitted && running <= permitted && running !! pending && key in pending
    ensures |permitted + parked + {key}| + |pending - parked - permitted - {key}|
         == |running| + |pending| + |permitted - running - pending|
  {
    SameUnion(permitted + parked + {key}, pending - parked - permitted - {key},
              running, pending, permitted - running - pending);
  }

  lemma SameUnion<K>(a: set<K>, b: set<K>, c: set<K>, d: set<K>, e: set<K>)
    requires a !! b && c !! d && (c + d) !! e && a + b == c + d + e
    ensures |a| + |b| == |c| + |d| + |e|
  {
    assert |a + b| == |a| + |b|;
    assert |c + d| == |c| + |d|;
    assert |c + d + e| == |c + d| + |e|;
  }

  /**
    When PreFilter turns a pod away for lack of pods, Permit would have made it wait, unless more admitted
    pods are gone than pods are idle, or the pod asks again; as long as no admitted pod is gone, the early
    refusal of a new pod is right.
   */
  lemma PreFilterIsRight(counts: Counts, s: Gangs, p: Member)
    requires Inv(counts, s) && Listed(p, Pending) in s.listed && p.key !in Keys(s.waiting)
    requires PreFilterVerdict(s, p).TooFew?
    ensures
      var seen := |InPhase(s.listed, p.gang, Running)| + |InPhase(s.listed, p.gang, Pending)|;
      PermitVerdict(s, p).Wait? <==> seen + |Gone(s, p.gang)| + Again(s, p) - |Idle(s, p)| < Atoi(p.available).value
    ensures |Gone(s, p.gang)| + Again(s, p) <= |Idle(s, p)| ==> PermitVerdict(s, p).Wait?
  {
    var gone, idle := |Gone(s, p.gang)|, |Idle(s, p)|;
    var running, pending := |InPhase(s.listed, p.gang, Running)|, |InPhase(s.listed, p.gang, Pending)|;
    assert Together(s, p.gang) + idle == running + pending + gone + Again(s, p) by {
      FiltersCompared(counts, s, p);
    }
    BothVerdicts(s, p);
  }

  lemma BothVerdicts(s: Gangs, p: Member)
    requires PreFilterVerdict(s, p).TooFew?
    ensures Atoi(p.available).Some?
    ensures |InPhase(s.listed, p.gang, Running)| + |InPhase(s.listed, p.gang, Pending)| < Atoi(p.available).value
    ensures PermitVerdict(s, p).Wait? <==> Together(s, p.gang) < Atoi(p.available).value
  {
  }

  /**
    Two pods of a gang of two are admitted, run and finish. The third, which comes then, is refused by PreFilter,
    while Permit would let it through, and leave it as the only live pod of its gang.
   */
  lemma PreFilterRefusesTooMuch() returns (counts: Counts, states: seq<Gangs>, events: seq<Event>, p: Member)
    ensures IsRun(counts, states, events) && states[0] == Gangs([], map[], {}, [])
    ensures
      var s := states[|events|];
      && Listed(p, Pending) in s.listed && p.key !in Keys(s.waiting)
      && PreFilterVerdict(s, p).TooFew? && PermitVerdict(s, p).Admit?
      && |Live(AfterPermit(s, p), p.gang)| < Atoi(p.available).value == 2
  {
    AtoiItoa(2);
    var two := Itoa(2);
    counts, p := _ => two, Member("c", "g", two);
    var s := FinishedState(p);
    FinishedRun(counts, p);
    states, events :| Runs.LeadsBy(StepsOf(counts), states, events, Gangs([], map[], {}, []), s);
    assert s.listed[2] == Listed(p, Pending);
    RunKeepsInv(counts, states, events);
    FinishedVerdicts(counts, s, p);
    RefusalProtects(counts, s, p);
  }

  /** Whenever PreFilter refuses a pod that Permit would admit, too few live pods would be admitted with it. */
  lemma RefusalProtects(counts: Counts, s: Gangs, p: Member)
    requires Inv(counts, s) && Listed(p, Pending) in s.listed && p.key !in Keys(s.waiting)
    requires PreFilterVerdict(s, p).TooFew? && PermitVerdict(s, p).Admit?
    ensures |Live(AfterPermit(s, p), p.gang)| < Atoi(p.available).value
  {
    AdmitMeans(s, p);
    LiveAfterAdmission(counts, s, p);
    BothVerdicts(s, p);
  }

  predicate IsThird(counts: Counts, p: Member) {
    p.gang != "" && p.key == "c" && counts(p.gang) == p.available && p.available != "" && Atoi(p.available) == Some(2)
  }

  function Two(p: Member, a: Phase, b: Phase): seq<Listed> {
    [Listed(p.(key := "a"), a), Listed(p.(key := "b"), b)]
  }

  function FinishedState(p: Member): Gangs {
    Gangs([], map[p.gang := {"a", "b"}], {}, Two(p, Succeeded, Succeeded) + [Listed(p, Pending)])
  }

  lemma FinishedRun(counts: Counts, p: Member)
    requires IsThird(counts, p)
    ensures Runs.Leads(StepsOf(counts), Gangs([], map[], {}, []), FinishedState(p))
  {
    var a, b := p.(key := "a"), p.(key := "b");
    var one := Gangs([], map[], {}, [Listed(a, Pending)]);
    var two := Gangs([], map[], {}, Two(p, Pending, Pending));
    var admitted := two.(permitted := map[p.gang := {"a", "b"}]);
    TwoRunAndFinish(counts, p, admitted);
    FirstWaits(counts, p, two);
    SecondAdmits(counts, p, two);
    var steps, end := StepsOf(counts), FinishedState(p);
    Runs.StepLeads(steps, two.(waiting := [a]), Permit(b), admitted, end);
    Runs.StepLeads(steps, two, Permit(a), two.(waiting := [a]), end);
    TwoArrive(counts, p, one, two);
    Runs.StepLeads(steps, one, Arrive(b), two, end);
    Runs.StepLeads(steps, Gangs([], map[], {}, []), Arrive(a), one, end);
  }

  lemma TwoArrive(counts: Counts, p: Member, one: Gangs, two: Gangs)
    requires IsThird(counts, p)
    requires one == Gangs([], map[], {}, [Listed(p.(key := "a"), Pending)])
    requires two == Gangs([], map[], {}, Two(p, Pending, Pending))
    ensures Step(counts, Gangs([], map[], {}, []), Arrive(p.(key := "a")), one)
    ensures Step(counts, one, Arrive(p.(key := "b")), two)
  {
    assert "a"[0] != "b"[0];
  }

  lemma TwoRunAndFinish(counts: Counts, p: Member, admitted: Gangs)
    requires IsThird(counts, p)
    requires admitted == Gangs([], map[p.gang := {"a", "b"}], {}, Two(p, Pending, Pending))
    ensures Runs.Leads(StepsOf(counts), admitted, FinishedState(p))
  {
    var starts := admitted.(listed := Two(p, Running, Pending));
    var runs := admitted.(listed := Two(p, Running, Running));
    var ends := admitted.(listed := Two(p, Succeeded, Running));
    var ended := admitted.(listed := Two(p, Succeeded, Succeeded));
    var steps, end := StepsOf(counts), FinishedState(p);
    Runs.StayingLeads(steps, end);
    assert "a"[0] != "c"[0] && "b"[0] != "c"[0];
    assert Pods(Two(p, Succeeded, Succeeded)) == [p.(key := "a"), p.(key := "b")];
    Runs.StepLeads(steps, ended, Arrive(p), end, end);
    Runs.StepLeads(steps, ends, Finish(1, Succeeded), ended, end);
    Runs.StepLeads(steps, runs, Finish(0, Succeeded), ends, end);
    Runs.StepLeads(steps, starts, Start(1), runs, end);
    Runs.StepLeads(steps, admitted, Start(0), starts, end);
  }

  lemma FirstWaits(counts: Counts, p: Member, two: Gangs)
    requires IsThird(counts, p) && two == Gangs([], map[], {}, Two(p, Pending, Pending))
    ensures Step(counts, two, Permit(p.(key := "a")), two.(waiting := [p.(key := "a")]))
  {
    assert two.listed[0] == Listed(p.(key := "a"), Pending);
    NoneInPhase(two.listed, p.gang, Running);
    assert Together(two, p.gang) == 1;
  }

  lemma SecondAdmits(counts: Counts, p: Member, two: Gangs)
    requires IsThird(counts, p) && two == Gangs([], map[], {}, Two(p, Pending, Pending))
    ensures Step(counts, two.(waiting := [p.(key := "a")]), Permit(p.(key := "b")),
                 two.(permitted := map[p.gang := {"a", "b"}]))
  {
    var a, b := p.(key := "a"), p.(key := "b");
    var waits := two.(waiting := [a]);
    assert two.listed[1] == Listed(b, Pending) && "a"[0] != "b"[0];
    assert PermitVerdict(waits, b).Admit? by {
      NoneInPhase(two.listed, p.gang, Running);
      OneWaits(a);
      assert Together(waits, p.gang) == 2;
    }
    SecondTakesFirst(p, waits);
  }

  lemma SecondTakesFirst(p: Member, waits: Gangs)
    requires waits == Gangs([p.(key := "a")], map[], {}, waits.listed)
    ensures WithGangAdmitted(waits, p.(key := "b")) == Gangs([], map[p.gang := {"a", "b"}], {}, waits.listed)
  {
    OneWaits(p.(key := "a"));
    assert Keys([p.(key := "a")]) == {"a"};
    assert Admitted(waits, p.(key := "b")) == {"a", "b"};
  }

  lemma OneWaits(a: Member)
    ensures OfGang([a], a.gang) == [a] && OutsideGang([a], a.gang) == []
  {
    assert [a][..0] == [];
  }

  lemma FinishedVerdicts(counts: Counts, s: Gangs, p: Member)
    requires IsThird(counts, p) && s == FinishedState(p) && Distinct(Pods(s.listed))
    ensures PreFilterVerdict(s, p).TooFew? && PermitVerdict(s, p).Admit?
  {
    NoneInPhase(s.listed, p.gang, Running);
    FewPending(s.listed, p);
    FinishedTogether(s, p);
    VerdictsDiffer(s, p, 2);
  }

  lemma FewPending(listed: seq<Listed>, p: Member)
    requires Distinct(Pods(listed)) && forall l <- listed :: l.phase.Pending? ==> l.pod == p
    ensures |InPhase(listed, p.gang, Pending)| <= 1
  {
    InPhaseMembers(listed, p.gang, Pending);
    OnlyOne(InPhase(listed, p.gang, Pending), p);
  }

  lemma VerdictsDiffer(s: Gangs, p: Member, k: int)
    requires IsGangPod(p) && p.gang !in s.rejected && Atoi(p.available) == Some(k)
    requires |InPhase(s.listed, p.gang, Running)| + |InPhase(s.listed, p.gang, Pending)| < k <= Together(s, p.gang)
    ensures PreFilterVerdict(s, p).TooFew? && PermitVerdict(s, p).Admit?
  {}

  lemma FinishedTogether(s: Gangs, p: Member)
    requires s == FinishedState(p) && InPhase(s.listed, p.gang, Running) == []
    ensures Together(s, p.gang) == 3
  {
    assert "a"[0] != "b"[0];
    assert PermittedIn(s, p.gang) - Keys([]) == {"a", "b"};
  }

  lemma {:induction false} NoneInPhase(listed: seq<Listed>, gang: string, phase: Phase)
    requires forall l <- listed :: l.phase != phase
    ensures InPhase(listed, gang, phase) == []
  {
    if listed != [] {
      NoneInPhase(listed[..|listed| - 1], gang, phase);
    }
  }

  lemma OnlyOne(pods: seq<Member>, p: Member)
    requires Distinct(pods) && forall q <- pods :: q == p
    ensures |pods| <= 1
  {
    KeysCount(pods);
    Partition({p.key}, Keys(pods));
  }

  // ---- the pods that are still there ----

  /** Admitted pods that are running or pending. */
  function Live(s: Gangs, gang: string): set<string> {
    PermittedIn(s, gang) - Gone(s, gang)
  }

  function Seen(s: Gangs, gang: string): nat {
    |InPhase(s.listed, gang, Running)| + |InPhase(s.listed, gang, Pending)|
  }

  /** An admission leaves all running and pending pods of the gang admitted but the idle ones. */
  lemma LiveAfterAdmission(counts: Counts, s: Gangs, p: Member)
    requires Inv(counts, s) && IsGangPod(p) && Listed(p, Pending) in s.listed && p.key !in Keys(s.waiting)
    ensures Live(WithGangAdmitted(s, p), p.gang) == Admitted(s, p) - Gone(s, p.gang)
    ensures |Live(WithGangAdmitted(s, p), p.gang)| + |Idle(s, p)| == Seen(s, p.gang)
  {
    var running, pending := InPhase(s.listed, p.gang, Running), InPhase(s.listed, p.gang, Pending);
    assert IsKnown(counts, s, Listed(p, Pending));
    RunningArePermitted(counts, s, p.gang);
    ParkedArePending(counts, s, p.gang);
    PhasesApart(s, p.gang);
    assert p.key in Keys(pending) && |Keys(pending)| == |pending| by {
      InPhaseMembers(s.listed, p.gang, Pending);
      KeysCount(pending);
    }
    LiveKeys(PermittedIn(s, p.gang), Keys(OfGang(s.waiting, p.gang)), Keys(running), Keys(pending), p.key);
  }

  lemma LiveKeys<K>(permitted: set<K>, parked: set<K>, running: set<K>, pending: set<K>, key: K)
    requires parked <= pending && running <= permitted && running !! pending && key in pending
    ensures
      var admitted := permitted + parked + {key};
      var live := admitted - (permitted - running - pending);
      && admitted - (admitted - running - pending) == live
      && |live| + |pending - parked - permitted - {key}| == |running| + |pending|
  {
    SameLive(permitted, parked + {key}, running, pending);
    LiveCount(permitted, parked, running, pending, key);
  }

  lemma SameLive<K>(permitted: set<K>, more: set<K>, running: set<K>, pending: set<K>)
    requires more <= pending
    ensures
      var admitted := permitted + more;
      admitted - (admitted - running - pending) == admitted - (permitted - running - pending)
  {
    assert permitted + more - running - pending == permitted - running - pending;
  }

  lemma LiveCount<K>(permitted: set<K>, parked: set<K>, running: set<K>, pending: set<K>, key: K)
    requires parked <= pending && running <= permitted && running !! pending && key in pending
    ensures
      |permitted + parked + {key} - (permitted - running - pending)| + |pending - parked - permitted - {key}|
      == |running| + |pending|
  {
    var live := permitted + parked + {key} - (permitted - running - pending);
    LiveOrIdle(permitted, parked, running, pending, key);
    TwoUnions(live, pending - parked - permitted - {key}, running, pending);
  }

  lemma LiveOrIdle<K>(permitted: set<K>, parked: set<K>, running: set<K>, pending: set<K>, key: K)
    requires parked <= pending && running <= permitted && key in pending
    ensures
      var live := permitted + parked + {key} - (permitted - running - pending);
      var idle := pending - parked - permitted - {key};
      live !! idle && live + idle == running + pending
  {
    var live := permitted + parked + {key} - (permitted - running - pending);
    var idle := pending - parked - permitted - {key};
    forall k ensures k in live + idle <==> k in running + pending {
      assert k in parked || k == key ==> k in pending;
      assert k in running ==> k in permitted;
    }
  }

  lemma TwoUnions<K>(a: set<K>, b: set<K>, c: set<K>, d: set<K>)
    requires a !! b && c !! d && a + b == c + d
    ensures |a| + |b| == |c| + |d|
  {
    assert |a + b| == |a| + |b| && |c + d| == |c| + |d|;
  }

  /**
    So an admission leaves as many live pods as the label asks for if and only if the running and pending ones,
    less the idle ones, are as many.
   */
  lemma AdmissionIsLiveIff(counts: Counts, s: Gangs, p: Member)
    requires Inv(counts, s) && Listed(p, Pending) in s.listed && p.key !in Keys(s.waiting)
    requires PermitVerdict(s, p).Admit?
    ensures |Live(AfterPermit(s, p), p.gang)| >= Atoi(p.available).value
       <==> Seen(s, p.gang) - |Idle(s, p)| >= Atoi(p.available).value
  {
    AdmitMeans(s, p);
    assert |Live(WithGangAdmitted(s, p), p.gang)| + |Idle(s, p)| == Seen(s, p.gang) by {
      LiveAfterAdmission(counts, s, p);
    }
  }

  /** If no admitted pod is gone, it always does. */
  lemma AdmissionIsLive(counts: Counts, s: Gangs, p: Member)
    requires Inv(counts, s) && Listed(p, Pending) in s.listed && p.key !in Keys(s.waiting)
    requires PermitVerdict(s, p).Admit? && Gone(s, p.gang) == {}
    ensures |Live(AfterPermit(s, p), p.gang)| >= Atoi(p.available).value
  {
    AdmitMeans(s, p);
    assert Live(WithGangAdmitted(s, p), p.gang) == Admitted(s, p) by {
      LiveAfterAdmission(counts, s, p);
      MinusNothing(Admitted(s, p), Gone(s, p.gang));
    }
    EnoughAreAdmitted(counts, s, p);
  }

  lemma MinusNothing<K>(items: set<K>, nothing: set<K>)
    requires nothing == {}
    ensures items - nothing == items
  {}

  lemma EnoughAreAdmitted(counts: Counts, s: Gangs, p: Member)
    requires Inv(counts, s) && Listed(p, Pending) in s.listed && p.key !in Keys(s.waiting)
    requires PermitVerdict(s, p).Admit?
    ensures Atoi(p.available).Some? && |Admitted(s, p)| >= Atoi(p.available).value
  {
    assert IsKnown(counts, s, Listed(p, Pending));
    AdmittedSuffice(counts, s, p);
  }

  lemma AdmitMeans(s: Gangs, p: Member)
    requires PermitVerdict(s, p).Admit?
    ensures IsGangPod(p) && Atoi(p.available).Some? && AfterPermit(s, p) == WithGangAdmitted(s, p)
  {}

  /** Some pod of the gang that is running or pending has the key. */
  predicate InSight(listed: seq<Listed>, gang: string, key: string) {
    exists l <- listed :: l.pod.gang == gang && l.pod.key == key && (l.phase.Running? || l.phase.Pending?)
  }

  lemma GoneMeans(s: Gangs, gang: string)
    ensures Gone(s, gang) == {} <==> forall key <- PermittedIn(s, gang) :: InSight(s.listed, gang, key)
  {
    forall key <- PermittedIn(s, gang) ensures InSight(s.listed, gang, key) <==> key !in Gone(s, gang) {
      KeyInSight(s.listed, gang, key);
    }
  }

  lemma KeyInSight(listed: seq<Listed>, gang: string, key: string)
    ensures InSight(listed, gang, key) <==>
              key in Keys(InPhase(listed, gang, Running)) + Keys(InPhase(listed, gang, Pending))
  {
    InPhaseMembers(listed, gang, Running);
    InPhaseMembers(listed, gang, Pending);
    if InSight(listed, gang, key) {
      var l :| l in listed && l.pod.gang == gang && l.pod.key == key && (l.phase.Running? || l.phase.Pending?);
      assert l == Listed(l.pod, l.phase);
      assert l.pod in InPhase(listed, gang, l.phase);
    }
  }

  /** An admitted pod of the gang finishes or leaves. */
  predicate Loses(s: Gangs, e: Event, gang: string) {
    && (e.Finish? || e.Leave?) && e.i < |s.listed|
    && s.listed[e.i].pod.gang == gang && s.listed[e.i].pod.key in PermittedIn(s, gang)
  }

  lemma StepKeepsNoneGone(counts: Counts, s: Gangs, e: Event, s': Gangs, gang: string)
    requires Inv(counts, s) && Step(counts, s, e, s') && Gone(s, gang) == {} && !Loses(s, e, gang)
    ensures Gone(s', gang) == {}
  {
    GoneMeans(s, gang);
    GoneMeans(s', gang);
    match e
    case Permit(p) => PermitKeepsInSight(counts, s, p, gang);
    case Unreserve(p) =>
    case Arrive(p) =>
      forall key <- PermittedIn(s, gang) ensures InSight(s'.listed, gang, key) {
        SightGrows(s.listed, s'.listed, gang, key);
      }
    case Start(i) =>
      forall key <- PermittedIn(s, gang) ensures InSight(s'.listed, gang, key) {
        SightChanges(s.listed, i, Running, gang, key);
      }
    case Finish(i, phase) =>
      forall key <- PermittedIn(s, gang) ensures InSight(s'.listed, gang, key) {
        SightChanges(s.listed, i, phase, gang, key);
      }
    case Leave(i) =>
      forall key <- PermittedIn(s, gang) ensures InSight(s'.listed, gang, key) {
        SightShrinks(s.listed, i, gang, key);
      }
  }

  lemma SightGrows(listed: seq<Listed>, more: seq<Listed>, gang: string, key: string)
    requires InSight(listed, gang, key) && forall l <- listed :: l in more
    ensures InSight(more, gang, key)
  {}

  lemma SightChanges(listed: seq<Listed>, i: nat, phase: Phase, gang: string, key: string)
    requires InSight(listed, gang, key) && i < |listed|
    requires phase.Running? || listed[i].pod.gang != gang || listed[i].pod.key != key
    ensures InSight(listed[i := listed[i].(phase := phase)], gang, key)
  {
    var l :| l in listed && l.pod.gang == gang && l.pod.key == key && (l.phase.Running? || l.phase.Pending?);
    var j :| 0 <= j < |listed| && listed[j] == l;
    var changed := listed[i := listed[i].(phase := phase)];
    assert changed[j] in changed;
  }

  lemma SightShrinks(listed: seq<Listed>, i: nat, gang: string, key: string)
    requires InSight(listed, gang, key) && i < |listed|
    requires listed[i].pod.gang != gang || listed[i].pod.key != key
    ensures InSight(listed[..i] + listed[i + 1..], gang, key)
  {
    var l :| l in listed && l.pod.gang == gang && l.pod.key == key && (l.phase.Running? || l.phase.Pending?);
    assert listed == listed[..i] + [listed[i]] + listed[i + 1..];
    assert l in listed[..i] + listed[i + 1..];
  }

  lemma PermitKeepsInSight(counts: Counts, s: Gangs, p: Member, gang: string)
    requires Inv(counts, s) && Listed(p, Pending) in s.listed
    requires forall key <- PermittedIn(s, gang) :: InSight(s.listed, gang, key)
    ensures forall key <- PermittedIn(AfterPermit(s, p), gang) :: InSight(s.listed, gang, key)
  {
    if PermitVerdict(s, p).Admit? && gang == p.gang {
      forall key <- Admitted(s, p) ensures InSight(s.listed, gang, key) {
        AdmittedInSight(counts, s, p, key);
      }
    }
  }

  lemma AdmittedInSight(counts: Counts, s: Gangs, p: Member, key: string)
    requires Inv(counts, s) && Listed(p, Pending) in s.listed && key in Admitted(s, p)
    ensures key in PermittedIn(s, p.gang) || InSight(s.listed, p.gang, key)
  {
    if key !in PermittedIn(s, p.gang) {
      if key == p.key {
        assert Listed(p, Pending) in s.listed;
      } else {
        ParkedArePending(counts, s, p.gang);
        KeyInSight(s.listed, p.gang, key);
      }
    }
  }

  lemma {:induction false} NoneGone(counts: Counts, states: seq<Gangs>, events: seq<Event>, gang: string)
    requires IsRun(counts, states, events) && states[0] == Gangs([], map[], {}, [])
    requires forall i | 0 <= i < |events| :: !Loses(states[i], events[i], gang)
    ensures Gone(states[|events|], gang) == {}
  {
    if events != [] {
      var last := |events| - 1;
      var front, frontEvents := states[..|states| - 1], events[..last];
      assert forall i | 0 <= i < last :: front[i] == states[i] && frontEvents[i] == events[i];
      NoneGone(counts, front, frontEvents, gang);
      RunKeepsInv(counts, front, frontEvents);
      assert StepsOf(counts)(states[last], events[last], states[last + 1]);
      StepKeepsNoneGone(counts, states[last], events[last], states[last + 1], gang);
    }
  }

  /**
    In a run in which no admitted pod of a gang finishes or leaves, the gang has at every point either no live
    admitted pod, or at least as many as its label asks for.
   */
  lemma LiveTogetherOrNotAtAll(counts: Counts, states: seq<Gangs>, events: seq<Event>, gang: string)
    requires IsRun(counts, states, events) && states[0] == Gangs([], map[], {}, [])
    requires forall i | 0 <= i < |events| :: !Loses(states[i], events[i], gang)
    ensures
      var live := Live(states[|events|], gang);
      live != {} ==> Atoi(counts(gang)).Some? && |live| >= Atoi(counts(gang)).value
  {
    var s := states[|events|];
    NoneGone(counts, states, events, gang);
    RunKeepsInv(counts, states, events);
    assert AllOrNothing(counts, s, gang);
    assert Live(s, gang) == PermittedIn(s, gang);
  }
}
