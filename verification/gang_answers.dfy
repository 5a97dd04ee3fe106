/**
 What the gang plugin answers, and what comes of it: the framework lets a pod start on a success, or when a pod
 that waits is allowed, and on nothing else.
 */
module GangAnswers {
  import opened Text
  import opened Kube
  import opened Gang
  import opened GangRuns
  import Runs

  function PermitCode(s: Gangs, p: Member): Code {
    CodeOf(PermitVerdict(s, p))
  }

  function PreFilterCode(s: Gangs, p: Member): Code {
    CodeOf(PreFilterVerdict(s, p))
  }

  // ---- single answers ----

  /** A pod without either label passes both filters, and leaves nothing behind. */
  lemma OthersPass(s: Gangs, p: Member)
    requires p.gang == "" || p.available == ""
    ensures PermitCode(s, p) == Success == PreFilterCode(s, p) && AfterPermit(s, p) == s
  {}

  /** A gang pod passes if and only if its gang is not rejected and the pod is then among the admitted ones. */
  lemma SuccessIff(counts: Counts, s: Gangs, p: Member)
    requires Inv(counts, s) && IsGangPod(p) && Listed(p, Pending) in s.listed && p.key !in Keys(s.waiting)
    ensures PermitCode(s, p) == Success
       <==> p.gang !in s.rejected && p.key in PermittedIn(AfterPermit(s, p), p.gang)
  {
    assert IsKnown(counts, s, Listed(p, Pending));
    assert AllOrNothing(counts, s, p.gang);
    if PermitVerdict(s, p).Wait? {
      WaitIsNew(counts, s, p);
    }
  }

  /** It is told to wait if and only if it is then among the waiting ones. */
  lemma WaitsIff(s: Gangs, p: Member)
    requires p.key !in Keys(s.waiting)
    ensures PermitCode(s, p) == Waits <==> p.key in Keys(AfterPermit(s, p).waiting)
  {
    OfGangMembers(s.waiting, p.gang);
    if PermitVerdict(s, p).Wait? {
      assert p in AfterPermit(s, p).waiting;
    }
  }

  /**
    Any other answer refuses it and leaves nothing behind: for good if its gang is rejected, and with an error if its
    label is no number. Both filters refuse for the same reasons, only that the early one refuses for lack of pods.
   */
  lemma RefusedIff(s: Gangs, p: Member)
    requires IsGangPod(p)
    ensures PermitCode(s, p) == Unresolvable <==> p.gang in s.rejected
    ensures PreFilterCode(s, p) == Unresolvable <==> p.gang in s.rejected
    ensures PermitCode(s, p) == Error <==> p.gang !in s.rejected && Atoi(p.available).None?
    ensures PreFilterCode(s, p) == Error <==> p.gang !in s.rejected && Atoi(p.available).None?
    ensures PermitCode(s, p) != Unschedulable && PreFilterCode(s, p) != Waits
    ensures PermitCode(s, p) == Unresolvable || PermitCode(s, p) == Error ==> AfterPermit(s, p) == s
  {}

  /**
    The early filter refuses for lack of pods exactly when the number that Permit compares, with the idle pods added
    and those that are gone taken off, is too small.
   */
  lemma TooFewIff(counts: Counts, s: Gangs, p: Member)
    requires Inv(counts, s) && IsGangPod(p) && Listed(p, Pending) in s.listed && p.key !in Keys(s.waiting)
    requires p.gang !in s.rejected && Atoi(p.available).Some?
    ensures PreFilterCode(s, p) == Unschedulable
       <==> Together(s, p.gang) + |Idle(s, p)| - |Gone(s, p.gang)| - Again(s, p) < Atoi(p.available).value
  {
    EarlyCount(s, p);
    assert Together(s, p.gang) + |Idle(s, p)| == Seen(s, p.gang) + |Gone(s, p.gang)| + Again(s, p) by {
      FiltersCompared(counts, s, p);
    }
  }

  lemma EarlyCount(s: Gangs, p: Member)
    requires IsGangPod(p) && p.gang !in s.rejected && Atoi(p.available).Some?
    ensures PreFilterCode(s, p) == Unschedulable <==> Seen(s, p.gang) < Atoi(p.available).value
  {}

  /** From an Unreserve on, over every run, both filters refuse every pod of the gang for good. */
  lemma RefusedForGood(counts: Counts, states: seq<Gangs>, events: seq<Event>, p: Member, q: Member)
    requires IsRun(counts, states, events) && events != [] && events[0] == Unreserve(p) && p.gang != ""
    requires IsGangPod(q) && q.gang == p.gang
    ensures
      var s := states[|events|];
      PermitCode(s, q) == Unresolvable == PreFilterCode(s, q) && AfterPermit(s, q) == s
  {
    RejectedForGood(counts, states, events, p);
  }

  /** Unreserve rejects one gang. It takes that gang's waiting pods and no others, and no pod's admission. */
  lemma UnreserveIsForOneGang(s: Gangs, p: Member, other: string)
    requires p.gang != ""
    ensures
      var s' := AfterUnreserve(s, p);
      && s'.rejected == s.rejected + {p.gang} && s'.listed == s.listed
      && PermittedIn(s', other) == PermittedIn(s, other)
      && OfGang(s'.waiting, other) == (if other == p.gang then [] else OfGang(s.waiting, other))
      && forall q :: q in s'.waiting <==> q in s.waiting && q.gang != p.gang
  {
    OutsideOfGang(s.waiting, p.gang, other);
    OfGangMembers(s.waiting, p.gang);
  }

  // ---- the framework, which goes by the answers ----

  /** The plugin's state, and the keys of the listed pods that the framework has let through. */
  datatype Cycle = Cycle(gangs: Gangs, cleared: set<string>)

  /** The pods that wait and are allowed when the pod at hand is admitted. */
  function Allowed(s: Gangs, p: Member): set<string> {
    if PermitVerdict(s, p).Admit? then Keys(s.waiting) - Keys(AfterPermit(s, p).waiting) else {}
  }

  /**
    The same events as before, only that a pod starts exactly when the framework has let it through. A pod that is
    unreserved has to ask again.
   */
  ghost predicate CycleStep(counts: Counts, c: Cycle, e: Event, c': Cycle) {
    var s, s' := c.gangs, c'.gangs;
    match e
    case Permit(p) =>
      && Step(counts, s, e, s')
      && c'.cleared == c.cleared + Allowed(s, p) + (if PermitCode(s, p) == Success then {p.key} else {})
    case Unreserve(p) =>
      Step(counts, s, e, s') && c'.cleared == c.cleared - {p.key}
    case Start(i) =>
      && i < |s.listed| && s.listed[i].phase.Pending? && s.listed[i].pod.key in c.cleared
      && s' == s.(listed := s.listed[i := s.listed[i].(phase := Running)]) && c'.cleared == c.cleared
    case Leave(i) =>
      Step(counts, s, e, s') && c'.cleared == c.cleared - {s.listed[i].pod.key}
    case _ =>
      Step(counts, s, e, s') && c'.cleared == c.cleared
  }

  ghost function CycleSteps(counts: Counts): (Cycle, Event, Cycle) -> bool {
    (c, e, c') => CycleStep(counts, c, e, c')
  }

  /** A gang pod that was let through has been admitted. */
  ghost predicate ClearedAreAdmitted(c: Cycle) {
    forall l <- c.gangs.listed | IsGangPod(l.pod) && l.pod.key in c.cleared ::
      l.pod.key in PermittedIn(c.gangs, l.pod.gang)
  }

  ghost predicate CycleInv(counts: Counts, c: Cycle) {
    && Inv(counts, c.gangs) && ClearedAreAdmitted(c)
    && c.cleared <= Keys(Pods(c.gangs.listed))
  }

  lemma PodsAreListed(listed: seq<Listed>)
    ensures forall l <- listed :: l.pod in Pods(listed) && l.pod.key in Keys(Pods(listed))
    ensures forall key <- Keys(Pods(listed)) :: exists l <- listed :: l.pod.key == key
  {
    forall l <- listed ensures l.pod in Pods(listed) {
      var i :| 0 <= i < |listed| && listed[i] == l;
      assert Pods(listed)[i] == l.pod;
    }
    forall key <- Keys(Pods(listed)) ensures exists l <- listed :: l.pod.key == key {
      var i :| 0 <= i < |Pods(listed)| && Pods(listed)[i].key == key;
      assert listed[i] in listed;
    }
  }

  /** Whoever is let through by a permit has been admitted by it. */
  lemma LetThroughAreAdmitted(counts: Counts, c: Cycle, p: Member, l: Listed)
    requires CycleInv(counts, c) && Listed(p, Pending) in c.gangs.listed && p.key !in Keys(c.gangs.waiting)
    requires l in c.gangs.listed && IsGangPod(l.pod)
    requires
      var s := c.gangs;
      l.pod.key in c.cleared + Allowed(s, p) + (if PermitCode(s, p) == Success then {p.key} else {})
    ensures l.pod.key in PermittedIn(AfterPermit(c.gangs, p), l.pod.gang)
  {
    var s := c.gangs;
    if l.pod.key in c.cleared {
      if PermitVerdict(s, p).Admit? {
        AdmittedGrows(s, p, l.pod.gang);
      }
    } else if l.pod.key == p.key {
      SameKeySameEntry(s.listed, l, Listed(p, Pending));
      SuccessIff(counts, s, p);
    } else {
      var q :| q in s.waiting && q.key == l.pod.key;
      assert IsParked(counts, s, q);
      SameKeySameEntry(s.listed, l, Listed(q, Pending));
      OfGangMembers(s.waiting, p.gang);
      assert q.gang == p.gang;
      assert q in OfGang(s.waiting, p.gang);
    }
  }

  lemma LetThroughAreListed(counts: Counts, c: Cycle, p: Member)
    requires CycleInv(counts, c) && Listed(p, Pending) in c.gangs.listed
    ensures Allowed(c.gangs, p) + {p.key} <= Keys(Pods(c.gangs.listed))
  {
    var s := c.gangs;
    PodsAreListed(s.listed);
    assert Listed(p, Pending).pod.key in Keys(Pods(s.listed));
    forall q <- s.waiting ensures q.key in Keys(Pods(s.listed)) {
      assert IsParked(counts, s, q);
      assert Listed(q, Pending).pod.key in Keys(Pods(s.listed));
    }
  }

  lemma StartIsStep(counts: Counts, c: Cycle, i: nat, c': Cycle)
    requires CycleInv(counts, c) && CycleStep(counts, c, Start(i), c')
    ensures Step(counts, c.gangs, Start(i), c'.gangs)
  {
    assert c.gangs.listed[i] in c.gangs.listed;
  }

  lemma FewerCleared(c: Cycle, c': Cycle)
    requires ClearedAreAdmitted(c) && c'.cleared <= c.cleared && c'.gangs.permitted == c.gangs.permitted
    requires forall l <- c'.gangs.listed | l.pod.key in c'.cleared :: exists k <- c.gangs.listed :: k.pod == l.pod
    ensures ClearedAreAdmitted(c')
  {
    forall l <- c'.gangs.listed | IsGangPod(l.pod) && l.pod.key in c'.cleared
      ensures l.pod.key in PermittedIn(c'.gangs, l.pod.gang)
    {
      var k :| k in c.gangs.listed && k.pod == l.pod;
    }
  }

  lemma ArriveKeepsCleared(counts: Counts, c: Cycle, p: Member, c': Cycle)
    requires CycleInv(counts, c) && CycleStep(counts, c, Arrive(p), c')
    ensures ClearedAreAdmitted(c') && c'.cleared <= Keys(Pods(c'.gangs.listed))
  {
    assert Pods(c'.gangs.listed) == Pods(c.gangs.listed) + [p];
    FewerCleared(c, c');
  }

  lemma LeaveKeepsCleared(counts: Counts, c: Cycle, i: nat, c': Cycle)
    requires CycleInv(counts, c) && CycleStep(counts, c, Leave(i), c')
    ensures ClearedAreAdmitted(c') && c'.cleared <= Keys(Pods(c'.gangs.listed))
  {
    var pods := Pods(c.gangs.listed);
    assert Pods(c'.gangs.listed) == pods[..i] + pods[i + 1..];
    assert pods == pods[..i] + [c.gangs.listed[i].pod] + pods[i + 1..];
    FewerCleared(c, c');
  }

  lemma OtherEventsKeepCleared(counts: Counts, c: Cycle, e: Event, c': Cycle)
    requires CycleInv(counts, c) && CycleStep(counts, c, e, c') && (e.Unreserve? || e.Start? || e.Finish?)
    ensures ClearedAreAdmitted(c') && c'.cleared <= Keys(Pods(c'.gangs.listed))
  {
    assert Pods(c'.gangs.listed) == Pods(c.gangs.listed);
    SamePods(c.gangs.listed, c'.gangs.listed);
    FewerCleared(c, c');
  }

  lemma SamePods(listed: seq<Listed>, listed': seq<Listed>)
    requires Pods(listed') == Pods(listed)
    ensures forall l <- listed' :: exists k <- listed :: k.pod == l.pod
  {
    forall l <- listed' ensures exists k <- listed :: k.pod == l.pod {
      var i :| 0 <= i < |listed'| && listed'[i] == l;
      assert Pods(listed')[i] == Pods(listed)[i] && listed[i] in listed;
    }
  }

  /** Every step of the framework is one of the runs' steps: whatever starts was admitted. */
  lemma CycleStepIsStep(counts: Counts, c: Cycle, e: Event, c': Cycle)
    requires CycleInv(counts, c) && CycleStep(counts, c, e, c')
    ensures Step(counts, c.gangs, e, c'.gangs) && CycleInv(counts, c')
  {
    var s, s' := c.gangs, c'.gangs;
    if e.Start? {
      StartIsStep(counts, c, e.i, c');
    }
    StepKeepsInv(counts, s, e, s');
    match e
    case Permit(p) =>
      LetThroughAreListed(counts, c, p);
      forall l <- s'.listed | IsGangPod(l.pod) && l.pod.key in c'.cleared
        ensures l.pod.key in PermittedIn(s', l.pod.gang)
      {
        LetThroughAreAdmitted(counts, c, p, l);
      }
    case Arrive(p) => ArriveKeepsCleared(counts, c, p, c');
    case Leave(i) => LeaveKeepsCleared(counts, c, i, c');
    case _ => OtherEventsKeepCleared(counts, c, e, c');
  }

  function GangsOf(cycles: seq<Cycle>): seq<Gangs> {
    seq(|cycles|, i requires 0 <= i < |cycles| => cycles[i].gangs)
  }

  /**
    A run in which pods start on the answers that they get is a run as above, so all that is proved of those holds
    of it. At every point the gang pods that were let through are admitted ones, and none of them waits.
   */
  lemma {:induction false} AnswersDecide(counts: Counts, cycles: seq<Cycle>, events: seq<Event>)
    requires Runs.IsRunOf(CycleSteps(counts), cycles, events) && cycles[0] == Cycle(Gangs([], map[], {}, []), {})
    ensures IsRun(counts, GangsOf(cycles), events) && CycleInv(counts, cycles[|events|])
    ensures cycles[|events|].cleared !! Keys(cycles[|events|].gangs.waiting)
  {
    if events == [] {
      assert CycleInv(counts, cycles[0]) by {
        RunKeepsInv(counts, [cycles[0].gangs], []);
      }
    } else {
      var last := |events| - 1;
      var front := cycles[..|cycles| - 1];
      AnswersDecide(counts, front, events[..last]);
      assert CycleSteps(counts)(cycles[last], events[last], cycles[last + 1]);
      CycleStepIsStep(counts, cycles[last], events[last], cycles[last + 1]);
      forall i | 0 <= i < |events| ensures StepsOf(counts)(GangsOf(cycles)[i], events[i], GangsOf(cycles)[i + 1]) {
        if i < last {
          assert StepsOf(counts)(GangsOf(front)[i], events[..last][i], GangsOf(front)[i + 1]);
        }
      }
    }
    ClearedDoNotWait(counts, cycles[|events|]);
  }

  lemma ClearedDoNotWait(counts: Counts, c: Cycle)
    requires CycleInv(counts, c)
    ensures c.cleared !! Keys(c.gangs.waiting)
  {
    forall q <- c.gangs.waiting ensures q.key !in c.cleared {
      assert IsParked(counts, c.gangs, q);
      assert Listed(q, Pending) in c.gangs.listed;
    }
  }
}
