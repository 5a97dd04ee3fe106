/** The gang scheduler plugin: a gang's pods wait until enough of them can be admitted together. */
module Gang {
  import opened Text
  import opened Kube
  import Listing

  /** A pod by its namespace and name, with its two gang labels; a missing label is the empty string. */
  datatype Member = Member(key: string, gang: string, available: string)

  datatype Listed = Listed(pod: Member, phase: Phase)

  /** The plugin's maps, the framework's waiting pods, and what the pod lister shows. */
  datatype Gangs = Gangs(
    waiting: seq<Member>, permitted: map<string, set<string>>, rejected: set<string>, listed: seq<Listed>)

  datatype Verdict = NotGang | GangRejected | BadCount | TooFew | Wait | Admit

  /** The framework's codes for what a filter or a permit plugin answers. */
  datatype Code = Success | Waits | Unschedulable | Unresolvable | Error

  function CodeOf(verdict: Verdict): Code {
    match verdict
    case NotGang => Success
    case Admit => Success
    case Wait => Waits
    case TooFew => Unschedulable
    case GangRejected => Unresolvable
    case BadCount => Error
  }

  function OfGang(pods: seq<Member>, gang: string): seq<Member> {
    if pods == [] then []
    else
      var earlier, last := OfGang(pods[..|pods| - 1], gang), pods[|pods| - 1];
      if last.gang == gang then earlier + [last] else earlier
  }

  function OutsideGang(pods: seq<Member>, gang: string): seq<Member> {
    if pods == [] then []
    else
      var earlier, last := OutsideGang(pods[..|pods| - 1], gang), pods[|pods| - 1];
      if last.gang == gang then earlier else earlier + [last]
  }

  function InPhase(listed: seq<Listed>, gang: string, phase: Phase): seq<Member> {
    if listed == [] then []
    else
      var earlier, last := InPhase(listed[..|listed| - 1], gang, phase), listed[|listed| - 1];
      if last.pod.gang == gang && last.phase == phase then earlier + [last.pod] else earlier
  }

  function Keys(pods: seq<Member>): set<string> {
    set pod <- pods :: pod.key
  }

  function PermittedIn(s: Gangs, gang: string): set<string> {
    if gang in s.permitted then s.permitted[gang] else {}
  }

  /** Waiting, permitted but not running, and running pods of a gang, with the pod at hand. */
  function Together(s: Gangs, gang: string): nat {
    var running := InPhase(s.listed, gang, Running);
    |OfGang(s.waiting, gang)| + |PermittedIn(s, gang) - Keys(running)| + |running| + 1
  }

  function PermitVerdict(s: Gangs, p: Member): Verdict {
    if p.gang == "" || p.available == "" then NotGang
    else if p.gang in s.rejected then GangRejected
    else match Atoi(p.available)
      case None => BadCount
      case Some(k) => if Together(s, p.gang) < k then Wait else Admit
  }

  /** The framework parks a pod that has to wait; an admitted pod takes its whole gang along. */
  function AfterPermit(s: Gangs, p: Member): Gangs {
    match PermitVerdict(s, p)
    case Wait => s.(waiting := s.waiting + [p])
    case Admit => WithGangAdmitted(s, p)
    case _ => s
  }

  /** The set that an admitted pod and its gang are put into. */
  function Admitted(s: Gangs, p: Member): set<string> {
    PermittedIn(s, p.gang) + Keys(OfGang(s.waiting, p.gang)) + {p.key}
  }

  function WithGangAdmitted(s: Gangs, p: Member): Gangs {
    s.(waiting := OutsideGang(s.waiting, p.gang), permitted := s.permitted[p.gang := Admitted(s, p)])
  }

  function AfterUnreserve(s: Gangs, p: Member): Gangs {
    if p.gang == "" then s
    else s.(waiting := OutsideGang(s.waiting, p.gang), rejected := s.rejected + {p.gang})
  }

  function PreFilterVerdict(s: Gangs, p: Member): Verdict {
    if p.gang == "" || p.available == "" then NotGang
    else if p.gang in s.rejected then GangRejected
    else match Atoi(p.available)
      case None => BadCount
      case Some(k) =>
        if |InPhase(s.listed, p.gang, Running)| + |InPhase(s.listed, p.gang, Pending)| < k then TooFew else Admit
  }

  // ---- the same, as the plugin runs it ----

  class GangScheduler {
    var waiting: seq<Member>
    var permitted: map<string, set<string>>
    var rejected: set<string>
    var listed: seq<Listed>

    function State(): Gangs
      reads this
    {
      Gangs(waiting, permitted, rejected, listed)
    }

    constructor (listed: seq<Listed>)
      ensures State() == Gangs([], map[], {}, listed)
    {
      this.waiting, this.permitted, this.rejected, this.listed := [], map[], {}, listed;
    }

    method GetWaitingPods(gang: string) returns (pods: seq<Member>)
      ensures pods == OfGang(waiting, gang)
    {
      pods := [];
      for i := 0 to |waiting|
        invariant pods == OfGang(waiting[..i], gang)
      {
        assert waiting[..i + 1][..i] == waiting[..i];
        if waiting[i].gang == gang {
          pods := pods + [waiting[i]];
        }
      }
      assert waiting[..|waiting|] == waiting;
    }

    method GetRunningAndPending(gang: string) returns (running: seq<Member>, pending: seq<Member>)
      ensures running == InPhase(listed, gang, Running) && pending == InPhase(listed, gang, Pending)
    {
      running, pending := [], [];
      for i := 0 to |listed|
        invariant running == InPhase(listed[..i], gang, Running)
        invariant pending == InPhase(listed[..i], gang, Pending)
      {
        assert listed[..i + 1][..i] == listed[..i];
        if listed[i].pod.gang == gang {
          if listed[i].phase.Running? {
            running := running + [listed[i].pod];
          } else if listed[i].phase.Pending? {
            pending := pending + [listed[i].pod];
          }
        }
      }
      assert listed[..|listed|] == listed;
    }

    /** The whole gang is released: the waiting pods one after the other, then the pod at hand. */
    method Allow(p: Member)
      modifies this
      ensures waiting == OutsideGang(old(waiting), p.gang)
      ensures permitted == old(permitted)[p.gang :=
                PermittedIn(old(State()), p.gang) + Keys(OfGang(old(waiting), p.gang)) + {p.key}]
      ensures rejected == old(rejected) && listed == old(listed)
    {
      AllowWaiting(p.gang);
      SetPermitted(p.gang, p);
    }

    method AllowWaiting(gang: string)
      modifies this
      ensures waiting == OutsideGang(old(waiting), gang)
      ensures PermittedIn(State(), gang) == PermittedIn(old(State()), gang) + Keys(OfGang(old(waiting), gang))
      ensures SameElsewhere(old(permitted), permitted, gang)
      ensures rejected == old(rejected) && listed == old(listed)
    {
      var parked := waiting;
      ghost var before := PermittedIn(State(), gang);
      var rest := [];
      for i := 0 to |parked|
        invariant rest == OutsideGang(parked[..i], gang)
        invariant PermittedIn(State(), gang) == before + Keys(OfGang(parked[..i], gang))
        invariant SameElsewhere(old(permitted), permitted, gang)
        invariant rejected == old(rejected) && listed == old(listed)
      {
        assert parked[..i + 1][..i] == parked[..i];
        if parked[i].gang == gang {
          KeysOfOneMore(OfGang(parked[..i], gang), parked[i]);
          SetPermitted(gang, parked[i]);
        } else {
          rest := rest + [parked[i]];
        }
      }
      assert parked[..|parked|] == parked;
      waiting := rest;
    }

    method SetPermitted(gang: string, pod: Member)
      modifies this`permitted
      ensures permitted == old(permitted)[gang := PermittedIn(old(State()), gang) + {pod.key}]
    {
      var keys := {};
      if gang in permitted {
        keys := permitted[gang];
      }
      permitted := permitted[gang := keys + {pod.key}];
    }

    method Permit(p: Member) returns (verdict: Verdict)
      modifies this
      ensures verdict == PermitVerdict(old(State()), p) && State() == AfterPermit(old(State()), p)
    {
      if p.gang == "" || p.available == "" {
        return NotGang;
      }
      if p.gang in rejected {
        return GangRejected;
      }
      var running, _ := GetRunningAndPending(p.gang);
      var parsed := Atoi(p.available);
      if parsed.None? {
        return BadCount;
      }
      var parked := GetWaitingPods(p.gang);
      var unfinished := 0;
      if p.gang in permitted {
        unfinished := CountMissing(permitted[p.gang], running);
      }
      if |parked| + unfinished + |running| + 1 < parsed.value {
        waiting := waiting + [p];
        return Wait;
      }
      Allow(p);
      return Admit;
    }

    method Unreserve(p: Member)
      modifies this
      ensures State() == AfterUnreserve(old(State()), p)
    {
      if p.gang == "" {
        return;
      }
      var rest := [];
      for i := 0 to |waiting|
        invariant rest == OutsideGang(waiting[..i], p.gang)
      {
        assert waiting[..i + 1][..i] == waiting[..i];
        if waiting[i].gang != p.gang {
          rest := rest + [waiting[i]];
        }
      }
      assert waiting[..|waiting|] == waiting;
      waiting, rejected := rest, rejected + {p.gang};
    }

    method PreFilter(p: Member) returns (verdict: Verdict)
      ensures verdict == PreFilterVerdict(State(), p)
    {
      if p.gang == "" || p.available == "" {
        return NotGang;
      }
      if p.gang in rejected {
        return GangRejected;
      }
      var running, pending := GetRunningAndPending(p.gang);
      var parsed := Atoi(p.available);
      if parsed.None? {
        return BadCount;
      }
      return if |running| + |pending| < parsed.value then TooFew else Admit;
    }
  }

  ghost predicate SameElsewhere(before: map<string, set<string>>, after: map<string, set<string>>, gang: string) {
    forall other | other != gang ::
      (other in after <==> other in before) && (other in before ==> after[other] == before[other])
  }

  lemma KeysOfOneMore(pods: seq<Member>, pod: Member)
    ensures Keys(pods + [pod]) == Keys(pods) + {pod.key}
  {
    assert forall other :: other in pods + [pod] <==> other in pods || other == pod;
  }

  /** How many of some keys belong to none of the pods. */
  method CountMissing(keys: set<string>, pods: seq<Member>) returns (count: nat)
    ensures count == |keys - Keys(pods)|
  {
    var present := Keys(pods);
    var rest := keys;
    count := 0;
    while rest != {}
      invariant count + |rest - present| == |keys - present|
      decreases rest
    {
      var key := Listing.Pick(rest);
      OneLess(rest, present, key);
      if key !in present {
        count := count + 1;
      }
      rest := rest - {key};
    }
  }

  lemma OneLess(rest: set<string>, present: set<string>, key: string)
    requires key in rest
    ensures |rest - {key} - present| == |rest - present| - (if key in present then 0 else 1)
  {
    assert rest - {key} - present == rest - present - {key};
  }
}
