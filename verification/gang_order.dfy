/** The scheduling order of the gang plugin: a comparison that remembers, while comparing, when each gang began. */
module GangOrder {
  import opened Text

  /** What the comparison reads of a queued pod: its gang, empty for none, and its creation time. */
  datatype Queued = Queued(gang: string, created: int)

  /** The creation time of the first pod of each gang that was ever compared. */
  type Began = map<string, int>

  datatype Call = Call(p: Queued, q: Queued)

  // ---- strings.Compare(a, b) < 0 ----

  predicate Precedes(a: string, b: string) {
    b != "" && (a == "" || a[0] < b[0] || (a[0] == b[0] && Precedes(a[1..], b[1..])))
  }

  lemma {:induction false} PrecedesOneWay(a: string, b: string)
    ensures !(Precedes(a, b) && Precedes(b, a))
  {
    if a != "" && b != "" && a[0] == b[0] {
      PrecedesOneWay(a[1..], b[1..]);
    }
  }

  lemma {:induction false} PrecedesTransitive(a: string, b: string, c: string)
    requires Precedes(a, b) && Precedes(b, c)
    ensures Precedes(a, c)
  {
    if a != "" && a[0] == b[0] && b[0] == c[0] {
      PrecedesTransitive(a[1..], b[1..], c[1..]);
    }
  }

  lemma {:induction false} PrecedesTotal(a: string, b: string)
    ensures a != b ==> Precedes(a, b) || Precedes(b, a)
  {
    if a != "" && b != "" && a[0] == b[0] {
      PrecedesTotal(a[1..], b[1..]);
      assert a == [a[0]] + a[1..] && b == [b[0]] + b[1..];
    }
  }

  // ---- one comparison ----

  function TimeOf(began: Began, p: Queued): int {
    if p.gang != "" && p.gang in began then began[p.gang] else p.created
  }

  function Remember(began: Began, p: Queued): Began {
    if p.gang != "" && p.gang !in began then began[p.gang := p.created] else began
  }

  function AfterCall(began: Began, call: Call): Began {
    Remember(Remember(began, call.p), call.q)
  }

  /** The order that a fixed table of times defines. */
  predicate Before(began: Began, p: Queued, q: Queued) {
    var t, u := TimeOf(began, p), TimeOf(began, q);
    if t == u && p.gang != "" && q.gang != "" then Precedes(p.gang, q.gang) else t < u
  }

  class GangQueue {
    var began: Began

    constructor ()
      ensures began == map[]
    {
      began := map[];
    }

    /** The answer is that of the order which the table defines once both gangs are in it. */
    method Less(p: Queued, q: Queued) returns (less: bool)
      modifies this
      ensures began == AfterCall(old(began), Call(p, q))
      ensures less == Before(began, p, q)
    {
      var t, u := p.created, q.created;
      if p.gang != "" {
        if p.gang in began {
          t := began[p.gang];
        } else {
          began := began[p.gang := t];
        }
      }
      if q.gang != "" {
        if q.gang in began {
          u := began[q.gang];
        } else {
          began := began[q.gang := u];
        }
      }
      if t == u && p.gang != "" && q.gang != "" {
        return Precedes(p.gang, q.gang);
      }
      return t < u;
    }
  }

  // ---- any sequence of comparisons ----

  function AfterCalls(began: Began, calls: seq<Call>): Began {
    if calls == [] then began
    else AfterCall(AfterCalls(began, calls[..|calls| - 1]), calls[|calls| - 1])
  }

  /** The answer of the i-th comparison. */
  predicate Answer(began: Began, calls: seq<Call>, i: nat)
    requires i < |calls|
  {
    Before(AfterCalls(began, calls[..i + 1]), calls[i].p, calls[i].q)
  }

  predicate IsKnown(began: Began, p: Queued) {
    p.gang != "" ==> p.gang in began
  }

  /** A gang's time is written once: later comparisons keep all that is in the table. */
  lemma {:induction false} TimesStay(began: Began, calls: seq<Call>, i: nat)
    requires i <= |calls|
    ensures
      var earlier, later := AfterCalls(began, calls[..i]), AfterCalls(began, calls);
      forall gang <- earlier :: gang in later && later[gang] == earlier[gang]
    decreases |calls|
  {
    if i < |calls| {
      var front := calls[..|calls| - 1];
      TimesStay(began, front, i);
      assert front[..i] == calls[..i];
    } else {
      assert calls[..i] == calls;
    }
  }

  lemma CallIsKnown(began: Began, calls: seq<Call>, i: nat)
    requires i < |calls|
    ensures IsKnown(AfterCalls(began, calls[..i + 1]), calls[i].p)
    ensures IsKnown(AfterCalls(began, calls[..i + 1]), calls[i].q)
  {
    assert calls[..i + 1][..i] == calls[..i];
  }

  /** Every answer is the answer of one and the same order: the one of the table at the end. */
  lemma AnswerLasts(began: Began, calls: seq<Call>, i: nat)
    requires i < |calls|
    ensures Answer(began, calls, i) == Before(AfterCalls(began, calls), calls[i].p, calls[i].q)
    ensures IsKnown(AfterCalls(began, calls), calls[i].p) && IsKnown(AfterCalls(began, calls), calls[i].q)
  {
    CallIsKnown(began, calls, i);
    TimesStay(began, calls, i + 1);
    var written, end := AfterCalls(began, calls[..i + 1]), AfterCalls(began, calls);
    assert TimeOf(written, calls[i].p) == TimeOf(end, calls[i].p);
    assert TimeOf(written, calls[i].q) == TimeOf(end, calls[i].q);
  }

  /** The pods in the order in which the comparisons meet them. */
  function Met(calls: seq<Call>): seq<Queued> {
    if calls == [] then []
    else Met(calls[..|calls| - 1]) + [calls[|calls| - 1].p, calls[|calls| - 1].q]
  }

  function FirstTime(pods: seq<Queued>, gang: string): Option<int> {
    if pods == [] then None
    else
      var earlier, last := FirstTime(pods[..|pods| - 1], gang), pods[|pods| - 1];
      if earlier.Some? then earlier else if last.gang == gang then Some(last.created) else None
  }

  lemma OneMoreMet(pods: seq<Queued>, p: Queued, gang: string)
    ensures FirstTime(pods + [p], gang)
         == if FirstTime(pods, gang).Some? then FirstTime(pods, gang)
            else if p.gang == gang then Some(p.created) else None
  {
    assert (pods + [p])[..|pods|] == pods;
  }

  /** The time of a gang is the creation time of the first of its pods that a comparison ever met. */
  lemma {:induction false} TableHoldsFirstTimes(calls: seq<Call>, gang: string)
    requires gang != ""
    ensures
      var table := AfterCalls(map[], calls);
      FirstTime(Met(calls), gang) == if gang in table then Some(table[gang]) else None
  {
    if calls != [] {
      var front, last := calls[..|calls| - 1], calls[|calls| - 1];
      TableHoldsFirstTimes(front, gang);
      OneMoreMet(Met(front), last.p, gang);
      OneMoreMet(Met(front) + [last.p], last.q, gang);
      assert Met(calls) == Met(front) + [last.p] + [last.q];
    }
  }

  // ---- which of two pods comes first ----

  /** The first place where two names differ, or where the shorter one ends. */
  predicate DifferFirstAt(a: string, b: string, n: nat) {
    && n <= |a| && n <= |b| && a[..n] == b[..n]
    && (n == |a| || n == |b| || a[n] != b[n])
  }

  lemma {:induction false} SomeDifference(a: string, b: string) returns (n: nat)
    ensures DifferFirstAt(a, b, n)
  {
    if a == "" || b == "" || a[0] != b[0] {
      n := 0;
    } else {
      var rest := SomeDifference(a[1..], b[1..]);
      n := rest + 1;
      assert a[..n] == [a[0]] + a[1..][..n - 1] && b[..n] == [b[0]] + b[1..][..n - 1];
    }
  }

  /** At that place the name that precedes has ended, and the other has not, or has the smaller character. */
  lemma {:induction false} PrecedesByDifference(a: string, b: string, n: nat)
    requires DifferFirstAt(a, b, n)
    ensures Precedes(a, b) <==> n < |b| && (n == |a| || a[n] < b[n])
  {
    if n > 0 {
      assert a[0] == a[..n][0] == b[..n][0] == b[0];
      assert a[1..][..n - 1] == a[..n][1..] && b[1..][..n - 1] == b[..n][1..];
      PrecedesByDifference(a[1..], b[1..], n - 1);
    }
  }

  /** The time that stands for a pod: that of the first pod of its gang ever met, or its own. */
  function Stands(calls: seq<Call>, p: Queued): int {
    if p.gang == "" || FirstTime(Met(calls), p.gang).None? then p.created else FirstTime(Met(calls), p.gang).value
  }

  /**
    The older one comes first: whatever was compared before, one of two pods is less than the other if it, or the
    first pod of its gang ever met, was created earlier. Gangs of one time are in the order of their names, decided
    where those differ first; a pod without a gang is never less than what has the same time.
   */
  lemma OlderComesFirst(calls: seq<Call>, i: nat, n: nat)
    requires i < |calls|
    requires DifferFirstAt(calls[i].p.gang, calls[i].q.gang, n)
    ensures
      var p, q := calls[i].p, calls[i].q;
      var t, u := Stands(calls, p), Stands(calls, q);
      Answer(map[], calls, i) <==>
        || t < u
        || (t == u && p.gang != "" && q.gang != "" && n < |q.gang| && (n == |p.gang| || p.gang[n] < q.gang[n]))
  {
    AnswerLasts(map[], calls, i);
    StandsByTable(calls, calls[i].p);
    StandsByTable(calls, calls[i].q);
    PrecedesByDifference(calls[i].p.gang, calls[i].q.gang, n);
  }

  lemma StandsByTable(calls: seq<Call>, p: Queued)
    ensures Stands(calls, p) == TimeOf(AfterCalls(map[], calls), p)
  {
    if p.gang != "" {
      TableHoldsFirstTimes(calls, p.gang);
    }
  }

  // ---- the order of a table ----

  lemma BeforeOneWay(began: Began, p: Queued, q: Queued)
    ensures !(Before(began, p, q) && Before(began, q, p))
  {
    PrecedesOneWay(p.gang, q.gang);
  }

  lemma BeforeTransitive(began: Began, p: Queued, q: Queued, r: Queued)
    requires Before(began, p, q) && Before(began, q, r)
    ensures Before(began, p, r)
  {
    if TimeOf(began, p) == TimeOf(began, r) {
      PrecedesTransitive(p.gang, q.gang, r.gang);
    }
  }

  lemma BeforeTotal(began: Began, p: Queued, q: Queued)
    requires p.gang != "" && q.gang != "" && p.gang != q.gang
    ensures Before(began, p, q) || Before(began, q, p)
  {
    PrecedesTotal(p.gang, q.gang);
  }

  /** The pods of one gang stand at the same place. */
  lemma SamePlace(began: Began, p: Queued, q: Queued, r: Queued)
    requires p.gang != "" && p.gang == q.gang && p.gang in began
    ensures !Before(began, p, q)
    ensures Before(began, p, r) == Before(began, q, r) && Before(began, r, p) == Before(began, r, q)
  {
    PrecedesOneWay(p.gang, q.gang);
  }

  // ---- what a scheduling queue relies on, whatever it compares and in which order ----

  lemma NeverBothWays(began: Began, calls: seq<Call>, i: nat, j: nat)
    requires i < |calls| && j < |calls| && calls[j] == Call(calls[i].q, calls[i].p)
    ensures !(Answer(began, calls, i) && Answer(began, calls, j))
    ensures
      var p, q := calls[i].p, calls[i].q;
      p.gang != q.gang && p.gang != "" && q.gang != "" ==> Answer(began, calls, i) || Answer(began, calls, j)
  {
    var end := AfterCalls(began, calls);
    AnswerLasts(began, calls, i);
    AnswerLasts(began, calls, j);
    BeforeOneWay(end, calls[i].p, calls[i].q);
    if calls[i].p.gang != calls[i].q.gang && calls[i].p.gang != "" && calls[i].q.gang != "" {
      BeforeTotal(end, calls[i].p, calls[i].q);
    }
  }

  lemma AnswersTransitive(began: Began, calls: seq<Call>, i: nat, j: nat, k: nat)
    requires i < |calls| && j < |calls| && k < |calls|
    requires calls[i].q == calls[j].p && calls[k] == Call(calls[i].p, calls[j].q)
    requires Answer(began, calls, i) && Answer(began, calls, j)
    ensures Answer(began, calls, k)
  {
    AnswerLasts(began, calls, i);
    AnswerLasts(began, calls, j);
    AnswerLasts(began, calls, k);
    BeforeTransitive(AfterCalls(began, calls), calls[i].p, calls[i].q, calls[j].q);
  }

  /** Two pods of one gang are never put in an order, and a third pod cannot tell them apart. */
  lemma GangsAreOnePlace(began: Began, calls: seq<Call>, i: nat, j: nat)
    requires i < |calls| && j < |calls|
    requires calls[i].p.gang != "" && calls[i].p.gang == calls[j].p.gang
    requires calls[i].q == calls[j].q || (calls[i].q.gang != "" && calls[i].q.gang == calls[j].q.gang)
    ensures Answer(began, calls, i) == Answer(began, calls, j)
    ensures calls[i].q.gang == calls[i].p.gang ==> !Answer(began, calls, i)
  {
    var end := AfterCalls(began, calls);
    AnswerLasts(began, calls, i);
    AnswerLasts(began, calls, j);
    SamePlace(end, calls[i].p, calls[j].p, calls[i].q);
    if calls[i].q != calls[j].q {
      SamePlace(end, calls[i].q, calls[j].q, calls[j].p);
    }
    if calls[i].q.gang == calls[i].p.gang {
      SamePlace(end, calls[i].p, calls[i].q, calls[i].q);
    }
  }

  // ---- where it is not the order that a sorting heap wants ----

  predicate Unordered(began: Began, p: Queued, q: Queued) {
    !Before(began, p, q) && !Before(began, q, p)
  }

  /** Being unordered is an equivalence, as a strict weak order has it. */
  ghost predicate IsWeakOrder(began: Began, pods: set<Queued>) {
    forall p <- pods, q <- pods, r <- pods ::
      Unordered(began, p, q) && Unordered(began, q, r) ==> Unordered(began, p, r)
  }

  /** A pod without a gang and the pods of two gangs, all of the same time. */
  predicate Tie(began: Began, x: Queued, p: Queued, r: Queued) {
    && x.gang == "" && p.gang != "" && r.gang != "" && p.gang != r.gang
    && TimeOf(began, p) == TimeOf(began, x) == TimeOf(began, r)
  }

  lemma UnorderedMeans(began: Began, p: Queued, q: Queued)
    ensures Unordered(began, p, q)
       <==> TimeOf(began, p) == TimeOf(began, q) && (p.gang == "" || q.gang == "" || p.gang == q.gang)
  {
    PrecedesTotal(p.gang, q.gang);
    PrecedesOneWay(p.gang, q.gang);
  }

  lemma WeakOrderCondition(began: Began, pods: set<Queued>)
    ensures IsWeakOrder(began, pods) <==> !exists x <- pods, p <- pods, r <- pods :: Tie(began, x, p, r)
  {
    forall x <- pods, p <- pods, r <- pods
      ensures Unordered(began, p, x) && Unordered(began, x, r) && !Unordered(began, p, r) <==> Tie(began, x, p, r)
    {
      UnorderedMeans(began, p, x);
      UnorderedMeans(began, x, r);
      UnorderedMeans(began, p, r);
    }
    if x, p, r :| x in pods && p in pods && r in pods && Tie(began, x, p, r) {
      assert Unordered(began, p, x) && Unordered(began, x, r) && !Unordered(began, p, r);
    }
  }

  /** The smallest failure: gangs "a" and "b" are in order, yet neither is with the pod that ties both. */
  lemma NotAWeakOrder()
    ensures
      var began := map["a" := 0, "b" := 0];
      !IsWeakOrder(began, {Queued("", 0), Queued("a", 0), Queued("b", 0)})
  {
    var began: Began := map["a" := 0, "b" := 0];
    var pods := {Queued("", 0), Queued("a", 0), Queued("b", 0)};
    assert "a"[0] != "b"[0];
    assert Queued("", 0) in pods && Queued("a", 0) in pods && Queued("b", 0) in pods;
    assert Tie(began, Queued("", 0), Queued("a", 0), Queued("b", 0));
    WeakOrderCondition(began, pods);
  }
}
