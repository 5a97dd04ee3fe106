/** The reservation plugin: a node keeps resources for pods that are to come, until the reservations expire. */
module Reserve {
  import opened Kube
  import opened Text
  import Listing

  /** Resources in the two units that the plugin adds up: milli-CPU and bytes. */
  datatype Amount = Amount(cpu: int, mem: int)

  /** Expiry is in seconds since the epoch; the current time is in nanoseconds. */
  datatype Reservation = Reservation(pod: string, namespace: string, amount: Amount, expireAt: int)

  datatype Requester = Requester(name: string, namespace: string, requests: seq<Amount>)

  type Table = map<string, seq<Reservation>>

  const NOTHING := Amount(0, 0)

  function Plus(a: Amount, b: Amount): Amount {
    Amount(a.cpu + b.cpu, a.mem + b.mem)
  }

  predicate IsOwn(r: Reservation, p: Requester) {
    r.pod == p.name && r.namespace == p.namespace
  }

  predicate IsLive(r: Reservation, now: int) {
    now <= r.expireAt * SECOND
  }

  predicate IsLiveForeign(r: Reservation, p: Requester, now: int) {
    IsLive(r, now) && !IsOwn(r, p)
  }

  function Need(requests: seq<Amount>): Amount {
    if requests == [] then NOTHING
    else Plus(Need(requests[..|requests| - 1]), requests[|requests| - 1])
  }

  /** What the reservations that count add up to. */
  function Total(rs: seq<Reservation>, counts: Reservation -> bool): Amount {
    if rs == [] then NOTHING
    else
      var earlier, last := Total(rs[..|rs| - 1], counts), rs[|rs| - 1];
      if counts(last) then Plus(earlier, last.amount) else earlier
  }

  function Live(now: int): Reservation -> bool {
    (r: Reservation) => IsLive(r, now)
  }

  function LiveOwn(p: Requester, now: int): Reservation -> bool {
    (r: Reservation) => IsLive(r, now) && IsOwn(r, p)
  }

  function LiveForeign(p: Requester, now: int): Reservation -> bool {
    (r: Reservation) => IsLiveForeign(r, p, now)
  }

  /** What is left of the free resources, once the reserved ones are put aside, covers the need. */
  predicate Fits(free: Amount, reserved: Amount, need: Amount) {
    free.cpu - reserved.cpu >= need.cpu && free.mem - reserved.mem >= need.mem
  }

  /** What the loop of Filter decides: at each live reservation of another pod the running total has to fit. */
  predicate Admits(rs: seq<Reservation>, p: Requester, free: Amount, now: int) {
    rs == [] || (
      && Admits(rs[..|rs| - 1], p, free, now)
      && (IsLiveForeign(rs[|rs| - 1], p, now) ==> Fits(free, Total(rs, Live(now)), Need(p.requests))))
  }

  function Keep(rs: seq<Reservation>, keep: Reservation -> bool): seq<Reservation> {
    if rs == [] then []
    else
      var earlier, last := Keep(rs[..|rs| - 1], keep), rs[|rs| - 1];
      if keep(last) then earlier + [last] else earlier
  }

  function KeepIn(table: Table, keep: Reservation -> bool): Table {
    map node <- table :: Keep(table[node], keep)
  }

  function Others(p: Requester): Reservation -> bool {
    (r: Reservation) => !IsOwn(r, p)
  }

  /** Whole seconds are compared here, where Filter compares nanoseconds. */
  function Unexpired(now: int): Reservation -> bool {
    (r: Reservation) => r.expireAt > now / SECOND
  }

  function Own(p: Requester): Reservation -> bool {
    (r: Reservation) => IsOwn(r, p)
  }

  function On(table: Table, node: string): seq<Reservation> {
    if node in table then table[node] else []
  }

  // ---- the same, as the plugin runs it ----

  /** The plugin's copy of the reservations, and the ConfigMap that they are copied from, if there is one. */
  class ReserveScheduler {
    var reservation: Table
    var configMap: Option<Table>

    constructor ()
      ensures reservation == map[] && configMap == None
    {
      reservation, configMap := map[], None;
    }

    /** The watch on the ConfigMap: it was written, or deleted. */
    method Load(data: Option<Table>)
      modifies this
      ensures configMap == data && reservation == (if data.Some? then data.value else map[])
    {
      configMap := data;
      reservation := if data.Some? then data.value else map[];
    }

    method Filter(p: Requester, node: string, free: Amount, now: int) returns (ok: bool)
      ensures ok == Admits(On(reservation, node), p, free, now)
    {
      var rs := On(reservation, node);
      var need := NOTHING;
      for i := 0 to |p.requests|
        invariant need == Need(p.requests[..i])
      {
        assert p.requests[..i + 1][..i] == p.requests[..i];
        need := Plus(need, p.requests[i]);
      }
      assert p.requests[..|p.requests|] == p.requests;
      var reserved := NOTHING;
      for i := 0 to |rs|
        invariant reserved == Total(rs[..i], Live(now)) && Admits(rs[..i], p, free, now)
      {
        assert rs[..i + 1][..i] == rs[..i];
        if now > rs[i].expireAt * SECOND {
          continue;
        }
        reserved := Plus(reserved, rs[i].amount);
        if !IsOwn(rs[i], p) {
          if free.cpu - reserved.cpu < need.cpu || free.mem - reserved.mem < need.mem {
            RefusalStands(rs, i + 1, p, free, now);
            return false;
          }
        }
      }
      assert rs[..|rs|] == rs;
      return true;
    }

    /** The pod has its node: its reservations go, on whatever node they are. */
    method Reserve(p: Requester)
      modifies this`configMap
      ensures configMap == Written(old(configMap), reservation, KeepIn(reservation, Others(p)))
    {
      var kept, updated := KeepEverywhere(Others(p));
      if updated {
        UpdateConfigMap(kept);
      }
    }

    /** One round of the loop that cleans up. */
    method CleanExpired(now: int)
      modifies this`configMap
      ensures configMap == Written(old(configMap), reservation, KeepIn(reservation, Unexpired(now)))
    {
      var kept, updated := KeepEverywhere(Unexpired(now));
      if updated {
        UpdateConfigMap(kept);
      }
    }

    method UpdateConfigMap(table: Table)
      modifies this`configMap
      ensures configMap == if old(configMap).Some? then Some(table) else None
    {
      if configMap.Some? {
        configMap := Some(table);
      }
    }

    method KeepEverywhere(keep: Reservation -> bool) returns (kept: Table, updated: bool)
      ensures kept == KeepIn(reservation, keep) && (updated <==> kept != reservation)
    {
      kept, updated := map[], false;
      var rest := reservation.Keys;
      while rest != {}
        invariant rest <= reservation.Keys && kept.Keys == reservation.Keys - rest
        invariant forall node <- kept :: kept[node] == Keep(reservation[node], keep)
        invariant updated <==> exists node <- kept :: kept[node] != reservation[node]
        decreases rest
      {
        var node := Listing.Pick(rest);
        var list, dropped := KeepOn(reservation[node], keep);
        ghost var before := kept;
        kept, updated, rest := kept[node := list], updated || dropped, rest - {node};
        assert forall other <- before :: kept[other] == before[other];
        assert kept[node] != reservation[node] <==> dropped;
      }
    }

    method KeepOn(rs: seq<Reservation>, keep: Reservation -> bool) returns (list: seq<Reservation>, dropped: bool)
      ensures list == Keep(rs, keep) && (dropped <==> list != rs)
    {
      list, dropped := [], false;
      for i := 0 to |rs|
        invariant list == Keep(rs[..i], keep)
        invariant |list| <= i && (dropped <==> |list| != i)
        invariant !dropped ==> list == rs[..i]
      {
        assert rs[..i + 1][..i] == rs[..i];
        if keep(rs[i]) {
          list := list + [rs[i]];
        } else {
          dropped := true;
        }
      }
      assert rs[..|rs|] == rs;
    }
  }

  /** The ConfigMap is written only if there is one, and only if something was dropped. */
  function Written(configMap: Option<Table>, from: Table, to: Table): Option<Table> {
    if configMap.Some? && to != from then Some(to) else configMap
  }

  lemma {:induction false} RefusalStands(rs: seq<Reservation>, n: nat, p: Requester, free: Amount, now: int)
    requires n <= |rs| && !Admits(rs[..n], p, free, now)
    ensures !Admits(rs, p, free, now)
  {
    if n < |rs| {
      assert rs[..|rs| - 1][..n] == rs[..n];
      RefusalStands(rs[..|rs| - 1], n, p, free, now);
    } else {
      assert rs[..n] == rs;
    }
  }

  // ---- a closed form ----

  ghost predicate IsSound(rs: seq<Reservation>) {
    forall r <- rs :: r.amount.cpu >= 0 && r.amount.mem >= 0
  }

  predicate AtMost(a: Amount, b: Amount) {
    a.cpu <= b.cpu && a.mem <= b.mem
  }

  /** The list up to its last live reservation of another pod. */
  function UpToForeign(rs: seq<Reservation>, p: Requester, now: int): seq<Reservation> {
    if rs == [] || IsLiveForeign(rs[|rs| - 1], p, now) then rs else UpToForeign(rs[..|rs| - 1], p, now)
  }

  lemma {:induction false} SomeForeign(rs: seq<Reservation>, p: Requester, now: int)
    ensures UpToForeign(rs, p, now) != [] <==> exists r <- rs :: IsLiveForeign(r, p, now)
    ensures Total(UpToForeign(rs, p, now), LiveForeign(p, now)) == Total(rs, LiveForeign(p, now))
  {
    if rs != [] {
      var front, last := rs[..|rs| - 1], rs[|rs| - 1];
      assert rs == front + [last];
      SomeForeign(front, p, now);
    }
  }

  /** The total is that of the own and that of the other reservations. */
  lemma {:induction false} OwnAndOthers(rs: seq<Reservation>, p: Requester, now: int)
    ensures Total(rs, Live(now)) == Plus(Total(rs, LiveOwn(p, now)), Total(rs, LiveForeign(p, now)))
  {
    if rs != [] {
      OwnAndOthers(rs[..|rs| - 1], p, now);
    }
  }

  lemma {:induction false} TotalGrows(rs: seq<Reservation>, n: nat, counts: Reservation -> bool)
    requires IsSound(rs) && n <= |rs|
    ensures AtMost(Total(rs[..n], counts), Total(rs, counts))
  {
    if n < |rs| {
      assert rs[..|rs| - 1][..n] == rs[..n];
      assert rs[|rs| - 1] in rs;
      TotalGrows(rs[..|rs| - 1], n, counts);
    } else {
      assert rs[..n] == rs;
    }
  }

  lemma {:induction false} LastForeignDecides(rs: seq<Reservation>, p: Requester, free: Amount, now: int)
    requires IsSound(rs)
    ensures
      var upTo := UpToForeign(rs, p, now);
      Admits(rs, p, free, now) <==> upTo == [] || Fits(free, Total(upTo, Live(now)), Need(p.requests))
  {
    if rs != [] {
      var front := rs[..|rs| - 1];
      LastForeignDecides(front, p, free, now);
      if IsLiveForeign(rs[|rs| - 1], p, now) {
        UpToIsPrefix(front, p, now);
        var upTo := UpToForeign(front, p, now);
        assert rs[..|upTo|] == front[..|upTo|] == upTo;
        TotalGrows(rs, |upTo|, Live(now));
      }
    }
  }

  lemma {:induction false} UpToIsPrefix(rs: seq<Reservation>, p: Requester, now: int)
    ensures UpToForeign(rs, p, now) <= rs
  {
    if rs != [] && !IsLiveForeign(rs[|rs| - 1], p, now) {
      UpToIsPrefix(rs[..|rs| - 1], p, now);
    }
  }

  /** What Filter decides, in totals: those of others, and of the own ones that stand before the last of others. */
  lemma ClosedTotals(rs: seq<Reservation>, p: Requester, free: Amount, now: int)
    requires IsSound(rs)
    ensures
      var others := Total(rs, LiveForeign(p, now));
      var ownBefore := Total(UpToForeign(rs, p, now), LiveOwn(p, now));
      Admits(rs, p, free, now) <==>
        !(exists r <- rs :: IsLiveForeign(r, p, now)) || Fits(free, Plus(ownBefore, others), Need(p.requests))
  {
    LastForeignDecides(rs, p, free, now);
    SomeForeign(rs, p, now);
    OwnAndOthers(UpToForeign(rs, p, now), p, now);
  }

  // ---- the totals in plain sums ----

  function Sum(items: seq<int>): int {
    if items == [] then 0 else Sum(items[..|items| - 1]) + items[|items| - 1]
  }

  /** Sum is the one function that is 0 on nothing, itself on one number, and adds up over two lists. */
  lemma {:induction false} SumAdds(a: seq<int>, b: seq<int>)
    ensures Sum([]) == 0 && Sum(a + b) == Sum(a) + Sum(b)
    ensures |a| == 1 ==> Sum(a) == a[0]
  {
    if b == [] {
      assert a + b == a;
    } else {
      SumAdds(a, b[..|b| - 1]);
      assert (a + b)[..|a + b| - 1] == a + b[..|b| - 1];
    }
  }

  function Cpus(amounts: seq<Amount>): seq<int> {
    seq(|amounts|, i requires 0 <= i < |amounts| => amounts[i].cpu)
  }

  function Mems(amounts: seq<Amount>): seq<int> {
    seq(|amounts|, i requires 0 <= i < |amounts| => amounts[i].mem)
  }

  function Amounts(rs: seq<Reservation>): seq<Amount> {
    seq(|rs|, i requires 0 <= i < |rs| => rs[i].amount)
  }

  /** A pod needs what its containers request together, in CPU and in memory. */
  lemma {:induction false} NeedIsSum(requests: seq<Amount>)
    ensures Need(requests).cpu == Sum(Cpus(requests)) && Need(requests).mem == Sum(Mems(requests))
  {
    if requests != [] {
      var front := requests[..|requests| - 1];
      NeedIsSum(front);
      assert Cpus(requests)[..|front|] == Cpus(front) && Mems(requests)[..|front|] == Mems(front);
    }
  }

  lemma {:induction false} TotalIsSum(rs: seq<Reservation>, counts: Reservation -> bool)
    ensures Total(rs, counts).cpu == Sum(Cpus(Amounts(Keep(rs, counts))))
    ensures Total(rs, counts).mem == Sum(Mems(Amounts(Keep(rs, counts))))
  {
    if rs != [] {
      var front, last := rs[..|rs| - 1], rs[|rs| - 1];
      TotalIsSum(front, counts);
      var kept := Amounts(Keep(front, counts));
      if counts(last) {
        assert Amounts(Keep(rs, counts)) == kept + [last.amount];
        assert Cpus(kept + [last.amount])[..|kept|] == Cpus(kept);
        assert Mems(kept + [last.amount])[..|kept|] == Mems(kept);
      }
    }
  }

  /** What is free, less what some reservations hold, covers what the containers request. */
  predicate Covers(free: Amount, held: seq<Reservation>, requests: seq<Amount>) {
    && free.cpu - Sum(Cpus(Amounts(held))) >= Sum(Cpus(requests))
    && free.mem - Sum(Mems(Amounts(held))) >= Sum(Mems(requests))
  }

  /**
    What Filter decides, for amounts that are not negative: the pod passes when no other pod has a live
    reservation, or when the free resources, less all live reservations of others and those of its own that stand
    before the last of them, cover what its containers request together.
   */
  lemma ClosedForm(rs: seq<Reservation>, p: Requester, free: Amount, now: int)
    requires IsSound(rs)
    ensures
      var others := Keep(rs, LiveForeign(p, now));
      var ownBefore := Keep(UpToForeign(rs, p, now), LiveOwn(p, now));
      Admits(rs, p, free, now) <==> others == [] || Covers(free, ownBefore + others, p.requests)
  {
    var others, ownBefore := Keep(rs, LiveForeign(p, now)), Keep(UpToForeign(rs, p, now), LiveOwn(p, now));
    ClosedTotals(rs, p, free, now);
    KeptAreThere(rs, LiveForeign(p, now));
    TotalIsSum(rs, LiveForeign(p, now));
    TotalIsSum(UpToForeign(rs, p, now), LiveOwn(p, now));
    NeedIsSum(p.requests);
    HeldTogether(ownBefore, others);
    assert others == [] <==> !(exists r <- rs :: IsLiveForeign(r, p, now)) by {
      assert others != [] ==> others[0] in others;
    }
  }

  lemma HeldTogether(a: seq<Reservation>, b: seq<Reservation>)
    ensures Sum(Cpus(Amounts(a + b))) == Sum(Cpus(Amounts(a))) + Sum(Cpus(Amounts(b)))
    ensures Sum(Mems(Amounts(a + b))) == Sum(Mems(Amounts(a))) + Sum(Mems(Amounts(b)))
  {
    assert Cpus(Amounts(a + b)) == Cpus(Amounts(a)) + Cpus(Amounts(b));
    assert Mems(Amounts(a + b)) == Mems(Amounts(a)) + Mems(Amounts(b));
    SumAdds(Cpus(Amounts(a)), Cpus(Amounts(b)));
    SumAdds(Mems(Amounts(a)), Mems(Amounts(b)));
  }

  /**
    Whom a reservation holds up: once it has not expired, every pod of another name or of another namespace that
    does not fit beside it.
   */
  lemma OneReservation(r: Reservation, p: Requester, free: Amount, now: int)
    ensures Admits([r], p, free, now) <==>
              || now > r.expireAt * SECOND
              || (r.pod == p.name && r.namespace == p.namespace)
              || (&& free.cpu - r.amount.cpu >= Sum(Cpus(p.requests))
                  && free.mem - r.amount.mem >= Sum(Mems(p.requests)))
  {
    NeedIsSum(p.requests);
    OneMore([], r, p, free, now);
    assert [] + [r] == [r];
  }

  // ---- what of the requests matters ----

  /** A pod whose containers request no more together, in CPU and in memory, passes wherever the other one does. */
  lemma {:induction false} LessIsEasier(rs: seq<Reservation>, p: Requester, less: seq<Amount>, free: Amount, now: int)
    requires Sum(Cpus(less)) <= Sum(Cpus(p.requests)) && Sum(Mems(less)) <= Sum(Mems(p.requests))
    ensures Admits(rs, p, free, now) ==> Admits(rs, p.(requests := less), free, now)
  {
    if rs != [] {
      LessIsEasier(rs[..|rs| - 1], p, less, free, now);
      NeedIsSum(p.requests);
      NeedIsSum(less);
    }
  }

  /** Only the sums matter. */
  lemma SameSumsSameVerdict(rs: seq<Reservation>, p: Requester, others: seq<Amount>, free: Amount, now: int)
    requires Sum(Cpus(others)) == Sum(Cpus(p.requests)) && Sum(Mems(others)) == Sum(Mems(p.requests))
    ensures Admits(rs, p, free, now) == Admits(rs, p.(requests := others), free, now)
  {
    LessIsEasier(rs, p, others, free, now);
    LessIsEasier(rs, p.(requests := others), p.requests, free, now);
    assert p.(requests := others).(requests := p.requests) == p;
  }

  /** So splitting a container's request between two containers changes no verdict. */
  lemma SplittingIsInvisible(rs: seq<Reservation>, p: Requester, i: nat, a: Amount, b: Amount, free: Amount, now: int)
    requires i < |p.requests| && p.requests[i] == Amount(a.cpu + b.cpu, a.mem + b.mem)
    ensures
      var split := p.requests[..i] + [a, b] + p.requests[i + 1..];
      Admits(rs, p, free, now) == Admits(rs, p.(requests := split), free, now)
  {
    var split := p.requests[..i] + [a, b] + p.requests[i + 1..];
    SumsSplit(Cpus(p.requests), i, a.cpu, b.cpu);
    SumsSplit(Mems(p.requests), i, a.mem, b.mem);
    assert Cpus(split) == Cpus(p.requests)[..i] + [a.cpu, b.cpu] + Cpus(p.requests)[i + 1..];
    assert Mems(split) == Mems(p.requests)[..i] + [a.mem, b.mem] + Mems(p.requests)[i + 1..];
    SameSumsSameVerdict(rs, p, split, free, now);
  }

  lemma SumsSplit(items: seq<int>, i: nat, a: int, b: int)
    requires i < |items| && items[i] == a + b
    ensures Sum(items[..i] + [a, b] + items[i + 1..]) == Sum(items)
  {
    var before, after := items[..i], items[i + 1..];
    assert items == before + [a + b] + after && [a] + [b] == [a, b];
    SumAdds(before + [a + b], after);
    SumAdds(before, [a + b]);
    SumAdds(before + [a, b], after);
    SumAdds(before, [a, b]);
    SumAdds([a], [b]);
    SumAdds([a + b], []);
    SumAdds([b], []);
  }

  /** And one more container lets no pod pass that was refused. */
  lemma OneContainerMore(rs: seq<Reservation>, p: Requester, more: Amount, free: Amount, now: int)
    requires more.cpu >= 0 && more.mem >= 0
    ensures Admits(rs, p.(requests := p.requests + [more]), free, now) ==> Admits(rs, p, free, now)
  {
    var q := p.(requests := p.requests + [more]);
    assert Cpus(q.requests) == Cpus(p.requests) + [more.cpu] && Mems(q.requests) == Mems(p.requests) + [more.mem];
    SumAdds(Cpus(p.requests), [more.cpu]);
    SumAdds(Mems(p.requests), [more.mem]);
    SumAdds([more.cpu], []);
    SumAdds([more.mem], []);
    LessIsEasier(rs, q, p.requests, free, now);
    assert q.(requests := p.requests) == p;
  }

  /** Passing beside any live reservation of another pod leaves enough for all of those. */
  lemma OthersAreCovered(rs: seq<Reservation>, p: Requester, free: Amount, now: int)
    requires IsSound(rs) && Admits(rs, p, free, now)
    requires exists r <- rs :: IsLiveForeign(r, p, now)
    ensures Fits(free, Total(rs, LiveForeign(p, now)), Need(p.requests))
  {
    ClosedTotals(rs, p, free, now);
    UpToIsPrefix(rs, p, now);
    TotalGrows(UpToForeign(rs, p, now), 0, LiveOwn(p, now));
  }

  lemma {:induction false} KeptAreThere(rs: seq<Reservation>, keep: Reservation -> bool)
    ensures forall r :: r in Keep(rs, keep) <==> r in rs && keep(r)
  {
    if rs != [] {
      KeptAreThere(rs[..|rs| - 1], keep);
      assert rs == rs[..|rs| - 1] + [rs[|rs| - 1]];
    }
  }

  lemma {:induction false} NothingCounts(rs: seq<Reservation>, counts: Reservation -> bool)
    requires forall r <- rs :: !counts(r)
    ensures Total(rs, counts) == NOTHING
  {
    if rs != [] {
      NothingCounts(rs[..|rs| - 1], counts);
    }
  }

  /** A pod that has no live reservation on the node passes exactly when its need fits beside all of them. */
  lemma WithoutOwn(rs: seq<Reservation>, p: Requester, free: Amount, now: int)
    requires IsSound(rs) && forall r <- rs :: IsLive(r, now) ==> !IsOwn(r, p)
    ensures Admits(rs, p, free, now) <==>
              (forall r <- rs :: !IsLive(r, now)) || Fits(free, Total(rs, Live(now)), Need(p.requests))
  {
    ClosedTotals(rs, p, free, now);
    UpToIsPrefix(rs, p, now);
    NothingCounts(rs, LiveOwn(p, now));
    NothingCounts(UpToForeign(rs, p, now), LiveOwn(p, now));
    OwnAndOthers(rs, p, now);
  }

  // ---- the order of the list ----

  lemma {:induction false} TotalOfParts(a: seq<Reservation>, b: seq<Reservation>, counts: Reservation -> bool)
    ensures Total(a + b, counts) == Plus(Total(a, counts), Total(b, counts))
  {
    if b == [] {
      assert a + b == a;
    } else {
      assert (a + b)[..|a + b| - 1] == a + b[..|b| - 1];
      TotalOfParts(a, b[..|b| - 1], counts);
    }
  }

  lemma {:induction false} TotalOfAnyOrder(a: seq<Reservation>, b: seq<Reservation>, counts: Reservation -> bool)
    requires multiset(a) == multiset(b)
    ensures Total(a, counts) == Total(b, counts)
  {
    if a == [] {
      assert |b| == |multiset(b)| == 0;
    } else {
      var front, last := a[..|a| - 1], a[|a| - 1];
      assert a == front + [last] && last in multiset(b);
      var i :| 0 <= i < |b| && b[i] == last;
      var before, after := b[..i], b[i + 1..];
      assert b == before + ([last] + after);
      WithoutOne(front, before, after, last);
      TotalOfAnyOrder(front, before + after, counts);
      TotalOfRest(before, after, last, counts);
    }
  }

  lemma TotalOfRest(before: seq<Reservation>, after: seq<Reservation>, r: Reservation, counts: Reservation -> bool)
    ensures Total(before + ([r] + after), counts)
         == if counts(r) then Plus(Total(before + after, counts), r.amount) else Total(before + after, counts)
  {
    TotalOfParts(before, after, counts);
    TotalOfParts(before, [r] + after, counts);
    TotalOfParts([r], after, counts);
    assert [r][..0] == [];
  }

  lemma WithoutOne(front: seq<Reservation>, before: seq<Reservation>, after: seq<Reservation>, r: Reservation)
    requires multiset(front + [r]) == multiset(before + ([r] + after))
    ensures multiset(front) == multiset(before + after)
  {
    assert multiset(front + [r]) == multiset(front) + multiset{r};
    assert multiset(before + ([r] + after)) == multiset(before + after) + multiset{r};
    assert multiset(front) == multiset(front) + multiset{r} - multiset{r};
  }

  lemma OrderDoesNotMatter(a: seq<Reservation>, b: seq<Reservation>, p: Requester, free: Amount, now: int)
    requires IsSound(a) && multiset(a) == multiset(b)
    requires forall r <- a :: IsLive(r, now) ==> !IsOwn(r, p)
    ensures Admits(a, p, free, now) == Admits(b, p, free, now)
  {
    SameMembers(a, b);
    TotalOfAnyOrder(a, b, Live(now));
    WithoutOwn(a, p, free, now);
    WithoutOwn(b, p, free, now);
  }

  lemma SameMembers(a: seq<Reservation>, b: seq<Reservation>)
    requires multiset(a) == multiset(b)
    ensures forall r :: r in a <==> r in b
  {
    forall r ensures r in a <==> r in b {
      assert r in multiset(a) <==> r in multiset(b);
    }
  }

  /** With a reservation of its own the order does matter, as that one counts only where it stands first. */
  lemma OwnCountsWhenFirst(own: Reservation, other: Reservation, p: Requester, free: Amount, now: int)
    requires IsOwn(own, p) && !IsOwn(other, p) && IsLive(own, now) && IsLive(other, now)
    ensures Admits([other, own], p, free, now) <==> Fits(free, other.amount, Need(p.requests))
    ensures Admits([own, other], p, free, now) <==> Fits(free, Plus(own.amount, other.amount), Need(p.requests))
  {
    assert [own, other][..1] == [own] && [other, own][..1] == [other] && [own][..0] == [] && [other][..0] == [];
    assert Total([own], Live(now)) == own.amount && Total([other], Live(now)) == other.amount;
    assert Admits([own], p, free, now);
    assert Admits([other], p, free, now) <==> Fits(free, other.amount, Need(p.requests));
    assert Total([own, other], Live(now)) == Plus(own.amount, other.amount);
  }

  // ---- dropping entries ----

  lemma OneMore(rs: seq<Reservation>, r: Reservation, p: Requester, free: Amount, now: int)
    ensures Total(rs + [r], Live(now))
         == if IsLive(r, now) then Plus(Total(rs, Live(now)), r.amount) else Total(rs, Live(now))
    ensures Admits(rs + [r], p, free, now) <==>
              && Admits(rs, p, free, now)
              && (IsLiveForeign(r, p, now) ==> Fits(free, Total(rs + [r], Live(now)), Need(p.requests)))
  {
    assert (rs + [r])[..|rs|] == rs;
  }

  /** What is not live can go without any verdict changing. */
  lemma {:induction false} OnlyLiveOnesMatter(
    rs: seq<Reservation>, keep: Reservation -> bool, p: Requester, free: Amount, now: int)
    requires forall r <- rs :: IsLive(r, now) ==> keep(r)
    ensures Total(Keep(rs, keep), Live(now)) == Total(rs, Live(now))
    ensures Admits(Keep(rs, keep), p, free, now) == Admits(rs, p, free, now)
  {
    if rs != [] {
      var front, last := rs[..|rs| - 1], rs[|rs| - 1];
      assert rs == front + [last];
      OnlyLiveOnesMatter(front, keep, p, free, now);
      OneMore(front, last, p, free, now);
      OneMore(Keep(front, keep), last, p, free, now);
    }
  }

  /** Whatever is dropped, a pod that passed before passes after. */
  lemma {:induction false} DroppingHelps(
    rs: seq<Reservation>, keep: Reservation -> bool, p: Requester, free: Amount, now: int)
    requires IsSound(rs)
    ensures AtMost(Total(Keep(rs, keep), Live(now)), Total(rs, Live(now)))
    ensures Admits(rs, p, free, now) ==> Admits(Keep(rs, keep), p, free, now)
  {
    if rs != [] {
      var front, last := rs[..|rs| - 1], rs[|rs| - 1];
      assert rs == front + [last] && last in rs;
      DroppingHelps(front, keep, p, free, now);
      OneMore(front, last, p, free, now);
      OneMore(Keep(front, keep), last, p, free, now);
    }
  }

  /** Cleaning at one time changes no verdict at a later one. */
  lemma CleaningIsInvisible(table: Table, node: string, p: Requester, free: Amount, cleaned: int, now: int)
    requires cleaned < now
    ensures Admits(On(KeepIn(table, Unexpired(cleaned)), node), p, free, now) == Admits(On(table, node), p, free, now)
  {
    forall r <- On(table, node) ensures IsLive(r, now) ==> Unexpired(cleaned)(r) {
      WholeSeconds(r.expireAt, cleaned);
    }
    OnlyLiveOnesMatter(On(table, node), Unexpired(cleaned), p, free, now);
  }

  lemma WholeSeconds(expireAt: int, now: int)
    ensures expireAt > now / SECOND <==> expireAt * SECOND > now
  {
  }

  /** At the very time of the cleaning, the two differ in the reservations that expire at that instant. */
  lemma CleaningAtTheInstant(rs: seq<Reservation>, now: int)
    ensures (forall r <- rs :: IsLive(r, now) <==> Unexpired(now)(r))
       <==> (forall r <- rs :: r.expireAt * SECOND != now)
  {
    forall r <- rs ensures (IsLive(r, now) <==> Unexpired(now)(r)) <==> r.expireAt * SECOND != now {
      WholeSeconds(r.expireAt, now);
    }
  }

  /** Such a reservation still counts for Filter, yet cleaning at the same instant drops it. */
  lemma LastInstant(r: Reservation, p: Requester, free: Amount)
    requires !IsOwn(r, p) && !Fits(free, r.amount, Need(p.requests))
    ensures
      var now := r.expireAt * SECOND;
      !Admits([r], p, free, now) && Admits(Keep([r], Unexpired(now)), p, free, now)
  {
    var now := r.expireAt * SECOND;
    WholeSeconds(r.expireAt, now);
    OneMore([], r, p, free, now);
    assert [] + [r] == [r] && [r][..0] == [];
  }

  /** Releasing a pod's reservations lets no pod fail that passed before, on any node. */
  lemma ReleasingHelps(table: Table, node: string, p: Requester, q: Requester, free: Amount, now: int)
    requires forall other <- table :: IsSound(table[other])
    requires Admits(On(table, node), q, free, now)
    ensures Admits(On(KeepIn(table, Others(p)), node), q, free, now)
  {
    DroppingHelps(On(table, node), Others(p), q, free, now);
  }

  /**
    Every entry of another pod is kept, behind exactly as many as were kept before it; nothing else is there.
   */
  lemma {:induction false} OthersKeepTheirOrder(rs: seq<Reservation>, p: Requester, i: nat)
    requires i < |rs|
    ensures
      var kept, place := Keep(rs, Others(p)), |Keep(rs[..i], Others(p))|;
      if IsOwn(rs[i], p) then rs[i] !in kept else place < |kept| && kept[place] == rs[i]
    ensures |Keep(rs, Others(p))| + |Keep(rs, Own(p))| == |rs|
  {
    var front, last := rs[..|rs| - 1], rs[|rs| - 1];
    KeptAreThere(rs, Others(p));
    if i < |front| {
      OthersKeepTheirOrder(front, p, i);
      assert front[..i] == rs[..i];
    } else if front != [] {
      OthersKeepTheirOrder(front, p, 0);
    }
  }

  predicate IsKeptOn(table: Table, keep: Reservation -> bool, node: string, r: Reservation) {
    r in On(table, node) && keep(r)
  }

  /**
    What reaches the ConfigMap when the plugin's copy is up to date: on every node the reservations to be kept, and
    those only. Without a ConfigMap none is written, nor is one in which nothing is to be dropped.
   */
  lemma WrittenIsKept(table: Table, keep: Reservation -> bool, configMap: Option<Table>)
    ensures Written(None, table, KeepIn(table, keep)) == None
    ensures
      var written := Written(Some(table), table, KeepIn(table, keep));
      && written.Some? && written.value.Keys == table.Keys
      && forall node, r :: r in On(written.value, node) <==> IsKeptOn(table, keep, node, r)
    ensures (forall node, r | r in On(table, node) :: keep(r)) ==>
              Written(configMap, table, KeepIn(table, keep)) == configMap
  {
    var kept := KeepIn(table, keep);
    assert Written(Some(table), table, kept) == Some(kept);
    forall node, r ensures r in On(kept, node) <==> IsKeptOn(table, keep, node, r) {
      KeptAreThere(On(table, node), keep);
    }
    if forall node, r | r in On(table, node) :: keep(r) {
      forall node <- table ensures kept[node] == table[node] {
        assert forall r <- table[node] :: r in On(table, node);
        AllAreKept(table[node], keep);
      }
      assert kept == table;
    }
  }

  lemma {:induction false} AllAreKept(rs: seq<Reservation>, keep: Reservation -> bool)
    requires forall r <- rs :: keep(r)
    ensures Keep(rs, keep) == rs
  {
    if rs != [] {
      AllAreKept(rs[..|rs| - 1], keep);
    }
  }

  /** A pod that has its node holds nothing up any more, and all others hold on to what they have. */
  lemma ReserveReleasesOwn(table: Table, p: Requester, node: string, r: Reservation)
    ensures
      var written := Written(Some(table), table, KeepIn(table, Others(p)));
      written.Some? && (r in On(written.value, node) <==>
                          r in On(table, node) && (r.pod != p.name || r.namespace != p.namespace))
  {
    WrittenIsKept(table, Others(p), Some(table));
    var written := Written(Some(table), table, KeepIn(table, Others(p)));
    assert r in On(written.value, node) <==> IsKeptOn(table, Others(p), node, r);
  }

  /**
    Only the reservations of the node at hand count: without any every pod passes, and what is reserved on another
    node, whatever it is, changes nothing.
   */
  lemma NodesAreApart(table: Table, node: string, other: string, rs: seq<Reservation>, p: Requester, free: Amount,
                      now: int)
    ensures node !in table ==> Admits(On(table, node), p, free, now)
    ensures Admits(On(table[node := rs], node), p, free, now) == Admits(rs, p, free, now)
    ensures other != node ==>
              Admits(On(table[other := rs], node), p, free, now) == Admits(On(table, node), p, free, now)
  {}
}
