/**
 The revision history of an App. A history is the listing that SortControllerRevisions gives, oldest
 first: each operation leaves it as the next listing will show it.
 */
module Revisions {
  import opened Text
  import opened Kube

  // ---- finding or making the revision for a template ----

  function NextNumber(revisions: seq<Revision>): int {
    if revisions == [] then 1 else revisions[|revisions| - 1].number + 1
  }

  /** The last revision that holds a template, or -1. */
  function LastWith(revisions: seq<Revision>, data: Template): (k: int)
    ensures -1 <= k < |revisions|
    ensures k >= 0 ==> revisions[k].data == data
    ensures forall i | k < i < |revisions| :: revisions[i].data != data
  {
    if revisions == [] then -1
    else
      var last := |revisions| - 1;
      if revisions[last].data == data then last else LastWith(revisions[..last], data)
  }

  datatype Ensured = Ensured(revisions: seq<Revision>, update: Revision, changed: bool)

  /**
   The newest revision if it holds the template; otherwise the last older one that does, renumbered to
   be the newest; otherwise a new one. The flag says whether anything had to be stored.
   */
  function Ensure(revisions: seq<Revision>, data: Template, freshName: string): Ensured {
    var k := LastWith(revisions, data);
    if k < 0 then
      var made := Revision(freshName, NextNumber(revisions), data);
      Ensured(revisions + [made], made, true)
    else if k == |revisions| - 1 then Ensured(revisions, revisions[k], false)
    else
      var renumbered := revisions[k].(number := NextNumber(revisions));
      Ensured(revisions[..k] + revisions[k + 1..] + [renumbered], renumbered, true)
  }

  /** The revision with a name, or the fallback when no revision has it. */
  function FindNamed(revisions: seq<Revision>, name: string, fallback: Revision): Revision {
    if revisions == [] then fallback
    else if revisions[0].name == name then revisions[0]
    else FindNamed(revisions[1..], name, fallback)
  }

  // ---- truncating ----

  function NonLive(revisions: seq<Revision>, live: set<string>): seq<Revision> {
    if revisions == [] then []
    else if revisions[0].name in live then NonLive(revisions[1..], live)
    else [revisions[0]] + NonLive(revisions[1..], live)
  }

  function LiveOnes(revisions: seq<Revision>, live: set<string>): seq<Revision> {
    if revisions == [] then []
    else if revisions[0].name in live then [revisions[0]] + LiveOnes(revisions[1..], live)
    else LiveOnes(revisions[1..], live)
  }

  function Without(revisions: seq<Revision>, name: string): seq<Revision> {
    if revisions == [] then []
    else if revisions[0].name == name then Without(revisions[1..], name)
    else [revisions[0]] + Without(revisions[1..], name)
  }

  /** Deletes one after the other, up to the first that fails. */
  function DeleteAll(revisions: seq<Revision>, doomed: seq<Revision>, fails: string -> bool): (seq<Revision>, bool)
    decreases |doomed|
  {
    if doomed == [] then (revisions, false)
    else if fails(doomed[0].name) then (revisions, true)
    else DeleteAll(Without(revisions, doomed[0].name), doomed[1..], fails)
  }

  function LimitOf(app: App): nat {
    if app.historyLimit.Some? then app.historyLimit.value else 10
  }

  function LiveNames(pods: seq<Pod>, current: string, update: string): set<string> {
    {current, update} + (set pod <- pods :: RevisionOf(pod))
  }

  /** What goes: of the revisions listed and not live, the oldest ones beyond the limit. */
  function Doomed(listed: seq<Revision>, live: set<string>, limit: nat): seq<Revision> {
    var history := NonLive(listed, live);
    if |history| > limit then history[..|history| - limit] else []
  }

  function Truncate(revisions: seq<Revision>, listed: seq<Revision>, live: set<string>, limit: nat,
                    fails: string -> bool): (seq<Revision>, bool) {
    DeleteAll(revisions, Doomed(listed, live, limit), fails)
  }

  // ---- the same, as the source runs it ----

  class History {
    var revisions: seq<Revision>

    constructor (revisions: seq<Revision>)
      ensures this.revisions == revisions
    {
      this.revisions := revisions;
    }

    /** The first part of UpdateApp. When a request to the store fails nothing is changed. */
    method EnsureRevision(data: Template, freshName: string, storeFails: bool) returns (failed: bool, update: Revision)
      modifies this
      ensures var ensured := Ensure(old(revisions), data, freshName);
              if ensured.changed && storeFails then failed && revisions == old(revisions)
              else !failed && revisions == ensured.revisions && update == ensured.update
    {
      var number := 1;
      if |revisions| > 0 {
        number := revisions[|revisions| - 1].number + 1;
      }
      update := Revision(freshName, number, data);
      var equal := FindEqual(data);
      if equal < 0 {
        if storeFails {
          return true, update;
        }
        revisions := revisions + [update];
      } else if revisions[|revisions| - 1].data == revisions[equal].data {
        update := revisions[|revisions| - 1];
      } else {
        if storeFails {
          return true, update;
        }
        update := revisions[equal].(number := number);
        revisions := revisions[..equal] + revisions[equal + 1..] + [update];
      }
      return false, update;
    }

    /** The last of the equal revisions that FindEqualRevisions collects. */
    method FindEqual(data: Template) returns (equal: int)
      ensures equal == LastWith(revisions, data)
    {
      equal := -1;
      for i := 0 to |revisions|
        invariant equal == LastWith(revisions[..i], data)
      {
        assert revisions[..i + 1][..i] == revisions[..i];
        if revisions[i].data == data {
          equal := i;
        }
      }
      assert revisions[..|revisions|] == revisions;
    }

    /** `listed` is the history as it was before this run changed it, `revisions` as it is now. */
    method TruncateHistory(app: App, pods: seq<Pod>, listed: seq<Revision>, current: string, update: string,
                           fails: string -> bool) returns (failed: bool)
      modifies this
      ensures (revisions, failed)
           == Truncate(old(revisions), listed, LiveNames(pods, current, update), LimitOf(app), fails)
    {
      var live := CollectLive(pods, current, update);
      var history := CollectNonLive(listed, live);
      var limit := 10;
      if app.historyLimit.Some? {
        limit := app.historyLimit.value;
      }
      if |history| > limit {
        failed := DeleteRevisions(history[..|history| - limit], fails);
      } else {
        failed := false;
      }
    }

    method DeleteRevisions(doomed: seq<Revision>, fails: string -> bool) returns (failed: bool)
      modifies this
      ensures (revisions, failed) == DeleteAll(old(revisions), doomed, fails)
    {
      for i := 0 to |doomed|
        invariant DeleteAll(revisions, doomed[i..], fails) == DeleteAll(old(revisions), doomed, fails)
      {
        assert doomed[i..][0] == doomed[i] && doomed[i..][1..] == doomed[i + 1..];
        if fails(doomed[i].name) {
          return true;
        }
        revisions := Without(revisions, doomed[i].name);
      }
      return false;
    }
  }

  method FindCurrent(revisions: seq<Revision>, name: string, update: Revision) returns (current: Revision)
    ensures current == FindNamed(revisions, name, update)
  {
    for i := 0 to |revisions|
      invariant FindNamed(revisions, name, update) == FindNamed(revisions[i..], name, update)
    {
      assert revisions[i..][0] == revisions[i] && revisions[i..][1..] == revisions[i + 1..];
      if revisions[i].name == name {
        return revisions[i];
      }
    }
    return update;
  }

  method CollectLive(pods: seq<Pod>, current: string, update: string) returns (live: set<string>)
    ensures live == LiveNames(pods, current, update)
  {
    live := {current, update};
    for i := 0 to |pods|
      invariant live == LiveNames(pods[..i], current, update)
    {
      assert pods[..i + 1] == pods[..i] + [pods[i]];
      live := live + {RevisionOf(pods[i])};
    }
    assert pods[..|pods|] == pods;
  }

  method CollectNonLive(listed: seq<Revision>, live: set<string>) returns (history: seq<Revision>)
    ensures history == NonLive(listed, live)
  {
    history := [];
    for i := 0 to |listed|
      invariant history + NonLive(listed[i..], live) == NonLive(listed, live)
    {
      assert listed[i..][0] == listed[i] && listed[i..][1..] == listed[i + 1..];
      if listed[i].name !in live {
        history := history + [listed[i]];
      }
    }
  }

  // ---- what a history always satisfies ----

  ghost predicate ValidHistory(revisions: seq<Revision>) {
    forall i, j | 0 <= i < j < |revisions| ::
      && revisions[i].number < revisions[j].number
      && revisions[i].name != revisions[j].name
      && revisions[i].data != revisions[j].data
  }

  function Names(revisions: seq<Revision>): set<string> {
    set revision <- revisions :: revision.name
  }

  lemma RemovingKeeps(revisions: seq<Revision>, k: nat)
    requires k < |revisions|
    ensures var rest := revisions[..k] + revisions[k + 1..];
            && (forall other :: other in revisions <==> other in rest || other == revisions[k])
            && (ValidHistory(revisions) ==> ValidHistory(rest) && forall other <- rest ::
                  other.name != revisions[k].name && other.data != revisions[k].data)
  {
    var before, after := revisions[..k], revisions[k + 1..];
    assert revisions == before + [revisions[k]] + after;
    assert forall i | 0 <= i < |before + after| :: (before + after)[i] == revisions[if i < k then i else i + 1];
  }

  lemma AppendingKeeps(revisions: seq<Revision>, newest: Revision)
    requires ValidHistory(revisions)
    requires forall other <- revisions ::
               other.number < newest.number && other.name != newest.name && other.data != newest.data
    ensures ValidHistory(revisions + [newest])
  {}

  lemma NextNumberIsHighest(revisions: seq<Revision>)
    requires ValidHistory(revisions)
    ensures forall other <- revisions :: other.number < NextNumber(revisions)
  {
    forall other <- revisions ensures other.number < NextNumber(revisions) {
      var i :| 0 <= i < |revisions| && revisions[i] == other;
    }
  }

  /** The update revision holds the template and is the one with the highest number; nothing is listed twice. */
  lemma EnsureKeepsHistory(revisions: seq<Revision>, data: Template, freshName: string)
    requires ValidHistory(revisions) && freshName !in Names(revisions)
    ensures var ensured := Ensure(revisions, data, freshName);
            && ValidHistory(ensured.revisions)
            && ensured.update.data == data && ensured.update in ensured.revisions
            && (forall other <- ensured.revisions | other != ensured.update :: other.number < ensured.update.number)
            && (forall other <- revisions | other.data != data :: other in ensured.revisions)
  {
    var k := LastWith(revisions, data);
    NextNumberIsHighest(revisions);
    if k < 0 {
      AppendingKeeps(revisions, Revision(freshName, NextNumber(revisions), data));
    } else if k < |revisions| - 1 {
      RemovingKeeps(revisions, k);
      AppendingKeeps(revisions[..k] + revisions[k + 1..], revisions[k].(number := NextNumber(revisions)));
    } else {
      forall other <- revisions | other != revisions[k] ensures other.number < revisions[k].number {
        var i :| 0 <= i < |revisions| && revisions[i] == other;
      }
    }
  }

  /** No name is lost, and the update revision's name is among them. */
  lemma EnsureKeepsNames(revisions: seq<Revision>, data: Template, freshName: string)
    ensures var ensured := Ensure(revisions, data, freshName);
            && Names(ensured.revisions) == Names(revisions) + {ensured.update.name}
            && (LastWith(revisions, data) >= 0 ==>
                  ensured.update.name in Names(revisions) && |ensured.revisions| == |revisions|)
  {
    var k := LastWith(revisions, data);
    if 0 <= k < |revisions| - 1 {
      RemovingKeeps(revisions, k);
      assert revisions[k].name in Names(revisions);
    }
  }

  /** Going back to a template whose revision is still stored brings that very revision back. */
  lemma EnsureReuses(revisions: seq<Revision>, data: Template, freshName: string, stored: Revision)
    requires ValidHistory(revisions) && stored in revisions && stored.data == data
    ensures var ensured := Ensure(revisions, data, freshName);
            && ensured.update.name == stored.name
            && |ensured.revisions| == |revisions| && Names(ensured.revisions) == Names(revisions)
  {
    var i :| 0 <= i < |revisions| && revisions[i] == stored;
    assert i == LastWith(revisions, data);
    EnsureKeepsNames(revisions, data, freshName);
  }

  lemma {:induction false} FoundNamed(revisions: seq<Revision>, name: string, fallback: Revision)
    ensures var found := FindNamed(revisions, name, fallback);
            if name in Names(revisions) then found in revisions && found.name == name else found == fallback
  {
    if revisions != [] {
      FoundNamed(revisions[1..], name, fallback);
      assert revisions == [revisions[0]] + revisions[1..];
    }
  }

  // ---- what truncation leaves ----

  lemma {:induction false} NonLiveMembers(revisions: seq<Revision>, live: set<string>)
    ensures forall revision :: revision in NonLive(revisions, live) <==> revision in revisions && revision.name !in live
  {
    if revisions != [] {
      NonLiveMembers(revisions[1..], live);
      assert revisions == [revisions[0]] + revisions[1..];
    }
  }

  /** Deleting a revision that is not live takes it from those that are not live, and nothing else. */
  lemma {:induction false} WithoutOne(revisions: seq<Revision>, live: set<string>, name: string)
    requires name !in live
    ensures LiveOnes(Without(revisions, name), live) == LiveOnes(revisions, live)
    ensures NonLive(Without(revisions, name), live) == Without(NonLive(revisions, live), name)
  {
    if revisions != [] {
      var first, rest := revisions[0], revisions[1..];
      WithoutOne(rest, live, name);
      if first.name != name {
        assert ([first] + Without(rest, name))[1..] == Without(rest, name);
        assert ([first] + NonLive(rest, live))[1..] == NonLive(rest, live);
      } else {
        assert ([first] + NonLive(rest, live))[1..] == NonLive(rest, live);
      }
    }
  }

  lemma {:induction false} WithoutAbsent(revisions: seq<Revision>, name: string)
    requires name !in Names(revisions)
    ensures Without(revisions, name) == revisions
  {
    if revisions != [] {
      assert revisions[0] in revisions && forall other <- revisions[1..] :: other in revisions;
      WithoutAbsent(revisions[1..], name);
    }
  }

  ghost predicate DistinctNames(revisions: seq<Revision>) {
    forall i, j | 0 <= i < j < |revisions| :: revisions[i].name != revisions[j].name
  }

  lemma DeletesOldest(revisions: seq<Revision>, live: set<string>)
    requires NonLive(revisions, live) != [] && DistinctNames(NonLive(revisions, live))
    ensures var history := NonLive(revisions, live);
            var left := Without(revisions, history[0].name);
            LiveOnes(left, live) == LiveOnes(revisions, live) && NonLive(left, live) == history[1..]
  {
    var history := NonLive(revisions, live);
    NonLiveMembers(revisions, live);
    assert history[0] in history;
    WithoutOne(revisions, live, history[0].name);
    WithoutAbsent(history[1..], history[0].name);
  }

  lemma {:induction false} DeletesFromTheFront(revisions: seq<Revision>, doomed: seq<Revision>, live: set<string>,
                                               fails: string -> bool)
    requires doomed <= NonLive(revisions, live) && DistinctNames(NonLive(revisions, live))
    requires forall name :: !fails(name)
    ensures var (left, failed) := DeleteAll(revisions, doomed, fails);
            && !failed
            && LiveOnes(left, live) == LiveOnes(revisions, live)
            && NonLive(left, live) == NonLive(revisions, live)[|doomed|..]
    decreases |doomed|
  {
    if doomed != [] {
      var history := NonLive(revisions, live);
      assert doomed[0] == history[0];
      DeletesOldest(revisions, live);
      DeletesFromTheFront(Without(revisions, doomed[0].name), doomed[1..], live, fails);
      assert history[1..][|doomed| - 1..] == history[|doomed|..];
    }
  }

  /**
   Truncation keeps every live revision, and of the others exactly the newest ones up to the limit,
   in their order, even though it works from the listing made before this run changed the history.
   */
  lemma TruncateKeepsNewest(revisions: seq<Revision>, listed: seq<Revision>, live: set<string>, limit: nat,
                            fails: string -> bool)
    requires NonLive(revisions, live) == NonLive(listed, live) && DistinctNames(NonLive(listed, live))
    requires forall name :: !fails(name)
    ensures var (left, failed) := Truncate(revisions, listed, live, limit, fails);
            var history := NonLive(revisions, live);
            && !failed
            && LiveOnes(left, live) == LiveOnes(revisions, live)
            && NonLive(left, live) == history[if |history| > limit then |history| - limit else 0..]
  {
    DeletesFromTheFront(revisions, Doomed(listed, live, limit), live, fails);
  }

  /** Making sure of the update revision does not change which revisions are not live. */
  lemma EnsureKeepsNonLive(revisions: seq<Revision>, data: Template, freshName: string, live: set<string>)
    requires Ensure(revisions, data, freshName).update.name in live
    ensures NonLive(Ensure(revisions, data, freshName).revisions, live) == NonLive(revisions, live)
  {
    var k := LastWith(revisions, data);
    var ensured := Ensure(revisions, data, freshName);
    NonLiveConcat(revisions, [ensured.update], live);
    if 0 <= k < |revisions| - 1 {
      var before, after := revisions[..k], revisions[k + 1..];
      assert revisions == before + [revisions[k]] + after;
      NonLiveConcat(before, [revisions[k]], live);
      NonLiveConcat(before + [revisions[k]], after, live);
      NonLiveConcat(before, after, live);
      NonLiveConcat(before + after, [ensured.update], live);
    }
  }

  lemma {:induction false} NonLiveConcat(a: seq<Revision>, b: seq<Revision>, live: set<string>)
    ensures NonLive(a + b, live) == NonLive(a, live) + NonLive(b, live)
  {
    if a == [] {
      assert a + b == b;
    } else {
      var rest := NonLive(a[1..], live) + NonLive(b, live);
      NonLiveConcat(a[1..], b, live);
      assert (a + b)[0] == a[0] && (a + b)[1..] == a[1..] + b;
      assert [a[0]] + rest == ([a[0]] + NonLive(a[1..], live)) + NonLive(b, live);
    }
  }

  /** Whatever fails, no live revision is deleted, and deletion keeps a valid history valid. */
  lemma {:induction false} DeletionIsSafe(revisions: seq<Revision>, doomed: seq<Revision>, live: set<string>,
                                          fails: string -> bool)
    requires forall revision <- doomed :: revision.name !in live
    requires ValidHistory(revisions)
    ensures var (left, _) := DeleteAll(revisions, doomed, fails);
            && ValidHistory(left)
            && (forall revision <- left :: revision in revisions)
            && (forall revision <- revisions | revision.name in live :: revision in left)
    decreases |doomed|
  {
    if doomed != [] && !fails(doomed[0].name) {
      WithoutMembers(revisions, doomed[0].name);
      WithoutKeepsValid(revisions, doomed[0].name);
      DeletionIsSafe(Without(revisions, doomed[0].name), doomed[1..], live, fails);
    }
  }

  lemma {:induction false} WithoutMembers(revisions: seq<Revision>, name: string)
    ensures forall revision :: revision in Without(revisions, name) <==> revision in revisions && revision.name != name
  {
    if revisions != [] {
      WithoutMembers(revisions[1..], name);
      assert revisions == [revisions[0]] + revisions[1..];
    }
  }

  lemma {:induction false} WithoutKeepsValid(revisions: seq<Revision>, name: string)
    requires ValidHistory(revisions)
    ensures ValidHistory(Without(revisions, name))
  {
    if revisions != [] {
      var rest := Without(revisions[1..], name);
      WithoutKeepsValid(revisions[1..], name);
      WithoutMembers(revisions[1..], name);
      forall j | 0 <= j < |rest|
        ensures revisions[0].number < rest[j].number
        ensures revisions[0].name != rest[j].name && revisions[0].data != rest[j].data
      {
        assert rest[j] in rest;
      }
    }
  }

  // ---- what is stored, and what fails ----

  /**
   The history is changed if and only if its newest revision does not hold the template. The update revision is then
   numbered one above the newest, or from 1 on.
   */
  lemma EnsureNumbers(revisions: seq<Revision>, data: Template, freshName: string)
    ensures
      var ensured := Ensure(revisions, data, freshName);
      var newest := |revisions| - 1;
      && (ensured.changed <==> revisions == [] || revisions[newest].data != data)
      && (ensured.changed <==> ensured.revisions != revisions)
      && (if !ensured.changed then ensured.update == revisions[newest]
          else ensured.update.number == (if revisions == [] then 1 else revisions[newest].number + 1))
      && ensured.revisions != [] && ensured.revisions[|ensured.revisions| - 1] == ensured.update
  {
    var k, newest := LastWith(revisions, data), |revisions| - 1;
    if 0 <= k < newest {
      var ensured := Ensure(revisions, data, freshName);
      assert ensured.revisions[newest] == ensured.update;
    }
  }

  /** The revision with none of some names. */
  function WithoutAll(revisions: seq<Revision>, doomed: seq<Revision>): seq<Revision>
    decreases |doomed|
  {
    if doomed == [] then revisions else WithoutAll(Without(revisions, doomed[0].name), doomed[1..])
  }

  /** Deleting stops at the first request that fails: what stands before it is gone, and nothing else. */
  lemma {:induction false} DeletesUpToFailure(revisions: seq<Revision>, doomed: seq<Revision>, fails: string -> bool)
    returns (k: nat)
    ensures k <= |doomed| && DeleteAll(revisions, doomed, fails) == (WithoutAll(revisions, doomed[..k]), k < |doomed|)
    ensures forall i | 0 <= i < k :: !fails(doomed[i].name)
    ensures k < |doomed| ==> fails(doomed[k].name)
    decreases |doomed|
  {
    if doomed == [] || fails(doomed[0].name) {
      k := 0;
    } else {
      var rest := DeletesUpToFailure(Without(revisions, doomed[0].name), doomed[1..], fails);
      k := rest + 1;
      assert doomed[..k][1..] == doomed[1..][..rest];
    }
  }
}
