/** Listing the pods of a fleet, in whatever order they come. */
module Listing {
  import opened Kube

  method Pick<T>(items: set<T>) returns (item: T)
    requires items != {}
    ensures item in items
  {
    item :| item in items;
  }

  ghost function AnyOf<T>(items: set<T>): (item: T)
    requires items != {}
    ensures item in items
  {
    var item :| item in items; item
  }

  method ListValues(ordinalOf: Pod -> int, fleet: map<int, Pod>) returns (pods: seq<Pod>)
    requires forall o <- fleet :: ordinalOf(fleet[o]) == o
    ensures forall i, j | 0 <= i < j < |pods| :: ordinalOf(pods[i]) != ordinalOf(pods[j])
    ensures forall pod <- pods :: ordinalOf(pod) in fleet && fleet[ordinalOf(pod)] == pod
    ensures forall o <- fleet :: fleet[o] in pods
  {
    pods := [];
    var rest := fleet.Keys;
    while rest != {}
      invariant rest <= fleet.Keys
      invariant forall i, j | 0 <= i < j < |pods| :: ordinalOf(pods[i]) != ordinalOf(pods[j])
      invariant forall pod <- pods :: ordinalOf(pod) in fleet && fleet[ordinalOf(pod)] == pod && ordinalOf(pod) !in rest
      invariant forall o <- fleet :: o in rest || fleet[o] in pods
      decreases rest
    {
      var o := Pick(rest);
      pods := pods + [fleet[o]];
      rest := rest - {o};
    }
  }

  /** There always is such a listing. */
  lemma {:induction false} SomeListing(ordinalOf: Pod -> int, fleet: map<int, Pod>) returns (pods: seq<Pod>)
    requires forall o <- fleet :: ordinalOf(fleet[o]) == o
    ensures forall i, j | 0 <= i < j < |pods| :: ordinalOf(pods[i]) != ordinalOf(pods[j])
    ensures forall pod <- pods :: ordinalOf(pod) in fleet && fleet[ordinalOf(pod)] == pod
    ensures forall o <- fleet :: fleet[o] in pods
    decreases fleet.Keys
  {
    if o :| o in fleet {
      var rest := SomeListing(ordinalOf, fleet - {o});
      pods := rest + [fleet[o]];
      forall k <- fleet ensures fleet[k] in pods {
        if k != o {
          assert k in fleet - {o} && (fleet - {o})[k] in rest;
        }
      }
    } else {
      pods := [];
    }
  }
}
