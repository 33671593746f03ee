/** The catalogue kept in ConfigMaps: a record is a Task iff its `runner` is
    non-empty and a Runner iff its `image` is non-empty. Listings filter the
    records by kind and by the caller's authorisation list
    (services/task_svc.go:46-70, services/runner_svc.go:36-63). */
module Catalog {
  import opened Base
  import opened Kube

  const RunnerKey := "runner"
  const ImageKey := "image"

  /** `authList[0] == "*" || slices.Contains(authList, name)`. */
  predicate Authorised(authList: seq<string>, name: string)
    requires |authList| > 0
  {
    authList[0] == "*" || name in authList
  }

  /** The records of one kind (`kind` non-empty) that the list authorises, in store
      order, each without the `hidden` keys. */
  function Listing(items: seq<Item>, authList: seq<string>, kind: string, hidden: set<string>): seq<Record>
    requires |authList| > 0
  {
    if items == [] then []
    else
      var last := items[|items| - 1].data;
      Listing(items[..|items| - 1], authList, kind, hidden)
      + (if Get(last, kind) != "" && Authorised(authList, Get(last, "name")) then [last - hidden] else [])
  }

  predicate Listed(item: Item, authList: seq<string>, kind: string)
    requires |authList| > 0
  {
    Get(item.data, kind) != "" && Authorised(authList, Get(item.data, "name"))
  }

  /** A record is listed iff it is of the kind and authorised; listed records lack the hidden keys. */
  lemma {:induction false} ListingMembers(items: seq<Item>, authList: seq<string>, kind: string, hidden: set<string>)
    requires |authList| > 0
    ensures forall d :: d in Listing(items, authList, kind, hidden) <==>
      exists i :: 0 <= i < |items| && Listed(items[i], authList, kind) && d == items[i].data - hidden
    ensures forall d :: d in Listing(items, authList, kind, hidden) ==> forall k :: k in hidden ==> k !in d
  {
    if items != [] {
      var n := |items| - 1;
      ListingMembers(items[..n], authList, kind, hidden);
      assert forall i :: 0 <= i < n ==> items[..n][i] == items[i];
    }
  }

  /** The listing loop over `configMaps.Items`. */
  method ListRecords(items: seq<Item>, authList: seq<string>, kind: string, hidden: set<string>) returns (out: seq<Record>)
    requires |authList| > 0
    ensures out == Listing(items, authList, kind, hidden)
  {
    out := [];
    for i := 0 to |items|
      invariant out == Listing(items[..i], authList, kind, hidden)
    {
      assert items[..i + 1][..i] == items[..i];
      var data := items[i].data;
      if Get(data, kind) != "" {
        if authList[0] == "*" || Get(data, "name") in authList {
          out := out + [data - hidden];
        }
      }
    }
    assert items[..|items|] == items;
  }

  /** The name of the first Task bound to a Runner, if any. */
  function BoundTask(items: seq<Item>, runner: string): (r: Option<string>)
    ensures r.None? <==> forall i :: 0 <= i < |items| ==> Get(items[i].data, RunnerKey) != runner
    ensures r.Some? ==> exists i :: 0 <= i < |items| && Get(items[i].data, RunnerKey) == runner &&
                                    r.value == Get(items[i].data, "name") &&
                                    forall j :: 0 <= j < i ==> Get(items[j].data, RunnerKey) != runner
  {
    if items == [] then None
    else if Get(items[0].data, RunnerKey) == runner then Some(Get(items[0].data, "name"))
    else
      var r := BoundTask(items[1..], runner);
      assert forall i :: 1 <= i < |items| ==> items[i] == items[1..][i - 1];
      assert r.Some? ==> exists i :: 0 <= i < |items| && Get(items[i].data, RunnerKey) == runner &&
                                     r.value == Get(items[i].data, "name") &&
                                     forall j :: 0 <= j < i ==> Get(items[j].data, RunnerKey) != runner by {
        if r.Some? {
          var i :| 0 <= i < |items[1..]| && Get(items[1..][i].data, RunnerKey) == runner &&
                   r.value == Get(items[1..][i].data, "name") &&
                   forall j :: 0 <= j < i ==> Get(items[1..][j].data, RunnerKey) != runner;
          assert forall j :: 1 <= j < i + 1 ==> items[j] == items[1..][j - 1];
        }
      }
      r
  }

  /** The scan of `DeleteRunner` (services/runner_svc.go:160-165): stops at the first bound Task. */
  method FindBoundTask(items: seq<Item>, runner: string) returns (r: Option<string>)
    ensures r == BoundTask(items, runner)
  {
    for i := 0 to |items|
      invariant BoundTask(items, runner) == BoundTask(items[i..], runner)
    {
      assert items[i..][1..] == items[i + 1..];
      if Get(items[i].data, RunnerKey) == runner {
        return Some(Get(items[i].data, "name"));
      }
    }
    r := None;
  }
}
