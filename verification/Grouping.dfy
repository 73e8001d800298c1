/**
 Grouping observations by service name, as both Compose modules do, and sorting container IDs.
 A container ID is 64 lower-case hexadecimal digits, so its order is that of a natural number.
 */
module Grouping {
  import opened Wrappers
  import opened DelimitedText

  type ContainerId = nat
  type Service = string

  /** The items filed under a name, in order. */
  function Under<T>(items: seq<T>, name: T -> Option<Service>, service: Service): seq<T> {
    if items == [] then []
    else
      var rest := Under(items[..|items| - 1], name, service);
      var last := items[|items| - 1];
      if name(last) == Some(service) then rest + [last] else rest
  }

  /** The items filed under a name are those at these positions: all that bear the name, in order. */
  ghost predicate FiledAt<T>(items: seq<T>, name: T -> Option<Service>, service: Service, filed: seq<T>, at: seq<nat>) {
    && |at| == |filed| && (forall k :: 0 <= k < |at| ==> at[k] < |items| && filed[k] == items[at[k]])
    && (forall k, l :: 0 <= k < l < |at| ==> at[k] < at[l])
    && (forall i :: 0 <= i < |items| ==> (name(items[i]) == Some(service) <==> i in at))
  }

  lemma {:induction false} UnderIsFiled<T>(items: seq<T>, name: T -> Option<Service>, service: Service) returns (at: seq<nat>)
    ensures FiledAt(items, name, service, Under(items, name, service), at)
  {
    if items == [] {
      at := [];
    } else {
      var last := |items| - 1;
      at := UnderIsFiled(items[..last], name, service);
      FiledNext(items, name, service, Under(items[..last], name, service), at);
      if name(items[last]) == Some(service) {
        at := at + [last];
      }
    }
  }

  lemma FiledNext<T>(items: seq<T>, name: T -> Option<Service>, service: Service, filed: seq<T>, at: seq<nat>)
    requires items != [] && FiledAt(items[..|items| - 1], name, service, filed, at)
    ensures var last := |items| - 1;
            if name(items[last]) == Some(service) then FiledAt(items, name, service, filed + [items[last]], at + [last])
            else FiledAt(items, name, service, filed, at)
  {
    var last := |items| - 1;
    assert last !in at;
    assert forall i :: 0 <= i < last ==> items[..last][i] == items[i];
    if name(items[last]) == Some(service) {
      assert forall i :: i in at + [last] <==> i in at || i == last;
    }
  }

  /** The loop that fills a map of vectors keyed by service. */
  method GroupBy<T>(items: seq<T>, name: T -> Option<Service>) returns (grouped: map<Service, seq<T>>)
    ensures forall s :: s in grouped ==> grouped[s] == Under(items, name, s) && grouped[s] != []
    ensures forall s :: s !in grouped ==> Under(items, name, s) == []
  {
    grouped := map[];
    for i := 0 to |items|
      invariant forall s :: s in grouped ==> grouped[s] == Under(items[..i], name, s) && grouped[s] != []
      invariant forall s :: s !in grouped ==> Under(items[..i], name, s) == []
    {
      assert items[..i + 1][..i] == items[..i];
      var service := name(items[i]);
      if service.Some? {
        var entry := if service.value in grouped then grouped[service.value] else [];
        grouped := grouped[service.value := entry + [items[i]]];
      }
    }
    assert items[..|items|] == items;
  }

  lemma {:induction false} UnderCounts<T(!new)>(items: seq<T>, name: T -> Option<Service>, service: Service, x: T)
    ensures multiset(Under(items, name, service))[x] == if name(x) == Some(service) then multiset(items)[x] else 0
  {
    if items != [] {
      var last := |items| - 1;
      UnderCounts(items[..last], name, service, x);
      assert items == items[..last] + [items[last]];
    }
  }

  /** Reordering the items only reorders each group. */
  lemma UnderIsOrderFree<T(!new)>(a: seq<T>, b: seq<T>, name: T -> Option<Service>, service: Service)
    requires multiset(a) == multiset(b)
    ensures multiset(Under(a, name, service)) == multiset(Under(b, name, service))
  {
    forall x ensures multiset(Under(a, name, service))[x] == multiset(Under(b, name, service))[x] {
      UnderCounts(a, name, service, x);
      UnderCounts(b, name, service, x);
    }
  }

  // ----- Sorting -----

  ghost predicate Sorted(s: seq<ContainerId>) {
    forall i, j :: 0 <= i < j < |s| ==> s[i] <= s[j]
  }

  function Insert(s: seq<ContainerId>, x: ContainerId): seq<ContainerId> {
    if s == [] || x <= s[0] then [x] + s else [s[0]] + Insert(s[1..], x)
  }

  function Sort(s: seq<ContainerId>): seq<ContainerId> {
    if s == [] then [] else Insert(Sort(s[1..]), s[0])
  }

  lemma Prepended<T>(x: T, s: seq<T>)
    ensures multiset([x] + s) == multiset{x} + multiset(s)
  {
  }

  lemma {:induction false} InsertSorts(s: seq<ContainerId>, x: ContainerId)
    requires Sorted(s)
    ensures Sorted(Insert(s, x))
    ensures forall y :: y in Insert(s, x) ==> y == x || y in s
  {
    if s != [] && s[0] < x {
      InsertSorts(s[1..], x);
      var r := Insert(s[1..], x);
      forall k | 0 <= k < |r| ensures s[0] <= r[k] {
        assert r[k] in r;
      }
    }
  }

  lemma {:induction false} InsertAdds(s: seq<ContainerId>, x: ContainerId)
    ensures multiset(Insert(s, x)) == multiset{x} + multiset(s)
  {
    Prepended(x, s);
    if s != [] && s[0] < x {
      InsertAdds(s[1..], x);
      Prepended(s[0], Insert(s[1..], x));
      WithoutFirst(s);
    }
  }

  lemma {:induction false} SortSorts(s: seq<ContainerId>)
    ensures Sorted(Sort(s)) && multiset(Sort(s)) == multiset(s)
  {
    if s != [] {
      SortSorts(s[1..]);
      InsertSorts(Sort(s[1..]), s[0]);
      InsertAdds(Sort(s[1..]), s[0]);
      WithoutFirst(s);
    }
  }

  lemma WithoutFirst<T>(s: seq<T>)
    requires s != []
    ensures multiset(s) == multiset{s[0]} + multiset(s[1..])
    ensures multiset(s[1..]) == multiset(s) - multiset{s[0]}
  {
    assert s == [s[0]] + s[1..];
  }

  lemma FirstIsLeast(a: seq<ContainerId>, b: seq<ContainerId>)
    requires Sorted(a) && b != [] && multiset(a) == multiset(b)
    ensures a != [] && a[0] <= b[0]
  {
    assert b[0] in multiset(b);
    assert b[0] in multiset(a);
    assert b[0] in a;
  }

  /** A multiset has only one sorted listing. */
  lemma {:induction false} SortedIsUnique(a: seq<ContainerId>, b: seq<ContainerId>)
    requires Sorted(a) && Sorted(b) && multiset(a) == multiset(b)
    ensures a == b
  {
    if b == [] {
      assert |multiset(a)| == 0;
    } else {
      FirstIsLeast(a, b);
      FirstIsLeast(b, a);
      WithoutFirst(a);
      WithoutFirst(b);
      SortedIsUnique(a[1..], b[1..]);
      assert a == [a[0]] + a[1..];
    }
  }

  function Ids<T>(items: seq<T>, id: T -> ContainerId): seq<ContainerId> {
    if items == [] then [] else [id(items[0])] + Ids(items[1..], id)
  }

  lemma {:induction false} IdsAppend<T>(items: seq<T>, x: T, id: T -> ContainerId)
    ensures Ids(items + [x], id) == Ids(items, id) + [id(x)]
  {
    if items == [] {
      assert (items + [x])[1..] == [];
    } else {
      assert (items + [x])[1..] == items[1..] + [x];
      IdsAppend(items[1..], x, id);
    }
  }

  lemma IdsOfFirst<T>(s: seq<T>, id: T -> ContainerId)
    requires s != []
    ensures multiset(Ids(s, id)) == multiset{id(s[0])} + multiset(Ids(s[1..], id))
  {
    Prepended(id(s[0]), Ids(s[1..], id));
  }

  lemma {:induction false} IdsAround<T>(before: seq<T>, x: T, after: seq<T>, id: T -> ContainerId)
    ensures multiset(Ids(before + ([x] + after), id)) == multiset{id(x)} + multiset(Ids(before + after, id))
  {
    var whole, rest := before + ([x] + after), before + after;
    if before == [] {
      assert whole == [x] + after && rest == after && whole[1..] == rest;
      IdsOfFirst(whole, id);
    } else {
      assert whole[1..] == before[1..] + ([x] + after) && rest[1..] == before[1..] + after;
      IdsOfFirst(whole, id);
      IdsOfFirst(rest, id);
      IdsAround(before[1..], x, after, id);
    }
  }

  lemma Extracted<T>(b: seq<T>, x: T) returns (k: nat)
    requires x in multiset(b)
    ensures k < |b| && b == b[..k] + ([x] + b[k + 1..])
    ensures multiset(b[..k] + b[k + 1..]) == multiset(b) - multiset{x}
  {
    assert x in b;
    k :| 0 <= k < |b| && b[k] == x;
    assert b == b[..k] + ([x] + b[k + 1..]);
  }

  lemma {:induction false} IdsOfPermutation<T>(a: seq<T>, b: seq<T>, id: T -> ContainerId)
    requires multiset(a) == multiset(b)
    ensures multiset(Ids(a, id)) == multiset(Ids(b, id))
  {
    if a == [] {
      assert |multiset(b)| == 0;
    } else {
      WithoutFirst(a);
      assert a[0] in multiset(a);
      var k := Extracted(b, a[0]);
      IdsOfPermutation(a[1..], b[..k] + b[k + 1..], id);
      IdsAround(b[..k], a[0], b[k + 1..], id);
    }
  }

  // ----- Service names -----

  predicate SafeName(service: Service) {
    service != [] && service[0] != '-' && forall i :: 0 <= i < |service| ==> !IsControl(service[i])
  }

  /** What both `validate_request` and `validate_recorded` ask of a managed service list. */
  predicate ValidManagedSet(services: seq<Service>, primary: Service) {
    && services != [] && primary in services
    && (forall i, j :: 0 <= i < j < |services| ==> services[i] != services[j])
    && (forall i :: 0 <= i < |services| ==> SafeName(services[i]))
  }

  /** A list is refused exactly when it is empty, repeats a service, lacks the primary or has an unsafe name. */
  lemma ManagedSetIsRefusedExactly(services: seq<Service>, primary: Service)
    ensures !ValidManagedSet(services, primary) <==>
              || |services| == 0
              || (forall i :: 0 <= i < |services| ==> services[i] != primary)
              || (exists i, j :: 0 <= i < j < |services| && services[i] == services[j])
              || (exists i :: 0 <= i < |services| && (|services[i]| == 0 || services[i][0] == '-'))
              || (exists i, k :: 0 <= i < |services| && 0 <= k < |services[i]|
                    && (services[i][k] <= '\U{1F}' || '\U{7F}' <= services[i][k] <= '\U{9F}'))
  {
    if !ValidManagedSet(services, primary) && |services| > 0 && primary in services {
      if i :| 0 <= i < |services| && !SafeName(services[i]) {
        if |services[i]| > 0 && services[i][0] != '-' {
          var k :| 0 <= k < |services[i]| && IsControl(services[i][k]);
        }
      }
    }
  }
}
