/**
 Feature package retrieval: a work list of references, each resolved to a package that names further
 references it depends on. The resolver is a parameter; since no reference is ever resolved twice, a
 function stands for any resolver.
 */
module FeatureWorklist {
  import opened Wrappers

  datatype Package<R> = Package(dependsOn: seq<R>)

  // ----- Reachability -----

  /** The package of `x` depends on `y`. */
  ghost predicate Names<R, E>(resolve: R -> Result<Package<R>, E>, x: R, y: R) {
    resolve(x).Ok? && y in resolve(x).value.dependsOn
  }

  /** A chain of references, each named by the package of the one before it. */
  ghost predicate IsChain<R, E>(resolve: R -> Result<Package<R>, E>, chain: seq<R>) {
    var last := |chain| - 1;
    last <= 0 || (Names(resolve, chain[last - 1], chain[last]) && IsChain(resolve, chain[..last]))
  }

  ghost predicate Reachable<R(!new), E>(resolve: R -> Result<Package<R>, E>, roots: seq<R>, x: R) {
    exists chain: seq<R> ::
      && |chain| > 0 && chain[0] in roots && chain[|chain| - 1] == x && IsChain(resolve, chain)
  }

  lemma RootIsReachable<R(!new), E>(resolve: R -> Result<Package<R>, E>, roots: seq<R>, x: R)
    requires x in roots
    ensures Reachable(resolve, roots, x)
  {
    assert [x][0] in roots && IsChain(resolve, [x]);
  }

  lemma DependencyIsReachable<R(!new), E>(resolve: R -> Result<Package<R>, E>, roots: seq<R>, x: R, y: R)
    requires Reachable(resolve, roots, x) && Names(resolve, x, y)
    ensures Reachable(resolve, roots, y)
  {
    var chain: seq<R> :| |chain| > 0 && chain[0] in roots && chain[|chain| - 1] == x && IsChain(resolve, chain);
    var longer := chain + [y];
    assert longer[..|chain|] == chain;
    assert longer[0] in roots && longer[|longer| - 1] == y && IsChain(resolve, longer);
  }

  /** A set with the roots in it that every package keeps inside holds everything reachable. */
  lemma {:induction false} ChainStaysInside<R(!new), E>(resolve: R -> Result<Package<R>, E>, chain: seq<R>, inside: set<R>)
    requires |chain| > 0 && chain[0] in inside && IsChain(resolve, chain)
    requires forall x, y :: x in inside && Names(resolve, x, y) ==> y in inside
    ensures chain[|chain| - 1] in inside
  {
    if |chain| > 1 {
      var last := |chain| - 1;
      ChainStaysInside(resolve, chain[..last], inside);
    }
  }

  lemma ReachableStaysInside<R(!new), E>(resolve: R -> Result<Package<R>, E>, roots: seq<R>, inside: set<R>, x: R)
    requires Closed(resolve, roots, inside) && Reachable(resolve, roots, x)
    ensures x in inside
  {
    var chain: seq<R> :| |chain| > 0 && chain[0] in roots && chain[|chain| - 1] == x && IsChain(resolve, chain);
    ChainStaysInside(resolve, chain, inside);
  }

  /** Holds the roots and whatever its members depend on. */
  ghost predicate Closed<R(!new), E>(resolve: R -> Result<Package<R>, E>, roots: seq<R>, inside: set<R>) {
    && (forall x :: x in roots ==> x in inside)
    && (forall x, y :: x in inside && Names(resolve, x, y) ==> y in inside)
  }

  lemma ReachableIsClosed<R(!new), E>(resolve: R -> Result<Package<R>, E>, roots: seq<R>, reachable: set<R>)
    requires forall x :: x in reachable <==> Reachable(resolve, roots, x)
    ensures Closed(resolve, roots, reachable)
  {
    forall x | x in roots
      ensures x in reachable
    {
      RootIsReachable(resolve, roots, x);
    }
    forall x, y | x in reachable && Names(resolve, x, y)
      ensures y in reachable
    {
      DependencyIsReachable(resolve, roots, x, y);
    }
  }

  // ----- The work list -----

  /** The references not retrieved yet, in order. */
  function Missing<R(==, !new)>(refs: seq<R>, packages: map<R, Package<R>>): (m: seq<R>)
    ensures forall x :: x in m <==> x in refs && x !in packages
  {
    if refs == [] then []
    else if refs[0] in packages then Missing(refs[1..], packages)
    else [refs[0]] + Missing(refs[1..], packages)
  }

  /** What is known of the packages retrieved so far and the references still pending. */
  ghost predicate Explored<R(!new), E>(
    resolve: R -> Result<Package<R>, E>, roots: seq<R>, inside: set<R>, packages: map<R, Package<R>>, pending: seq<R>)
  {
    && (forall x :: x in packages ==> x in inside && resolve(x) == Ok(packages[x]))
    && (forall x :: x in pending ==> x in inside)
    && (forall x :: x in roots ==> x in packages || x in pending)
    && (forall x, y :: x in packages && y in packages[x].dependsOn ==> y in packages || y in pending)
  }

  lemma ExploreOne<R(!new), E>(
    resolve: R -> Result<Package<R>, E>, roots: seq<R>, inside: set<R>, packages: map<R, Package<R>>, x: R, rest: seq<R>)
    requires Closed(resolve, roots, inside) && Explored(resolve, roots, inside, packages, [x] + rest) && resolve(x).Ok?
    ensures Explored(resolve, roots, inside, packages[x := resolve(x).value],
                     rest + Missing(resolve(x).value.dependsOn, packages))
  {
    var pending, found := [x] + rest, Missing(resolve(x).value.dependsOn, packages);
    assert pending[0] == x && forall y :: y in pending <==> y == x || y in rest;
    forall y | y in found
      ensures y in inside
    {
      assert Names(resolve, x, y);
    }
  }

  lemma SkipOne<R(!new), E>(
    resolve: R -> Result<Package<R>, E>, roots: seq<R>, inside: set<R>, packages: map<R, Package<R>>, x: R, rest: seq<R>)
    requires Explored(resolve, roots, inside, packages, [x] + rest) && x in packages
    ensures Explored(resolve, roots, inside, packages, rest)
  {
    var pending := [x] + rest;
    assert forall y :: y in pending <==> y == x || y in rest;
  }

  /** One reference fewer is left. */
  lemma Shrinks<R>(inside: set<R>, packages: map<R, Package<R>>, x: R, p: Package<R>)
    requires x in inside && x !in packages
    ensures |inside - packages[x := p].Keys| < |inside - packages.Keys|
  {
    assert inside - packages.Keys == (inside - packages[x := p].Keys) + {x};
  }

  ghost predicate NoRepeats<R>(calls: seq<R>) {
    forall i, j :: 0 <= i < j < |calls| ==> calls[i] != calls[j]
  }

  /** The calls so far are the packages retrieved so far, once each. */
  ghost predicate Logged<R(!new)>(calls: seq<R>, packages: map<R, Package<R>>) {
    NoRepeats(calls) && forall x :: x in calls <==> x in packages
  }

  lemma LogOne<R(!new)>(calls: seq<R>, packages: map<R, Package<R>>, x: R, p: Package<R>)
    requires Logged(calls, packages) && x !in packages
    ensures NoRepeats(calls + [x]) && Logged(calls + [x], packages[x := p])
  {
    var longer := calls + [x];
    forall i, j | 0 <= i < j < |longer|
      ensures longer[i] != longer[j]
    {
      assert longer[i] == calls[i] && calls[i] in calls;
    }
    assert forall y :: y in longer <==> y in calls || y == x;
  }

  /** The state of the loop. */
  ghost predicate Exploring<R(!new), E>(
    resolve: R -> Result<Package<R>, E>, roots: seq<R>, inside: set<R>, packages: map<R, Package<R>>, pending: seq<R>,
    calls: seq<R>)
  {
    Explored(resolve, roots, inside, packages, pending) && Logged(calls, packages)
  }

  lemma StepOne<R(!new), E>(
    resolve: R -> Result<Package<R>, E>, roots: seq<R>, inside: set<R>, packages: map<R, Package<R>>, pending: seq<R>,
    calls: seq<R>)
    requires Closed(resolve, roots, inside) && Exploring(resolve, roots, inside, packages, pending, calls)
    requires pending != [] && pending[0] !in packages && resolve(pending[0]).Ok?
    ensures var x := pending[0];
            var p := resolve(x).value;
            Exploring(resolve, roots, inside, packages[x := p], pending[1..] + Missing(p.dependsOn, packages), calls + [x])
  {
    var x := pending[0];
    assert pending == [x] + pending[1..];
    ExploreOne(resolve, roots, inside, packages, x, pending[1..]);
    LogOne(calls, packages, x, resolve(x).value);
  }

  /** Every call but the last succeeded; the last failed with this error. */
  ghost predicate FailedLast<R(!new), E>(resolve: R -> Result<Package<R>, E>, inside: set<R>, calls: seq<R>, error: E) {
    && NoRepeats(calls) && (forall x :: x in calls ==> x in inside)
    && |calls| > 0 && resolve(calls[|calls| - 1]) == Err(error)
    && forall i :: 0 <= i < |calls| - 1 ==> resolve(calls[i]).Ok?
  }

  lemma FailStep<R(!new), E>(
    resolve: R -> Result<Package<R>, E>, roots: seq<R>, inside: set<R>, packages: map<R, Package<R>>, pending: seq<R>,
    calls: seq<R>)
    requires Exploring(resolve, roots, inside, packages, pending, calls)
    requires pending != [] && pending[0] !in packages && resolve(pending[0]).Err?
    ensures FailedLast(resolve, inside, calls + [pending[0]], resolve(pending[0]).error)
  {
    var x := pending[0];
    assert x in pending;
    LogOne(calls, packages, x, Package([]));
    forall i | 0 <= i < |calls|
      ensures resolve((calls + [x])[i]).Ok?
    {
      assert calls[i] in calls;
    }
  }

  lemma SkipStep<R(!new), E>(
    resolve: R -> Result<Package<R>, E>, roots: seq<R>, inside: set<R>, packages: map<R, Package<R>>, pending: seq<R>,
    calls: seq<R>)
    requires Exploring(resolve, roots, inside, packages, pending, calls) && pending != [] && pending[0] in packages
    ensures Exploring(resolve, roots, inside, packages, pending[1..], calls)
  {
    assert pending == [pending[0]] + pending[1..];
    SkipOne(resolve, roots, inside, packages, pending[0], pending[1..]);
  }

  /** The loop, inside any finite closed set; `calls` records the references handed to the resolver. */
  method Drain<R(==, !new), E>(resolve: R -> Result<Package<R>, E>, roots: seq<R>, ghost inside: set<R>)
    returns (r: Result<map<R, Package<R>>, E>, calls: seq<R>)
    requires Closed(resolve, roots, inside)
    ensures r.Ok? ==> Exploring(resolve, roots, inside, r.value, [], calls)
    ensures r.Err? ==> FailedLast(resolve, inside, calls, r.error)
  {
    var pending := roots;
    var packages: map<R, Package<R>> := map[];
    calls := [];
    while pending != []
      invariant Exploring(resolve, roots, inside, packages, pending, calls)
      decreases |inside - packages.Keys|, |pending|
    {
      var reference := pending[0];
      if reference in packages {
        SkipStep(resolve, roots, inside, packages, pending, calls);
        pending := pending[1..];
      } else {
        var resolved := resolve(reference);
        if resolved.Err? {
          FailStep(resolve, roots, inside, packages, pending, calls);
          return Err(resolved.error), calls + [reference];
        }
        StepOne(resolve, roots, inside, packages, pending, calls);
        Shrinks(inside, packages, reference, resolved.value);
        pending := pending[1..] + Missing(resolved.value.dependsOn, packages);
        packages := packages[reference := resolved.value];
        calls := calls + [reference];
      }
    }
    return Ok(packages), calls;
  }

  lemma ExploredIsClosed<R(!new), E>(
    resolve: R -> Result<Package<R>, E>, roots: seq<R>, inside: set<R>, packages: map<R, Package<R>>)
    requires Explored(resolve, roots, inside, packages, [])
    ensures Closed(resolve, roots, packages.Keys)
  {
    forall x, y | x in packages.Keys && Names(resolve, x, y)
      ensures y in packages.Keys
    {
      assert y in packages[x].dependsOn;
    }
  }

  /** What the loop ends with is exactly what is reachable. */
  lemma RetrievedExactly<R(!new), E>(
    resolve: R -> Result<Package<R>, E>, roots: seq<R>, reachable: set<R>, packages: map<R, Package<R>>)
    requires forall x :: x in reachable <==> Reachable(resolve, roots, x)
    requires Explored(resolve, roots, reachable, packages, [])
    ensures packages.Keys == reachable && forall x :: x in reachable ==> resolve(x) == Ok(packages[x])
  {
    ExploredIsClosed(resolve, roots, reachable, packages);
    forall x | x in reachable
      ensures x in packages
    {
      ReachableStaysInside(resolve, roots, packages.Keys, x);
    }
  }

  /**
   `retrieve_packages`, whenever finitely many references are reachable: it ends, resolves no
   reference twice, and either retrieves exactly the reachable references or reports the first failure.
   */
  method RetrievePackages<R(==, !new), E>(
    resolve: R -> Result<Package<R>, E>, roots: seq<R>, ghost reachable: set<R>)
    returns (r: Result<map<R, Package<R>>, E>, calls: seq<R>)
    requires forall x :: x in reachable <==> Reachable(resolve, roots, x)
    ensures r.Ok? <==> forall x :: x in reachable ==> resolve(x).Ok?
    ensures r.Ok? ==> r.value.Keys == reachable && forall x :: x in reachable ==> resolve(x) == Ok(r.value[x])
    ensures r.Ok? ==> NoRepeats(calls) && forall x :: x in calls <==> x in reachable
    ensures r.Err? ==> FailedLast(resolve, reachable, calls, r.error)
  {
    ReachableIsClosed(resolve, roots, reachable);
    r, calls := Drain(resolve, roots, reachable);
    if r.Ok? {
      RetrievedExactly(resolve, roots, reachable, r.value);
    } else {
      assert calls[|calls| - 1] in reachable;
    }
  }
}
