/** Non-atomic Compose replacement: what the classifier says, and in which order effects happen. */
module ComposeRebuild {
  import opened Wrappers
  import opened Grouping

  datatype Health = Unknown | Healthy | Unhealthy

  datatype Observed = Observed(service: Service, container: ContainerId, running: bool, health: Health)

  datatype PartialService =
    | Missing
    | Present(container: ContainerId, running: bool, health: Health)
    | Ambiguous(containers: seq<ContainerId>)

  type PartialState = map<Service, PartialService>

  function ServiceOf(o: Observed): Option<Service> {
    Some(o.service)
  }

  function ContainerOf(o: Observed): ContainerId {
    o.container
  }

  function ClassifyMatches(matches: seq<Observed>): PartialService {
    if matches == [] then Missing
    else if |matches| == 1 then Present(matches[0].container, matches[0].running, matches[0].health)
    else Ambiguous(Sort(Ids(matches, ContainerOf)))
  }

  function Classified(observed: seq<Observed>, service: Service): PartialService {
    ClassifyMatches(Under(observed, ServiceOf, service))
  }

  ghost predicate SoleAt(observed: seq<Observed>, service: Service, i: nat) {
    && i < |observed| && observed[i].service == service
    && forall j :: 0 <= j < |observed| && observed[j].service == service ==> j == i
  }

  /** The observations of this service with this container. */
  function Sightings(observed: seq<Observed>, service: Service, container: ContainerId): set<int> {
    set i | 0 <= i < |observed| && observed[i].service == service && observed[i].container == container
  }

  /** What a class says about the observations: none of the service, exactly one, or several. */
  ghost predicate ClassMeans(observed: seq<Observed>, service: Service, p: PartialService) {
    && (p.Missing? <==> forall i :: 0 <= i < |observed| ==> observed[i].service != service)
    && (p.Present? <==> exists i: nat :: SoleAt(observed, service, i))
    && (forall i: nat :: SoleAt(observed, service, i) ==>
          p == Present(observed[i].container, observed[i].running, observed[i].health))
    && (p.Ambiguous? <==>
          exists i, j :: 0 <= i < j < |observed| && observed[i].service == service && observed[j].service == service)
    && (p.Ambiguous? ==>
          && (forall k, l :: 0 <= k < l < |p.containers| ==> p.containers[k] <= p.containers[l])
          && (forall id :: multiset(p.containers)[id] == |Sightings(observed, service, id)|))
  }

  lemma {:induction false} SightingsCount(observed: seq<Observed>, service: Service, id: ContainerId)
    ensures multiset(Ids(Under(observed, ServiceOf, service), ContainerOf))[id] == |Sightings(observed, service, id)|
  {
    if observed == [] {
      assert Sightings(observed, service, id) == {};
    } else {
      var last := |observed| - 1;
      var rest := Under(observed[..last], ServiceOf, service);
      SightingsCount(observed[..last], service, id);
      SightingsGrow(observed, service, id);
      if observed[last].service == service {
        IdsAppend(rest, observed[last], ContainerOf);
      }
    }
  }

  lemma SightingsGrow(observed: seq<Observed>, service: Service, id: ContainerId)
    requires observed != []
    ensures var last := |observed| - 1;
            |Sightings(observed, service, id)|
            == |Sightings(observed[..last], service, id)|
               + (if observed[last].service == service && observed[last].container == id then 1 else 0)
  {
    var last := |observed| - 1;
    var before := Sightings(observed[..last], service, id);
    assert last !in before;
    assert Sightings(observed, service, id)
        == if observed[last].service == service && observed[last].container == id then before + {last} else before;
  }

  lemma AmbiguousListing(observed: seq<Observed>, service: Service)
    requires |Under(observed, ServiceOf, service)| > 1
    ensures Classified(observed, service).Ambiguous?
    ensures var ids := Classified(observed, service).containers;
            && (forall k, l :: 0 <= k < l < |ids| ==> ids[k] <= ids[l])
            && (forall id :: multiset(ids)[id] == |Sightings(observed, service, id)|)
  {
    var ids := Ids(Under(observed, ServiceOf, service), ContainerOf);
    SortSorts(ids);
    forall id
      ensures multiset(Sort(ids))[id] == |Sightings(observed, service, id)|
    {
      SightingsCount(observed, service, id);
    }
  }

  /** The classification says what it should of the observations. */
  lemma ClassifiedMeans(observed: seq<Observed>, service: Service)
    ensures ClassMeans(observed, service, Classified(observed, service))
  {
    var matches := Under(observed, ServiceOf, service);
    var at := UnderIsFiled(observed, ServiceOf, service);
    assert forall i :: 0 <= i < |observed| ==> (observed[i].service == service <==> i in at);
    if |at| == 0 {
      assert forall i :: 0 <= i < |observed| ==> observed[i].service != service;
    } else if |at| == 1 {
      assert at[0] in at && SoleAt(observed, service, at[0]);
    } else {
      AmbiguousListing(observed, service);
      assert at[0] in at && at[1] in at && at[0] < at[1];
    }
  }

  /** `classify_compose_partial_state`: one grouping pass, then one entry per desired service. */
  method Classify(desired: seq<Service>, observed: seq<Observed>) returns (services: PartialState)
    ensures services.Keys == set s | s in desired
    ensures forall s :: s in services ==> services[s] == Classified(observed, s)
    ensures forall s :: s in services ==> ClassMeans(observed, s, services[s])
  {
    var grouped := GroupBy(observed, ServiceOf);
    services := map[];
    for i := 0 to |desired|
      invariant services.Keys == set s | s in desired[..i]
      invariant forall s :: s in services ==> services[s] == Classified(observed, s)
    {
      var matches := if desired[i] in grouped then grouped[desired[i]] else [];
      services := services[desired[i] := ClassifyMatches(matches)];
      assert desired[..i + 1] == desired[..i] + [desired[i]];
    }
    assert desired[..|desired|] == desired;
    forall s | s in services
      ensures ClassMeans(observed, s, services[s])
    {
      ClassifiedMeans(observed, s);
    }
  }

  /** Classification does not depend on the order in which containers are reported. */
  lemma ClassificationIsOrderFree(a: seq<Observed>, b: seq<Observed>, service: Service)
    requires multiset(a) == multiset(b)
    ensures Classified(a, service) == Classified(b, service)
  {
    var x, y := Under(a, ServiceOf, service), Under(b, ServiceOf, service);
    UnderIsOrderFree(a, b, ServiceOf, service);
    assert |x| == |multiset(x)| == |multiset(y)| == |y|;
    if |x| == 1 {
      assert x[0] in multiset(y);
    } else if |x| > 1 {
      IdsOfPermutation(x, y, ContainerOf);
      SortSorts(Ids(x, ContainerOf));
      SortSorts(Ids(y, ContainerOf));
      SortedIsUnique(Sort(Ids(x, ContainerOf)), Sort(Ids(y, ContainerOf)));
    }
  }

  function Relevant(observed: seq<Observed>, desired: seq<Service>): seq<Observed> {
    if observed == [] then []
    else
      var rest := Relevant(observed[..|observed| - 1], desired);
      var last := observed[|observed| - 1];
      if last.service in desired then rest + [last] else rest
  }

  /** Nor on containers of services that are not desired. */
  lemma {:induction false} ClassificationIgnoresOthers(observed: seq<Observed>, desired: seq<Service>, service: Service)
    requires service in desired
    ensures Under(Relevant(observed, desired), ServiceOf, service) == Under(observed, ServiceOf, service)
    ensures Classified(Relevant(observed, desired), service) == Classified(observed, service)
  {
    if observed != [] {
      var last := |observed| - 1;
      ClassificationIgnoresOthers(observed[..last], desired, service);
      var rest := Relevant(observed[..last], desired);
      assert (rest + [observed[last]])[..|rest|] == rest;
    }
  }

  predicate IsHealthy(p: PartialService) {
    p.Present? && p.running && p.health.Healthy?
  }

  /** `healthy_managed_set`. */
  function HealthySet(services: PartialState): Option<map<Service, ContainerId>> {
    if forall s :: s in services ==> IsHealthy(services[s])
    then Some(map s | s in services :: services[s].container)
    else None
  }

  /** Observation `i` is the only one of its service, and it is running and healthy. */
  ghost predicate SoleHealthy(observed: seq<Observed>, service: Service, i: int) {
    && 0 <= i < |observed| && observed[i].service == service && observed[i].running && observed[i].health.Healthy?
    && forall j :: 0 <= j < |observed| && observed[j].service == service ==> j == i
  }

  lemma {:induction false} SoleMatch(observed: seq<Observed>, service: Service, i: nat)
    requires i < |observed| && observed[i].service == service
    requires forall j :: 0 <= j < |observed| && observed[j].service == service ==> j == i
    ensures Under(observed, ServiceOf, service) == [observed[i]]
  {
    var last := |observed| - 1;
    if i < last {
      SoleMatch(observed[..last], service, i);
    } else {
      NoMatch(observed[..last], service);
    }
  }

  lemma {:induction false} NoMatch(observed: seq<Observed>, service: Service)
    ensures Under(observed, ServiceOf, service) == [] <==> forall j :: 0 <= j < |observed| ==> observed[j].service != service
  {
    if observed != [] {
      NoMatch(observed[..|observed| - 1], service);
    }
  }

  lemma {:induction false} OneMatch(observed: seq<Observed>, service: Service) returns (i: nat)
    requires |Under(observed, ServiceOf, service)| == 1
    ensures i < |observed| && Under(observed, ServiceOf, service) == [observed[i]]
    ensures forall j :: 0 <= j < |observed| && observed[j].service == service ==> j == i
    ensures observed[i].service == service
  {
    var last := |observed| - 1;
    if observed[last].service == service {
      NoMatch(observed[..last], service);
      return last;
    }
    i := OneMatch(observed[..last], service);
  }

  /**
   The healthy managed set exists exactly when each desired service has one observation, running
   and healthy, and it maps each service to that container.
   */
  lemma HealthySetIsUniqueRunningHealthy(desired: seq<Service>, observed: seq<Observed>, services: PartialState)
    requires services.Keys == set s | s in desired
    requires forall s :: s in services ==> services[s] == Classified(observed, s)
    ensures HealthySet(services).Some? <==> forall s :: s in desired ==> exists i :: SoleHealthy(observed, s, i)
    ensures HealthySet(services).Some? ==>
              && HealthySet(services).value.Keys == services.Keys
              && forall s, i :: s in desired && SoleHealthy(observed, s, i) ==>
                   HealthySet(services).value[s] == observed[i].container
  {
    forall s | s in services
      ensures IsHealthy(services[s]) <==> exists i :: SoleHealthy(observed, s, i)
    {
      var matches := Under(observed, ServiceOf, s);
      if IsHealthy(services[s]) {
        var i := OneMatch(observed, s);
        assert SoleHealthy(observed, s, i);
      }
      if i :| SoleHealthy(observed, s, i) {
        SoleMatch(observed, s, i);
      }
    }
    assert forall s :: s in desired <==> s in services;
    forall s, i | s in desired && SoleHealthy(observed, s, i)
      ensures services[s].Present? && services[s].container == observed[i].container
    {
      SoleMatch(observed, s, i);
    }
  }

  // ----- The orchestration -----

  datatype Active = Active(generation: nat, container: ContainerId)

  datatype Request = Request(
    managed: seq<Service>, primary: Service, generation: nat, previousPrimary: Option<ContainerId>)

  datatype RebuildPhase = BuildFirst | Recreation | ManagedSet | Readiness | Forwarding | ActiveCommit

  datatype Evidence = Inspected(state: PartialState) | InspectionFailed

  datatype Invariant = InvalidManagedSet | ReusedPrimary | InvalidReadiness

  datatype RebuildError =
    | Build
    | CancelledBeforeRecreation
    | Cancelled(phase: RebuildPhase, evidence: Evidence)
    | Partial(phase: RebuildPhase, evidence: Evidence)
    | InvariantFailed(phase: RebuildPhase, cause: Invariant, evidence: Evidence)

  datatype Recovery = Recovery(generation: nat, phase: RebuildPhase, partial: Option<PartialState>)

  function RecoveryOf(e: RebuildError, generation: nat): Option<Recovery> {
    match e
    case Build => None
    case CancelledBeforeRecreation => None
    case _ =>
      if e.phase.BuildFirst? then None
      else Some(Recovery(generation, e.phase, if e.evidence.Inspected? then Some(e.evidence.state) else None))
  }

  /**
   Recovery is due exactly once the build stage is behind, and then names the generation, the phase
   that failed and what the evidence shows.
   */
  lemma RecoveryMeans(e: RebuildError, generation: nat)
    ensures var r := RecoveryOf(e, generation);
            && (r.None? <==> e.Build? || e.CancelledBeforeRecreation? || e.phase == BuildFirst)
            && (r.Some? ==>
                  && r.value.generation == generation && r.value.phase == e.phase
                  && (e.evidence.InspectionFailed? ==> r.value.partial == None)
                  && (e.evidence.Inspected? ==> r.value.partial == Some(e.evidence.state)))
  {
  }

  datatype Outcome = Outcome(active: Active, managed: map<Service, ContainerId>, warnings: nat)

  /** Everything the orchestrator asks of the world, with the answers it got. */
  datatype Call =
    | BuildComplete(ok: bool)
    | ForceRecreate(ok: bool)
    | InspectServices(seen: Option<seq<Observed>>)
    | CompleteReadiness(given: map<Service, ContainerId>, ready: Option<Active>)
    | HandoffForwarding(active: Active, ok: bool)
    | CommitActive(active: Active, managed: map<Service, ContainerId>, ok: bool)
    | RemoveOrphans(keep: map<Service, ContainerId>, ok: bool)
    | CleanImages(ok: bool)
    | SawCancellation

  // Each of these says that some call of a history was of a kind, after everything it depends on: the
  // last call was, or one of those before it.

  function Front(calls: seq<Call>): seq<Call>
    requires calls != []
  {
    calls[..|calls| - 1]
  }

  function Last(calls: seq<Call>): Call
    requires calls != []
  {
    calls[|calls| - 1]
  }

  ghost predicate Built(calls: seq<Call>) {
    calls != [] && (Last(calls) == BuildComplete(true) || Built(Front(calls)))
  }

  ghost predicate RecreatedAfterBuild(calls: seq<Call>) {
    calls != [] && ((Last(calls) == ForceRecreate(true) && Built(Front(calls))) || RecreatedAfterBuild(Front(calls)))
  }

  /** An inspection shows a unique running healthy set with a new primary. */
  ghost predicate ShowsManaged(request: Request, seen: seq<Observed>, managed: map<Service, ContainerId>) {
    && managed.Keys == (set s | s in request.managed) && request.primary in managed
    && request.previousPrimary != Some(managed[request.primary])
    && forall s :: s in managed ==> exists i :: SoleHealthy(seen, s, i) && managed[s] == seen[i].container
  }

  ghost predicate ManagedSetSeen(request: Request, calls: seq<Call>, managed: map<Service, ContainerId>) {
    calls != []
    && ((Last(calls).InspectServices? && Last(calls).seen.Some? && ShowsManaged(request, Last(calls).seen.value, managed)
         && RecreatedAfterBuild(Front(calls)))
        || ManagedSetSeen(request, Front(calls), managed))
  }

  ghost predicate Ready(request: Request, calls: seq<Call>, active: Active, managed: map<Service, ContainerId>) {
    calls != []
    && ((Last(calls) == CompleteReadiness(managed, Some(active)) && ManagedSetSeen(request, Front(calls), managed))
        || Ready(request, Front(calls), active, managed))
  }

  ghost predicate HandedOff(request: Request, calls: seq<Call>, active: Active, managed: map<Service, ContainerId>) {
    calls != []
    && ((Last(calls) == HandoffForwarding(active, true) && Ready(request, Front(calls), active, managed))
        || HandedOff(request, Front(calls), active, managed))
  }

  /** Everything a commit of this active generation needs, in order. */
  ghost predicate CommitEarned(request: Request, calls: seq<Call>, active: Active, managed: map<Service, ContainerId>) {
    && request.primary in managed && active == Active(request.generation, managed[request.primary])
    && HandedOff(request, calls, active, managed)
  }

  ghost predicate Committed(calls: seq<Call>) {
    calls != [] && ((Last(calls).CommitActive? && Last(calls).ok) || Committed(Front(calls)))
  }

  ghost predicate CommittedSet(calls: seq<Call>, managed: map<Service, ContainerId>) {
    calls != []
    && ((Last(calls).CommitActive? && Last(calls).ok && Last(calls).managed == managed) || CommittedSet(Front(calls), managed))
  }

  ghost predicate CommitTried(calls: seq<Call>) {
    calls != [] && (Last(calls).CommitActive? || CommitTried(Front(calls)))
  }

  ghost predicate Recreated(calls: seq<Call>) {
    calls != [] && (Last(calls).ForceRecreate? || Recreated(Front(calls)))
  }

  ghost predicate CancellationSeen(calls: seq<Call>) {
    calls != [] && (Last(calls).SawCancellation? || CancellationSeen(Front(calls)))
  }

  /** What the last look gave, if there was one. */
  function LastSeen(calls: seq<Call>): Option<Option<seq<Observed>>> {
    if calls == [] then None
    else
      if Last(calls).InspectServices? then Some(Last(calls).seen) else LastSeen(Front(calls))
  }

  /** What lets one more call follow a history. */
  ghost predicate MayFollow(request: Request, calls: seq<Call>, next: Call) {
    && (CancellationSeen(calls) ==> next.InspectServices?)
    && (next.ForceRecreate? ==> !Recreated(calls))
    && (next.RemoveOrphans? ==> CommittedSet(calls, next.keep))
    && (next.CleanImages? ==> Committed(calls))
    && (next.CommitActive? ==> CommitEarned(request, calls, next.active, next.managed) && !CommitTried(calls))
  }

  /** One commit at most, and only when earned; cleanup only after it, keeping its set; nothing but a look after a cancellation. */
  ghost predicate OrderlyCalls(request: Request, calls: seq<Call>) {
    calls == [] || (OrderlyCalls(request, Front(calls)) && MayFollow(request, Front(calls), Last(calls)))
  }

  /** That is, every call may follow the ones before it. */
  lemma {:induction false} EveryCallMayFollow(request: Request, calls: seq<Call>, k: nat)
    requires OrderlyCalls(request, calls) && k < |calls|
    ensures MayFollow(request, calls[..k], calls[k])
  {
    var last := |calls| - 1;
    if k < last {
      EveryCallMayFollow(request, calls[..last], k);
      assert calls[..last][..k] == calls[..k];
    }
  }

  lemma LastAndFront(calls: seq<Call>, next: Call)
    ensures Last(calls + [next]) == next && Front(calls + [next]) == calls
  {
  }

  /** One more call: what the longer history says, in terms of the shorter one. */
  lemma Extend(request: Request, calls: seq<Call>, next: Call)
    requires OrderlyCalls(request, calls) && MayFollow(request, calls, next)
    ensures OrderlyCalls(request, calls + [next])
    ensures Recreated(calls + [next]) <==> Recreated(calls) || next.ForceRecreate?
    ensures Committed(calls + [next]) <==> Committed(calls) || (next.CommitActive? && next.ok)
    ensures CommitTried(calls + [next]) <==> CommitTried(calls) || next.CommitActive?
    ensures CancellationSeen(calls + [next]) <==> CancellationSeen(calls) || next.SawCancellation?
    ensures LastSeen(calls + [next]) == if next.InspectServices? then Some(next.seen) else LastSeen(calls)
  {
    LastAndFront(calls, next);
  }

  lemma NothingYet(request: Request)
    ensures OrderlyCalls(request, []) && !Recreated([]) && !Committed([]) && !CommitTried([]) && !CancellationSeen([])
  {
  }

  // Each stage is reached by the call that completes it.

  lemma AfterRecreate(calls: seq<Call>)
    requires Built(calls)
    ensures RecreatedAfterBuild(calls + [ForceRecreate(true)])
  {
    LastAndFront(calls, ForceRecreate(true));
  }

  lemma AfterInspection(request: Request, calls: seq<Call>, seen: seq<Observed>, managed: map<Service, ContainerId>)
    requires RecreatedAfterBuild(calls) && ShowsManaged(request, seen, managed)
    ensures ManagedSetSeen(request, calls + [InspectServices(Some(seen))], managed)
  {
    LastAndFront(calls, InspectServices(Some(seen)));
  }

  lemma AfterReadiness(request: Request, calls: seq<Call>, active: Active, managed: map<Service, ContainerId>)
    requires ManagedSetSeen(request, calls, managed)
    ensures Ready(request, calls + [CompleteReadiness(managed, Some(active))], active, managed)
  {
    LastAndFront(calls, CompleteReadiness(managed, Some(active)));
  }

  lemma AfterHandoff(request: Request, calls: seq<Call>, active: Active, managed: map<Service, ContainerId>)
    requires Ready(request, calls, active, managed) && request.primary in managed
    requires active == Active(request.generation, managed[request.primary])
    ensures CommitEarned(request, calls + [HandoffForwarding(active, true)], active, managed)
  {
    LastAndFront(calls, HandoffForwarding(active, true));
  }

  lemma {:induction false} CommittedSetIsCommitted(calls: seq<Call>, managed: map<Service, ContainerId>)
    requires CommittedSet(calls, managed)
    ensures Committed(calls)
  {
    if CommittedSet(Front(calls), managed) {
      CommittedSetIsCommitted(Front(calls), managed);
    }
  }

  lemma AfterCommit(calls: seq<Call>, active: Active, managed: map<Service, ContainerId>)
    ensures CommittedSet(calls + [CommitActive(active, managed, true)], managed)
  {
    LastAndFront(calls, CommitActive(active, managed, true));
  }

  // ----- Evidence -----

  ghost predicate Classifies(request: Request, seen: seq<Observed>, state: PartialState) {
    state.Keys == (set s | s in request.managed) && forall s :: s in state ==> state[s] == Classified(seen, s)
  }

  /** The last look succeeded, and this is how it classifies the managed services. */
  ghost predicate Seen(request: Request, calls: seq<Call>, state: PartialState) {
    && LastSeen(calls).Some? && LastSeen(calls).value.Some?
    && Classifies(request, LastSeen(calls).value.value, state)
  }

  /** The only error that passes off a failed look as one that found every service missing. */
  predicate HidesFailure(e: RebuildError) {
    e.Partial? && e.phase.ManagedSet?
  }

  ghost predicate AllMissing(request: Request, state: PartialState) {
    state.Keys == (set s | s in request.managed) && forall s :: s in state ==> state[s].Missing?
  }

  /** What an error says of the services is what the last look showed, or that it failed. */
  ghost predicate Evidenced(request: Request, calls: seq<Call>, e: RebuildError) {
    RecoveryOf(e, request.generation).Some? ==>
      && (HidesFailure(e) ==> LastSeen(calls) == Some(None) && e.evidence.Inspected? && AllMissing(request, e.evidence.state))
      && (!HidesFailure(e) && e.evidence.Inspected? ==> Seen(request, calls, e.evidence.state))
      && (e.evidence.InspectionFailed? ==> LastSeen(calls) == Some(None))
  }

  /** The same, over the observations of the last look: each service's class says what was observed of it. */
  ghost predicate EvidenceTells(request: Request, calls: seq<Call>, e: RebuildError) {
    RecoveryOf(e, request.generation).Some? && !HidesFailure(e) && e.evidence.Inspected? ==>
      && LastSeen(calls).Some? && LastSeen(calls).value.Some?
      && e.evidence.state.Keys == (set s | s in request.managed)
      && forall s :: s in e.evidence.state ==> ClassMeans(LastSeen(calls).value.value, s, e.evidence.state[s])
  }

  lemma EvidencedTells(request: Request, calls: seq<Call>, e: RebuildError)
    requires Evidenced(request, calls, e)
    ensures EvidenceTells(request, calls, e)
  {
    if RecoveryOf(e, request.generation).Some? && !HidesFailure(e) && e.evidence.Inspected? {
      forall s | s in e.evidence.state
        ensures ClassMeans(LastSeen(calls).value.value, s, e.evidence.state[s])
      {
        ClassifiedMeans(LastSeen(calls).value.value, s);
      }
    }
  }

  /** The answers of the runtime, and whether cancellation is seen after each phase. */
  datatype World = World(
    build: bool, recreate: bool, inspect: Option<seq<Observed>>, again: Option<seq<Observed>>,
    ready: Option<Active>, handoff: bool, commit: bool, orphans: bool, images: bool,
    cancelledEarly: bool, cancelledAfter: RebuildPhase -> bool)

  /** Nothing fails and nothing is cancelled up to the recreation. */
  predicate SmoothStart(request: Request, w: World) {
    && ValidManagedSet(request.managed, request.primary) && !w.cancelledEarly && w.build
    && !w.cancelledAfter(BuildFirst) && w.recreate && !w.cancelledAfter(Recreation)
  }

  /** The inspection shows this set, and readiness answers for its primary. */
  ghost predicate SmoothMiddle(request: Request, w: World, managed: map<Service, ContainerId>) {
    && w.inspect.Some? && ShowsManaged(request, w.inspect.value, managed) && !w.cancelledAfter(ManagedSet)
    && w.ready == Some(Active(request.generation, managed[request.primary])) && !w.cancelledAfter(Readiness)
  }

  predicate SmoothEnd(w: World) {
    w.handoff && !w.cancelledAfter(Forwarding) && w.commit
  }

  /** Nothing fails, mismatches or is cancelled. */
  ghost predicate Smooth(request: Request, w: World) {
    SmoothStart(request, w) && (exists managed :: SmoothMiddle(request, w, managed)) && SmoothEnd(w)
  }

  // ----- Which error says what -----

  /** The first stage failed this way: the request, an early cancellation, the build or a cancellation after it. */
  ghost predicate StartError(request: Request, w: World, e: RebuildError) {
    match e
    case InvariantFailed(phase, cause, _) =>
      phase == BuildFirst && cause == InvalidManagedSet && !ValidManagedSet(request.managed, request.primary)
    case CancelledBeforeRecreation =>
      ValidManagedSet(request.managed, request.primary) && (w.cancelledEarly || (w.build && w.cancelledAfter(BuildFirst)))
    case Build => ValidManagedSet(request.managed, request.primary) && !w.cancelledEarly && !w.build
    case _ => false
  }

  ghost predicate RecreationError(w: World, e: RebuildError) {
    || (e.Partial? && e.phase == Recreation && !w.recreate)
    || (e.Cancelled? && e.phase == Recreation && w.recreate && w.cancelledAfter(Recreation))
  }

  /** Every managed service has one running healthy container. */
  ghost predicate AllHealthy(request: Request, seen: seq<Observed>) {
    forall s :: s in request.managed ==> exists i :: SoleHealthy(seen, s, i)
  }

  /** The primary's only container is the previous generation's. */
  ghost predicate KeptPrimary(request: Request, seen: seq<Observed>) {
    exists i :: SoleHealthy(seen, request.primary, i) && request.previousPrimary == Some(seen[i].container)
  }

  /** Why a look shows no set that may be used. */
  ghost predicate ManagedRefusal(request: Request, seen: seq<Observed>, cause: Invariant) {
    || (cause == InvalidReadiness && !AllHealthy(request, seen))
    || (cause == ReusedPrimary && AllHealthy(request, seen) && KeptPrimary(request, seen))
  }

  ghost predicate SetError(request: Request, w: World, e: RebuildError) {
    || (e.Partial? && e.phase == ManagedSet && w.inspect.None?)
    || (e.InvariantFailed? && e.phase == ManagedSet && w.inspect.Some? && ManagedRefusal(request, w.inspect.value, e.cause))
    || (e.Cancelled? && e.phase == ManagedSet && w.inspect.Some? && w.cancelledAfter(ManagedSet)
        && AllHealthy(request, w.inspect.value) && !KeptPrimary(request, w.inspect.value))
  }

  ghost predicate EndError(w: World, e: RebuildError) {
    || (e.Partial? && e.phase == Forwarding && !w.handoff)
    || (e.Cancelled? && e.phase == Forwarding && w.handoff && w.cancelledAfter(Forwarding))
    || (e.Partial? && e.phase == ActiveCommit && w.handoff && !w.cancelledAfter(Forwarding) && !w.commit)
  }

  /** From readiness on, with the new primary the inspection showed. */
  ghost predicate LateError(request: Request, w: World, primary: ContainerId, e: RebuildError) {
    || (e.Partial? && e.phase == Readiness && w.ready.None?)
    || (e.InvariantFailed? && e.phase == Readiness && e.cause == InvalidReadiness
        && w.ready.Some? && w.ready.value != Active(request.generation, primary))
    || (e.Cancelled? && e.phase == Readiness && w.ready == Some(Active(request.generation, primary))
        && w.cancelledAfter(Readiness))
    || (w.ready == Some(Active(request.generation, primary)) && !w.cancelledAfter(Readiness) && EndError(w, e))
  }

  /** The error names the first thing that went wrong. */
  ghost predicate FirstError(request: Request, w: World, e: RebuildError) {
    || StartError(request, w, e)
    || (ValidManagedSet(request.managed, request.primary) && !w.cancelledEarly && w.build && !w.cancelledAfter(BuildFirst)
        && RecreationError(w, e))
    || (SmoothStart(request, w) && SetError(request, w, e))
    || (SmoothStart(request, w) && w.inspect.Some? && !w.cancelledAfter(ManagedSet)
        && exists managed :: ShowsManaged(request, w.inspect.value, managed)
                             && LateError(request, w, managed[request.primary], e))
  }

  /** An inspection shows at most one set. */
  lemma ShownOnce(request: Request, seen: seq<Observed>, a: map<Service, ContainerId>, b: map<Service, ContainerId>)
    requires ShowsManaged(request, seen, a) && ShowsManaged(request, seen, b)
    ensures a == b
  {
    assert a.Keys == b.Keys;
    forall s | s in a
      ensures a[s] == b[s]
    {
      var i :| SoleHealthy(seen, s, i) && a[s] == seen[i].container;
      var j :| SoleHealthy(seen, s, j) && b[s] == seen[j].container;
      assert i == j;
    }
  }

  method EvidenceOf(request: Request, seen: Option<seq<Observed>>) returns (evidence: Evidence)
    ensures seen.None? ==> evidence.InspectionFailed?
    ensures seen.Some? ==> evidence.Inspected? && Classifies(request, seen.value, evidence.state)
  {
    if seen.None? {
      return InspectionFailed;
    }
    var state := Classify(request.managed, seen.value);
    return Inspected(state);
  }

  /** `evidence`: look again, and report a failed look as such. */
  method Look(request: Request, again: Option<seq<Observed>>, calls: seq<Call>)
    returns (evidence: Evidence, after: seq<Call>)
    requires OrderlyCalls(request, calls)
    ensures OrderlyCalls(request, after) && after == calls + [InspectServices(again)]
    ensures Recreated(after) == Recreated(calls) && Committed(after) == Committed(calls)
    ensures CommitTried(after) == CommitTried(calls)
    ensures evidence.Inspected? <==> again.Some?
    ensures evidence.Inspected? ==> Seen(request, after, evidence.state)
    ensures evidence.InspectionFailed? ==> LastSeen(after) == Some(None)
  {
    evidence := EvidenceOf(request, again);
    Extend(request, calls, InspectServices(again));
    after := calls + [InspectServices(again)];
  }

  method Stopped(request: Request, w: World, phase: RebuildPhase, calls: seq<Call>)
    returns (e: RebuildError, after: seq<Call>)
    requires OrderlyCalls(request, calls) && !CancellationSeen(calls) && !phase.BuildFirst?
    ensures OrderlyCalls(request, after) && Evidenced(request, after, e)
    ensures Recreated(after) == Recreated(calls) && Committed(after) == Committed(calls)
    ensures CommitTried(after) == CommitTried(calls)
    ensures e.Cancelled? && e.phase == phase
  {
    Extend(request, calls, SawCancellation);
    var evidence;
    evidence, after := Look(request, w.again, calls + [SawCancellation]);
    e := Cancelled(phase, evidence);
  }

  /** Nothing was recreated or committed by these calls. */
  ghost predicate Untouched(request: Request, calls: seq<Call>) {
    OrderlyCalls(request, calls) && !Recreated(calls) && !CommitTried(calls) && !Committed(calls)
  }

  /** One more call that neither recreates nor commits. */
  lemma StillUntouched(request: Request, calls: seq<Call>, next: Call)
    requires Untouched(request, calls) && MayFollow(request, calls, next) && !next.ForceRecreate? && !next.CommitActive?
    ensures Untouched(request, calls + [next])
  {
    Extend(request, calls, next);
  }

  /** The checks and the build: the old services are untouched if this stops. */
  method BuildFirstStage(request: Request, w: World) returns (e: Option<RebuildError>, calls: seq<Call>)
    ensures Untouched(request, calls)
    ensures e.Some? ==> RecoveryOf(e.value, request.generation).None? && StartError(request, w, e.value)
    ensures e.None? ==> calls == [BuildComplete(true)]
    ensures e.None? <==> ValidManagedSet(request.managed, request.primary) && !w.cancelledEarly && w.build
                         && !w.cancelledAfter(BuildFirst)
  {
    NothingYet(request);
    calls := [];
    if !ValidManagedSet(request.managed, request.primary) {
      return Some(InvariantFailed(BuildFirst, InvalidManagedSet, Inspected(map[]))), calls;
    }
    if w.cancelledEarly {
      StillUntouched(request, calls, SawCancellation);
      return Some(CancelledBeforeRecreation), calls + [SawCancellation];
    }
    StillUntouched(request, calls, BuildComplete(w.build));
    calls := calls + [BuildComplete(w.build)];
    if !w.build {
      return Some(Build), calls;
    }
    if w.cancelledAfter(BuildFirst) {
      StillUntouched(request, calls, SawCancellation);
      return Some(CancelledBeforeRecreation), calls + [SawCancellation];
    }
    return None, calls;
  }

  /** The force-recreate, after which every error carries evidence. */
  method Recreate(request: Request, w: World, before: seq<Call>) returns (e: Option<RebuildError>, calls: seq<Call>)
    requires Untouched(request, before) && before == [BuildComplete(true)]
    ensures OrderlyCalls(request, calls) && !CommitTried(calls) && !Committed(calls) && Recreated(calls)
    ensures e.Some? ==> RecoveryOf(e.value, request.generation).Some? && Evidenced(request, calls, e.value)
    ensures e.Some? ==> RecreationError(w, e.value)
    ensures e.None? ==> RecreatedAfterBuild(calls) && !CancellationSeen(calls)
    ensures e.None? <==> w.recreate && !w.cancelledAfter(Recreation)
  {
    Extend(request, before, ForceRecreate(w.recreate));
    calls := before + [ForceRecreate(w.recreate)];
    if !w.recreate {
      var evidence, after := Look(request, w.again, calls);
      return Some(Partial(Recreation, evidence)), after;
    }
    AfterRecreate(before);
    if w.cancelledAfter(Recreation) {
      var error, after := Stopped(request, w, Recreation, calls);
      return Some(error), after;
    }
    return None, calls;
  }

  /** Up to the force-recreate: the old services are untouched if this stops before it. */
  method BuildAndRecreate(request: Request, w: World) returns (e: Option<RebuildError>, calls: seq<Call>)
    ensures OrderlyCalls(request, calls) && !CommitTried(calls) && !Committed(calls)
    ensures e.Some? ==> (RecoveryOf(e.value, request.generation).Some? <==> Recreated(calls))
    ensures e.Some? ==> Evidenced(request, calls, e.value) && !HidesFailure(e.value) && FirstError(request, w, e.value)
    ensures e.None? ==> RecreatedAfterBuild(calls) && Recreated(calls) && !CancellationSeen(calls)
    ensures e.None? ==> ValidManagedSet(request.managed, request.primary)
    ensures e.None? <==> SmoothStart(request, w)
  {
    e, calls := BuildFirstStage(request, w);
    if e.None? {
      e, calls := Recreate(request, w, calls);
    }
  }

  lemma HealthyShowsManaged(request: Request, seen: seq<Observed>, state: PartialState)
    requires ValidManagedSet(request.managed, request.primary)
    requires state.Keys == set s | s in request.managed
    requires forall s :: s in state ==> state[s] == Classified(seen, s)
    requires HealthySet(state).Some?
    ensures request.primary in HealthySet(state).value
    ensures request.previousPrimary != Some(HealthySet(state).value[request.primary]) ==>
              ShowsManaged(request, seen, HealthySet(state).value)
  {
    HealthySetIsUniqueRunningHealthy(request.managed, seen, state);
  }

  /** A set the inspection shows is the healthy set. */
  lemma ShownIsHealthy(request: Request, seen: seq<Observed>, state: PartialState, managed: map<Service, ContainerId>)
    requires state.Keys == set s | s in request.managed
    requires forall s :: s in state ==> state[s] == Classified(seen, s)
    requires ShowsManaged(request, seen, managed)
    ensures HealthySet(state).Some? && request.primary in HealthySet(state).value
    ensures HealthySet(state).value[request.primary] == managed[request.primary]
  {
    HealthySetIsUniqueRunningHealthy(request.managed, seen, state);
    assert forall s :: s in request.managed ==> s in managed;
    assert request.primary in request.managed;
  }

  /** Without a healthy set with a new primary, the inspection shows none. */
  lemma NothingShown(request: Request, seen: seq<Observed>, state: PartialState)
    requires state.Keys == set s | s in request.managed
    requires forall s :: s in state ==> state[s] == Classified(seen, s)
    requires HealthySet(state).None?
             || (request.primary in HealthySet(state).value
                 && request.previousPrimary == Some(HealthySet(state).value[request.primary]))
    ensures forall managed :: !ShowsManaged(request, seen, managed)
  {
    forall managed | ShowsManaged(request, seen, managed)
      ensures false
    {
      ShownIsHealthy(request, seen, state, managed);
    }
  }

  /** The healthy set exists exactly when all are healthy, and shows whether the primary was kept. */
  lemma HealthyDecides(request: Request, seen: seq<Observed>, state: PartialState)
    requires request.primary in request.managed
    requires state.Keys == set s | s in request.managed
    requires forall s :: s in state ==> state[s] == Classified(seen, s)
    ensures HealthySet(state).Some? <==> AllHealthy(request, seen)
    ensures HealthySet(state).Some? ==> request.primary in HealthySet(state).value
    ensures HealthySet(state).Some? ==>
              (KeptPrimary(request, seen) <==> request.previousPrimary == Some(HealthySet(state).value[request.primary]))
  {
    HealthySetIsUniqueRunningHealthy(request.managed, seen, state);
    if HealthySet(state).Some? {
      var i :| SoleHealthy(seen, request.primary, i);
      assert HealthySet(state).value[request.primary] == seen[i].container;
    }
  }

  /** The set an inspection shows, or why it shows none. */
  method Managed(request: Request, seen: seq<Observed>)
    returns (r: Result<map<Service, ContainerId>, Invariant>, state: PartialState)
    requires ValidManagedSet(request.managed, request.primary)
    ensures Classifies(request, seen, state)
    ensures r.Ok? ==> ShowsManaged(request, seen, r.value)
    ensures r.Ok? ==> AllHealthy(request, seen) && !KeptPrimary(request, seen)
    ensures r.Err? ==> forall managed :: !ShowsManaged(request, seen, managed)
    ensures r.Err? ==> ManagedRefusal(request, seen, r.error)
  {
    state := Classify(request.managed, seen);
    HealthyDecides(request, seen, state);
    var healthy := HealthySet(state);
    if healthy.None? {
      NothingShown(request, seen, state);
      return Err(InvalidReadiness), state;
    }
    HealthyShowsManaged(request, seen, state);
    if request.previousPrimary == Some(healthy.value[request.primary]) {
      NothingShown(request, seen, state);
      return Err(ReusedPrimary), state;
    }
    return Ok(healthy.value), state;
  }

  /** A look that shows nothing. */
  method NothingSeen(request: Request) returns (state: PartialState)
    ensures AllMissing(request, state)
  {
    state := Classify(request.managed, []);
  }

  /** What a look after the recreation comes to. */
  method Judge(request: Request, before: seq<Call>, seen: seq<Observed>)
    returns (r: Result<(map<Service, ContainerId>, PartialState), RebuildError>)
    requires RecreatedAfterBuild(before) && ValidManagedSet(request.managed, request.primary)
    ensures var calls := before + [InspectServices(Some(seen))];
            && (r.Ok? ==> ShowsManaged(request, seen, r.value.0) && ManagedSetSeen(request, calls, r.value.0))
            && (r.Ok? ==> Seen(request, calls, r.value.1))
            && (r.Err? ==> r.error.InvariantFailed? && r.error.phase.ManagedSet? && r.error.evidence.Inspected?)
            && (r.Err? ==> Seen(request, calls, r.error.evidence.state))
    ensures r.Ok? ==> AllHealthy(request, seen) && !KeptPrimary(request, seen)
    ensures r.Err? ==> forall managed :: !ShowsManaged(request, seen, managed)
    ensures r.Err? ==> ManagedRefusal(request, seen, r.error.cause)
  {
    var shown, state := Managed(request, seen);
    if shown.Err? {
      return Err(InvariantFailed(ManagedSet, shown.error, Inspected(state)));
    }
    AfterInspection(request, before, seen, shown.value);
    return Ok((shown.value, state));
  }

  /** A cancellation right after a set was found, with that look as evidence. */
  method StopAtManagedSet(request: Request, before: seq<Call>, state: PartialState) returns (e: RebuildError, calls: seq<Call>)
    requires OrderlyCalls(request, before) && !CancellationSeen(before) && Seen(request, before, state)
    ensures OrderlyCalls(request, calls) && e.Cancelled? && e.phase.ManagedSet? && Evidenced(request, calls, e)
    ensures Recreated(calls) == Recreated(before) && Committed(calls) == Committed(before)
    ensures CommitTried(calls) == CommitTried(before)
  {
    Extend(request, before, SawCancellation);
    return Cancelled(ManagedSet, Inspected(state)), before + [SawCancellation];
  }

  /** The first look fails: it is reported as all services missing. */
  method LookFails(request: Request, before: seq<Call>) returns (e: RebuildError, calls: seq<Call>)
    requires OrderlyCalls(request, before)
    ensures OrderlyCalls(request, calls) && Evidenced(request, calls, e) && e.Partial? && e.phase == ManagedSet
    ensures Recreated(calls) == Recreated(before) && Committed(calls) == Committed(before)
    ensures CommitTried(calls) == CommitTried(before)
  {
    Extend(request, before, InspectServices(None));
    var nothing := NothingSeen(request);
    return Partial(ManagedSet, Inspected(nothing)), before + [InspectServices(None)];
  }

  /** The first look succeeds: what it shows, unless a cancellation follows. */
  method LookShows(request: Request, w: World, before: seq<Call>, seen: seq<Observed>)
    returns (r: Result<(map<Service, ContainerId>, PartialState), RebuildError>, calls: seq<Call>)
    requires OrderlyCalls(request, before) && RecreatedAfterBuild(before) && !CancellationSeen(before)
    requires ValidManagedSet(request.managed, request.primary) && w.inspect == Some(seen)
    ensures OrderlyCalls(request, calls)
    ensures Recreated(calls) == Recreated(before) && Committed(calls) == Committed(before)
    ensures CommitTried(calls) == CommitTried(before)
    ensures r.Ok? ==> !CancellationSeen(calls) && ManagedSetSeen(request, calls, r.value.0) && Seen(request, calls, r.value.1)
    ensures r.Ok? ==> ShowsManaged(request, seen, r.value.0) && !w.cancelledAfter(ManagedSet)
    ensures r.Err? ==> RecoveryOf(r.error, request.generation).Some? && Evidenced(request, calls, r.error)
    ensures r.Err? ==> SetError(request, w, r.error) && !HidesFailure(r.error)
    ensures r.Err? ==> w.cancelledAfter(ManagedSet) || forall managed :: !ShowsManaged(request, seen, managed)
  {
    Extend(request, before, InspectServices(Some(seen)));
    calls := before + [InspectServices(Some(seen))];
    r := Judge(request, before, seen);
    if r.Ok? && w.cancelledAfter(ManagedSet) {
      var error;
      error, calls := StopAtManagedSet(request, calls, r.value.1);
      r := Err(error);
    }
  }

  /** The complete healthy set of the new generation; a failed inspection is reported as all missing. */
  method FindManagedSet(request: Request, w: World, before: seq<Call>)
    returns (r: Result<(map<Service, ContainerId>, PartialState), RebuildError>, calls: seq<Call>)
    requires OrderlyCalls(request, before) && RecreatedAfterBuild(before) && !CancellationSeen(before)
    requires ValidManagedSet(request.managed, request.primary)
    requires Recreated(before) && !CommitTried(before) && !Committed(before)
    ensures OrderlyCalls(request, calls) && Recreated(calls) && !CommitTried(calls) && !Committed(calls)
    ensures r.Ok? ==> !CancellationSeen(calls) && ManagedSetSeen(request, calls, r.value.0) && request.primary in r.value.0
    ensures r.Ok? ==> Seen(request, calls, r.value.1)
    ensures r.Err? ==> RecoveryOf(r.error, request.generation).Some? && Evidenced(request, calls, r.error)
    ensures r.Err? && HidesFailure(r.error) <==> w.inspect.None?
    ensures r.Err? ==> SetError(request, w, r.error)
    ensures r.Ok? ==> w.inspect.Some? && ShowsManaged(request, w.inspect.value, r.value.0) && !w.cancelledAfter(ManagedSet)
    ensures r.Err? ==>
              w.inspect.None? || w.cancelledAfter(ManagedSet) || forall managed :: !ShowsManaged(request, w.inspect.value, managed)
  {
    if w.inspect.None? {
      var error;
      error, calls := LookFails(request, before);
      return Err(error), calls;
    }
    r, calls := LookShows(request, w, before, w.inspect.value);
  }

  /** The orphans of this set and the unused images were asked to be removed. */
  ghost predicate CleanedUp(w: World, calls: seq<Call>, managed: map<Service, ContainerId>) {
    RemoveOrphans(managed, w.orphans) in calls && CleanImages(w.images) in calls
  }

  /** Cleanup after a commit: a failure is only counted. */
  method CleanUp(request: Request, w: World, before: seq<Call>, managed: map<Service, ContainerId>)
    returns (warnings: nat, calls: seq<Call>)
    requires OrderlyCalls(request, before) && CommittedSet(before, managed) && !CancellationSeen(before)
    ensures OrderlyCalls(request, calls) && before <= calls && CleanedUp(w, calls, managed)
    ensures Recreated(calls) == Recreated(before) && Committed(calls)
    ensures warnings == (if w.orphans then 0 else 1) + (if w.images then 0 else 1)
  {
    CommittedSetIsCommitted(before, managed);
    Extend(request, before, RemoveOrphans(managed, w.orphans));
    calls := before + [RemoveOrphans(managed, w.orphans)];
    Extend(request, calls, CleanImages(w.images));
    calls := calls + [CleanImages(w.images)];
    return (if w.orphans then 0 else 1) + (if w.images then 0 else 1), calls;
  }

  /** The single commit, and warning-only cleanup after it. */
  method CommitAndClean(
    request: Request, w: World, before: seq<Call>, active: Active, managed: map<Service, ContainerId>, state: PartialState)
    returns (r: Result<Outcome, RebuildError>, calls: seq<Call>)
    requires OrderlyCalls(request, before) && CommitEarned(request, before, active, managed) && Seen(request, before, state)
    requires Recreated(before) && !CommitTried(before) && !Committed(before) && !CancellationSeen(before)
    ensures OrderlyCalls(request, calls) && Recreated(calls)
    ensures r.Ok? <==> Committed(calls)
    ensures r.Ok? ==> CommitActive(r.value.active, r.value.managed, true) in calls
    ensures r.Err? ==> RecoveryOf(r.error, request.generation).Some? && Evidenced(request, calls, r.error) && !HidesFailure(r.error)
    ensures r.Err? ==> r.error.Partial? && r.error.phase == ActiveCommit
    ensures r.Ok? <==> w.commit
    ensures r.Ok? ==> r.value == Outcome(active, managed, (if w.orphans then 0 else 1) + (if w.images then 0 else 1))
    ensures r.Ok? ==> CleanedUp(w, calls, managed)
  {
    Extend(request, before, CommitActive(active, managed, w.commit));
    calls := before + [CommitActive(active, managed, w.commit)];
    if !w.commit {
      return Err(Partial(ActiveCommit, Inspected(state))), calls;
    }
    AfterCommit(before, active, managed);
    var warnings;
    warnings, calls := CleanUp(request, w, calls, managed);
    return Ok(Outcome(active, managed, warnings)), calls;
  }

  /** Forwarding handoff, then the commit. */
  method HandOffAndCommit(
    request: Request, w: World, before: seq<Call>, active: Active, managed: map<Service, ContainerId>, state: PartialState)
    returns (r: Result<Outcome, RebuildError>, calls: seq<Call>)
    requires OrderlyCalls(request, before) && Ready(request, before, active, managed) && Seen(request, before, state)
    requires Recreated(before) && !CommitTried(before) && !Committed(before) && !CancellationSeen(before)
    requires request.primary in managed && active == Active(request.generation, managed[request.primary])
    ensures OrderlyCalls(request, calls) && Recreated(calls)
    ensures r.Ok? <==> Committed(calls)
    ensures r.Ok? ==> CommitActive(r.value.active, r.value.managed, true) in calls
    ensures r.Err? ==> RecoveryOf(r.error, request.generation).Some? && Evidenced(request, calls, r.error) && !HidesFailure(r.error)
    ensures r.Err? ==> EndError(w, r.error)
    ensures r.Ok? <==> SmoothEnd(w)
    ensures r.Ok? ==> r.value == Outcome(active, managed, (if w.orphans then 0 else 1) + (if w.images then 0 else 1))
    ensures r.Ok? ==> CleanedUp(w, calls, managed)
  {
    Extend(request, before, HandoffForwarding(active, w.handoff));
    calls := before + [HandoffForwarding(active, w.handoff)];
    if !w.handoff {
      return Err(Partial(Forwarding, Inspected(state))), calls;
    }
    AfterHandoff(request, before, active, managed);
    if w.cancelledAfter(Forwarding) {
      var error, after := Stopped(request, w, Forwarding, calls);
      return Err(error), after;
    }
    r, calls := CommitAndClean(request, w, calls, active, managed, state);
  }

  /** From the managed set on: readiness, its check, handoff and commit. */
  method ReadyAndCommit(
    request: Request, w: World, before: seq<Call>, managed: map<Service, ContainerId>, state: PartialState)
    returns (r: Result<Outcome, RebuildError>, calls: seq<Call>)
    requires OrderlyCalls(request, before) && ManagedSetSeen(request, before, managed) && request.primary in managed
    requires Seen(request, before, state)
    requires Recreated(before) && !CommitTried(before) && !Committed(before) && !CancellationSeen(before)
    ensures OrderlyCalls(request, calls) && Recreated(calls)
    ensures r.Ok? <==> Committed(calls)
    ensures r.Ok? ==> CommitActive(r.value.active, r.value.managed, true) in calls
    ensures r.Err? ==> RecoveryOf(r.error, request.generation).Some? && Evidenced(request, calls, r.error) && !HidesFailure(r.error)
    ensures r.Err? ==> LateError(request, w, managed[request.primary], r.error)
    ensures r.Ok? <==>
              && w.ready == Some(Active(request.generation, managed[request.primary]))
              && !w.cancelledAfter(Readiness) && SmoothEnd(w)
    ensures r.Ok? ==> r.value.managed == managed && w.ready == Some(r.value.active) && CleanedUp(w, calls, managed)
  {
    Extend(request, before, CompleteReadiness(managed, w.ready));
    calls := before + [CompleteReadiness(managed, w.ready)];
    if w.ready.None? {
      return Err(Partial(Readiness, Inspected(state))), calls;
    }
    AfterReadiness(request, before, w.ready.value, managed);
    if w.ready.value != Active(request.generation, managed[request.primary]) {
      return Err(InvariantFailed(Readiness, InvalidReadiness, Inspected(state))), calls;
    }
    if w.cancelledAfter(Readiness) {
      var error, after := Stopped(request, w, Readiness, calls);
      return Err(error), after;
    }
    r, calls := HandOffAndCommit(request, w, calls, w.ready.value, managed, state);
  }

  /** Once the inspection shows a set, the rest decides. */
  lemma SmoothFromHere(request: Request, w: World, managed: map<Service, ContainerId>)
    requires SmoothStart(request, w) && !w.cancelledAfter(ManagedSet)
    requires w.inspect.Some? && ShowsManaged(request, w.inspect.value, managed)
    ensures Smooth(request, w) <==>
              && w.ready == Some(Active(request.generation, managed[request.primary]))
              && !w.cancelledAfter(Readiness) && SmoothEnd(w)
    ensures Smooth(request, w) ==> SmoothMiddle(request, w, managed)
  {
    if Smooth(request, w) {
      var other :| SmoothMiddle(request, w, other);
      ShownOnce(request, w.inspect.value, other, managed);
    } else {
      assert !SmoothMiddle(request, w, managed) || !SmoothEnd(w);
    }
  }

  /**
   `rebuild`, for every answer the runtime may give and every moment of cancellation. Its calls
   are orderly, it succeeds exactly when the commit did, which is exactly when nothing fails, is
   cancelled or mismatches, and an error carries recovery evidence exactly when the project was
   recreated. The evidence is what the last look showed; a failed look is said to have failed except
   exactly when it is the first one, which is reported as all services missing. The error names the
   first thing that went wrong.
   */
  method Rebuild(request: Request, w: World) returns (r: Result<Outcome, RebuildError>, calls: seq<Call>)
    ensures OrderlyCalls(request, calls)
    ensures r.Ok? <==> Committed(calls)
    ensures r.Ok? ==> CommitActive(r.value.active, r.value.managed, true) in calls
    ensures r.Err? ==> (RecoveryOf(r.error, request.generation).Some? <==> Recreated(calls)) && Evidenced(request, calls, r.error)
    ensures r.Err? && HidesFailure(r.error) <==> SmoothStart(request, w) && w.inspect.None?
    ensures r.Err? ==> FirstError(request, w, r.error) && EvidenceTells(request, calls, r.error)
    ensures r.Ok? <==> Smooth(request, w)
    ensures r.Ok? ==> SmoothMiddle(request, w, r.value.managed) && w.ready == Some(r.value.active)
    ensures r.Ok? ==> CleanedUp(w, calls, r.value.managed)
  {
    var stopped;
    stopped, calls := BuildAndRecreate(request, w);
    if stopped.Some? {
      EvidencedTells(request, calls, stopped.value);
      return Err(stopped.value), calls;
    }
    var found;
    found, calls := FindManagedSet(request, w, calls);
    if found.Err? {
      EvidencedTells(request, calls, found.error);
      return Err(found.error), calls;
    }
    SmoothFromHere(request, w, found.value.0);
    r, calls := ReadyAndCommit(request, w, calls, found.value.0, found.value.1);
    if r.Err? {
      EvidencedTells(request, calls, r.error);
    }
  }
}
