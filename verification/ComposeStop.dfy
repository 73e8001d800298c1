/** Stopping the persisted Compose set, and stopping it again. */
module ComposeStop {
  import opened Wrappers
  import opened Grouping
  import opened ComposeLifecycle

  /** Every inspection in the history verified its container. */
  ghost predicate InspectionsVerified(recorded: Recorded, calls: seq<Call>) {
    forall k :: 0 <= k < |calls| && calls[k].Inspect? ==>
      VerifiedAt(recorded, calls[k], calls[k].service, calls[k].id)
  }

  /** The container was inspected as this service and passed. */
  ghost predicate Passed(recorded: Recorded, calls: seq<Call>, s: Service, id: ContainerId) {
    exists k :: 0 <= k < |calls| && VerifiedAt(recorded, calls[k], s, id)
  }

  ghost predicate AllPassed(recorded: Recorded, calls: seq<Call>, services: seq<Service>, managed: map<Service, ContainerId>) {
    forall s :: s in services ==> s in managed && Passed(recorded, calls, s, managed[s])
  }

  lemma PassedGrows(
    recorded: Recorded, calls: seq<Call>, next: Call, services: seq<Service>, managed: map<Service, ContainerId>)
    requires AllPassed(recorded, calls, services, managed)
    ensures AllPassed(recorded, calls + [next], services, managed)
  {
    var longer := calls + [next];
    forall s | s in services
      ensures Passed(recorded, longer, s, managed[s])
    {
      var k :| 0 <= k < |calls| && VerifiedAt(recorded, calls[k], s, managed[s]);
      assert longer[k] == calls[k];
    }
  }

  ghost predicate StopCalled(calls: seq<Call>) {
    exists k :: 0 <= k < |calls| && calls[k].StopServices?
  }

  /** What the inspection loop keeps: the first `i` services passed, and only inspections were added. */
  ghost predicate Inspecting(
    recorded: Recorded, w: World, managed: map<Service, ContainerId>, before: seq<Call>, calls: seq<Call>, i: nat)
    requires i <= |recorded.managed|
  {
    && before <= calls && (forall k :: |before| <= k < |calls| ==> calls[k].Inspect?)
    && InspectionsVerified(recorded, calls) && Truthful(w, calls)
    && AllPassed(recorded, calls, recorded.managed[..i], managed)
    && forall s :: s in recorded.managed[..i] ==> exists t :: VerifiesAt(recorded, w, t, managed[s], s)
  }

  lemma InspectingStep(
    recorded: Recorded, w: World, managed: map<Service, ContainerId>, before: seq<Call>, calls: seq<Call>, i: nat)
    requires i < |recorded.managed| && recorded.managed[i] in managed
    requires Inspecting(recorded, w, managed, before, calls, i)
    requires VerifiesAt(recorded, w, |calls|, managed[recorded.managed[i]], recorded.managed[i])
    ensures var s := recorded.managed[i];
            var next := Inspect(s, managed[s], w.inspect(|calls|, managed[s]));
            Inspecting(recorded, w, managed, before, calls + [next], i + 1)
  {
    var s := recorded.managed[i];
    var next := Inspect(s, managed[s], w.inspect(|calls|, managed[s]));
    var longer := calls + [next];
    assert longer[|calls|] == next && forall k :: 0 <= k < |calls| ==> longer[k] == calls[k];
    PassedGrows(recorded, calls, next, recorded.managed[..i], managed);
    assert VerifiedAt(recorded, longer[|calls|], s, managed[s]);
    assert recorded.managed[..i + 1] == recorded.managed[..i] + [s];
  }

  /** The inspection loop shared by `down` and `verify_recorded_set`. */
  method VerifyAll(recorded: Recorded, w: World, managed: map<Service, ContainerId>, before: seq<Call>)
    returns (failure: Option<Failure>, calls: seq<Call>)
    requires forall s :: s in recorded.managed ==> s in managed
    requires InspectionsVerified(recorded, before) && Truthful(w, before)
    ensures before <= calls && (forall k :: |before| <= k < |calls| ==> calls[k].Inspect?) && Truthful(w, calls)
    ensures failure.None? ==> InspectionsVerified(recorded, calls) && AllPassed(recorded, calls, recorded.managed, managed)
    ensures failure.Some? ==> (failure.value.Engine? || failure.value.ServiceMismatch?) && Blamed(recorded, calls, failure.value)
    ensures failure.Some? ==> exists s, t :: s in recorded.managed && !VerifiesAt(recorded, w, t, managed[s], s)
    ensures failure.None? ==> forall s :: s in recorded.managed ==> exists t :: VerifiesAt(recorded, w, t, managed[s], s)
  {
    calls := before;
    for i := 0 to |recorded.managed|
      invariant Inspecting(recorded, w, managed, before, calls, i)
    {
      var service := recorded.managed[i];
      var container := managed[service];
      var seen := w.inspect(|calls|, container);
      var next := Inspect(service, container, seen);
      if seen.None? {
        assert !VerifiesAt(recorded, w, |calls|, container, service);
        return Some(Engine), calls + [next];
      }
      VerifiedMeans(recorded, seen.value, container, service);
      if !Verified(recorded, seen.value, container, service) {
        assert !VerifiesAt(recorded, w, |calls|, container, service);
        return Some(ServiceMismatch(service)), calls + [next];
      }
      InspectingStep(recorded, w, managed, before, calls, i);
      calls := calls + [next];
    }
    assert recorded.managed[..|recorded.managed|] == recorded.managed;
    return None, calls;
  }

  /** What must precede a Compose stop: an intact set with each of its containers verified, and no stop. */
  ghost predicate StopAllowed(recorded: Recorded, calls: seq<Call>) {
    && |calls| > 1 && calls[1].Discover? && calls[1].found.Some? && Intact(recorded, calls[1].found.value)
    && InspectionsVerified(recorded, calls) && !StopCalled(calls)
    && forall s :: s in recorded.managed ==>
         Passed(recorded, calls, s, Matches(recorded, calls[1].found.value, s)[0].id)
  }

  ghost predicate SafeStops(recorded: Recorded, calls: seq<Call>) {
    forall k :: 0 <= k < |calls| && calls[k].StopServices? ==> StopAllowed(recorded, calls[..k])
  }

  lemma SafeStopsGrow(recorded: Recorded, calls: seq<Call>, next: Call)
    requires SafeStops(recorded, calls) && (next.StopServices? ==> StopAllowed(recorded, calls))
    ensures SafeStops(recorded, calls + [next])
    ensures StopCalled(calls + [next]) <==> StopCalled(calls) || next.StopServices?
    ensures InspectionsVerified(recorded, calls) && !next.Inspect? ==> InspectionsVerified(recorded, calls + [next])
  {
    var longer := calls + [next];
    assert longer[|calls|] == next;
    assert forall k :: 0 <= k < |calls| ==> longer[k] == calls[k];
    forall k | 0 <= k < |longer| && longer[k].StopServices? ensures StopAllowed(recorded, longer[..k]) {
      assert longer[..k] == if k < |calls| then calls[..k] else calls;
    }
  }

  /** Before a stop, every persisted service's container was inspected and found to be the one recorded. */
  lemma StopsAreOfTheRecord(recorded: Recorded, calls: seq<Call>, k: nat, s: Service) returns (j: nat)
    requires SafeStops(recorded, calls) && k < |calls| && calls[k].StopServices? && s in recorded.managed
    ensures j < k && calls[j].Inspect? && calls[j].service == s && calls[j].seen.Some?
    ensures IsRecorded(recorded, calls[j].seen.value, calls[j].id, s)
    ensures 1 < k && calls[1].Discover? && calls[1].found.Some? && |Matches(recorded, calls[1].found.value, s)| == 1
    ensures calls[j].id == Matches(recorded, calls[1].found.value, s)[0].id
  {
    var before := calls[..k];
    assert StopAllowed(recorded, before);
    var id := Matches(recorded, before[1].found.value, s)[0].id;
    assert Passed(recorded, before, s, id);
    j :| 0 <= j < |before| && VerifiedAt(recorded, before[j], s, id);
    VerifiedMeans(recorded, before[j].seen.value, id, s);
  }

  /** The last listing showed the complete set stopped, and the facts describe it. */
  ghost predicate EndsStopped(recorded: Recorded, calls: seq<Call>, facts: Facts) {
    exists k :: 0 <= k < |calls| && calls[k].Discover? && calls[k].found.Some?
      && (forall j :: k < j < |calls| ==> calls[j].Inspect?)
      && AllStopped(recorded, calls[k].found.value) && Maps(recorded, calls[k].found.value, facts.managed)
      && facts.primary == recorded.primary
  }

  /** Nothing is cancelled, the listed set verifies whenever inspected, and after a stop it is found stopped. */
  ghost predicate Stoppable(recorded: Recorded, w: World) {
    && (forall t :: !w.cancelled(t)) && (forall t :: w.stop(t))
    && w.discover(1).Some? && Intact(recorded, w.discover(1).value)
    && (forall s, t :: s in recorded.managed ==>
          VerifiesAt(recorded, w, t, Matches(recorded, w.discover(1).value, s)[0].id, s))
    && forall t :: t > 1 ==> w.discover(t).Some? && AllStopped(recorded, w.discover(t).value)
  }

  /**
   No listing and no stop was made after a look that saw a request to cancel; here the request is
   looked for at moment `k` while `k` calls have been made, and inspections have no look of their own.
   */
  ghost predicate Looked(w: World, calls: seq<Call>) {
    forall k :: 0 <= k < |calls| && !calls[k].Inspect? ==> !w.cancelled(k)
  }

  /** So once a standing request is made, nothing is listed or stopped any more. */
  lemma NothingStopsAfterACancellation(w: World, calls: seq<Call>, t: nat)
    requires Looked(w, calls) && Standing(w) && w.cancelled(t)
    ensures forall k :: t <= k < |calls| ==> calls[k].Inspect?
  {
  }

  /** How a stop may fail, and what the failure says. */
  ghost predicate StopFailure(recorded: Recorded, w: World, calls: seq<Call>, failure: Failure) {
    && !failure.InvalidManagedSet?
    && (failure.Cancelled? ==> w.cancelled(|calls|) && failure.completed == [])
    && (failure.UnsafeServiceSet? ==> Refused(recorded, calls, failure.state))
    && Blamed(recorded, calls, failure)
  }

  lemma EndsHere(recorded: Recorded, calls: seq<Call>, found: seq<Discovered>, state: SetState, facts: Facts)
    requires Means(recorded, found, state) && state.CompleteStopped?
    requires Maps(recorded, found, facts.managed) && facts.primary == recorded.primary
    ensures EndsStopped(recorded, calls + [Discover(Some(found))], facts)
  {
    assert (calls + [Discover(Some(found))])[|calls|] == Discover(Some(found));
  }

  /** What every history of a stop keeps. */
  ghost predicate StopHistory(recorded: Recorded, w: World, calls: seq<Call>) {
    SafeStops(recorded, calls) && Truthful(w, calls) && Looked(w, calls)
  }

  /** One more listing or stop, made after a look that saw no request to cancel. */
  lemma StopHistoryGrows(recorded: Recorded, w: World, calls: seq<Call>, next: Call)
    requires StopHistory(recorded, w, calls) && !next.Inspect? && Answered(w, next) && !w.cancelled(|calls|)
    requires next.StopServices? ==> StopAllowed(recorded, calls)
    ensures StopHistory(recorded, w, calls + [next])
    ensures StopCalled(calls + [next]) <==> StopCalled(calls) || next.StopServices?
    ensures InspectionsVerified(recorded, calls) ==> InspectionsVerified(recorded, calls + [next])
  {
    SafeStopsGrow(recorded, calls, next);
    TruthGrows(w, calls, next);
    assert forall k :: 0 <= k < |calls| ==> (calls + [next])[k] == calls[k];
  }

  /** The rediscovery that confirms a stop. */
  method ListAgain(recorded: Recorded, w: World, before: seq<Call>)
    returns (r: Result<Facts, Failure>, calls: seq<Call>)
    requires StopHistory(recorded, w, before) && InspectionsVerified(recorded, before) && !w.cancelled(|before|)
    ensures calls == before + [Discover(w.discover(|before|))] && StopHistory(recorded, w, calls)
    ensures StopCalled(calls) <==> StopCalled(before)
    ensures r.Ok? ==> EndsStopped(recorded, calls, r.value) && InspectionsVerified(recorded, calls)
    ensures r.Err? ==> r.error.Engine? || (r.error.UnsafeServiceSet? && Refused(recorded, calls, r.error.state))
    ensures r.Err? ==> Blamed(recorded, calls, r.error)
    ensures recorded.managed != [] && w.discover(|before|).Some? && AllStopped(recorded, w.discover(|before|).value) ==> r.Ok?
  {
    var after := w.discover(|before|);
    StopHistoryGrows(recorded, w, before, Discover(after));
    calls := before + [Discover(after)];
    if after.None? {
      return Err(Engine), calls;
    }
    var state, managed := Resolve(recorded, after.value);
    if !state.CompleteStopped? {
      return Err(UnsafeServiceSet(state)), calls;
    }
    EndsHere(recorded, before, after.value, state, Facts(recorded.primary, managed));
    return Ok(Facts(recorded.primary, managed)), calls;
  }

  /** The Compose stop and the rediscovery that confirms it. */
  method StopAndConfirm(recorded: Recorded, w: World, before: seq<Call>)
    returns (r: Result<Facts, Failure>, calls: seq<Call>)
    requires StopAllowed(recorded, before) && StopHistory(recorded, w, before) && !w.cancelled(|before|)
    ensures before <= calls && StopHistory(recorded, w, calls)
    ensures r.Ok? ==> StopCalled(calls) && EndsStopped(recorded, calls, r.value) && InspectionsVerified(recorded, calls)
    ensures r.Err? ==> StopFailure(recorded, w, calls, r.error)
    ensures Stoppable(recorded, w) && recorded.managed != [] ==> r.Ok?
  {
    var stop := StopServices(w.stop(|before|));
    StopHistoryGrows(recorded, w, before, stop);
    calls := before + [stop];
    if !stop.ok {
      return Err(Engine), calls;
    }
    if w.cancelled(|calls|) {
      return Err(Cancelled([])), calls;
    }
    r, calls := ListAgain(recorded, w, calls);
  }

  lemma ReadyToStop(recorded: Recorded, managed: map<Service, ContainerId>, calls: seq<Call>)
    requires |calls| > 1 && calls[1].Discover? && calls[1].found.Some?
    requires Intact(recorded, calls[1].found.value) && Maps(recorded, calls[1].found.value, managed)
    requires InspectionsVerified(recorded, calls) && AllPassed(recorded, calls, recorded.managed, managed)
    requires forall k :: 0 <= k < |calls| ==> !calls[k].StopServices?
    ensures StopAllowed(recorded, calls)
  {
  }

  lemma TwoListings(recorded: Recorded, w: World, first: Option<seq<Discovered>>, second: Option<seq<Discovered>>)
    requires first == w.discover(0) && second == w.discover(1) && !w.cancelled(0)
    ensures StopHistory(recorded, w, [Discover(first)])
    ensures !w.cancelled(1) ==> StopHistory(recorded, w, [Discover(first), Discover(second)])
  {
    if !w.cancelled(1) {
      StopHistoryGrows(recorded, w, [Discover(first)], Discover(second));
      assert [Discover(first)] + [Discover(second)] == [Discover(first), Discover(second)];
    }
  }

  /** `down` once the listed set is known to be intact. */
  method VerifyThenStop(
    recorded: Recorded, w: World, first: Option<seq<Discovered>>, found: seq<Discovered>, managed: map<Service, ContainerId>)
    returns (r: Result<Facts, Failure>, calls: seq<Call>)
    requires Intact(recorded, found) && Maps(recorded, found, managed)
    requires first == w.discover(0) && w.discover(1) == Some(found) && !w.cancelled(0) && !w.cancelled(1)
    ensures calls != [] && calls[0] == Discover(first) && StopHistory(recorded, w, calls)
    ensures r.Ok? ==> StopCalled(calls) && EndsStopped(recorded, calls, r.value) && InspectionsVerified(recorded, calls)
    ensures r.Err? ==> StopFailure(recorded, w, calls, r.error)
    ensures Stoppable(recorded, w) && recorded.managed != [] ==> r.Ok?
  {
    var before := [Discover(first), Discover(Some(found))];
    TwoListings(recorded, w, first, Some(found));
    var failure;
    failure, calls := VerifyAll(recorded, w, managed, before);
    assert calls[0] == before[0] && calls[1] == before[1];
    assert Stoppable(recorded, w) ==>
        forall s, t :: s in recorded.managed ==> VerifiesAt(recorded, w, t, managed[s], s);
    if failure.Some? {
      return Err(failure.value), calls;
    }
    if w.cancelled(|calls|) {
      return Err(Cancelled([])), calls;
    }
    ReadyToStop(recorded, managed, calls);
    r, calls := StopAndConfirm(recorded, w, calls);
  }

  /** The stop itself: `down` from its own discovery to the post-stop listing. */
  method Down(recorded: Recorded, w: World, first: Option<seq<Discovered>>)
    returns (r: Result<Facts, Failure>, calls: seq<Call>)
    requires ValidManagedSet(recorded.managed, recorded.primaryService) && first == w.discover(0) && !w.cancelled(0)
    ensures calls != [] && calls[0] == Discover(first) && StopHistory(recorded, w, calls)
    ensures r.Ok? ==> StopCalled(calls) && EndsStopped(recorded, calls, r.value) && InspectionsVerified(recorded, calls)
    ensures r.Err? ==> StopFailure(recorded, w, calls, r.error)
    ensures Stoppable(recorded, w) ==> r.Ok?
  {
    TwoListings(recorded, w, first, w.discover(1));
    if w.cancelled(1) {
      return Err(Cancelled([])), [Discover(first)];
    }
    var found := w.discover(1);
    calls := [Discover(first), Discover(found)];
    if found.None? {
      return Err(Engine), calls;
    }
    var state, managed := Resolve(recorded, found.value);
    if state.Unsafe() {
      return Err(UnsafeServiceSet(state)), calls;
    }
    r, calls := VerifyThenStop(recorded, w, first, found.value, managed);
  }

  /** Nothing changes, fails or is cancelled any more. */
  ghost predicate Frozen(w: World) {
    && w.discover(0).Some? && (forall t :: w.discover(t) == w.discover(0)) && (forall t :: !w.cancelled(t))
    && (forall t, id :: w.inspect(t, id) == w.inspect(0, id))
  }

  /** Every container of the listed set passes verification when inspected at time 0. */
  ghost predicate VerifiesAll(recorded: Recorded, w: World, d: seq<Discovered>)
    requires AllUnique(recorded, d)
  {
    forall s :: s in recorded.managed ==> VerifiesAt(recorded, w, 0, Matches(recorded, d, s)[0].id, s)
  }

  /** The already-stopped branch: verified without invoking Compose. */
  method ConfirmStopped(recorded: Recorded, w: World, found: seq<Discovered>, managed: map<Service, ContainerId>)
    returns (r: Result<StopOutcome, Failure>, calls: seq<Call>)
    requires AllStopped(recorded, found) && Maps(recorded, found, managed) && w.discover(0) == Some(found) && !w.cancelled(0)
    ensures calls != [] && calls[0] == Discover(Some(found)) && !StopCalled(calls) && SafeStops(recorded, calls)
    ensures Truthful(w, calls) && Looked(w, calls)
    ensures r.Ok? ==> r.value.AlreadyStopped? && EndsStopped(recorded, calls, r.value.facts) && InspectionsVerified(recorded, calls)
    ensures r.Ok? ==> AllPassed(recorded, calls, recorded.managed, r.value.facts.managed)
    ensures r.Err? ==> StopFailure(recorded, w, calls, r.error)
    ensures Frozen(w) ==> (r.Ok? <==> VerifiesAll(recorded, w, found))
  {
    calls := [Discover(Some(found))];
    var failure;
    failure, calls := VerifyAll(recorded, w, managed, calls);
    assert calls[0] == Discover(Some(found));
    if failure.Some? {
      return Err(failure.value), calls;
    }
    return Ok(AlreadyStopped(Facts(recorded.primary, managed))), calls;
  }

  /**
   `stop_recorded`. A refusal reports what the last listing shows, and nothing is listed or stopped
   after a request to cancel was seen. In a frozen world a missing set is reported missing, and a
   stopped set is reported already stopped exactly when its containers verify.
   */
  method StopRecorded(recorded: Recorded, stopMatches: bool, w: World)
    returns (r: Result<StopOutcome, Failure>, calls: seq<Call>)
    ensures SafeStops(recorded, calls) && Truthful(w, calls) && Looked(w, calls)
    ensures r.Err? && !r.error.InvalidManagedSet? ==> StopFailure(recorded, w, calls, r.error)
    ensures r.Err? && r.error.InvalidManagedSet?
            <==> !ValidManagedSet(recorded.managed, recorded.primaryService) || !stopMatches
    ensures r.Ok? && !r.value.AllMissing? ==> EndsStopped(recorded, calls, r.value.facts) && InspectionsVerified(recorded, calls)
    ensures r.Ok? && r.value.AlreadyStopped? ==> AllPassed(recorded, calls, recorded.managed, r.value.facts.managed)
    ensures r.Ok? && r.value.AllMissing? ==>
              && |calls| == 1 && calls[0].Discover? && calls[0].found.Some? && NoneFound(recorded, calls[0].found.value)
    ensures r.Ok? ==> (StopCalled(calls) <==> r.value.Stopped?)
    ensures Frozen(w) && ValidManagedSet(recorded.managed, recorded.primaryService) && stopMatches ==>
              && (NoneFound(recorded, w.discover(0).value) ==> r == Ok(AllMissing))
              && (AllStopped(recorded, w.discover(0).value) ==>
                    && (r.Ok? <==> VerifiesAll(recorded, w, w.discover(0).value))
                    && (r.Ok? ==> r.value.AlreadyStopped?))
    ensures ValidManagedSet(recorded.managed, recorded.primaryService) && stopMatches && Stoppable(recorded, w)
            && w.discover(0).Some? && Intact(recorded, w.discover(0).value) && !AllStopped(recorded, w.discover(0).value) ==>
              r.Ok? && r.value.Stopped?
  {
    calls := [];
    if !ValidManagedSet(recorded.managed, recorded.primaryService) || !stopMatches {
      return Err(InvalidManagedSet), calls;
    }
    if w.cancelled(0) {
      return Err(Cancelled([])), calls;
    }
    var found := w.discover(0);
    calls := [Discover(found)];
    if found.None? {
      return Err(Engine), calls;
    }
    var state, managed := Resolve(recorded, found.value);
    assert recorded.primaryService in recorded.managed;
    if state.CompletelyMissing(|recorded.managed|) {
      return Ok(AllMissing), calls;
    }
    if state.CompleteStopped? {
      r, calls := ConfirmStopped(recorded, w, found.value, managed);
      return;
    }
    if state.Unsafe() {
      return Err(UnsafeServiceSet(state)), calls;
    }
    var down;
    down, calls := Down(recorded, w, found);
    return if down.Ok? then Ok(Stopped(down.value)) else Err(down.error), calls;
  }

  // ----- Stopping again -----

  ghost predicate ListedRunning(d: seq<Discovered>, id: ContainerId) {
    exists i :: 0 <= i < |d| && d[i].id == id && d[i].running
  }

  ghost predicate IsLastListing(calls: seq<Call>, k: nat) {
    k < |calls| && calls[k].Discover? && forall j :: k < j < |calls| ==> !calls[j].Discover?
  }

  /**
   Nothing changed since: the world lists what was listed last, and every container that was
   inspected answers as it did, running as that listing says.
   */
  ghost predicate Continues(calls: seq<Call>, w: World) {
    forall k: nat :: IsLastListing(calls, k) ==>
      && w.discover(0) == calls[k].found
      && (calls[k].found.Some? ==>
            forall j :: 0 <= j < |calls| && calls[j].Inspect? && calls[j].seen.Some? ==>
              w.inspect(0, calls[j].id) == Some(calls[j].seen.value.(running := ListedRunning(calls[k].found.value, calls[j].id))))
  }

  /** A container that passed before and is unchanged passes again. */
  lemma UnchangedStillVerifies(recorded: Recorded, calls: seq<Call>, w: World, s: Service, id: ContainerId, k: nat)
    requires Continues(calls, w) && IsLastListing(calls, k) && calls[k].found.Some? && Passed(recorded, calls, s, id)
    ensures VerifiesAt(recorded, w, 0, id, s)
  {
    var j :| 0 <= j < |calls| && VerifiedAt(recorded, calls[j], s, id);
    assert w.inspect(0, calls[j].id).Some?;
  }

  /** What the first stop listed last is what the second lists first. */
  lemma ListedAgain(recorded: Recorded, calls: seq<Call>, facts: Facts, later: World) returns (k: nat)
    requires EndsStopped(recorded, calls, facts) && Continues(calls, later)
    ensures IsLastListing(calls, k) && calls[k].found.Some? && later.discover(0) == calls[k].found
    ensures AllStopped(recorded, later.discover(0).value) && Maps(recorded, later.discover(0).value, facts.managed)
  {
    k :| 0 <= k < |calls| && calls[k].Discover? && calls[k].found.Some?
         && (forall j :: k < j < |calls| ==> calls[j].Inspect?)
         && AllStopped(recorded, calls[k].found.value) && Maps(recorded, calls[k].found.value, facts.managed);
    assert IsLastListing(calls, k);
  }

  /** Every listed container that was not seen to pass before the stop passes now. */
  ghost predicate NewcomersVerify(recorded: Recorded, calls: seq<Call>, w: World, managed: map<Service, ContainerId>) {
    forall s :: s in recorded.managed && s in managed && !Passed(recorded, calls, s, managed[s]) ==>
      VerifiesAt(recorded, w, 0, managed[s], s)
  }

  /** Then the whole set verifies, and only then. */
  lemma NewcomersDecide(recorded: Recorded, calls: seq<Call>, facts: Facts, later: World)
    requires EndsStopped(recorded, calls, facts) && Continues(calls, later)
    ensures later.discover(0).Some? && AllStopped(recorded, later.discover(0).value)
    ensures VerifiesAll(recorded, later, later.discover(0).value) <==> NewcomersVerify(recorded, calls, later, facts.managed)
  {
    var k := ListedAgain(recorded, calls, facts, later);
    var d := later.discover(0).value;
    forall s | s in recorded.managed
      ensures s in facts.managed && facts.managed[s] == Matches(recorded, d, s)[0].id
      ensures Passed(recorded, calls, s, facts.managed[s]) ==> VerifiesAt(recorded, later, 0, facts.managed[s], s)
    {
      if Passed(recorded, calls, s, facts.managed[s]) {
        UnchangedStillVerifies(recorded, calls, later, s, facts.managed[s], k);
      }
    }
  }

  /** In a frozen world the same facts come back. */
  lemma SameFacts(recorded: Recorded, later: World, again: seq<Call>, f: Facts, g: Facts)
    requires Frozen(later) && Truthful(later, again) && EndsStopped(recorded, again, g)
    requires Maps(recorded, later.discover(0).value, f.managed) && f.primary == recorded.primary
    ensures f == g
  {
    var k :| 0 <= k < |again| && again[k].Discover? && again[k].found.Some?
             && Maps(recorded, again[k].found.value, g.managed) && g.primary == recorded.primary;
    assert Answered(later, again[k]);
    assert f.managed.Keys == g.managed.Keys;
    assert f.managed == g.managed;
  }

  /** The promise for a second stop with nothing changed since the first. */
  ghost predicate StaysStopped(
    recorded: Recorded, first: StopOutcome, calls: seq<Call>, later: World, second: Result<StopOutcome, Failure>)
  {
    match first
    case AllMissing => second == Ok(AllMissing)
    case AlreadyStopped(facts) => second == Ok(AlreadyStopped(facts))
    case Stopped(facts) =>
      && (second.Ok? <==> NewcomersVerify(recorded, calls, later, facts.managed))
      && (second.Ok? ==> second.value == AlreadyStopped(facts))
  }

  /**
   Stopping again with nothing changed. After "already stopped" or "missing" the answer is the same;
   after a stop it is "already stopped" exactly when every service whose container differs from the
   one verified before the stop verifies, so always when none differs.
   */
  method StopTwice(recorded: Recorded, w: World, later: World)
    returns (first: Result<StopOutcome, Failure>, second: Result<StopOutcome, Failure>, calls: seq<Call>)
    ensures Truthful(w, calls) && SafeStops(recorded, calls)
    ensures first.Ok? && !first.value.AllMissing? ==> EndsStopped(recorded, calls, first.value.facts)
    ensures first.Ok? && Frozen(later) && Continues(calls, later) ==>
              StaysStopped(recorded, first.value, calls, later, second)
    ensures ValidManagedSet(recorded.managed, recorded.primaryService) && Stoppable(recorded, w)
            && w.discover(0).Some? && Intact(recorded, w.discover(0).value) && !AllStopped(recorded, w.discover(0).value) ==>
              first.Ok? && first.value.Stopped?
  {
    first, calls := StopRecorded(recorded, true, w);
    var again;
    second, again := StopRecorded(recorded, true, later);
    if first.Ok? && Continues(calls, later) {
      if first.value.AllMissing? {
        assert IsLastListing(calls, 0);
      } else {
        NewcomersDecide(recorded, calls, first.value.facts, later);
        if Frozen(later) && second.Ok? {
          var k := ListedAgain(recorded, calls, first.value.facts, later);
          SameFacts(recorded, later, again, first.value.facts, second.value.facts);
        }
      }
    }
  }

  // ----- A second stop that fails -----

  /** What `discover` asks the engine for: the installation, workspace and generation labels, not the profile. */
  ghost predicate Filtered(recorded: Recorded, d: seq<Discovered>) {
    forall i :: 0 <= i < |d| ==>
      && Label(d[i].labels, INSTALLATION_LABEL) == Some(recorded.identity.installation)
      && Label(d[i].labels, WORKSPACE_LABEL) == Some(recorded.identity.workspace)
      && Label(d[i].labels, GENERATION_LABEL) == Some(recorded.identity.generation)
  }

  function LabelsOf(service: Service, profile: string): (labels: Labels)
    ensures labels.Keys == {INSTALLATION_LABEL, WORKSPACE_LABEL, GENERATION_LABEL, PROFILE_LABEL, PROJECT_LABEL, SERVICE_LABEL}
    ensures labels[INSTALLATION_LABEL] == "i" && labels[WORKSPACE_LABEL] == "w" && labels[GENERATION_LABEL] == "1"
    ensures labels[PROFILE_LABEL] == profile && labels[PROJECT_LABEL] == "p" && labels[SERVICE_LABEL] == service
  {
    assert PROJECT_LABEL[19] == 'p' && SERVICE_LABEL[19] == 's';
    map[INSTALLATION_LABEL := "i", WORKSPACE_LABEL := "w", GENERATION_LABEL := "1",
        PROFILE_LABEL := profile, PROJECT_LABEL := "p", SERVICE_LABEL := service]
  }

  const PAIR := Recorded(Identity("i", "w", "1", "dev"), "p", "app", 7, ["app", "db"])

  /** Container 7 is the primary service's; the other one is given. */
  function Pair(other: ContainerId, profile: string, running: bool): seq<Discovered> {
    [Discovered(7, LabelsOf("app", "dev"), running), Discovered(other, LabelsOf("db", profile), running)]
  }

  lemma PairMatches(other: ContainerId, profile: string, running: bool)
    ensures var d := Pair(other, profile, running);
            && Matches(PAIR, d, "app") == [d[0]] && Matches(PAIR, d, "db") == [d[1]]
            && Intact(PAIR, d) && Filtered(PAIR, d)
            && (if running then !AllStopped(PAIR, d) else AllStopped(PAIR, d))
  {
    var d, name := Pair(other, profile, running), ServiceOf("p");
    assert name(d[0]) == Some("app") && name(d[1]) == Some("db");
    assert d[..1][..0] == [] && d[..1][0] == d[0] && d[..2][..1] == d[..1];
    assert Under(d[..0], name, "app") == [] && Under(d[..0], name, "db") == [];
    assert Under(d[..1], name, "app") == [] + [d[0]] && Under(d[..1], name, "db") == [];
    assert d[..|d| - 1] == d[..1];
    assert Under(d, name, "app") == [d[0]] && Under(d, name, "db") == [] + [d[1]];
    assert forall s :: s in PAIR.managed <==> s == "app" || s == "db";
    assert "app" in PAIR.managed;
  }

  /** Container 8 belongs to the profile, container 9 does not; nothing else distinguishes them. */
  function Answer(id: ContainerId, running: bool): Option<Inspection> {
    if id == 7 then Some(Inspection(7, LabelsOf("app", "dev"), running))
    else if id == 8 then Some(Inspection(8, LabelsOf("db", "dev"), running))
    else if id == 9 then Some(Inspection(9, LabelsOf("db", "other"), running))
    else None
  }

  /** The set runs with container 8; after the stop container 9 stands in its place, stopped. */
  const REPLACING := World(
    (t: nat) => Some(if t < 2 then Pair(8, "dev", true) else Pair(9, "other", false)),
    (t: nat, id: ContainerId) => Answer(id, true), (t: nat) => true, (t: nat) => true, (t: nat) => false)

  const REPLACED := World(
    (t: nat) => Some(Pair(9, "other", false)), (t: nat, id: ContainerId) => Answer(id, false),
    (t: nat) => true, (t: nat) => true, (t: nat) => false)

  lemma EighthVerifies(t: nat)
    ensures VerifiesAt(PAIR, REPLACING, t, 7, "app") && VerifiesAt(PAIR, REPLACING, t, 8, "db")
  {
  }

  lemma PairIsValid()
    ensures ValidManagedSet(PAIR.managed, PAIR.primaryService)
    ensures forall s :: s in PAIR.managed <==> s == "app" || s == "db"
  {
    assert PAIR.managed[0] == "app" && PAIR.managed[1] == "db";
  }

  lemma ReplacingIsStoppable()
    ensures ValidManagedSet(PAIR.managed, PAIR.primaryService) && Stoppable(PAIR, REPLACING)
    ensures REPLACING.discover(0) == Some(Pair(8, "dev", true))
    ensures Intact(PAIR, Pair(8, "dev", true)) && !AllStopped(PAIR, Pair(8, "dev", true))
  {
    PairIsValid();
    PairMatches(8, "dev", true);
    PairMatches(9, "other", false);
    forall s, t: nat | s in PAIR.managed
      ensures VerifiesAt(PAIR, REPLACING, t, Matches(PAIR, Pair(8, "dev", true), s)[0].id, s)
    {
      EighthVerifies(t);
    }
  }

  lemma LastListingIsReplaced(calls: seq<Call>, facts: Facts, k: nat)
    requires Truthful(REPLACING, calls) && EndsStopped(PAIR, calls, facts) && IsLastListing(calls, k)
    ensures calls[k].found == Some(Pair(9, "other", false))
  {
    var n :| 0 <= n < |calls| && calls[n].Discover? && calls[n].found.Some?
             && (forall j :: n < j < |calls| ==> calls[j].Inspect?) && AllStopped(PAIR, calls[n].found.value);
    assert n == k && Answered(REPLACING, calls[k]);
    PairMatches(8, "dev", true);
  }

  lemma AnswersStay(calls: seq<Call>, j: nat)
    requires Truthful(REPLACING, calls) && j < |calls| && calls[j].Inspect? && calls[j].seen.Some?
    ensures REPLACED.inspect(0, calls[j].id) == Some(calls[j].seen.value.(running := false))
  {
    assert Answered(REPLACING, calls[j]);
  }

  lemma ReplacedContinues(calls: seq<Call>, facts: Facts)
    requires Truthful(REPLACING, calls) && EndsStopped(PAIR, calls, facts)
    ensures Continues(calls, REPLACED)
  {
    var d := Pair(9, "other", false);
    assert forall id :: !ListedRunning(d, id);
    forall k: nat, j: nat | IsLastListing(calls, k) && j < |calls| && calls[j].Inspect? && calls[j].seen.Some?
      ensures REPLACED.inspect(0, calls[j].id) == Some(calls[j].seen.value.(running := ListedRunning(d, calls[j].id)))
    {
      AnswersStay(calls, j);
    }
    forall k: nat | IsLastListing(calls, k)
      ensures calls[k].found == Some(d)
    {
      LastListingIsReplaced(calls, facts, k);
    }
  }

  /** Container 9 is of another profile. */
  lemma NinthDoesNotVerify(i: Inspection, running: bool)
    requires Answer(9, running) == Some(i)
    ensures !Verified(PAIR, i, 9, "db")
  {
  }

  lemma NinthNeverPassed(calls: seq<Call>)
    requires Truthful(REPLACING, calls)
    ensures !Passed(PAIR, calls, "db", 9)
  {
    forall j | 0 <= j < |calls|
      ensures !VerifiedAt(PAIR, calls[j], "db", 9)
    {
      assert Answered(REPLACING, calls[j]);
      NinthDoesNotVerify(Answer(9, true).value, true);
    }
  }

  lemma NinthIsListed(calls: seq<Call>, facts: Facts)
    requires Truthful(REPLACING, calls) && EndsStopped(PAIR, calls, facts) && Continues(calls, REPLACED)
    ensures "db" in PAIR.managed && "db" in facts.managed && facts.managed["db"] == 9
  {
    var k := ListedAgain(PAIR, calls, facts, REPLACED);
    LastListingIsReplaced(calls, facts, k);
    PairMatches(9, "other", false);
    PairIsValid();
  }

  lemma NinthFailsLater()
    ensures !VerifiesAt(PAIR, REPLACED, 0, 9, "db")
  {
    NinthDoesNotVerify(Answer(9, false).value, false);
  }

  lemma NinthFails(calls: seq<Call>, facts: Facts)
    requires Truthful(REPLACING, calls) && EndsStopped(PAIR, calls, facts) && Continues(calls, REPLACED)
    ensures !NewcomersVerify(PAIR, calls, REPLACED, facts.managed)
  {
    NinthIsListed(calls, facts);
    NinthNeverPassed(calls);
    NinthFailsLater();
  }

  lemma FailsAgain(calls: seq<Call>, facts: Facts, second: Result<StopOutcome, Failure>)
    requires Truthful(REPLACING, calls) && EndsStopped(PAIR, calls, facts)
    requires Continues(calls, REPLACED) ==> StaysStopped(PAIR, Stopped(facts), calls, REPLACED, second)
    ensures Continues(calls, REPLACED) && second.Err?
  {
    ReplacedContinues(calls, facts);
    NinthFails(calls, facts);
  }

  lemma ListingsAreFiltered()
    ensures Frozen(REPLACED)
    ensures forall t :: Filtered(PAIR, REPLACING.discover(t).value) && Filtered(PAIR, REPLACED.discover(t).value)
  {
    PairMatches(8, "dev", true);
    PairMatches(9, "other", false);
  }

  /**
   A first stop that succeeds and a second that fails, with nothing changed in between: the listing
   does not look at the profile, and the second stop does.
   */
  method RepeatedStopCanFail() returns (first: Result<StopOutcome, Failure>, second: Result<StopOutcome, Failure>, calls: seq<Call>)
    ensures Frozen(REPLACED) && Continues(calls, REPLACED) && Truthful(REPLACING, calls)
    ensures forall t :: Filtered(PAIR, REPLACING.discover(t).value) && Filtered(PAIR, REPLACED.discover(t).value)
    ensures first.Ok? && first.value.Stopped? && second.Err?
  {
    first, second, calls := StopTwice(PAIR, REPLACING, REPLACED);
    ReplacingIsStoppable();
    ListingsAreFiltered();
    FailsAgain(calls, first.value.facts, second);
  }
}
