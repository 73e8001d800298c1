/** Classifying a persisted Compose service set and resuming it, without ever repairing or selecting. */
module ComposeLifecycle {
  import opened Wrappers
  import opened Grouping

  type Labels = map<string, string>

  const PROJECT_LABEL := "com.docker.compose.project"
  const SERVICE_LABEL := "com.docker.compose.service"
  const INSTALLATION_LABEL := "cdenv.installation"
  const WORKSPACE_LABEL := "cdenv.workspace"
  const GENERATION_LABEL := "cdenv.generation"
  const PROFILE_LABEL := "cdenv.profile"

  datatype Discovered = Discovered(id: ContainerId, labels: Labels, running: bool)

  datatype Inspection = Inspection(id: ContainerId, labels: Labels, running: bool)

  datatype Identity = Identity(installation: string, workspace: string, generation: string, profile: string)

  datatype Recorded = Recorded(
    identity: Identity, project: string, primaryService: Service, primary: ContainerId, managed: seq<Service>)

  function Label(labels: Labels, name: string): Option<string> {
    if name in labels then Some(labels[name]) else None
  }

  // ----- Classification -----

  datatype SetState =
    | CompleteRunning
    | CompleteStopped
    | PartiallyRunning(running: seq<Service>, stopped: seq<Service>)
    | Missing(missing: seq<Service>, running: seq<Service>, stopped: seq<Service>)
    | Ambiguous(services: seq<Service>)
    | PrimarySubstituted(actual: ContainerId)
  {
    predicate Unsafe() {
      Missing? || Ambiguous? || PrimarySubstituted?
    }

    predicate CompletelyMissing(expected: nat) {
      Missing? && |missing| == expected && running == [] && stopped == []
    }
  }

  /** The service a discovered container belongs to within this project. */
  function ServiceOf(project: string): Discovered -> Option<Service> {
    (d: Discovered) => if Label(d.labels, PROJECT_LABEL) == Some(project) then Label(d.labels, SERVICE_LABEL) else None
  }

  function Matches(recorded: Recorded, discovered: seq<Discovered>, s: Service): seq<Discovered> {
    Under(discovered, ServiceOf(recorded.project), s)
  }

  /** The container bears the label with this value. */
  ghost predicate Bears(labels: Labels, name: string, value: string) {
    name in labels && labels[name] == value
  }

  /** A service's containers are those that bear the project and the service label, in the order listed. */
  lemma MatchesByLabel(recorded: Recorded, discovered: seq<Discovered>, s: Service) returns (at: seq<nat>)
    ensures |at| == |Matches(recorded, discovered, s)|
    ensures forall k :: 0 <= k < |at| ==> at[k] < |discovered| && Matches(recorded, discovered, s)[k] == discovered[at[k]]
    ensures forall k, l :: 0 <= k < l < |at| ==> at[k] < at[l]
    ensures forall i :: 0 <= i < |discovered| ==>
              (i in at <==>
                 && Bears(discovered[i].labels, "com.docker.compose.project", recorded.project)
                 && Bears(discovered[i].labels, "com.docker.compose.service", s))
  {
    at := UnderIsFiled(discovered, ServiceOf(recorded.project), s);
  }

  ghost predicate AllUnique(recorded: Recorded, discovered: seq<Discovered>) {
    forall s :: s in recorded.managed ==> |Matches(recorded, discovered, s)| == 1
  }

  ghost predicate NoneFound(recorded: Recorded, d: seq<Discovered>) {
    forall s :: s in recorded.managed ==> Matches(recorded, d, s) == []
  }

  /** Every persisted service has exactly one container and the primary is the recorded one. */
  ghost predicate Intact(recorded: Recorded, discovered: seq<Discovered>) {
    AllUnique(recorded, discovered)
    && (recorded.primaryService in recorded.managed ==>
          Matches(recorded, discovered, recorded.primaryService)[0].id == recorded.primary)
  }

  ghost predicate Maps(recorded: Recorded, discovered: seq<Discovered>, managed: map<Service, ContainerId>) {
    && (forall s :: s in managed <==> s in recorded.managed && |Matches(recorded, discovered, s)| == 1)
    && (forall s :: s in managed ==> managed[s] == Matches(recorded, discovered, s)[0].id)
  }

  /** The services to be kept, in the order given. */
  function Select(services: seq<Service>, keep: Service -> bool): seq<Service> {
    if services == [] then []
    else
      var last := services[|services| - 1];
      Select(services[..|services| - 1], keep) + if keep(last) then [last] else []
  }

  lemma {:induction false} SelectMembers(services: seq<Service>, keep: Service -> bool)
    ensures forall s :: s in Select(services, keep) <==> s in services && keep(s)
  {
    if services != [] {
      SelectMembers(services[..|services| - 1], keep);
    }
  }

  lemma SelectNext(services: seq<Service>, s: Service, keep: Service -> bool)
    ensures Select(services + [s], keep) == Select(services, keep) + if keep(s) then [s] else []
  {
    assert (services + [s])[..|services|] == services;
  }

  function IsMissing(recorded: Recorded, discovered: seq<Discovered>): Service -> bool {
    (s: Service) => Matches(recorded, discovered, s) == []
  }

  function IsAmbiguous(recorded: Recorded, discovered: seq<Discovered>): Service -> bool {
    (s: Service) => |Matches(recorded, discovered, s)| > 1
  }

  /** The service has one container, and it runs or does not. */
  function IsSole(recorded: Recorded, discovered: seq<Discovered>, running: bool): Service -> bool {
    (s: Service) => |Matches(recorded, discovered, s)| == 1 && Matches(recorded, discovered, s)[0].running == running
  }

  /** What a verdict carries are the persisted services it is about, in their order, and the container found. */
  ghost predicate Carries(recorded: Recorded, discovered: seq<Discovered>, state: SetState) {
    match state
    case Ambiguous(services) => services == Select(recorded.managed, IsAmbiguous(recorded, discovered))
    case Missing(missing, running, stopped) =>
      && missing == Select(recorded.managed, IsMissing(recorded, discovered))
      && running == Select(recorded.managed, IsSole(recorded, discovered, true))
      && stopped == Select(recorded.managed, IsSole(recorded, discovered, false))
    case PrimarySubstituted(actual) =>
      |Matches(recorded, discovered, recorded.primaryService)| == 1
      && actual == Matches(recorded, discovered, recorded.primaryService)[0].id != recorded.primary
    case PartiallyRunning(running, stopped) =>
      && running == Select(recorded.managed, IsSole(recorded, discovered, true)) != []
      && stopped == Select(recorded.managed, IsSole(recorded, discovered, false)) != []
    case _ => true
  }

  /** What each verdict means, in terms of the discovered containers alone. */
  ghost predicate Means(recorded: Recorded, discovered: seq<Discovered>, state: SetState) {
    && (state.Ambiguous? <==> exists s :: s in recorded.managed && |Matches(recorded, discovered, s)| > 1)
    && (state.Missing? <==>
          && (forall s :: s in recorded.managed ==> |Matches(recorded, discovered, s)| <= 1)
          && exists s :: s in recorded.managed && Matches(recorded, discovered, s) == [])
    && (state.PrimarySubstituted? <==> AllUnique(recorded, discovered) && !Intact(recorded, discovered))
    && (state.CompleteRunning? <==>
          Intact(recorded, discovered) && forall s :: s in recorded.managed ==> Matches(recorded, discovered, s)[0].running)
    && (state.CompleteStopped? <==>
          Intact(recorded, discovered) && recorded.managed != []
          && forall s :: s in recorded.managed ==> !Matches(recorded, discovered, s)[0].running)
    && (state.Missing? ==>
          forall s :: s in state.missing <==> s in recorded.managed && Matches(recorded, discovered, s) == [])
    && (state.CompletelyMissing(|recorded.managed|) <==> recorded.managed != [] && NoneFound(recorded, discovered))
    && Carries(recorded, discovered, state)
  }

  /** Where the loop over the persisted services has filed them so far. */
  ghost predicate Filed(recorded: Recorded, discovered: seq<Discovered>, done: seq<Service>, f: Files) {
    && (forall s :: s in f.missing <==> s in done && Matches(recorded, discovered, s) == [])
    && (forall s :: s in f.ambiguous <==> s in done && |Matches(recorded, discovered, s)| > 1)
    && (forall s :: s in f.running <==>
          s in done && |Matches(recorded, discovered, s)| == 1 && Matches(recorded, discovered, s)[0].running)
    && (forall s :: s in f.stopped <==>
          s in done && |Matches(recorded, discovered, s)| == 1 && !Matches(recorded, discovered, s)[0].running)
    && (forall s :: s in f.managed <==> s in done && |Matches(recorded, discovered, s)| == 1)
    && (forall s :: s in f.managed ==> f.managed[s] == Matches(recorded, discovered, s)[0].id)
    && |f.missing| + |f.ambiguous| + |f.running| + |f.stopped| == |done|
  }

  /** And in which order. */
  ghost predicate InOrder(recorded: Recorded, discovered: seq<Discovered>, done: seq<Service>, f: Files) {
    && f.missing == Select(done, IsMissing(recorded, discovered))
    && f.ambiguous == Select(done, IsAmbiguous(recorded, discovered))
    && f.running == Select(done, IsSole(recorded, discovered, true))
    && f.stopped == Select(done, IsSole(recorded, discovered, false))
  }

  datatype Files = Files(
    managed: map<Service, ContainerId>, missing: seq<Service>, ambiguous: seq<Service>,
    running: seq<Service>, stopped: seq<Service>)

  function FileOne(f: Files, service: Service, matches: seq<Discovered>): Files {
    if matches == [] then f.(missing := f.missing + [service])
    else if |matches| > 1 then f.(ambiguous := f.ambiguous + [service])
    else
      var filed := f.(managed := f.managed[service := matches[0].id]);
      if matches[0].running then filed.(running := f.running + [service]) else filed.(stopped := f.stopped + [service])
  }

  function Verdict(recorded: Recorded, f: Files): SetState {
    if f.ambiguous != [] then Ambiguous(f.ambiguous)
    else if f.missing != [] then Missing(f.missing, f.running, f.stopped)
    else if recorded.primaryService in f.managed && f.managed[recorded.primaryService] != recorded.primary then
      PrimarySubstituted(f.managed[recorded.primaryService])
    else if f.stopped == [] then CompleteRunning
    else if f.running == [] then CompleteStopped
    else PartiallyRunning(f.running, f.stopped)
  }

  lemma FileOneKeeps(recorded: Recorded, discovered: seq<Discovered>, done: seq<Service>, f: Files, service: Service)
    requires Filed(recorded, discovered, done, f)
    ensures Filed(recorded, discovered, done + [service], FileOne(f, service, Matches(recorded, discovered, service)))
  {
  }

  lemma FileOneKeepsOrder(recorded: Recorded, discovered: seq<Discovered>, done: seq<Service>, f: Files, service: Service)
    requires InOrder(recorded, discovered, done, f)
    ensures InOrder(recorded, discovered, done + [service], FileOne(f, service, Matches(recorded, discovered, service)))
  {
    SelectNext(done, service, IsMissing(recorded, discovered));
    SelectNext(done, service, IsAmbiguous(recorded, discovered));
    SelectNext(done, service, IsSole(recorded, discovered, true));
    SelectNext(done, service, IsSole(recorded, discovered, false));
  }

  lemma VerdictCarries(recorded: Recorded, discovered: seq<Discovered>, f: Files)
    requires Filed(recorded, discovered, recorded.managed, f) && InOrder(recorded, discovered, recorded.managed, f)
    ensures Carries(recorded, discovered, Verdict(recorded, f))
  {
  }

  lemma CompletelyMissingMeans(recorded: Recorded, discovered: seq<Discovered>, f: Files)
    requires Filed(recorded, discovered, recorded.managed, f)
    ensures Verdict(recorded, f).CompletelyMissing(|recorded.managed|)
            <==> recorded.managed != [] && NoneFound(recorded, discovered)
  {
    assert recorded.managed != [] ==> recorded.managed[0] in recorded.managed;
    assert f.ambiguous != [] ==> f.ambiguous[0] in f.ambiguous;
    assert f.running != [] ==> f.running[0] in f.running;
    assert f.stopped != [] ==> f.stopped[0] in f.stopped;
    if Verdict(recorded, f).CompletelyMissing(|recorded.managed|) {
      forall s | s in recorded.managed ensures Matches(recorded, discovered, s) == [] {
        assert s !in f.running && s !in f.stopped && s !in f.ambiguous;
      }
    }
  }

  /** Which files are empty says whether any service belongs there. */
  lemma FilesTell(recorded: Recorded, discovered: seq<Discovered>, f: Files)
    requires Filed(recorded, discovered, recorded.managed, f)
    ensures f.ambiguous != [] <==> exists s :: s in recorded.managed && |Matches(recorded, discovered, s)| > 1
    ensures f.missing != [] <==> exists s :: s in recorded.managed && Matches(recorded, discovered, s) == []
    ensures f.ambiguous == [] && f.missing == [] <==> AllUnique(recorded, discovered)
  {
    assert f.ambiguous != [] ==> f.ambiguous[0] in f.ambiguous;
    assert f.missing != [] ==> f.missing[0] in f.missing;
    if f.ambiguous == [] && f.missing == [] {
      forall s | s in recorded.managed
        ensures |Matches(recorded, discovered, s)| == 1
      {
        assert s !in f.ambiguous && s !in f.missing;
      }
    }
  }

  lemma UniqueFilesTell(recorded: Recorded, discovered: seq<Discovered>, f: Files)
    requires Filed(recorded, discovered, recorded.managed, f) && AllUnique(recorded, discovered)
    ensures f.stopped == [] <==> forall s :: s in recorded.managed ==> Matches(recorded, discovered, s)[0].running
    ensures f.running == [] <==> forall s :: s in recorded.managed ==> !Matches(recorded, discovered, s)[0].running
    ensures recorded.primaryService in f.managed <==> recorded.primaryService in recorded.managed
    ensures recorded.primaryService in f.managed ==>
              f.managed[recorded.primaryService] == Matches(recorded, discovered, recorded.primaryService)[0].id
  {
    assert f.stopped != [] ==> f.stopped[0] in f.stopped;
    assert f.running != [] ==> f.running[0] in f.running;
  }

  lemma UniqueMeans(recorded: Recorded, discovered: seq<Discovered>, state: SetState)
    requires AllUnique(recorded, discovered) && !state.Ambiguous? && !state.Missing?
    requires state.PrimarySubstituted? <==> !Intact(recorded, discovered)
    requires state.CompleteRunning? <==>
               !state.PrimarySubstituted? && forall s :: s in recorded.managed ==> Matches(recorded, discovered, s)[0].running
    requires state.CompleteStopped? <==>
               && !state.PrimarySubstituted? && !state.CompleteRunning?
               && forall s :: s in recorded.managed ==> !Matches(recorded, discovered, s)[0].running
    requires state.CompletelyMissing(|recorded.managed|) <==> recorded.managed != [] && NoneFound(recorded, discovered)
    requires Carries(recorded, discovered, state)
    ensures Means(recorded, discovered, state)
  {
    assert recorded.managed != [] ==> recorded.managed[0] in recorded.managed;
  }

  lemma UniqueVerdictMeans(recorded: Recorded, discovered: seq<Discovered>, f: Files)
    requires Filed(recorded, discovered, recorded.managed, f) && InOrder(recorded, discovered, recorded.managed, f)
    requires f.ambiguous == [] && f.missing == []
    ensures Means(recorded, discovered, Verdict(recorded, f))
  {
    FilesTell(recorded, discovered, f);
    UniqueFilesTell(recorded, discovered, f);
    VerdictCarries(recorded, discovered, f);
    CompletelyMissingMeans(recorded, discovered, f);
    UniqueMeans(recorded, discovered, Verdict(recorded, f));
  }

  lemma UnsafeMeans(recorded: Recorded, discovered: seq<Discovered>, state: SetState)
    requires state.Ambiguous? || state.Missing?
    requires state.Ambiguous? <==> exists s :: s in recorded.managed && |Matches(recorded, discovered, s)| > 1
    requires state.Missing? ==> exists s :: s in recorded.managed && Matches(recorded, discovered, s) == []
    requires state.Missing? ==>
               forall s :: s in state.missing <==> s in recorded.managed && Matches(recorded, discovered, s) == []
    requires state.CompletelyMissing(|recorded.managed|) <==> recorded.managed != [] && NoneFound(recorded, discovered)
    requires Carries(recorded, discovered, state)
    ensures Means(recorded, discovered, state)
  {
    assert !AllUnique(recorded, discovered);
  }

  lemma UnsafeVerdictMeans(recorded: Recorded, discovered: seq<Discovered>, f: Files)
    requires Filed(recorded, discovered, recorded.managed, f) && InOrder(recorded, discovered, recorded.managed, f)
    requires f.ambiguous != [] || f.missing != []
    ensures Means(recorded, discovered, Verdict(recorded, f))
  {
    FilesTell(recorded, discovered, f);
    VerdictCarries(recorded, discovered, f);
    CompletelyMissingMeans(recorded, discovered, f);
    UnsafeMeans(recorded, discovered, Verdict(recorded, f));
  }

  lemma VerdictMeans(recorded: Recorded, discovered: seq<Discovered>, f: Files)
    requires Filed(recorded, discovered, recorded.managed, f) && InOrder(recorded, discovered, recorded.managed, f)
    ensures Means(recorded, discovered, Verdict(recorded, f))
  {
    if f.ambiguous == [] && f.missing == [] {
      UniqueVerdictMeans(recorded, discovered, f);
    } else {
      UnsafeVerdictMeans(recorded, discovered, f);
    }
  }

  lemma FileNext(recorded: Recorded, discovered: seq<Discovered>, i: nat, f: Files)
    requires i < |recorded.managed|
    requires Filed(recorded, discovered, recorded.managed[..i], f) && InOrder(recorded, discovered, recorded.managed[..i], f)
    ensures var filed := FileOne(f, recorded.managed[i], Matches(recorded, discovered, recorded.managed[i]));
            && Filed(recorded, discovered, recorded.managed[..i + 1], filed)
            && InOrder(recorded, discovered, recorded.managed[..i + 1], filed)
  {
    assert recorded.managed[..i + 1] == recorded.managed[..i] + [recorded.managed[i]];
    FileOneKeeps(recorded, discovered, recorded.managed[..i], f, recorded.managed[i]);
    FileOneKeepsOrder(recorded, discovered, recorded.managed[..i], f, recorded.managed[i]);
  }

  /** The loop over the persisted services. */
  method FileAll(recorded: Recorded, discovered: seq<Discovered>) returns (files: Files)
    ensures Filed(recorded, discovered, recorded.managed, files) && InOrder(recorded, discovered, recorded.managed, files)
  {
    var grouped := GroupBy(discovered, ServiceOf(recorded.project));
    files := Files(map[], [], [], [], []);
    for i := 0 to |recorded.managed|
      invariant Filed(recorded, discovered, recorded.managed[..i], files)
      invariant InOrder(recorded, discovered, recorded.managed[..i], files)
    {
      var service := recorded.managed[i];
      var matches := if service in grouped then grouped[service] else [];
      assert matches == Matches(recorded, discovered, service);
      FileNext(recorded, discovered, i, files);
      files := FileOne(files, service, matches);
    }
    assert recorded.managed[..|recorded.managed|] == recorded.managed;
  }

  /** `resolve_service_set`. */
  method Resolve(recorded: Recorded, discovered: seq<Discovered>)
    returns (state: SetState, managed: map<Service, ContainerId>)
    ensures Means(recorded, discovered, state)
    ensures Maps(recorded, discovered, managed)
  {
    var files := FileAll(recorded, discovered);
    VerdictMeans(recorded, discovered, files);
    return Verdict(recorded, files), files.managed;
  }

  // ----- Verification and the engine -----

  function LabelOrEmpty(labels: Labels, name: string): string {
    if name in labels then labels[name] else ""
  }

  /** `verify_service` without a running expectation: the ID and every identity label must agree. */
  predicate Verified(recorded: Recorded, i: Inspection, id: ContainerId, service: Service) {
    && i.id == id
    && LabelOrEmpty(i.labels, INSTALLATION_LABEL) == recorded.identity.installation
    && LabelOrEmpty(i.labels, WORKSPACE_LABEL) == recorded.identity.workspace
    && LabelOrEmpty(i.labels, GENERATION_LABEL) == recorded.identity.generation
    && LabelOrEmpty(i.labels, PROFILE_LABEL) == recorded.identity.profile
    && LabelOrEmpty(i.labels, PROJECT_LABEL) == recorded.project
    && LabelOrEmpty(i.labels, SERVICE_LABEL) == service
  }

  /** The label has this value, where a missing one counts as empty. */
  ghost predicate Shows(labels: Labels, name: string, value: string) {
    Bears(labels, name, value) || (name !in labels && value == "")
  }

  /** The container is the one recorded for the service: its ID and all six labels agree. */
  ghost predicate IsRecorded(recorded: Recorded, i: Inspection, id: ContainerId, service: Service) {
    && i.id == id
    && Shows(i.labels, "cdenv.installation", recorded.identity.installation)
    && Shows(i.labels, "cdenv.workspace", recorded.identity.workspace)
    && Shows(i.labels, "cdenv.generation", recorded.identity.generation)
    && Shows(i.labels, "cdenv.profile", recorded.identity.profile)
    && Shows(i.labels, "com.docker.compose.project", recorded.project)
    && Shows(i.labels, "com.docker.compose.service", service)
  }

  /** Verification passes exactly for those. */
  lemma VerifiedMeans(recorded: Recorded, i: Inspection, id: ContainerId, service: Service)
    ensures Verified(recorded, i, id, service) <==> IsRecorded(recorded, i, id, service)
  {
  }

  datatype Facts = Facts(primary: ContainerId, managed: map<Service, ContainerId>)

  datatype StopOutcome = Stopped(facts: Facts) | AlreadyStopped(facts: Facts) | AllMissing

  datatype Failure =
    | Cancelled(completed: seq<Service>)
    | InvalidManagedSet
    | UnsafeServiceSet(state: SetState)
    | Engine
    | ServiceMismatch(service: Service)

  /**
   An outside world that may answer differently at every moment, fail, or be cancelled. A request to
   cancel is looked for at moments `2 * k` and `2 * k + 1` while `k` calls have been made.
   */
  datatype World = World(
    discover: nat -> Option<seq<Discovered>>, inspect: (nat, ContainerId) -> Option<Inspection>,
    start: nat -> bool, stop: nat -> bool, cancelled: nat -> bool)

  datatype Call =
    | Discover(found: Option<seq<Discovered>>)
    | Inspect(service: Service, id: ContainerId, seen: Option<Inspection>)
    | Start(service: Service, id: ContainerId, ok: bool)
    | StopServices(ok: bool)

  /** The answer recorded with a call is one the world gave. */
  ghost predicate Answered(w: World, c: Call) {
    match c
    case Discover(found) => exists t :: w.discover(t) == found
    case Inspect(_, id, seen) => exists t :: w.inspect(t, id) == seen
    case Start(_, _, ok) => exists t :: w.start(t) == ok
    case StopServices(ok) => exists t :: w.stop(t) == ok
  }

  ghost predicate Truthful(w: World, calls: seq<Call>) {
    forall k :: 0 <= k < |calls| ==> Answered(w, calls[k])
  }

  lemma TruthGrows(w: World, calls: seq<Call>, next: Call)
    requires Truthful(w, calls) && Answered(w, next)
    ensures Truthful(w, calls + [next])
  {
  }

  /** When the request to cancel is last looked for before call `k`: a start has a look of its own. */
  function LookBefore(calls: seq<Call>, k: nat): nat
    requires k < |calls|
  {
    if calls[k].Start? then 2 * k + 1 else 2 * k
  }

  /** No call was made after a look that saw a request to cancel. */
  ghost predicate Heeded(w: World, calls: seq<Call>) {
    forall k :: 0 <= k < |calls| ==> !w.cancelled(LookBefore(calls, k))
  }

  lemma HeededGrows(w: World, calls: seq<Call>, next: Call)
    requires Heeded(w, calls) && !w.cancelled(LookBefore(calls + [next], |calls|))
    ensures Heeded(w, calls + [next])
  {
    var longer := calls + [next];
    forall k | 0 <= k < |longer|
      ensures !w.cancelled(LookBefore(longer, k))
    {
      assert k < |calls| ==> LookBefore(longer, k) == LookBefore(calls, k);
    }
  }

  /** The last look saw it. */
  ghost predicate CancelSeen(w: World, calls: seq<Call>) {
    w.cancelled(2 * |calls|) || w.cancelled(2 * |calls| + 1)
  }

  /** A request to cancel stays once it is made. */
  ghost predicate Standing(w: World) {
    forall t, u :: t <= u && w.cancelled(t) ==> w.cancelled(u)
  }

  /** So a request made at a moment ends the operation: no call follows that moment. */
  lemma NothingFollowsACancellation(w: World, calls: seq<Call>, t: nat)
    requires Heeded(w, calls) && Standing(w) && w.cancelled(t)
    ensures forall k :: 0 <= k < |calls| ==> LookBefore(calls, k) < t
  {
  }

  /** The services this operation has directly started, in order. */
  function Completed(calls: seq<Call>): seq<Service> {
    if calls == [] then []
    else
      var rest := Completed(calls[..|calls| - 1]);
      var last := calls[|calls| - 1];
      if last.Start? && last.ok then rest + [last.service] else rest
  }

  /** A start is preceded by an inspection that verified this stopped container as the sole match. */
  ghost predicate SafeStart(recorded: Recorded, first: seq<Discovered>, calls: seq<Call>, k: nat)
    requires 0 < k < |calls| && calls[k].Start?
  {
    var s, id := calls[k].service, calls[k].id;
    && s in recorded.managed && |Matches(recorded, first, s)| == 1 && Matches(recorded, first, s)[0].id == id
    && calls[k - 1].Inspect? && calls[k - 1].service == s && calls[k - 1].id == id && calls[k - 1].seen.Some?
    && !calls[k - 1].seen.value.running && Verified(recorded, calls[k - 1].seen.value, id, s)
  }

  ghost predicate SafeCalls(recorded: Recorded, calls: seq<Call>) {
    && (forall k :: 0 <= k < |calls| && calls[k].Start? ==>
          && k > 0 && calls[0].Discover? && calls[0].found.Some? && Intact(recorded, calls[0].found.value)
          && SafeStart(recorded, calls[0].found.value, calls, k))
    && (forall j, k :: 0 <= j < k < |calls| && calls[j].Start? && calls[k].Start? ==> calls[j].service != calls[k].service)
  }

  /** Every container started was, when last looked at, stopped and the one recorded for its service. */
  lemma StartsAreOfTheRecord(recorded: Recorded, calls: seq<Call>, k: nat)
    requires SafeCalls(recorded, calls) && k < |calls| && calls[k].Start?
    ensures 0 < k && calls[k - 1].Inspect? && calls[k - 1].seen.Some? && !calls[k - 1].seen.value.running
    ensures calls[k].service in recorded.managed
    ensures IsRecorded(recorded, calls[k - 1].seen.value, calls[k].id, calls[k].service)
  {
    VerifiedMeans(recorded, calls[k - 1].seen.value, calls[k].id, calls[k].service);
  }

  /** A service is named as started exactly when a start of it worked. */
  lemma {:induction false} CompletedMeans(calls: seq<Call>, s: Service)
    ensures s in Completed(calls) <==> exists k :: 0 <= k < |calls| && calls[k].Start? && calls[k].service == s && calls[k].ok
  {
    if calls != [] {
      var front := calls[..|calls| - 1];
      CompletedMeans(front, s);
      if k :| 0 <= k < |front| && front[k].Start? && front[k].service == s && front[k].ok {
        assert calls[k] == front[k];
      }
    }
  }

  ghost predicate AllRunning(recorded: Recorded, d: seq<Discovered>) {
    Intact(recorded, d) && forall s :: s in recorded.managed ==> Matches(recorded, d, s)[0].running
  }

  ghost predicate AllStopped(recorded: Recorded, d: seq<Discovered>) {
    Intact(recorded, d) && forall s :: s in recorded.managed ==> !Matches(recorded, d, s)[0].running
  }

  lemma SafeAppend(recorded: Recorded, calls: seq<Call>, next: Call)
    requires SafeCalls(recorded, calls) && !next.Start?
    ensures SafeCalls(recorded, calls + [next])
  {
    var longer := calls + [next];
    forall k | 0 <= k < |longer| && longer[k].Start?
      ensures k > 0 && longer[0].Discover? && longer[0].found.Some? && Intact(recorded, longer[0].found.value)
              && SafeStart(recorded, longer[0].found.value, longer, k)
    {
      assert longer[k] == calls[k] && longer[k - 1] == calls[k - 1] && longer[0] == calls[0];
      assert SafeStart(recorded, calls[0].found.value, calls, k);
    }
  }

  /** The container was verified and, unless it was found running, started at once. */
  ghost predicate Handled(recorded: Recorded, calls: seq<Call>, s: Service, id: ContainerId) {
    exists k :: 0 <= k < |calls| && VerifiedAt(recorded, calls[k], s, id)
                && (calls[k].seen.value.running || (k + 1 < |calls| && calls[k + 1] == Start(s, id, true)))
  }

  ghost predicate VerifiedAt(recorded: Recorded, call: Call, s: Service, id: ContainerId) {
    && call.Inspect? && call.service == s && call.id == id && call.seen.Some?
    && Verified(recorded, call.seen.value, id, s)
  }

  ghost predicate AllHandled(recorded: Recorded, calls: seq<Call>, services: seq<Service>, managed: map<Service, ContainerId>) {
    forall s :: s in services ==> s in managed && Handled(recorded, calls, s, managed[s])
  }

  lemma HandledGrows(
    recorded: Recorded, calls: seq<Call>, next: Call, services: seq<Service>, managed: map<Service, ContainerId>)
    requires AllHandled(recorded, calls, services, managed)
    ensures AllHandled(recorded, calls + [next], services, managed)
  {
    var longer := calls + [next];
    forall s | s in services
      ensures Handled(recorded, longer, s, managed[s])
    {
      var k :| 0 <= k < |calls| && VerifiedAt(recorded, calls[k], s, managed[s])
               && (calls[k].seen.value.running || (k + 1 < |calls| && calls[k + 1] == Start(s, managed[s], true)));
      assert longer[k] == calls[k] && (k + 1 < |calls| ==> longer[k + 1] == calls[k + 1]);
    }
  }

  lemma OneMoreHandled(
    recorded: Recorded, calls: seq<Call>, k: nat, services: seq<Service>, s: Service, managed: map<Service, ContainerId>)
    requires AllHandled(recorded, calls, services, managed) && s in managed && k < |calls|
    requires VerifiedAt(recorded, calls[k], s, managed[s])
    requires calls[k].seen.value.running || (k + 1 < |calls| && calls[k + 1] == Start(s, managed[s], true))
    ensures AllHandled(recorded, calls, services + [s], managed)
  {
    assert Handled(recorded, calls, s, managed[s]);
  }

  /** Nothing is cancelled, every start works, and every listed container verifies whenever it is inspected. */
  ghost predicate Helpful(recorded: Recorded, w: World, first: seq<Discovered>)
    requires AllUnique(recorded, first)
  {
    && (forall t :: !w.cancelled(t)) && (forall t :: w.start(t))
    && forall s, t :: s in recorded.managed ==> VerifiesAt(recorded, w, t, Matches(recorded, first, s)[0].id, s)
  }

  ghost predicate VerifiesAt(recorded: Recorded, w: World, t: nat, id: ContainerId, s: Service) {
    w.inspect(t, id).Some? && Verified(recorded, w.inspect(t, id).value, id, s)
  }

  /** Every later listing shows the complete set running. */
  ghost predicate RunsAfterwards(recorded: Recorded, w: World) {
    forall t :: t > 0 ==> w.discover(t).Some? && AllRunning(recorded, w.discover(t).value)
  }

  /** The set first listed is intact, nothing goes wrong, and it is found running afterwards. */
  ghost predicate Cooperative(recorded: Recorded, w: World) {
    && w.discover(0).Some? && Intact(recorded, w.discover(0).value) && Helpful(recorded, w, w.discover(0).value)
    && RunsAfterwards(recorded, w)
  }

  /** The first `i` persisted services are dealt with. */
  ghost predicate Underway(
    recorded: Recorded, first: seq<Discovered>, managed: map<Service, ContainerId>, calls: seq<Call>, i: nat)
    requires i <= |recorded.managed|
  {
    && SafeCalls(recorded, calls) && calls != [] && calls[0] == Discover(Some(first))
    && (forall k :: 0 <= k < |calls| && calls[k].Start? ==> calls[k].service in recorded.managed[..i])
    && AllHandled(recorded, calls, recorded.managed[..i], managed)
  }

  lemma SafeStarted(recorded: Recorded, first: seq<Discovered>, calls: seq<Call>, i: nat, ok: bool)
    requires ValidManagedSet(recorded.managed, recorded.primaryService) && i < |recorded.managed|
    requires SafeCalls(recorded, calls) && |calls| > 1 && calls[0] == Discover(Some(first)) && Intact(recorded, first)
    requires forall k :: 0 <= k < |calls| && calls[k].Start? ==> calls[k].service in recorded.managed[..i]
    requires var last := calls[|calls| - 1];
             && last.Inspect? && last.service == recorded.managed[i] && last.seen.Some? && !last.seen.value.running
             && last.id == Matches(recorded, first, recorded.managed[i])[0].id
             && Verified(recorded, last.seen.value, last.id, last.service)
    ensures var last := calls[|calls| - 1];
            SafeCalls(recorded, calls + [Start(last.service, last.id, ok)])
  {
    var last := calls[|calls| - 1];
    var longer := calls + [Start(last.service, last.id, ok)];
    forall k | 0 <= k < |longer| && longer[k].Start?
      ensures k > 0 && longer[0].Discover? && longer[0].found.Some? && Intact(recorded, longer[0].found.value)
              && SafeStart(recorded, longer[0].found.value, longer, k)
    {
      assert longer[0] == calls[0];
      if k < |calls| {
        assert longer[k] == calls[k] && longer[k - 1] == calls[k - 1];
        assert SafeStart(recorded, calls[0].found.value, calls, k);
      } else {
        assert longer[k - 1] == last;
      }
    }
    forall j | 0 <= j < |calls| && calls[j].Start? ensures calls[j].service != last.service {
      assert calls[j].service in recorded.managed[..i];
    }
  }

  /** A call that starts nothing changes nothing about what is dealt with. */
  lemma UnderwayGrows(
    recorded: Recorded, first: seq<Discovered>, managed: map<Service, ContainerId>, calls: seq<Call>, next: Call, i: nat)
    requires i <= |recorded.managed| && Underway(recorded, first, managed, calls, i) && !next.Start?
    ensures Underway(recorded, first, managed, calls + [next], i)
  {
    SafeAppend(recorded, calls, next);
    HandledGrows(recorded, calls, next, recorded.managed[..i], managed);
  }

  /** The next service's container was inspected last, and verified. */
  ghost predicate JustVerified(recorded: Recorded, managed: map<Service, ContainerId>, calls: seq<Call>, i: nat) {
    && i < |recorded.managed| && recorded.managed[i] in managed && |calls| > 1
    && VerifiedAt(recorded, calls[|calls| - 1], recorded.managed[i], managed[recorded.managed[i]])
  }

  /** A container verified as running is dealt with. */
  lemma UnderwayRunning(
    recorded: Recorded, first: seq<Discovered>, managed: map<Service, ContainerId>, calls: seq<Call>, i: nat)
    requires i <= |recorded.managed| && Underway(recorded, first, managed, calls, i)
    requires JustVerified(recorded, managed, calls, i) && calls[|calls| - 1].seen.value.running
    ensures Underway(recorded, first, managed, calls, i + 1)
  {
    var service := recorded.managed[i];
    assert recorded.managed[..i + 1] == recorded.managed[..i] + [service];
    OneMoreHandled(recorded, calls, |calls| - 1, recorded.managed[..i], service, managed);
  }

  /** With the start that worked, the container verified last is dealt with. */
  lemma StartedHandled(recorded: Recorded, managed: map<Service, ContainerId>, calls: seq<Call>, i: nat)
    requires JustVerified(recorded, managed, calls, i)
    requires AllHandled(recorded, calls, recorded.managed[..i], managed)
    ensures var service := recorded.managed[i];
            AllHandled(recorded, calls + [Start(service, managed[service], true)], recorded.managed[..i + 1], managed)
  {
    var service := recorded.managed[i];
    var next := Start(service, managed[service], true);
    var longer := calls + [next];
    assert recorded.managed[..i + 1] == recorded.managed[..i] + [service];
    HandledGrows(recorded, calls, next, recorded.managed[..i], managed);
    assert longer[|calls| - 1] == calls[|calls| - 1] && longer[|calls|] == next;
    OneMoreHandled(recorded, longer, |calls| - 1, recorded.managed[..i], service, managed);
  }

  /** A container verified as stopped may be started, and is dealt with if that works. */
  lemma UnderwayStarted(
    recorded: Recorded, first: seq<Discovered>, managed: map<Service, ContainerId>, calls: seq<Call>, i: nat, ok: bool)
    requires ValidManagedSet(recorded.managed, recorded.primaryService)
    requires i <= |recorded.managed| && Underway(recorded, first, managed, calls, i)
    requires Intact(recorded, first) && Maps(recorded, first, managed)
    requires JustVerified(recorded, managed, calls, i) && !calls[|calls| - 1].seen.value.running
    ensures var service := recorded.managed[i];
            var longer := calls + [Start(service, managed[service], ok)];
            && SafeCalls(recorded, longer) && (ok ==> Underway(recorded, first, managed, longer, i + 1))
  {
    var service := recorded.managed[i];
    var longer := calls + [Start(service, managed[service], ok)];
    SafeStarted(recorded, first, calls, i, ok);
    if ok {
      StartedHandled(recorded, managed, calls, i);
      StartsSoFar(recorded, calls, i, service, managed[service]);
      assert longer[0] == calls[0];
    }
  }

  lemma StartsSoFar(recorded: Recorded, calls: seq<Call>, i: nat, service: Service, id: ContainerId)
    requires i < |recorded.managed| && service == recorded.managed[i]
    requires forall k :: 0 <= k < |calls| && calls[k].Start? ==> calls[k].service in recorded.managed[..i]
    ensures var longer := calls + [Start(service, id, true)];
            forall k :: 0 <= k < |longer| && longer[k].Start? ==> longer[k].service in recorded.managed[..i + 1]
  {
    var longer := calls + [Start(service, id, true)];
    assert recorded.managed[..i + 1] == recorded.managed[..i] + [service];
    forall k | 0 <= k < |longer| && longer[k].Start?
      ensures longer[k].service in recorded.managed[..i + 1]
    {
      if k < |calls| {
        assert longer[k] == calls[k];
      }
    }
  }

  /** The last call is why: the engine failed it, or the container it inspected is not the one recorded. */
  ghost predicate Blamed(recorded: Recorded, calls: seq<Call>, failure: Failure) {
    && (failure.Engine? ==>
          && calls != []
          && match calls[|calls| - 1]
             case Discover(found) => found.None?
             case Inspect(_, _, seen) => seen.None?
             case Start(_, _, ok) => !ok
             case StopServices(ok) => !ok)
    && (failure.ServiceMismatch? ==>
          && calls != [] && calls[|calls| - 1].Inspect? && calls[|calls| - 1].service == failure.service
          && calls[|calls| - 1].seen.Some?
          && !IsRecorded(recorded, calls[|calls| - 1].seen.value, calls[|calls| - 1].id, failure.service))
  }

  /** What stops `resume` inside its loop: a request seen, with what was started so far, or a failed call. */
  ghost predicate LoopFailure(recorded: Recorded, w: World, calls: seq<Call>, failure: Failure) {
    && (failure.Cancelled? || failure.Engine? || failure.ServiceMismatch?) && Blamed(recorded, calls, failure)
    && (failure.Cancelled? ==> failure.completed == Completed(calls) && CancelSeen(w, calls))
  }

  /** First half of a pass of the loop of `resume`: look for a request, inspect the container, verify it. */
  method InspectOne(
    recorded: Recorded, w: World, first: seq<Discovered>, managed: map<Service, ContainerId>, before: seq<Call>, i: nat)
    returns (running: Result<bool, Failure>, calls: seq<Call>)
    requires i < |recorded.managed| && recorded.managed[i] in managed
    requires Underway(recorded, first, managed, before, i) && Truthful(w, before) && Heeded(w, before)
    ensures Underway(recorded, first, managed, calls, i) && Truthful(w, calls) && Heeded(w, calls)
    ensures running.Ok? ==>
              JustVerified(recorded, managed, calls, i) && running.value == calls[|calls| - 1].seen.value.running
    ensures running.Err? ==> LoopFailure(recorded, w, calls, running.error)
    ensures !w.cancelled(2 * |before|) && VerifiesAt(recorded, w, |before|, managed[recorded.managed[i]], recorded.managed[i]) ==>
              running.Ok?
  {
    calls := before;
    if w.cancelled(2 * |calls|) {
      return Err(Cancelled(Completed(calls))), calls;
    }
    var service := recorded.managed[i];
    var container := managed[service];
    var seen := w.inspect(|calls|, container);
    var next := Inspect(service, container, seen);
    UnderwayGrows(recorded, first, managed, calls, next, i);
    TruthGrows(w, calls, next);
    HeededGrows(w, calls, next);
    calls := calls + [next];
    if seen.None? {
      return Err(Engine), calls;
    }
    VerifiedMeans(recorded, seen.value, container, service);
    if !Verified(recorded, seen.value, container, service) {
      return Err(ServiceMismatch(service)), calls;
    }
    return Ok(seen.value.running), calls;
  }

  /** One pass of the loop of `resume`: verify the service's container and start it if it is stopped. */
  method StartOne(
    recorded: Recorded, w: World, first: seq<Discovered>, managed: map<Service, ContainerId>, before: seq<Call>, i: nat)
    returns (failure: Option<Failure>, calls: seq<Call>)
    requires ValidManagedSet(recorded.managed, recorded.primaryService) && i < |recorded.managed|
    requires Intact(recorded, first) && Maps(recorded, first, managed) && Underway(recorded, first, managed, before, i)
    requires Truthful(w, before) && Heeded(w, before)
    ensures SafeCalls(recorded, calls) && calls != [] && calls[0] == Discover(Some(first)) && Truthful(w, calls)
    ensures Heeded(w, calls)
    ensures failure.None? ==> Underway(recorded, first, managed, calls, i + 1)
    ensures failure.Some? ==> LoopFailure(recorded, w, calls, failure.value)
    ensures Helpful(recorded, w, first) ==> failure.None?
  {
    var service := recorded.managed[i];
    var container := managed[service];
    assert Helpful(recorded, w, first) ==> VerifiesAt(recorded, w, |before|, container, service);
    var running;
    running, calls := InspectOne(recorded, w, first, managed, before, i);
    if running.Err? {
      return Some(running.error), calls;
    }
    if running.value {
      UnderwayRunning(recorded, first, managed, calls, i);
      return None, calls;
    }
    if w.cancelled(2 * |calls| + 1) {
      return Some(Cancelled(Completed(calls))), calls;
    }
    var ok := w.start(|calls|);
    var next := Start(service, container, ok);
    UnderwayStarted(recorded, first, managed, calls, i, ok);
    TruthGrows(w, calls, next);
    HeededGrows(w, calls, next);
    calls := calls + [next];
    return if ok then None else Some(Engine), calls;
  }

  /** The loop of `resume` over the persisted services. */
  method StartStopped(recorded: Recorded, w: World, first: seq<Discovered>, managed: map<Service, ContainerId>)
    returns (failure: Option<Failure>, calls: seq<Call>)
    requires ValidManagedSet(recorded.managed, recorded.primaryService)
    requires Intact(recorded, first) && Maps(recorded, first, managed) && w.discover(0) == Some(first)
    requires !w.cancelled(0)
    ensures SafeCalls(recorded, calls) && calls != [] && calls[0] == Discover(Some(first)) && Truthful(w, calls)
    ensures Heeded(w, calls) && (failure.None? ==> !w.cancelled(2 * |calls|))
    ensures failure.None? ==> AllHandled(recorded, calls, recorded.managed, managed)
    ensures failure.Some? ==> LoopFailure(recorded, w, calls, failure.value)
    ensures Helpful(recorded, w, first) ==> failure.None?
  {
    calls := [Discover(Some(first))];
    for i := 0 to |recorded.managed|
      invariant Underway(recorded, first, managed, calls, i) && Truthful(w, calls) && Heeded(w, calls)
    {
      failure, calls := StartOne(recorded, w, first, managed, calls, i);
      if failure.Some? {
        return;
      }
    }
    assert recorded.managed[..|recorded.managed|] == recorded.managed;
    if w.cancelled(2 * |calls|) {
      return Some(Cancelled(Completed(calls))), calls;
    }
    return None, calls;
  }

  /** Every container first listed was verified and left running or started. */
  ghost predicate Resumed(recorded: Recorded, calls: seq<Call>) {
    && calls != [] && calls[0].Discover? && calls[0].found.Some?
    && exists managed :: Maps(recorded, calls[0].found.value, managed)
                         && AllHandled(recorded, calls, recorded.managed, managed)
  }

  /** The last call found the complete set running, and the facts describe it. */
  ghost predicate EndsRunning(recorded: Recorded, calls: seq<Call>, facts: Facts) {
    && calls != [] && calls[|calls| - 1].Discover? && calls[|calls| - 1].found.Some?
    && AllRunning(recorded, calls[|calls| - 1].found.value)
    && facts.primary == recorded.primary && Maps(recorded, calls[|calls| - 1].found.value, facts.managed)
  }

  /** The last call listed the set, and the state reported is what the listing shows. */
  ghost predicate Refused(recorded: Recorded, calls: seq<Call>, state: SetState) {
    && calls != [] && calls[|calls| - 1].Discover? && calls[|calls| - 1].found.Some?
    && Means(recorded, calls[|calls| - 1].found.value, state)
  }

  /** The last look of `resume`: success only for a complete running set. */
  method ConfirmRunning(recorded: Recorded, w: World, before: seq<Call>, ghost started: map<Service, ContainerId>)
    returns (r: Result<Facts, Failure>, calls: seq<Call>)
    requires SafeCalls(recorded, before) && before != [] && before[0].Discover? && before[0].found.Some?
    requires Maps(recorded, before[0].found.value, started) && AllHandled(recorded, before, recorded.managed, started)
    requires Truthful(w, before) && Heeded(w, before) && !w.cancelled(2 * |before|)
    ensures Truthful(w, calls) && Heeded(w, calls)
    ensures SafeCalls(recorded, calls) && |calls| == |before| + 1 && calls[0] == before[0] && Resumed(recorded, calls)
    ensures r.Ok? ==> EndsRunning(recorded, calls, r.value)
    ensures r.Err? ==> (r.error.Engine? || r.error.UnsafeServiceSet?) && Blamed(recorded, calls, r.error)
    ensures r.Err? && r.error.UnsafeServiceSet? ==> Refused(recorded, calls, r.error.state)
    ensures w.discover(|before|).Some? && AllRunning(recorded, w.discover(|before|).value) ==> r.Ok?
  {
    var again := w.discover(|before|);
    SafeAppend(recorded, before, Discover(again));
    TruthGrows(w, before, Discover(again));
    HeededGrows(w, before, Discover(again));
    HandledGrows(recorded, before, Discover(again), recorded.managed, started);
    calls := before + [Discover(again)];
    if again.None? {
      return Err(Engine), calls;
    }
    var state, managed := Resolve(recorded, again.value);
    if !state.CompleteRunning? {
      return Err(UnsafeServiceSet(state)), calls;
    }
    return Ok(Facts(recorded.primary, managed)), calls;
  }

  /**
   `resume`: for any world it starts a container only after verifying it as the sole match of a
   persisted service of an intact set, makes no call after seeing a request to cancel, and reports
   success only for a complete running set; in a cooperative world it does succeed.
   */
  method Resume(recorded: Recorded, w: World) returns (r: Result<Facts, Failure>, calls: seq<Call>)
    ensures SafeCalls(recorded, calls) && Truthful(w, calls) && (calls != [] ==> calls[0].Discover?)
    ensures r.Ok? ==> EndsRunning(recorded, calls, r.value) && Resumed(recorded, calls)
    ensures Heeded(w, calls)
    ensures r.Err? && r.error.Cancelled? ==> r.error.completed == Completed(calls) && CancelSeen(w, calls)
    ensures r.Err? && r.error.UnsafeServiceSet? ==> Refused(recorded, calls, r.error.state)
    ensures r.Err? ==> Blamed(recorded, calls, r.error)
    ensures !ValidManagedSet(recorded.managed, recorded.primaryService) <==> r == Err(InvalidManagedSet)
    ensures calls != [] && calls[0].found.Some? && !Intact(recorded, calls[0].found.value) ==>
              r.Err? && r.error.UnsafeServiceSet? && |calls| == 1
    ensures ValidManagedSet(recorded.managed, recorded.primaryService) && Cooperative(recorded, w) ==> r.Ok?
  {
    calls := [];
    if !ValidManagedSet(recorded.managed, recorded.primaryService) {
      return Err(InvalidManagedSet), calls;
    }
    if w.cancelled(0) {
      return Err(Cancelled([])), calls;
    }
    var found := w.discover(0);
    if found.None? {
      return Err(Engine), [Discover(None)];
    }
    var state, managed := Resolve(recorded, found.value);
    if state.Unsafe() {
      return Err(UnsafeServiceSet(state)), [Discover(found)];
    }
    var failure;
    failure, calls := StartStopped(recorded, w, found.value, managed);
    if failure.Some? {
      return Err(failure.value), calls;
    }
    r, calls := ConfirmRunning(recorded, w, calls, managed);
  }
}
