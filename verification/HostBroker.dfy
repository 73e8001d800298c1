/**
 The host end: the dispatch loop of `serve_host_credential_broker` with its helper and relay
 tasks, one action per point where the loop or a task can be resumed.
 */
module HostBroker {
  import opened Bytes
  import opened Wrappers
  import CredentialGrants
  import opened Sums
  import opened LivePolicy
  import opened FrameLane

  /** `Captured` is the epoch read at dispatch and the moment it was read. */
  datatype Captured = Captured(epoch: nat, at: nat)

  /**
   A helper looks up what the body asks for, and `Found` holds the credential the backend returned; a relay
   is connected to the agent under a selector. `asker` is who sent the packet the agent is working on.
   */
  datatype Job =
    | Helper(captured: Captured, body: seq<Byte>)
    | Found(captured: Captured, body: seq<Byte>, credential: Source, answer: seq<Byte>)
    | Replying
    | Relay(agent: CredentialGrants.Selector)
    | Exchanging(agent: CredentialGrants.Selector, captured: Captured, asker: Origin, packet: seq<Byte>)
    | Leaving
    | Done

  /** `since` is the moment the task was started. */
  datatype Task = Task(stream: nat, origin: Origin, since: nat, job: Job, inbox: seq<Frame>)

  datatype Loop = Ready | AwaitIdentity(stream: nat, origin: Origin, captured: Captured) | Ended

  /**
   `adapter` is the agent the backend resolved when it was made; it never resolves another.
   `relayed` remembers, for the proofs only, every stream for which a relay was ever started.
   */
  datatype Host = Host(
    adapter: Option<CredentialGrants.Selector>, loop: Loop, tasks: seq<Task>, inputs: map<nat, Option<nat>>, lane: Lane,
    helpersFree: nat, streamsFree: nat, relayed: set<nat>)

  function NewHost(adapter: Option<CredentialGrants.Selector>): Host {
    Host(adapter, Ready, [], map[], EMPTY_LANE, MAX_HELPERS, MAX_STREAMS, {})
  }

  predicate IsHelper(t: Task) {
    t.job.Helper? || t.job.Found? || t.job.Replying?
  }

  predicate IsRelay(t: Task) {
    t.job.Relay? || t.job.Exchanging? || t.job.Leaving?
  }

  function HelperWeight(t: Task): nat {
    if IsHelper(t) then 1 else 0
  }

  function RelayWeight(t: Task): nat {
    if IsRelay(t) then 1 else 0
  }

  // ----- The event loop -----

  predicate LoopFree(h: Host) {
    h.loop.Ready? && Quiet(h.lane, 0)
  }

  function Reply(h: Host, kind: Kind, stream: nat, origin: Origin): Host
    requires LoopFree(h)
  {
    h.(lane := Offer(h.lane, 0, Frame(kind, stream, [], origin), None))
  }

  function Spawn(h: Host, t: Task): Host {
    h.(tasks := h.tasks + [t], lane := Join(h.lane))
  }

  function DispatchLookup(h: Host, f: Frame, policy: Policy, at: nat): Host
    requires LoopFree(h)
  {
    if !Authorized(policy, Lookup) then Reply(h, ErrorFrame, f.stream, f.origin)
    else if h.helpersFree == 0 then h.(loop := Ended)
    else
      Spawn(h.(helpersFree := h.helpersFree - 1),
            Task(f.stream, f.origin, at, Helper(Captured(Epoch(policy, Lookup), at), f.payload), []))
  }

  /** A second open of one stream replaces the first sender by a channel nobody reads. */
  function DispatchOpen(h: Host, f: Frame, policy: Policy, at: nat, connected: bool): Host
    requires LoopFree(h)
  {
    if !Authorized(policy, Agent) || h.streamsFree == 0 || h.adapter.None? || !connected then
      Reply(h, ErrorFrame, f.stream, f.origin)
    else if f.stream in h.inputs then
      Reply(h.(inputs := h.inputs[f.stream := None]), ErrorFrame, f.stream, f.origin)
    else
      Spawn(h.(streamsFree := h.streamsFree - 1, inputs := h.inputs[f.stream := Some(|h.tasks|)],
               relayed := h.relayed + {f.stream}),
            Task(f.stream, f.origin, at, Relay(h.adapter.value), []))
  }

  predicate Routable(h: Host, stream: nat) {
    stream in h.inputs && h.inputs[stream].Some? && h.inputs[stream].value < |h.tasks|
    && IsRelay(h.tasks[h.inputs[stream].value])
  }

  /** Waits while the relay's inbox is full; an unknown or closed stream ends the broker. */
  function DispatchStream(h: Host, f: Frame): Option<Host> {
    if !Routable(h, f.stream) then Some(h.(loop := Ended))
    else
      var i := h.inputs[f.stream].value;
      if |h.tasks[i].inbox| >= INBOX_FRAMES then None
      else Some(h.(tasks := h.tasks[i := h.tasks[i].(inbox := h.tasks[i].inbox + [f])]))
  }

  function Dispatch(h: Host, f: Frame, policy: Policy, at: nat, connected: bool): Option<Host>
    requires LoopFree(h)
  {
    match f.kind
    case CredentialLookup => Some(DispatchLookup(h, f, policy, at))
    case AgentOpen => Some(DispatchOpen(h, f, policy, at, connected))
    case StreamData => DispatchStream(h, f)
    case StreamClose => DispatchStream(h, f)
    case Cancel => DispatchStream(h, f)
    case IdentityRequest =>
      Some(if !Authorized(policy, Author) then Reply(h, ErrorFrame, f.stream, f.origin)
           else h.(loop := AwaitIdentity(f.stream, f.origin, Captured(Epoch(policy, Author), at))))
    case Health => Some(Reply(h, HealthAck, 0, Control))
    case _ => Some(h.(loop := Ended))
  }

  /** The identity request is awaited inside the loop; `None` is a failure, timeout or revocation. */
  function AnswerIdentity(h: Host, policy: Policy, answer: Option<seq<Byte>>): Option<Host> {
    if !h.loop.AwaitIdentity? || !Quiet(h.lane, 0) then None
    else
      var l := h.loop;
      if answer.Some? && Authorized(policy, Author) then
        if |answer.value| > MAX_FRAME_BYTES then Some(h.(loop := Ended))
        else
          Some(h.(loop := Ready,
                  lane := Offer(h.lane, 0, Frame(IdentityResult, l.stream, answer.value, l.origin),
                                Some(Authorization(Author, l.captured.epoch, l.captured.at, Metadata)))))
      else Some(h.(loop := Ready, lane := Offer(h.lane, 0, Frame(ErrorFrame, l.stream, [], l.origin), None)))
  }

  // ----- Tasks -----

  predicate Awake(h: Host, i: nat) {
    !h.loop.Ended? && i < |h.tasks| && Quiet(h.lane, i + 1)
  }

  /** `credential_lookup` returns a credential only for an origin it finds allowed right before it returns. */
  function FindCredential(
    h: Host, i: nat, policy: Policy, at: nat, origin: CredentialGrants.Origin, answer: seq<Byte>): Option<Host>
  {
    if !Awake(h, i) || !h.tasks[i].job.Helper? || !policy.grants.Allows(origin) then None
    else
      var t := h.tasks[i];
      Some(h.(tasks := h.tasks[i := t.(job := Found(t.job.captured, t.job.body, CredentialFor(origin, at), answer))]))
  }

  /** The helper replies with the credential found, or with an error after a failure, a timeout or a revocation. */
  function AnswerLookup(h: Host, i: nat, policy: Policy, failed: bool): Option<Host> {
    if !Awake(h, i) || !(h.tasks[i].job.Helper? || h.tasks[i].job.Found?) then None
    else
      var t := h.tasks[i];
      var replying := h.(tasks := h.tasks[i := t.(job := Replying)]);
      if t.job.Found? && !failed && Authorized(policy, Lookup) then
        if |t.job.answer| > MAX_FRAME_BYTES then Some(replying)
        else
          Some(replying.(lane := Offer(h.lane, i + 1, Frame(CredentialResult, t.stream, t.job.answer, t.origin),
                                       Some(Authorization(Lookup, t.job.captured.epoch, t.job.captured.at, t.job.credential)))))
      else Some(replying.(lane := Offer(h.lane, i + 1, Frame(ErrorFrame, t.stream, [], t.origin), None)))
  }

  /** A relay takes its next packet and captures the epoch before talking to the agent. */
  function TakePacket(h: Host, i: nat, policy: Policy, at: nat): Option<Host> {
    if !Awake(h, i) || !h.tasks[i].job.Relay? || h.tasks[i].inbox == []
       || !h.tasks[i].inbox[0].kind.StreamData? || !ValidPacket(h.tasks[i].inbox[0].payload) then None
    else
      var t := h.tasks[i];
      var taken := Exchanging(t.job.agent, Captured(Epoch(policy, Agent), at), t.inbox[0].origin, t.inbox[0].payload);
      Some(h.(tasks := h.tasks[i := t.(job := taken, inbox := t.inbox[1..])]))
  }

  function AnswerPacket(h: Host, i: nat, policy: Policy, answer: seq<Byte>): Option<Host> {
    if !Awake(h, i) || !h.tasks[i].job.Exchanging? || !Authorized(policy, Agent) || |answer| > MAX_FRAME_BYTES then None
    else
      var t := h.tasks[i];
      Some(h.(tasks := h.tasks[i := t.(job := Relay(t.job.agent))],
              lane := Offer(h.lane, i + 1, Frame(StreamData, t.stream, answer, t.job.asker),
                            Some(Authorization(Agent, t.job.captured.epoch, t.job.captured.at, AnsweredBy(t.job.agent))))))
  }

  /** A relay gives up: closed by its peer, a bad packet, revoked, timed out or failed; it may announce that. */
  function LeaveRelay(h: Host, i: nat, announce: bool): Option<Host> {
    if !Awake(h, i) || !(h.tasks[i].job.Relay? || h.tasks[i].job.Exchanging?) then None
    else
      var t := h.tasks[i];
      var left := h.(tasks := h.tasks[i := t.(job := Leaving)]);
      Some(if announce then left.(lane := Offer(h.lane, i + 1, Frame(StreamClose, t.stream, [], t.origin), None)) else left)
  }

  /** A helper or relay ends: its admission permit returns and a relay removes its input channel. */
  function FinishTask(h: Host, i: nat): Option<Host> {
    if !Awake(h, i) then None
    else
      var t := h.tasks[i];
      var done := h.(tasks := h.tasks[i := t.(job := Done)]);
      if t.job.Replying? then Some(done.(helpersFree := h.helpersFree + 1))
      else if t.job.Leaving? then Some(done.(streamsFree := h.streamsFree + 1, inputs := h.inputs - {t.stream}))
      else None
  }

  // ----- Writing -----

  /** The frame the loop writes for a queued one: itself, or a denial once authority has moved. */
  function Release(policy: Policy, s: Sending): Sending {
    if s.auth.Some?
       && (Epoch(policy, s.auth.value.op) != s.auth.value.epoch || !Authorized(policy, s.auth.value.op))
    then Sending(Frame(if s.auth.value.op.Agent? then StreamClose else ErrorFrame, s.frame.stream, [], s.frame.origin),
                 None, s.permitted)
    else s
  }

  // ----- Actions -----

  datatype HostAction =
    | HostAnswerIdentity(answer: Option<seq<Byte>>)
    | HostFindCredential(task: nat, origin: CredentialGrants.Origin, bytes: seq<Byte>)
    | HostAnswerLookup(task: nat, failed: bool)
    | HostTakePacket(task: nat)
    | HostAnswerPacket(task: nat, bytes: seq<Byte>)
    | HostLeaveRelay(task: nat, announce: bool)
    | HostFinishTask(task: nat)
    | HostAcquire(sender: nat)
    | HostPush(sender: nat)
    | HostFail

  /** Everything the host does on its own, between reading and writing the wire. */
  function HostStep(h: Host, policy: Policy, at: nat, a: HostAction): Option<Host> {
    match a
    case HostAnswerIdentity(answer) => AnswerIdentity(h, policy, answer)
    case HostFindCredential(i, origin, answer) => FindCredential(h, i, policy, at, origin, answer)
    case HostAnswerLookup(i, failed) => AnswerLookup(h, i, policy, failed)
    case HostTakePacket(i) => TakePacket(h, i, policy, at)
    case HostAnswerPacket(i, bytes) => AnswerPacket(h, i, policy, bytes)
    case HostLeaveRelay(i, announce) => LeaveRelay(h, i, announce)
    case HostFinishTask(i) => FinishTask(h, i)
    case HostAcquire(i) => if !h.loop.Ended? && CanAcquire(h.lane, i) then Some(h.(lane := Acquire(h.lane, i))) else None
    case HostPush(i) => if !h.loop.Ended? && CanPush(h.lane, i) then Some(h.(lane := Push(h.lane, i))) else None
    case HostFail => Some(h.(loop := Ended))
  }

  // ----- Admission is conserved -----

  ghost predicate Admitted(h: Host) {
    && Conserved(h.lane) && |h.lane.senders| == |h.tasks| + 1
    && h.helpersFree + Sum(h.tasks, HelperWeight) == MAX_HELPERS
    && h.streamsFree + Sum(h.tasks, RelayWeight) == MAX_STREAMS
  }

  lemma TaskUpdateSums(tasks: seq<Task>, i: nat, t: Task)
    requires i < |tasks|
    ensures Sum(tasks[i := t], HelperWeight) + HelperWeight(tasks[i]) == Sum(tasks, HelperWeight) + HelperWeight(t)
    ensures Sum(tasks[i := t], RelayWeight) + RelayWeight(tasks[i]) == Sum(tasks, RelayWeight) + RelayWeight(t)
  {
    SumUpdate(tasks, i, t, HelperWeight);
    SumUpdate(tasks, i, t, RelayWeight);
  }

  lemma SpawnSums(h: Host, t: Task)
    requires Conserved(h.lane) && |h.lane.senders| == |h.tasks| + 1
    ensures Conserved(Spawn(h, t).lane) && |Spawn(h, t).lane.senders| == |Spawn(h, t).tasks| + 1
    ensures Sum(Spawn(h, t).tasks, HelperWeight) == Sum(h.tasks, HelperWeight) + HelperWeight(t)
    ensures Sum(Spawn(h, t).tasks, RelayWeight) == Sum(h.tasks, RelayWeight) + RelayWeight(t)
  {
    JoinConserves(h.lane);
    SumAppend(h.tasks, t, HelperWeight);
    SumAppend(h.tasks, t, RelayWeight);
  }

  lemma LookupKeepsAdmission(h: Host, f: Frame, policy: Policy, at: nat)
    requires Admitted(h) && LoopFree(h)
    ensures Admitted(DispatchLookup(h, f, policy, at))
  {
    OfferConserves(h.lane, 0, Frame(ErrorFrame, f.stream, [], f.origin), None);
    if h.helpersFree > 0 {
      SpawnSums(h.(helpersFree := h.helpersFree - 1),
                Task(f.stream, f.origin, at, Helper(Captured(Epoch(policy, Lookup), at), f.payload), []));
    }
  }

  lemma OpenKeepsAdmission(h: Host, f: Frame, policy: Policy, at: nat, connected: bool)
    requires Admitted(h) && LoopFree(h)
    ensures Admitted(DispatchOpen(h, f, policy, at, connected))
  {
    if h.streamsFree == 0 || h.adapter.None? || f.stream in h.inputs || !Authorized(policy, Agent) || !connected {
      OfferConserves(h.lane, 0, Frame(ErrorFrame, f.stream, [], f.origin), None);
    } else {
      SpawnSums(h.(streamsFree := h.streamsFree - 1, inputs := h.inputs[f.stream := Some(|h.tasks|)],
                   relayed := h.relayed + {f.stream}),
                Task(f.stream, f.origin, at, Relay(h.adapter.value), []));
    }
  }

  lemma StreamKeepsAdmission(h: Host, f: Frame)
    requires Admitted(h) && DispatchStream(h, f).Some?
    ensures Admitted(DispatchStream(h, f).value)
  {
    if Routable(h, f.stream) {
      var i := h.inputs[f.stream].value;
      TaskUpdateSums(h.tasks, i, h.tasks[i].(inbox := h.tasks[i].inbox + [f]));
    }
  }

  lemma DispatchKeepsAdmission(h: Host, f: Frame, policy: Policy, at: nat, connected: bool)
    requires Admitted(h) && LoopFree(h) && Dispatch(h, f, policy, at, connected).Some?
    ensures Admitted(Dispatch(h, f, policy, at, connected).value)
  {
    match f.kind
    case CredentialLookup => LookupKeepsAdmission(h, f, policy, at);
    case AgentOpen => OpenKeepsAdmission(h, f, policy, at, connected);
    case StreamData => StreamKeepsAdmission(h, f);
    case StreamClose => StreamKeepsAdmission(h, f);
    case Cancel => StreamKeepsAdmission(h, f);
    case IdentityRequest => OfferConserves(h.lane, 0, Frame(ErrorFrame, f.stream, [], f.origin), None);
    case Health => OfferConserves(h.lane, 0, Frame(HealthAck, 0, [], Control), None);
    case _ =>
  }

  /** A task changes its job, perhaps offering a frame, and its admission permit follows. */
  lemma TaskMoveKeepsAdmission(h: Host, h': Host, i: nat)
    requires Admitted(h) && i < |h.tasks| && |h'.tasks| == |h.tasks| && |h'.lane.senders| == |h.lane.senders|
    requires h'.tasks == h.tasks[i := h'.tasks[i]]
    requires h'.lane == h.lane
             || (Quiet(h.lane, i + 1) && h'.lane.senders[i + 1].Some?
                 && h'.lane == Offer(h.lane, i + 1, h'.lane.senders[i + 1].value.frame, h'.lane.senders[i + 1].value.auth))
    requires h'.helpersFree + HelperWeight(h'.tasks[i]) == h.helpersFree + HelperWeight(h.tasks[i])
    requires h'.streamsFree + RelayWeight(h'.tasks[i]) == h.streamsFree + RelayWeight(h.tasks[i])
    ensures Admitted(h')
  {
    TaskUpdateSums(h.tasks, i, h'.tasks[i]);
    if h'.lane != h.lane {
      OfferConserves(h.lane, i + 1, h'.lane.senders[i + 1].value.frame, h'.lane.senders[i + 1].value.auth);
    }
  }

  lemma AnswerIdentityKeepsAdmission(h: Host, policy: Policy, answer: Option<seq<Byte>>)
    requires Admitted(h) && AnswerIdentity(h, policy, answer).Some?
    ensures Admitted(AnswerIdentity(h, policy, answer).value)
  {
    var h' := AnswerIdentity(h, policy, answer).value;
    if h'.lane != h.lane {
      OfferConserves(h.lane, 0, h'.lane.senders[0].value.frame, h'.lane.senders[0].value.auth);
    }
  }

  lemma LookupTaskKeepsAdmission(
    h: Host, i: nat, policy: Policy, at: nat, origin: CredentialGrants.Origin, answer: seq<Byte>, failed: bool)
    requires Admitted(h)
    ensures var found := FindCredential(h, i, policy, at, origin, answer); found.Some? ==> Admitted(found.value)
    ensures var answered := AnswerLookup(h, i, policy, failed); answered.Some? ==> Admitted(answered.value)
  {
    var found, answered := FindCredential(h, i, policy, at, origin, answer), AnswerLookup(h, i, policy, failed);
    if found.Some? {
      TaskMoveKeepsAdmission(h, found.value, i);
    }
    if answered.Some? {
      TaskMoveKeepsAdmission(h, answered.value, i);
    }
  }

  lemma RelayTaskKeepsAdmission(h: Host, i: nat, policy: Policy, at: nat, answer: seq<Byte>, announce: bool)
    requires Admitted(h)
    ensures var taken := TakePacket(h, i, policy, at); taken.Some? ==> Admitted(taken.value)
    ensures var answered := AnswerPacket(h, i, policy, answer); answered.Some? ==> Admitted(answered.value)
    ensures var left := LeaveRelay(h, i, announce); left.Some? ==> Admitted(left.value)
  {
    var taken, answered, left := TakePacket(h, i, policy, at), AnswerPacket(h, i, policy, answer), LeaveRelay(h, i, announce);
    if taken.Some? {
      TaskMoveKeepsAdmission(h, taken.value, i);
    }
    if answered.Some? {
      TaskMoveKeepsAdmission(h, answered.value, i);
    }
    if left.Some? {
      TaskMoveKeepsAdmission(h, left.value, i);
    }
  }

  lemma FinishKeepsAdmission(h: Host, i: nat)
    requires Admitted(h) && FinishTask(h, i).Some?
    ensures Admitted(FinishTask(h, i).value)
  {
    TaskMoveKeepsAdmission(h, FinishTask(h, i).value, i);
  }

  lemma HostStepKeepsAdmission(h: Host, policy: Policy, at: nat, a: HostAction)
    requires Admitted(h) && HostStep(h, policy, at, a).Some?
    ensures Admitted(HostStep(h, policy, at, a).value)
  {
    match a
    case HostAnswerIdentity(answer) => AnswerIdentityKeepsAdmission(h, policy, answer);
    case HostFindCredential(i, origin, bytes) => LookupTaskKeepsAdmission(h, i, policy, at, origin, bytes, true);
    case HostAnswerLookup(i, failed) => LookupTaskKeepsAdmission(h, i, policy, at, "", [], failed);
    case HostTakePacket(i) => RelayTaskKeepsAdmission(h, i, policy, at, [], true);
    case HostAnswerPacket(i, bytes) => RelayTaskKeepsAdmission(h, i, policy, at, bytes, true);
    case HostLeaveRelay(i, announce) => RelayTaskKeepsAdmission(h, i, policy, at, [], announce);
    case HostFinishTask(i) => FinishKeepsAdmission(h, i);
    case HostAcquire(i) => AcquireConserves(h.lane, i);
    case HostPush(i) => PushConserves(h.lane, i);
    case HostFail =>
  }
}
