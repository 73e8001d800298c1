/**
 Agent packets carry no request identifiers, so an answer belongs to a packet only because a
 connection has one exchange open at a time: packets and answers of one connection, counted
 wherever they can be between its two sockets.
 */
module BrokerExchange {
  import opened Bytes
  import opened Wrappers
  import opened Sums
  import CredentialGrants
  import opened LivePolicy
  import opened FrameLane
  import opened HostBroker
  import opened AgentBridge
  import opened BrokerSystem
  import opened BrokerRouting

  // ----- Counting -----

  /** A packet or answer of connection `c`. */
  function OfFrame(c: nat): Frame -> nat {
    (f: Frame) => if f.kind.StreamData? && f.origin == Connection(c) then 1 else 0
  }

  function OfSending(c: nat): Sending -> nat {
    (s: Sending) => OfFrame(c)(s.frame)
  }

  function OfSender(c: nat): Option<Sending> -> nat {
    (s: Option<Sending>) =>
      if s.Some? && s.value.frame.kind.StreamData? && s.value.frame.origin == Connection(c) then 1 else 0
  }

  /** What waits in the task's inbox, and the packet the agent is working on. */
  function OfTask(c: nat): Task -> nat {
    (t: Task) => Sum(t.inbox, OfFrame(c)) + if t.job.Exchanging? && t.job.asker == Connection(c) then 1 else 0
  }

  function OfConn(c: nat): Conn -> nat {
    (x: Conn) => Sum(x.inbox, OfFrame(c))
  }

  function InLane(lane: Lane, c: nat): nat {
    Sum(lane.senders, OfSender(c)) + Sum(lane.queue, OfSending(c))
  }

  function InHost(h: Host, c: nat): nat {
    Sum(h.tasks, OfTask(c)) + InLane(h.lane, c)
  }

  function InBridge(b: Bridge, c: nat): nat {
    Sum(b.conns, OfConn(c)) + InLane(b.lane, c)
  }

  /** Everything of connection `c` between its socket and the agent. */
  function InFlight(w: World, c: nat): nat {
    InBridge(w.bridge, c) + Sum(w.toHost, OfFrame(c)) + InHost(w.host, c) + Sum(w.toAgent, OfFrame(c))
  }

  // ----- Lanes -----

  lemma JoinCounts(lane: Lane, c: nat)
    ensures InLane(Join(lane), c) == InLane(lane, c)
  {
    SumAppend(lane.senders, None, OfSender(c));
  }

  lemma OfferCounts(lane: Lane, i: nat, frame: Frame, auth: Option<Authorization>, c: nat)
    requires Quiet(lane, i)
    ensures InLane(Offer(lane, i, frame, auth), c) == InLane(lane, c) + OfFrame(c)(frame)
  {
    SumUpdate(lane.senders, i, Some(Sending(frame, auth, false)), OfSender(c));
  }

  lemma AcquireCounts(lane: Lane, i: nat, c: nat)
    requires CanAcquire(lane, i)
    ensures InLane(Acquire(lane, i), c) == InLane(lane, c)
  {
    SumUpdate(lane.senders, i, Some(lane.senders[i].value.(permitted := true)), OfSender(c));
  }

  lemma PushCounts(lane: Lane, i: nat, c: nat)
    requires CanPush(lane, i)
    ensures InLane(Push(lane, i), c) == InLane(lane, c)
  {
    var s := lane.senders[i].value;
    SumUpdate(lane.senders, i, None, OfSender(c));
    SumAppend(lane.queue, s, OfSending(c));
    assert OfSender(c)(lane.senders[i]) == OfFrame(c)(s.frame) == OfSending(c)(s);
  }

  lemma PopCounts(lane: Lane, c: nat)
    requires lane.queue != []
    ensures InLane(Pop(lane), c) + OfFrame(c)(lane.queue[0].frame) == InLane(lane, c)
  {
    SumFirst(lane.queue, OfSending(c));
  }

  // ----- The host loses packets, but never makes one up -----

  /** A task changes, perhaps offering a frame. */
  lemma TaskMoveCounts(h: Host, h': Host, i: nat, c: nat)
    requires i < |h.tasks| && |h'.tasks| == |h.tasks| && |h'.lane.senders| == |h.lane.senders|
    requires h'.tasks == h.tasks[i := h'.tasks[i]]
    requires h'.lane == h.lane
             || (Quiet(h.lane, i + 1) && h'.lane.senders[i + 1].Some?
                 && h'.lane == Offer(h.lane, i + 1, h'.lane.senders[i + 1].value.frame, h'.lane.senders[i + 1].value.auth))
    ensures InHost(h', c) + OfTask(c)(h.tasks[i])
            == InHost(h, c) + OfTask(c)(h'.tasks[i])
               + (if h'.lane == h.lane then 0 else OfFrame(c)(h'.lane.senders[i + 1].value.frame))
  {
    SumUpdate(h.tasks, i, h'.tasks[i], OfTask(c));
    if h'.lane != h.lane {
      OfferCounts(h.lane, i + 1, h'.lane.senders[i + 1].value.frame, h'.lane.senders[i + 1].value.auth, c);
    }
  }

  lemma LookupTaskCounts(
    h: Host, i: nat, policy: Policy, at: nat, origin: CredentialGrants.Origin, answer: seq<Byte>, failed: bool, c: nat)
    ensures var found := FindCredential(h, i, policy, at, origin, answer); found.Some? ==> InHost(found.value, c) <= InHost(h, c)
    ensures var answered := AnswerLookup(h, i, policy, failed); answered.Some? ==> InHost(answered.value, c) <= InHost(h, c)
  {
    var found, answered := FindCredential(h, i, policy, at, origin, answer), AnswerLookup(h, i, policy, failed);
    if found.Some? {
      TaskMoveCounts(h, found.value, i, c);
    }
    if answered.Some? {
      TaskMoveCounts(h, answered.value, i, c);
    }
  }

  lemma TakePacketCounts(h: Host, i: nat, policy: Policy, at: nat, c: nat)
    requires TakePacket(h, i, policy, at).Some?
    ensures InHost(TakePacket(h, i, policy, at).value, c) == InHost(h, c)
  {
    var h' := TakePacket(h, i, policy, at).value;
    SumFirst(h.tasks[i].inbox, OfFrame(c));
    TaskMoveCounts(h, h', i, c);
  }

  lemma AnswerPacketCounts(h: Host, i: nat, policy: Policy, answer: seq<Byte>, c: nat)
    requires AnswerPacket(h, i, policy, answer).Some?
    ensures InHost(AnswerPacket(h, i, policy, answer).value, c) == InHost(h, c)
  {
    TaskMoveCounts(h, AnswerPacket(h, i, policy, answer).value, i, c);
  }

  lemma LeaveRelayCounts(h: Host, i: nat, announce: bool, c: nat)
    requires LeaveRelay(h, i, announce).Some?
    ensures InHost(LeaveRelay(h, i, announce).value, c) <= InHost(h, c)
  {
    TaskMoveCounts(h, LeaveRelay(h, i, announce).value, i, c);
  }

  lemma FinishTaskCounts(h: Host, i: nat, c: nat)
    requires FinishTask(h, i).Some?
    ensures InHost(FinishTask(h, i).value, c) <= InHost(h, c)
  {
    TaskMoveCounts(h, FinishTask(h, i).value, i, c);
  }

  lemma AnswerIdentityCounts(h: Host, policy: Policy, answer: Option<seq<Byte>>, c: nat)
    requires AnswerIdentity(h, policy, answer).Some?
    ensures InHost(AnswerIdentity(h, policy, answer).value, c) <= InHost(h, c)
  {
    var h' := AnswerIdentity(h, policy, answer).value;
    if h'.lane != h.lane {
      OfferCounts(h.lane, 0, h'.lane.senders[0].value.frame, h'.lane.senders[0].value.auth, c);
    }
  }

  lemma HostStepCounts(h: Host, policy: Policy, at: nat, a: HostAction, c: nat)
    requires HostStep(h, policy, at, a).Some?
    ensures InHost(HostStep(h, policy, at, a).value, c) <= InHost(h, c)
  {
    match a
    case HostAnswerIdentity(answer) => AnswerIdentityCounts(h, policy, answer, c);
    case HostFindCredential(i, origin, bytes) => LookupTaskCounts(h, i, policy, at, origin, bytes, true, c);
    case HostAnswerLookup(i, failed) => LookupTaskCounts(h, i, policy, at, "", [], failed, c);
    case HostTakePacket(i) => TakePacketCounts(h, i, policy, at, c);
    case HostAnswerPacket(i, bytes) => AnswerPacketCounts(h, i, policy, bytes, c);
    case HostLeaveRelay(i, announce) => LeaveRelayCounts(h, i, announce, c);
    case HostFinishTask(i) => FinishTaskCounts(h, i, c);
    case HostAcquire(i) => AcquireCounts(h.lane, i, c);
    case HostPush(i) => PushCounts(h.lane, i, c);
    case HostFail =>
  }

  lemma ReplyCounts(h: Host, kind: Kind, stream: nat, origin: Origin, c: nat)
    requires LoopFree(h) && !kind.StreamData?
    ensures InHost(Reply(h, kind, stream, origin), c) == InHost(h, c)
  {
    OfferCounts(h.lane, 0, Frame(kind, stream, [], origin), None, c);
  }

  lemma SpawnCounts(h: Host, t: Task, c: nat)
    requires t.inbox == [] && !t.job.Exchanging?
    ensures InHost(Spawn(h, t), c) == InHost(h, c)
  {
    SumAppend(h.tasks, t, OfTask(c));
    JoinCounts(h.lane, c);
  }

  lemma DispatchLookupCounts(h: Host, f: Frame, policy: Policy, at: nat, c: nat)
    requires LoopFree(h)
    ensures InHost(DispatchLookup(h, f, policy, at), c) == InHost(h, c)
  {
    ReplyCounts(h, ErrorFrame, f.stream, f.origin, c);
    if h.helpersFree > 0 {
      SpawnCounts(h.(helpersFree := h.helpersFree - 1),
                  Task(f.stream, f.origin, at, Helper(Captured(Epoch(policy, Lookup), at), f.payload), []), c);
    }
  }

  lemma DispatchOpenCounts(h: Host, f: Frame, policy: Policy, at: nat, connected: bool, c: nat)
    requires LoopFree(h)
    ensures InHost(DispatchOpen(h, f, policy, at, connected), c) == InHost(h, c)
  {
    ReplyCounts(h, ErrorFrame, f.stream, f.origin, c);
    ReplyCounts(h.(inputs := h.inputs[f.stream := None]), ErrorFrame, f.stream, f.origin, c);
    if h.streamsFree > 0 && h.adapter.Some? {
      SpawnCounts(h.(streamsFree := h.streamsFree - 1, inputs := h.inputs[f.stream := Some(|h.tasks|)],
                     relayed := h.relayed + {f.stream}),
                  Task(f.stream, f.origin, at, Relay(h.adapter.value), []), c);
    }
  }

  lemma DispatchStreamCounts(h: Host, f: Frame, c: nat)
    requires DispatchStream(h, f).Some?
    ensures InHost(DispatchStream(h, f).value, c) <= InHost(h, c) + OfFrame(c)(f)
  {
    if Routable(h, f.stream) {
      var i := h.inputs[f.stream].value;
      SumAppend(h.tasks[i].inbox, f, OfFrame(c));
      TaskMoveCounts(h, DispatchStream(h, f).value, i, c);
    }
  }

  lemma DispatchCounts(h: Host, f: Frame, policy: Policy, at: nat, connected: bool, c: nat)
    requires LoopFree(h) && Dispatch(h, f, policy, at, connected).Some?
    ensures InHost(Dispatch(h, f, policy, at, connected).value, c) <= InHost(h, c) + OfFrame(c)(f)
  {
    match f.kind
    case CredentialLookup => DispatchLookupCounts(h, f, policy, at, c);
    case AgentOpen => DispatchOpenCounts(h, f, policy, at, connected, c);
    case StreamData => DispatchStreamCounts(h, f, c);
    case StreamClose => DispatchStreamCounts(h, f, c);
    case Cancel => DispatchStreamCounts(h, f, c);
    case IdentityRequest => ReplyCounts(h, ErrorFrame, f.stream, f.origin, c);
    case Health => ReplyCounts(h, HealthAck, 0, Control, c);
    case _ =>
  }

  // ----- The bridge makes one up only where it asks -----

  /** A connection changes, perhaps offering a frame. */
  lemma ConnMoveCounts(b: Bridge, b': Bridge, i: nat, c: nat)
    requires i < |b.conns| && |b'.conns| == |b.conns| && |b'.lane.senders| == |b.lane.senders|
    requires b'.conns == b.conns[i := b'.conns[i]]
    requires b'.lane == b.lane
             || (Quiet(b.lane, i + 1) && b'.lane.senders[i + 1].Some?
                 && b'.lane == Offer(b.lane, i + 1, b'.lane.senders[i + 1].value.frame, b'.lane.senders[i + 1].value.auth))
    ensures InBridge(b', c) + OfConn(c)(b.conns[i])
            == InBridge(b, c) + OfConn(c)(b'.conns[i])
               + (if b'.lane == b.lane then 0 else OfFrame(c)(b'.lane.senders[i + 1].value.frame))
  {
    SumUpdate(b.conns, i, b'.conns[i], OfConn(c));
    if b'.lane != b.lane {
      OfferCounts(b.lane, i + 1, b'.lane.senders[i + 1].value.frame, b'.lane.senders[i + 1].value.auth, c);
    }
  }

  lemma AcceptCounts(b: Bridge, endpoint: Endpoint, c: nat)
    requires Accept(b, endpoint).Some?
    ensures InBridge(Accept(b, endpoint).value, c) == InBridge(b, c)
  {
    SumAppend(b.conns, Conn(endpoint, Fresh, []), OfConn(c));
    JoinCounts(b.lane, c);
  }

  /** Only a resting connection puts a packet out, and it then waits. */
  lemma AskCounts(b: Bridge, i: nat, payload: seq<Byte>, c: nat)
    requires Ask(b, i, payload).Some?
    ensures var b' := Ask(b, i, payload).value;
            && |b'.conns| == |b.conns| && (forall d :: 0 <= d < |b.conns| && d != i ==> b'.conns[d] == b.conns[d])
            && InBridge(b', c) <= InBridge(b, c) + (if c == i && b.conns[i].phase.Resting? then 1 else 0)
            && !b'.conns[i].phase.Fresh? && (b.conns[i].phase.Resting? ==> b'.conns[i].phase.Waiting?)
            && !b.conns[i].phase.Waiting?
  {
    ConnMoveCounts(b, Ask(b, i, payload).value, i, c);
  }

  lemma PartCounts(b: Bridge, i: nat, farewell: Option<Kind>, c: nat)
    requires Part(b, i, farewell).Some?
    ensures InBridge(Part(b, i, farewell).value, c) == InBridge(b, c)
  {
    ConnMoveCounts(b, Part(b, i, farewell).value, i, c);
  }

  lemma CloseCounts(b: Bridge, i: nat, c: nat)
    requires Close(b, i).Some?
    ensures InBridge(Close(b, i).value, c) == InBridge(b, c)
  {
    ConnMoveCounts(b, Close(b, i).value, i, c);
  }

  lemma RouteCounts(b: Bridge, f: Frame, dropped: bool, c: nat)
    requires Route(b, f, dropped).Some?
    ensures var b' := Route(b, f, dropped).value;
            && InBridge(b', c) <= InBridge(b, c) + OfFrame(c)(f)
            && |b'.conns| == |b.conns| && forall d :: 0 <= d < |b.conns| ==> b'.conns[d].phase == b.conns[d].phase
  {
    var b' := Route(b, f, dropped).value;
    if b'.lane != b.lane {
      OfferCounts(b.lane, 0, Frame(HealthAck, 0, [], Control), None, c);
    }
    if b'.conns != b.conns {
      var i := b.recipients[f.stream];
      SumAppend(b.conns[i].inbox, f, OfFrame(c));
      ConnMoveCounts(b, b', i, c);
    }
  }

  /** The frame a connection takes in is gone. */
  lemma ReceiveCounts(b: Bridge, i: nat, c: nat)
    requires Receive(b, i).Some?
    ensures InBridge(Receive(b, i).value, c) + OfFrame(c)(b.conns[i].inbox[0]) == InBridge(b, c)
  {
    SumFirst(b.conns[i].inbox, OfFrame(c));
    ConnMoveCounts(b, Receive(b, i).value, i, c);
  }

  // ----- One exchange at a time -----

  /** How much of a connection may be under way: nothing before its first packet and between packets. */
  function Allowed(b: Bridge, c: nat): nat {
    if c >= |b.conns| || b.conns[c].phase.Fresh? || b.conns[c].phase.Resting? then 0 else 1
  }

  ghost predicate Paired(w: World, c: nat) {
    InFlight(w, c) <= Allowed(w.bridge, c)
  }

  lemma EmptyLaneCounts(c: nat)
    ensures InLane(EMPTY_LANE, c) == 0
  {
    SumOfNothing(EMPTY_LANE.senders, OfSender(c));
  }

  lemma HandshakeCounts(c: nat)
    ensures Sum([Frame(IdentityRequest, 1, [], Handshake)], OfFrame(c)) == 0
  {
    SumOfNothing([Frame(IdentityRequest, 1, [], Handshake)], OfFrame(c));
  }

  lemma StartIsPaired(policy: Policy, resolved: bool, c: nat)
    ensures Paired(Start(policy, resolved), c)
  {
    EmptyLaneCounts(c);
    HandshakeCounts(c);
  }

  lemma HostActKeepsPaired(w: World, a: HostAction, c: nat)
    requires w.policies != [] && Paired(w, c) && DoHostAct(w, a).Some?
    ensures Paired(DoHostAct(w, a).value, c)
  {
    HostStepCounts(w.host, Policy0(w), |w.policies| - 1, a, c);
  }

  lemma HostReadKeepsPaired(w: World, connected: bool, c: nat)
    requires w.policies != [] && Paired(w, c) && DoHostRead(w, connected).Some?
    ensures Paired(DoHostRead(w, connected).value, c)
  {
    SumFirst(w.toHost, OfFrame(c));
    DispatchCounts(w.host, w.toHost[0], Policy0(w), |w.policies| - 1, connected, c);
  }

  /** A frame is released as it is or as a denial, which carries nothing. */
  lemma ReleaseCounts(policy: Policy, s: Sending, c: nat)
    ensures OfFrame(c)(Release(policy, s).frame) <= OfFrame(c)(s.frame)
  {
  }

  lemma WrittenIsPaired(w: World, f: Frame, w': World, c: nat)
    requires Paired(w, c) && w.host.lane.queue != [] && OfFrame(c)(f) <= OfFrame(c)(w.host.lane.queue[0].frame)
    requires w'.host == w.host.(lane := Pop(w.host.lane)) && w'.toAgent == w.toAgent + [f]
    requires w'.bridge == w.bridge && w'.toHost == w.toHost
    ensures Paired(w', c)
  {
    PopCounts(w.host.lane, c);
    SumAppend(w.toAgent, f, OfFrame(c));
  }

  lemma HostWriteKeepsPaired(w: World, c: nat)
    requires w.policies != [] && Paired(w, c) && DoHostWrite(w).Some?
    ensures Paired(DoHostWrite(w).value, c)
  {
    var s := w.host.lane.queue[0];
    ReleaseCounts(Policy0(w), s, c);
    WrittenIsPaired(w, Release(Policy0(w), s).frame, DoHostWrite(w).value, c);
  }

  lemma AskKeepsPaired(w: World, i: nat, payload: seq<Byte>, c: nat)
    requires Paired(w, c) && DoBridgeAct(w, BridgeAsk(i, payload)).Some?
    ensures Paired(DoBridgeAct(w, BridgeAsk(i, payload)).value, c)
  {
    AskCounts(w.bridge, i, payload, c);
  }

  /** No other step of the bridge puts a packet out or lets a connection rest. */
  lemma BridgeStepCounts(b: Bridge, a: BridgeAction, c: nat)
    requires !a.BridgeAsk? && BridgeStep(b, a).Some?
    ensures InBridge(BridgeStep(b, a).value, c) == InBridge(b, c)
    ensures Allowed(BridgeStep(b, a).value, c) >= Allowed(b, c)
  {
    match a
    case BridgeAccept(endpoint) => AcceptCounts(b, endpoint, c);
    case BridgePart(i, farewell) => PartCounts(b, i, farewell, c);
    case BridgeClose(i) => CloseCounts(b, i, c);
    case BridgeAcquire(i) => AcquireCounts(b.lane, i, c);
    case BridgePush(i) => PushCounts(b.lane, i, c);
    case BridgeFail =>
  }

  lemma BridgeMoveIsPaired(w: World, b: Bridge, c: nat)
    requires Paired(w, c) && InBridge(b, c) <= InBridge(w.bridge, c) && Allowed(b, c) >= Allowed(w.bridge, c)
    ensures Paired(w.(bridge := b), c)
  {
  }

  lemma BridgeActKeepsPaired(w: World, a: BridgeAction, c: nat)
    requires Paired(w, c) && DoBridgeAct(w, a).Some?
    ensures Paired(DoBridgeAct(w, a).value, c)
  {
    if a.BridgeAsk? {
      AskKeepsPaired(w, a.conn, a.payload, c);
    } else {
      BridgeStepCounts(w.bridge, a, c);
      BridgeMoveIsPaired(w, BridgeStep(w.bridge, a).value, c);
    }
  }

  lemma RoutedIsPaired(w: World, b: Bridge, dropped: bool, c: nat)
    requires Paired(w, c) && w.toAgent != [] && Route(w.bridge, w.toAgent[0], dropped) == Some(b)
    ensures Paired(w.(bridge := b, toAgent := w.toAgent[1..]), c)
  {
    SumFirst(w.toAgent, OfFrame(c));
    RouteCounts(w.bridge, w.toAgent[0], dropped, c);
  }

  lemma HandshakeIsPaired(w: World, w': World, c: nat)
    requires Paired(w, c) && w.toAgent != [] && w'.toAgent == w.toAgent[1..] && w'.host == w.host
    requires w'.bridge == w.bridge.(stance := w'.bridge.stance)
    requires w'.toHost == w.toHost || w'.toHost == w.toHost + [Frame(Health, 0, [], Control)]
    ensures Paired(w', c)
  {
    SumFirst(w.toAgent, OfFrame(c));
    SumAppend(w.toHost, Frame(Health, 0, [], Control), OfFrame(c));
  }

  lemma BridgeReadKeepsPaired(w: World, dropped: bool, c: nat)
    requires Paired(w, c) && DoBridgeRead(w, dropped).Some?
    ensures Paired(DoBridgeRead(w, dropped).value, c)
  {
    var w' := DoBridgeRead(w, dropped).value;
    if w.bridge.stance.Serving? || w.bridge.stance.Stopped? {
      RoutedIsPaired(w, Route(w.bridge, w.toAgent[0], dropped).value, dropped, c);
    } else {
      HandshakeIsPaired(w, w', c);
    }
  }

  lemma BridgeWriteKeepsPaired(w: World, c: nat)
    requires Paired(w, c) && DoBridgeWrite(w).Some?
    ensures Paired(DoBridgeWrite(w).value, c)
  {
    PopCounts(w.bridge.lane, c);
    SumAppend(w.toHost, w.bridge.lane.queue[0].frame, OfFrame(c));
  }

  /** What is delivered is what was under way, so afterwards nothing is. */
  lemma ReceiveKeepsPaired(w: World, i: nat, c: nat)
    requires RoutingInv(w) && Paired(w, c) && DoBridgeReceive(w, i).Some?
    ensures Paired(DoBridgeReceive(w, i).value, c)
    ensures c == i && w.bridge.conns[i].endpoint.AgentSocket? && Delivers(AgentSocket, w.bridge.conns[i].inbox[0]) ==>
              InFlight(w, c) == 1 && InFlight(DoBridgeReceive(w, i).value, c) == 0
  {
    ReceiveCounts(w.bridge, i, c);
    assert OwnFrames(w.bridge.streams, i, w.bridge.conns[i].inbox);
  }

  lemma NextKeepsPaired(w: World, a: Action, c: nat)
    requires w.policies != [] && RoutingInv(w) && Paired(w, c) && Next(w, a).Some?
    ensures Paired(Next(w, a).value, c)
  {
    match a
    case ChangePolicy(_, _) =>
    case HostAct(h) => HostActKeepsPaired(w, h, c);
    case HostRead(connected) => HostReadKeepsPaired(w, connected, c);
    case HostWrite => HostWriteKeepsPaired(w, c);
    case BridgeAct(b) => BridgeActKeepsPaired(w, b, c);
    case BridgeRead(dropped) => BridgeReadKeepsPaired(w, dropped, c);
    case BridgeWrite => BridgeWriteKeepsPaired(w, c);
    case BridgeReceive(i) => ReceiveKeepsPaired(w, i, c);
  }

  lemma RunStepKeepsPaired(t: seq<World>, acts: seq<Action>, i: nat, c: nat)
    requires IsRun(t, acts) && i < |acts| && Paired(t[i], c)
    ensures Paired(t[i + 1], c)
  {
    RunKeepsRouting(t, acts, i);
    RunSteps(t, acts, i);
    NextKeepsPaired(t[i], acts[i], c);
  }

  lemma RunStartsPaired(t: seq<World>, acts: seq<Action>, c: nat)
    requires IsRun(t, acts)
    ensures Paired(t[0], c)
  {
    var revision, grants, resolved :| t[0] == Start(NewPolicy(revision, grants), resolved);
    StartIsPaired(NewPolicy(revision, grants), resolved, c);
  }

  lemma {:induction false} RunKeepsPaired(t: seq<World>, acts: seq<Action>, i: nat, c: nat)
    requires IsRun(t, acts) && i < |t|
    ensures Paired(t[i], c)
  {
    if i == 0 {
      RunStartsPaired(t, acts, c);
    } else {
      RunKeepsPaired(t, acts, i - 1, c);
      RunStepKeepsPaired(t, acts, i - 1, c);
    }
  }

  /**
   In every run a connection has at most one packet or answer under way between its socket and the
   agent, and none before its first packet or between two; and when an answer is delivered to it, that
   was the only one. So every delivered answer is the answer to the packet the connection waits for.
   */
  lemma AnswersMatchTheirPackets(t: seq<World>, acts: seq<Action>, i: nat, c: nat)
    requires IsRun(t, acts) && i < |t| && c < |t[i].bridge.conns|
    ensures InFlight(t[i], c) <= 1
    ensures t[i].bridge.conns[c].phase.Fresh? || t[i].bridge.conns[c].phase.Resting? ==> InFlight(t[i], c) == 0
    ensures i < |acts| && acts[i] == BridgeReceive(c) && t[i].bridge.conns[c].endpoint.AgentSocket?
            && |t[i + 1].delivered| > |t[i].delivered| ==>
              t[i].bridge.conns[c].phase.Waiting? && InFlight(t[i], c) == 1 && InFlight(t[i + 1], c) == 0
  {
    RunKeepsPaired(t, acts, i, c);
    if i < |acts| && acts[i] == BridgeReceive(c) {
      RunSteps(t, acts, i);
      RunKeepsRouting(t, acts, i);
      ReceiveKeepsPaired(t[i], c, c);
    }
  }
}
