/** What travels is passed on unchanged: every body, packet, credential, answer and identity is the one that was brought. */
module BrokerContents {
  import opened Bytes
  import opened Wrappers
  import CredentialGrants
  import opened LivePolicy
  import opened FrameLane
  import opened HostBroker
  import opened AgentBridge
  import opened BrokerSystem
  import opened BrokerRouting

  /** Bytes entering the system: from a local connection, from the credential backend, an agent or the identity backend. */
  datatype Brought =
    | BySocket(conn: nat, bytes: seq<Byte>)
    | ByLookup(origin: Origin, bytes: seq<Byte>)
    | ByAgent(origin: Origin, bytes: seq<Byte>)
    | ByIdentity(origin: Origin, bytes: seq<Byte>)

  /** The action, taken in this world, brings these bytes for this party. */
  ghost predicate Brings(w: World, a: Action, g: Brought) {
    match g
    case BySocket(c, bytes) => a == BridgeAct(BridgeAsk(c, bytes))
    case ByLookup(origin, bytes) =>
      && a.HostAct? && a.host.HostFindCredential? && a.host.bytes == bytes
      && a.host.task < |w.host.tasks| && w.host.tasks[a.host.task].origin == origin
    case ByAgent(origin, bytes) =>
      && a.HostAct? && a.host.HostAnswerPacket? && a.host.bytes == bytes
      && a.host.task < |w.host.tasks| && w.host.tasks[a.host.task].job.Exchanging?
      && w.host.tasks[a.host.task].job.asker == origin
    case ByIdentity(origin, bytes) =>
      a == HostAct(HostAnswerIdentity(Some(bytes))) && w.host.loop.AwaitIdentity? && w.host.loop.origin == origin
  }

  type Known = Brought -> bool

  // ----- Everything under way is known -----

  /** A frame on its way to the host carries what its connection gave, at most 64 KiB. */
  ghost predicate Up(known: Known, f: Frame) {
    && |f.payload| <= 65_536
    && (f.kind.CredentialLookup? || f.kind.StreamData? ==>
          f.origin.Connection? && known(BySocket(f.origin.index, f.payload)))
  }

  /** A frame on its way to the container carries what a backend gave for its party, at most 64 KiB. */
  ghost predicate Down(known: Known, f: Frame) {
    && |f.payload| <= 65_536
    && (f.kind.CredentialResult? ==> known(ByLookup(f.origin, f.payload)))
    && (f.kind.StreamData? ==> known(ByAgent(f.origin, f.payload)))
    && (f.kind.IdentityResult? ==> known(ByIdentity(f.origin, f.payload)))
  }

  ghost predicate AllUp(known: Known, fs: seq<Frame>) {
    forall i :: 0 <= i < |fs| ==> Up(known, fs[i])
  }

  ghost predicate AllDown(known: Known, fs: seq<Frame>) {
    forall i :: 0 <= i < |fs| ==> Down(known, fs[i])
  }

  ghost predicate LaneUp(known: Known, lane: Lane) {
    && (forall i :: 0 <= i < |lane.senders| && lane.senders[i].Some? ==> Up(known, lane.senders[i].value.frame))
    && (forall i :: 0 <= i < |lane.queue| ==> Up(known, lane.queue[i].frame))
  }

  ghost predicate LaneDown(known: Known, lane: Lane) {
    && (forall i :: 0 <= i < |lane.senders| && lane.senders[i].Some? ==> Down(known, lane.senders[i].value.frame))
    && (forall i :: 0 <= i < |lane.queue| ==> Down(known, lane.queue[i].frame))
  }

  /** What a task works on: a lookup body or a packet of its party, and perhaps the credential found for it. */
  ghost predicate Working(known: Known, t: Task) {
    && AllUp(known, t.inbox)
    && match t.job
       case Helper(_, body) => t.origin.Connection? && known(BySocket(t.origin.index, body))
       case Found(_, body, _, answer) =>
         t.origin.Connection? && known(BySocket(t.origin.index, body)) && known(ByLookup(t.origin, answer))
       case Exchanging(_, _, asker, packet) => asker.Connection? && known(BySocket(asker.index, packet))
       case _ => true
  }

  ghost predicate HostKnown(known: Known, h: Host) {
    LaneDown(known, h.lane) && forall i :: 0 <= i < |h.tasks| ==> Working(known, h.tasks[i])
  }

  ghost predicate BridgeKnown(known: Known, b: Bridge) {
    LaneUp(known, b.lane) && forall c :: 0 <= c < |b.conns| ==> AllDown(known, b.conns[c].inbox)
  }

  ghost predicate AskedKnown(known: Known, x: Asked) {
    x.asker.Connection? && known(BySocket(x.asker.index, x.packet))
  }

  ghost predicate AllKnown(known: Known, w: World) {
    && HostKnown(known, w.host) && BridgeKnown(known, w.bridge) && AllUp(known, w.toHost) && AllDown(known, w.toAgent)
    && (forall k :: 0 <= k < |w.written| ==> Down(known, w.written[k].sent.frame))
    && (forall k :: 0 <= k < |w.asked| ==> AskedKnown(known, w.asked[k]))
    && (forall k :: 0 <= k < |w.delivered| ==> Down(known, w.delivered[k].frame))
  }

  ghost predicate Includes(known: Known, more: Known) {
    forall g :: known(g) ==> more(g)
  }

  lemma WorkingStays(known: Known, more: Known, t: Task)
    requires Includes(known, more) && Working(known, t)
    ensures Working(more, t)
  {
  }

  lemma HostStaysKnown(known: Known, more: Known, h: Host)
    requires Includes(known, more) && HostKnown(known, h)
    ensures HostKnown(more, h)
  {
    forall i | 0 <= i < |h.tasks|
      ensures Working(more, h.tasks[i])
    {
      WorkingStays(known, more, h.tasks[i]);
    }
  }

  /** What is known stays known. */
  lemma StaysKnown(known: Known, more: Known, w: World)
    requires Includes(known, more) && AllKnown(known, w)
    ensures AllKnown(more, w)
  {
    HostStaysKnown(known, more, w.host);
  }

  // ----- The host -----

  /** A task moves on, perhaps offering a known frame. */
  lemma TaskMoveKnown(known: Known, h: Host, h': Host, i: nat)
    requires HostKnown(known, h) && i < |h.tasks| && |h'.tasks| == |h.tasks| && |h'.lane.senders| == |h.lane.senders|
    requires h'.tasks == h.tasks[i := h'.tasks[i]] && Working(known, h'.tasks[i])
    requires h'.lane == h.lane
             || (i + 1 < |h.lane.senders| && h'.lane.senders[i + 1].Some? && Down(known, h'.lane.senders[i + 1].value.frame)
                 && h'.lane == h.lane.(senders := h.lane.senders[i + 1 := h'.lane.senders[i + 1]]))
    ensures HostKnown(known, h')
  {
  }

  lemma FindCredentialKnown(known: Known, h: Host, i: nat, policy: Policy, at: nat, origin: CredentialGrants.Origin, bytes: seq<Byte>)
    requires HostKnown(known, h) && FindCredential(h, i, policy, at, origin, bytes).Some?
    requires i < |h.tasks| && known(ByLookup(h.tasks[i].origin, bytes))
    ensures HostKnown(known, FindCredential(h, i, policy, at, origin, bytes).value)
  {
    assert Working(known, h.tasks[i]);
    TaskMoveKnown(known, h, FindCredential(h, i, policy, at, origin, bytes).value, i);
  }

  lemma AnswerLookupKnown(known: Known, h: Host, i: nat, policy: Policy, failed: bool)
    requires HostKnown(known, h) && AnswerLookup(h, i, policy, failed).Some?
    ensures HostKnown(known, AnswerLookup(h, i, policy, failed).value)
  {
    assert Working(known, h.tasks[i]);
    TaskMoveKnown(known, h, AnswerLookup(h, i, policy, failed).value, i);
  }

  lemma TakePacketKnown(known: Known, h: Host, i: nat, policy: Policy, at: nat)
    requires HostKnown(known, h) && TakePacket(h, i, policy, at).Some?
    ensures HostKnown(known, TakePacket(h, i, policy, at).value)
    ensures AskedKnown(known, Asking(h.tasks[i], at))
  {
    assert Working(known, h.tasks[i]) && Up(known, h.tasks[i].inbox[0]);
    TaskMoveKnown(known, h, TakePacket(h, i, policy, at).value, i);
  }

  lemma AnswerPacketKnown(known: Known, h: Host, i: nat, policy: Policy, bytes: seq<Byte>)
    requires HostKnown(known, h) && AnswerPacket(h, i, policy, bytes).Some?
    requires i < |h.tasks| && h.tasks[i].job.Exchanging? && known(ByAgent(h.tasks[i].job.asker, bytes))
    ensures HostKnown(known, AnswerPacket(h, i, policy, bytes).value)
  {
    assert Working(known, h.tasks[i]);
    TaskMoveKnown(known, h, AnswerPacket(h, i, policy, bytes).value, i);
  }

  lemma EndingKnown(known: Known, h: Host, i: nat, announce: bool)
    requires HostKnown(known, h)
    ensures LeaveRelay(h, i, announce).Some? ==> HostKnown(known, LeaveRelay(h, i, announce).value)
    ensures FinishTask(h, i).Some? ==> HostKnown(known, FinishTask(h, i).value)
  {
    if LeaveRelay(h, i, announce).Some? {
      assert Working(known, h.tasks[i]);
      TaskMoveKnown(known, h, LeaveRelay(h, i, announce).value, i);
    }
    if FinishTask(h, i).Some? {
      assert Working(known, h.tasks[i]);
      TaskMoveKnown(known, h, FinishTask(h, i).value, i);
    }
  }

  lemma AnswerIdentityKnown(known: Known, h: Host, policy: Policy, answer: Option<seq<Byte>>)
    requires HostKnown(known, h) && AnswerIdentity(h, policy, answer).Some?
    requires h.loop.AwaitIdentity? && answer.Some? ==> known(ByIdentity(h.loop.origin, answer.value))
    ensures HostKnown(known, AnswerIdentity(h, policy, answer).value)
  {
  }

  lemma HostStepKnown(known: Known, w: World, a: HostAction)
    requires w.policies != [] && HostKnown(known, w.host) && HostStep(w.host, Policy0(w), |w.policies| - 1, a).Some?
    requires forall g :: Brings(w, HostAct(a), g) ==> known(g)
    ensures HostKnown(known, HostStep(w.host, Policy0(w), |w.policies| - 1, a).value)
  {
    var h, p, at := w.host, Policy0(w), |w.policies| - 1;
    match a
    case HostAnswerIdentity(answer) =>
      if h.loop.AwaitIdentity? && answer.Some? {
        assert Brings(w, HostAct(a), ByIdentity(h.loop.origin, answer.value));
      }
      AnswerIdentityKnown(known, h, p, answer);
    case HostFindCredential(i, origin, bytes) =>
      assert Brings(w, HostAct(a), ByLookup(h.tasks[i].origin, bytes));
      FindCredentialKnown(known, h, i, p, at, origin, bytes);
    case HostAnswerLookup(i, failed) => AnswerLookupKnown(known, h, i, p, failed);
    case HostTakePacket(i) => TakePacketKnown(known, h, i, p, at);
    case HostAnswerPacket(i, bytes) =>
      assert Brings(w, HostAct(a), ByAgent(h.tasks[i].job.asker, bytes));
      AnswerPacketKnown(known, h, i, p, bytes);
    case HostLeaveRelay(i, announce) => EndingKnown(known, h, i, announce);
    case HostFinishTask(i) => EndingKnown(known, h, i, true);
    case HostAcquire(i) =>
    case HostPush(i) =>
    case HostFail =>
  }

  lemma SpawnKnown(known: Known, h: Host, t: Task)
    requires HostKnown(known, h) && Working(known, t)
    ensures HostKnown(known, Spawn(h, t))
  {
  }

  lemma DispatchLookupKnown(known: Known, h: Host, f: Frame, policy: Policy, at: nat)
    requires HostKnown(known, h) && LoopFree(h) && Up(known, f) && f.kind.CredentialLookup?
    ensures HostKnown(known, DispatchLookup(h, f, policy, at))
  {
    if h.helpersFree > 0 {
      SpawnKnown(known, h.(helpersFree := h.helpersFree - 1),
                 Task(f.stream, f.origin, at, Helper(Captured(Epoch(policy, Lookup), at), f.payload), []));
    }
  }

  lemma DispatchOpenKnown(known: Known, h: Host, f: Frame, policy: Policy, at: nat, connected: bool)
    requires HostKnown(known, h) && LoopFree(h)
    ensures HostKnown(known, DispatchOpen(h, f, policy, at, connected))
  {
    if h.streamsFree > 0 && h.adapter.Some? {
      SpawnKnown(known, h.(streamsFree := h.streamsFree - 1, inputs := h.inputs[f.stream := Some(|h.tasks|)],
                           relayed := h.relayed + {f.stream}),
                 Task(f.stream, f.origin, at, Relay(h.adapter.value), []));
    }
  }

  lemma DispatchStreamKnown(known: Known, h: Host, f: Frame)
    requires HostKnown(known, h) && Up(known, f) && DispatchStream(h, f).Some?
    ensures HostKnown(known, DispatchStream(h, f).value)
  {
    if Routable(h, f.stream) {
      var i := h.inputs[f.stream].value;
      assert Working(known, h.tasks[i]);
      TaskMoveKnown(known, h, DispatchStream(h, f).value, i);
    }
  }

  lemma DispatchKnown(known: Known, h: Host, f: Frame, policy: Policy, at: nat, connected: bool)
    requires HostKnown(known, h) && LoopFree(h) && Up(known, f) && Dispatch(h, f, policy, at, connected).Some?
    ensures HostKnown(known, Dispatch(h, f, policy, at, connected).value)
  {
    match f.kind
    case CredentialLookup => DispatchLookupKnown(known, h, f, policy, at);
    case AgentOpen => DispatchOpenKnown(known, h, f, policy, at, connected);
    case StreamData => DispatchStreamKnown(known, h, f);
    case StreamClose => DispatchStreamKnown(known, h, f);
    case Cancel => DispatchStreamKnown(known, h, f);
    case IdentityRequest =>
    case Health =>
    case _ =>
  }

  // ----- The bridge -----

  lemma ConnMoveKnown(known: Known, b: Bridge, b': Bridge, c: nat)
    requires BridgeKnown(known, b) && c < |b.conns| && |b'.conns| == |b.conns| && |b'.lane.senders| == |b.lane.senders|
    requires b'.conns == b.conns[c := b'.conns[c]] && AllDown(known, b'.conns[c].inbox)
    requires b'.lane == b.lane
             || (c + 1 < |b.lane.senders| && b'.lane.senders[c + 1].Some? && Up(known, b'.lane.senders[c + 1].value.frame)
                 && b'.lane == b.lane.(senders := b.lane.senders[c + 1 := b'.lane.senders[c + 1]]))
    ensures BridgeKnown(known, b')
  {
  }

  lemma AskKnown(known: Known, b: Bridge, c: nat, payload: seq<Byte>)
    requires BridgeKnown(known, b) && Ask(b, c, payload).Some? && known(BySocket(c, payload))
    ensures BridgeKnown(known, Ask(b, c, payload).value)
  {
    assert AllDown(known, b.conns[c].inbox);
    ConnMoveKnown(known, b, Ask(b, c, payload).value, c);
  }

  lemma PartingKnown(known: Known, b: Bridge, c: nat, farewell: Option<Kind>)
    requires BridgeKnown(known, b)
    ensures Part(b, c, farewell).Some? ==> BridgeKnown(known, Part(b, c, farewell).value)
    ensures Close(b, c).Some? ==> BridgeKnown(known, Close(b, c).value)
  {
    if Part(b, c, farewell).Some? {
      assert AllDown(known, b.conns[c].inbox);
      ConnMoveKnown(known, b, Part(b, c, farewell).value, c);
    }
    if Close(b, c).Some? {
      assert AllDown(known, b.conns[c].inbox);
      ConnMoveKnown(known, b, Close(b, c).value, c);
    }
  }

  lemma BridgeStepKnown(known: Known, w: World, a: BridgeAction)
    requires BridgeKnown(known, w.bridge) && BridgeStep(w.bridge, a).Some?
    requires forall g :: Brings(w, BridgeAct(a), g) ==> known(g)
    ensures BridgeKnown(known, BridgeStep(w.bridge, a).value)
  {
    match a
    case BridgeAccept(endpoint) =>
    case BridgeAsk(c, payload) =>
      assert Brings(w, BridgeAct(a), BySocket(c, payload));
      AskKnown(known, w.bridge, c, payload);
    case BridgePart(c, farewell) => PartingKnown(known, w.bridge, c, farewell);
    case BridgeClose(c) => PartingKnown(known, w.bridge, c, None);
    case BridgeAcquire(i) =>
    case BridgePush(i) =>
    case BridgeFail =>
  }

  lemma RouteKnown(known: Known, b: Bridge, f: Frame, dropped: bool)
    requires BridgeKnown(known, b) && Down(known, f) && Route(b, f, dropped).Some?
    ensures BridgeKnown(known, Route(b, f, dropped).value)
  {
    var b' := Route(b, f, dropped).value;
    if b'.conns != b.conns {
      var c := b.recipients[f.stream];
      assert AllDown(known, b.conns[c].inbox);
      ConnMoveKnown(known, b, b', c);
    }
  }

  // ----- Steps and runs -----

  /** The host moves and nothing is recorded; it may have read the first frame on its wire. */
  lemma HostMoveKnown(known: Known, w: World, w': World)
    requires AllKnown(known, w) && HostKnown(known, w'.host) && w'.bridge == w.bridge && w'.toAgent == w.toAgent
    requires w'.toHost == w.toHost || (w.toHost != [] && w'.toHost == w.toHost[1..])
    requires w'.written == w.written && w'.delivered == w.delivered
    requires w'.asked == w.asked
             || (|w'.asked| == |w.asked| + 1 && w'.asked[..|w.asked|] == w.asked && AskedKnown(known, w'.asked[|w.asked|]))
    ensures AllKnown(known, w')
  {
    forall k | 0 <= k < |w'.asked|
      ensures AskedKnown(known, w'.asked[k])
    {
      assert k < |w.asked| ==> w'.asked[k] == w.asked[k];
    }
  }

  lemma HostActKnown(known: Known, w: World, a: HostAction)
    requires w.policies != [] && AllKnown(known, w) && DoHostAct(w, a).Some?
    requires forall g :: Brings(w, HostAct(a), g) ==> known(g)
    ensures AllKnown(known, DoHostAct(w, a).value)
  {
    HostStepKnown(known, w, a);
    if a.HostTakePacket? {
      TakePacketKnown(known, w.host, a.task, Policy0(w), |w.policies| - 1);
    }
    HostMoveKnown(known, w, DoHostAct(w, a).value);
  }

  lemma HostReadKnown(known: Known, w: World, connected: bool)
    requires w.policies != [] && AllKnown(known, w) && DoHostRead(w, connected).Some?
    ensures AllKnown(known, DoHostRead(w, connected).value)
  {
    var f, at := w.toHost[0], |w.policies| - 1;
    assert Up(known, f);
    DispatchKnown(known, w.host, f, Policy0(w), at, connected);
    var h := Dispatch(w.host, f, Policy0(w), at, connected).value;
    HostMoveKnown(known, w, w.(host := h, toHost := w.toHost[1..]));
  }

  lemma HostWriteKnown(known: Known, w: World)
    requires w.policies != [] && AllKnown(known, w) && DoHostWrite(w).Some?
    ensures AllKnown(known, DoHostWrite(w).value)
  {
    assert Down(known, w.host.lane.queue[0].frame);
    assert Down(known, Release(Policy0(w), w.host.lane.queue[0]).frame);
  }

  lemma BridgeMoveKnown(known: Known, w: World, w': World)
    requires AllKnown(known, w) && BridgeKnown(known, w'.bridge) && w'.host == w.host
    requires w'.toAgent == w.toAgent || (w.toAgent != [] && w'.toAgent == w.toAgent[1..])
    requires AllUp(known, w'.toHost) && w'.written == w.written && w'.asked == w.asked
    requires w'.delivered == w.delivered
             || (|w'.delivered| == |w.delivered| + 1 && w'.delivered[..|w.delivered|] == w.delivered
                 && Down(known, w'.delivered[|w.delivered|].frame))
    ensures AllKnown(known, w')
  {
    forall k | 0 <= k < |w'.delivered|
      ensures Down(known, w'.delivered[k].frame)
    {
      assert k < |w.delivered| ==> w'.delivered[k] == w.delivered[k];
    }
  }

  lemma BridgeReadKnown(known: Known, w: World, dropped: bool)
    requires AllKnown(known, w) && DoBridgeRead(w, dropped).Some?
    ensures AllKnown(known, DoBridgeRead(w, dropped).value)
  {
    assert Down(known, w.toAgent[0]);
    if w.bridge.stance.Serving? || w.bridge.stance.Stopped? {
      RouteKnown(known, w.bridge, w.toAgent[0], dropped);
    }
    BridgeMoveKnown(known, w, DoBridgeRead(w, dropped).value);
  }

  lemma BridgeWriteKnown(known: Known, w: World)
    requires AllKnown(known, w) && DoBridgeWrite(w).Some?
    ensures AllKnown(known, DoBridgeWrite(w).value)
  {
    assert Up(known, w.bridge.lane.queue[0].frame);
    BridgeMoveKnown(known, w, DoBridgeWrite(w).value);
  }

  lemma ReceiveKnown(known: Known, w: World, c: nat)
    requires AllKnown(known, w) && DoBridgeReceive(w, c).Some?
    ensures AllKnown(known, DoBridgeReceive(w, c).value)
  {
    assert AllDown(known, w.bridge.conns[c].inbox);
    ConnMoveKnown(known, w.bridge, Receive(w.bridge, c).value, c);
    BridgeMoveKnown(known, w, DoBridgeReceive(w, c).value);
  }

  lemma BridgeActKnown(known: Known, w: World, a: BridgeAction)
    requires AllKnown(known, w) && DoBridgeAct(w, a).Some?
    requires forall g :: Brings(w, BridgeAct(a), g) ==> known(g)
    ensures AllKnown(known, DoBridgeAct(w, a).value)
  {
    BridgeStepKnown(known, w, a);
    BridgeMoveKnown(known, w, DoBridgeAct(w, a).value);
  }

  /** A step adds nothing but what its action brings. */
  lemma NextKnown(known: Known, w: World, a: Action)
    requires w.policies != [] && AllKnown(known, w) && Next(w, a).Some? && forall g :: Brings(w, a, g) ==> known(g)
    ensures AllKnown(known, Next(w, a).value)
  {
    match a
    case ChangePolicy(_, _) =>
    case HostAct(h) => HostActKnown(known, w, h);
    case HostRead(connected) => HostReadKnown(known, w, connected);
    case HostWrite => HostWriteKnown(known, w);
    case BridgeAct(b) => BridgeActKnown(known, w, b);
    case BridgeRead(dropped) => BridgeReadKnown(known, w, dropped);
    case BridgeWrite => BridgeWriteKnown(known, w);
    case BridgeReceive(c) => ReceiveKnown(known, w, c);
  }

  /** Some action before moment `i` brought it. */
  ghost predicate BroughtBefore(t: seq<World>, acts: seq<Action>, i: nat, g: Brought)
    requires |t| == |acts| + 1
  {
    exists j :: 0 <= j < i && j < |acts| && Brings(t[j], acts[j], g)
  }

  ghost function KnownBefore(t: seq<World>, acts: seq<Action>, i: nat): Known
    requires |t| == |acts| + 1
  {
    (g: Brought) => BroughtBefore(t, acts, i, g)
  }

  lemma KnownGrows(t: seq<World>, acts: seq<Action>, i: nat)
    requires |t| == |acts| + 1 && i < |acts|
    ensures Includes(KnownBefore(t, acts, i), KnownBefore(t, acts, i + 1))
    ensures forall g :: Brings(t[i], acts[i], g) ==> KnownBefore(t, acts, i + 1)(g)
  {
    forall g | KnownBefore(t, acts, i)(g)
      ensures KnownBefore(t, acts, i + 1)(g)
    {
      var j :| 0 <= j < i && j < |acts| && Brings(t[j], acts[j], g);
    }
  }

  lemma {:induction false} RunIsKnown(t: seq<World>, acts: seq<Action>, i: nat)
    requires IsRun(t, acts) && i < |t|
    ensures AllKnown(KnownBefore(t, acts, i), t[i])
  {
    if i > 0 {
      RunIsKnown(t, acts, i - 1);
      RunSteps(t, acts, i - 1);
      KnownGrows(t, acts, i - 1);
      StaysKnown(KnownBefore(t, acts, i - 1), KnownBefore(t, acts, i), t[i - 1]);
      NextKnown(KnownBefore(t, acts, i), t[i - 1], acts[i - 1]);
    }
  }

  // ----- What arrives -----

  /** In every run a delivered credential is, byte for byte, one the backend returned for a lookup of that connection. */
  lemma DeliveredCredentialWasFound(t: seq<World>, acts: seq<Action>, i: nat, k: nat)
      returns (j: nat, task: nat, origin: CredentialGrants.Origin)
    requires IsRun(t, acts) && i < |t| && k < |t[i].delivered| && t[i].delivered[k].frame.kind.CredentialResult?
    ensures j < i && j < |acts| && acts[j] == HostAct(HostFindCredential(task, origin, t[i].delivered[k].frame.payload))
    ensures task < |t[j].host.tasks| && t[j].host.tasks[task].origin == Connection(t[i].delivered[k].conn)
    ensures |t[j].policies| > 0 && var grants := t[j].policies[|t[j].policies| - 1].grants;
            grants.gitHttps.Some? && origin in grants.gitHttps.value
  {
    RunIsKnown(t, acts, i);
    RunKeepsRouting(t, acts, i);
    var d := t[i].delivered[k];
    assert Down(KnownBefore(t, acts, i), d.frame) && RightlyDelivered(t[i].bridge.streams, d);
    var g := ByLookup(d.frame.origin, d.frame.payload);
    j :| 0 <= j < i && j < |acts| && Brings(t[j], acts[j], g);
    task, origin := acts[j].host.task, acts[j].host.origin;
    RunSteps(t, acts, j);
  }

  /** A delivered agent packet is, byte for byte, one the agent answered to a packet of that connection. */
  lemma DeliveredPacketWasAnswered(t: seq<World>, acts: seq<Action>, i: nat, k: nat) returns (j: nat, task: nat)
    requires IsRun(t, acts) && i < |t| && k < |t[i].delivered| && t[i].delivered[k].frame.kind.StreamData?
    ensures j < i && j < |acts| && acts[j] == HostAct(HostAnswerPacket(task, t[i].delivered[k].frame.payload))
    ensures task < |t[j].host.tasks| && t[j].host.tasks[task].job.Exchanging?
    ensures t[j].host.tasks[task].job.asker == Connection(t[i].delivered[k].conn)
  {
    RunIsKnown(t, acts, i);
    RunKeepsRouting(t, acts, i);
    var d := t[i].delivered[k];
    assert Down(KnownBefore(t, acts, i), d.frame) && RightlyDelivered(t[i].bridge.streams, d);
    var g := ByAgent(d.frame.origin, d.frame.payload);
    j :| 0 <= j < i && j < |acts| && Brings(t[j], acts[j], g);
    task := acts[j].host.task;
  }

  /** A packet put to the agent is, byte for byte, one its connection read from its socket. */
  lemma AskedPacketWasSent(t: seq<World>, acts: seq<Action>, i: nat, k: nat) returns (j: nat, c: nat)
    requires IsRun(t, acts) && i < |t| && k < |t[i].asked|
    ensures t[i].asked[k].asker == Connection(c)
    ensures j < i && j < |acts| && acts[j] == BridgeAct(BridgeAsk(c, t[i].asked[k].packet))
  {
    RunIsKnown(t, acts, i);
    var x := t[i].asked[k];
    assert AskedKnown(KnownBefore(t, acts, i), x);
    c := x.asker.index;
    j :| 0 <= j < i && j < |acts| && Brings(t[j], acts[j], BySocket(c, x.packet));
  }

  /** A lookup asks the backend, byte for byte, what its connection read from its socket. */
  lemma LookupBodyWasSent(t: seq<World>, acts: seq<Action>, i: nat, n: nat) returns (j: nat, c: nat)
    requires IsRun(t, acts) && i < |t| && n < |t[i].host.tasks|
    requires t[i].host.tasks[n].job.Helper? || t[i].host.tasks[n].job.Found?
    ensures t[i].host.tasks[n].origin == Connection(c)
    ensures j < i && j < |acts| && acts[j] == BridgeAct(BridgeAsk(c, t[i].host.tasks[n].job.body))
  {
    RunIsKnown(t, acts, i);
    var x := t[i].host.tasks[n];
    assert Working(KnownBefore(t, acts, i), x);
    c := x.origin.index;
    j :| 0 <= j < i && j < |acts| && Brings(t[j], acts[j], BySocket(c, x.job.body));
  }

  /** A written identity is, byte for byte, what the identity backend gave. */
  lemma WrittenIdentityWasGiven(t: seq<World>, acts: seq<Action>, i: nat, k: nat) returns (j: nat)
    requires IsRun(t, acts) && i < |t| && k < |t[i].written| && t[i].written[k].sent.frame.kind.IdentityResult?
    ensures j < i && j < |acts| && acts[j] == HostAct(HostAnswerIdentity(Some(t[i].written[k].sent.frame.payload)))
  {
    RunIsKnown(t, acts, i);
    var f := t[i].written[k].sent.frame;
    assert Down(KnownBefore(t, acts, i), f);
    j :| 0 <= j < i && j < |acts| && Brings(t[j], acts[j], ByIdentity(f.origin, f.payload));
  }

  /** No frame on either wire, in a lane or in an inbox is longer than 64 KiB. */
  lemma EveryFrameFits(t: seq<World>, acts: seq<Action>, i: nat)
    requires IsRun(t, acts) && i < |t|
    ensures forall k :: 0 <= k < |t[i].toHost| ==> |t[i].toHost[k].payload| <= 65_536
    ensures forall k :: 0 <= k < |t[i].toAgent| ==> |t[i].toAgent[k].payload| <= 65_536
    ensures forall k :: 0 <= k < |t[i].host.lane.queue| ==> |t[i].host.lane.queue[k].frame.payload| <= 65_536
    ensures forall k :: 0 <= k < |t[i].bridge.lane.queue| ==> |t[i].bridge.lane.queue[k].frame.payload| <= 65_536
    ensures forall n, k :: 0 <= n < |t[i].host.tasks| && 0 <= k < |t[i].host.tasks[n].inbox| ==>
              |t[i].host.tasks[n].inbox[k].payload| <= 65_536
    ensures forall c, k :: 0 <= c < |t[i].bridge.conns| && 0 <= k < |t[i].bridge.conns[c].inbox| ==>
              |t[i].bridge.conns[c].inbox[k].payload| <= 65_536
  {
    RunIsKnown(t, acts, i);
    var known := KnownBefore(t, acts, i);
    forall n, k | 0 <= n < |t[i].host.tasks| && 0 <= k < |t[i].host.tasks[n].inbox|
      ensures |t[i].host.tasks[n].inbox[k].payload| <= 65_536
    {
      assert Working(known, t[i].host.tasks[n]) && Up(known, t[i].host.tasks[n].inbox[k]);
    }
    forall c, k | 0 <= c < |t[i].bridge.conns| && 0 <= k < |t[i].bridge.conns[c].inbox|
      ensures |t[i].bridge.conns[c].inbox[k].payload| <= 65_536
    {
      assert AllDown(known, t[i].bridge.conns[c].inbox) && Down(known, t[i].bridge.conns[c].inbox[k]);
    }
  }

  // ----- Where it arrives -----

  /** Credential sockets get credentials and agent sockets get well-formed agent packets, and nothing else. */
  ghost predicate FitsSocket(b: Bridge, d: Delivery) {
    && d.conn < |b.conns|
    && (b.conns[d.conn].endpoint.CredentialSocket? ==> d.frame.kind.CredentialResult?)
    && (b.conns[d.conn].endpoint.AgentSocket? ==>
          && d.frame.kind.StreamData? && |d.frame.payload| > 4
          && d.frame.payload == ToBe(|d.frame.payload| - 4, 4) + d.frame.payload[4..])
  }

  ghost predicate SameSockets(b: Bridge, b': Bridge) {
    |b.conns| <= |b'.conns| && forall c :: 0 <= c < |b.conns| ==> b'.conns[c].endpoint == b.conns[c].endpoint
  }

  lemma MoveKeepsSockets(b: Bridge, a: BridgeAction)
    requires BridgeStep(b, a).Some?
    ensures SameSockets(b, BridgeStep(b, a).value)
  {
  }

  lemma ReadKeepsSockets(w: World, dropped: bool)
    requires DoBridgeRead(w, dropped).Some?
    ensures SameSockets(w.bridge, DoBridgeRead(w, dropped).value.bridge)
  {
  }

  lemma SocketsStay(w: World, a: Action)
    requires w.policies != [] && Next(w, a).Some?
    ensures SameSockets(w.bridge, Next(w, a).value.bridge)
  {
    match a
    case BridgeAct(b) => MoveKeepsSockets(w.bridge, b);
    case BridgeRead(dropped) => ReadKeepsSockets(w, dropped);
    case _ =>
  }

  lemma DeliveryFits(w: World, a: Action)
    requires w.policies != [] && Next(w, a).Some?
    ensures var w' := Next(w, a).value;
            && w.delivered <= w'.delivered
            && forall k :: |w.delivered| <= k < |w'.delivered| ==> FitsSocket(w'.bridge, w'.delivered[k])
  {
    if a.BridgeReceive? {
      PacketsAreLengthPrefixed(w.bridge.conns[a.conn].inbox[0].payload);
    }
  }

  lemma {:induction false} EverythingFitsItsSocket(t: seq<World>, acts: seq<Action>, i: nat)
    requires IsRun(t, acts) && i < |t|
    ensures forall k :: 0 <= k < |t[i].delivered| ==> FitsSocket(t[i].bridge, t[i].delivered[k])
  {
    if i > 0 {
      EverythingFitsItsSocket(t, acts, i - 1);
      RunSteps(t, acts, i - 1);
      SocketsStay(t[i - 1], acts[i - 1]);
      DeliveryFits(t[i - 1], acts[i - 1]);
      forall k | 0 <= k < |t[i].delivered|
        ensures FitsSocket(t[i].bridge, t[i].delivered[k])
      {
        if k < |t[i - 1].delivered| {
          assert t[i].delivered[k] == t[i - 1].delivered[k] && FitsSocket(t[i - 1].bridge, t[i - 1].delivered[k]);
        }
      }
    }
  }
}
