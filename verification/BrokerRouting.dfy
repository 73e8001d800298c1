/** Responses reach only the connection that asked: stream identifiers across both ends. */
module BrokerRouting {
  import opened Bytes
  import opened Wrappers
  import opened LivePolicy
  import opened FrameLane
  import opened HostBroker
  import opened AgentBridge
  import opened BrokerSystem

  /** The frame's stream identifier is the one of the party it is about. */
  ghost predicate TagOk(streams: seq<nat>, stream: nat, origin: Origin) {
    match origin
    case Control => stream == 0
    case Handshake => stream == 1
    case Connection(c) => c < |streams| && stream == streams[c]
  }

  ghost predicate FramesOk(streams: seq<nat>, frames: seq<Frame>) {
    forall i :: 0 <= i < |frames| ==> TagOk(streams, frames[i].stream, frames[i].origin)
  }

  ghost predicate LaneTagged(streams: seq<nat>, lane: Lane) {
    && (forall i :: 0 <= i < |lane.senders| && lane.senders[i].Some? ==>
          TagOk(streams, lane.senders[i].value.frame.stream, lane.senders[i].value.frame.origin))
    && (forall i :: 0 <= i < |lane.queue| ==> TagOk(streams, lane.queue[i].frame.stream, lane.queue[i].frame.origin))
  }

  /** Everything in a task's hands was sent by the party the task serves. */
  ghost predicate OwnWork(t: Task) {
    && (forall j :: 0 <= j < |t.inbox| ==> t.inbox[j].stream == t.stream && t.inbox[j].origin == t.origin)
    && (t.job.Exchanging? ==> t.job.asker == t.origin)
  }

  ghost predicate HostTagged(streams: seq<nat>, h: Host) {
    && LaneTagged(streams, h.lane)
    && (forall i :: 0 <= i < |h.tasks| ==> TagOk(streams, h.tasks[i].stream, h.tasks[i].origin) && OwnWork(h.tasks[i]))
    && (forall s :: s in h.inputs && h.inputs[s].Some? ==>
          h.inputs[s].value < |h.tasks| && h.tasks[h.inputs[s].value].stream == s)
    && (h.loop.AwaitIdentity? ==> TagOk(streams, h.loop.stream, h.loop.origin))
  }

  ghost predicate OwnFrames(streams: seq<nat>, c: nat, frames: seq<Frame>)
    requires c < |streams|
  {
    forall i :: 0 <= i < |frames| ==> frames[i].origin == Connection(c) && frames[i].stream == streams[c]
  }

  ghost predicate BridgeTagged(b: Bridge) {
    && |b.streams| == |b.conns| && |b.lane.senders| == |b.conns| + 1
    && StreamsOk(b) && LaneTagged(b.streams, b.lane)
    && (forall c :: 0 <= c < |b.conns| ==> OwnFrames(b.streams, c, b.conns[c].inbox))
  }

  ghost predicate RightlyDelivered(streams: seq<nat>, d: Delivery) {
    d.conn < |streams| && d.frame.origin == Connection(d.conn) && d.frame.stream == streams[d.conn]
  }

  ghost predicate RoutingInv(w: World) {
    && BridgeTagged(w.bridge) && HostTagged(w.bridge.streams, w.host)
    && FramesOk(w.bridge.streams, w.toHost) && FramesOk(w.bridge.streams, w.toAgent)
    && forall k :: 0 <= k < |w.delivered| ==> RightlyDelivered(w.bridge.streams, w.delivered[k])
  }

  // ----- New connections do not disturb old tags -----

  lemma TagsSurviveAccept(w: World, streams: seq<nat>)
    requires RoutingInv(w) && w.bridge.streams <= streams
    ensures HostTagged(streams, w.host)
    ensures FramesOk(streams, w.toHost) && FramesOk(streams, w.toAgent)
    ensures LaneTagged(streams, w.bridge.lane)
    ensures forall k :: 0 <= k < |w.delivered| ==> RightlyDelivered(streams, w.delivered[k])
  {
  }

  lemma AcceptKeepsRouting(w: World, endpoint: Endpoint)
    requires RoutingInv(w) && DoBridgeAct(w, BridgeAccept(endpoint)).Some?
    ensures RoutingInv(DoBridgeAct(w, BridgeAccept(endpoint)).value)
  {
    var w' := DoBridgeAct(w, BridgeAccept(endpoint)).value;
    AcceptKeepsStreams(w.bridge, endpoint);
    TagsSurviveAccept(w, w'.bridge.streams);
    forall c | 0 <= c < |w'.bridge.conns| ensures OwnFrames(w'.bridge.streams, c, w'.bridge.conns[c].inbox) {
      if c < |w.bridge.conns| {
        assert OwnFrames(w.bridge.streams, c, w.bridge.conns[c].inbox);
      }
    }
  }

  /** A connection changes phase, perhaps offering a frame of its own stream. */
  lemma ConnMoveKeepsTags(b: Bridge, b': Bridge, c: nat)
    requires BridgeTagged(b) && c < |b.conns| && |b'.lane.senders| == |b.lane.senders|
    requires b' == b.(conns := b'.conns, recipients := b'.recipients, lane := b'.lane, streamsFree := b'.streamsFree)
    requires |b'.conns| == |b.conns| && b'.conns == b.conns[c := b.conns[c].(phase := b'.conns[c].phase)]
    requires b'.recipients == b.recipients || b'.recipients == b.recipients - {b.streams[c]}
    requires b'.lane == b.lane
             || (b'.lane.senders[c + 1].Some? && b'.lane.senders[c + 1].value.frame.stream == b.streams[c]
                 && b'.lane.senders[c + 1].value.frame.origin == Connection(c)
                 && b'.lane == b.lane.(senders := b.lane.senders[c + 1 := b'.lane.senders[c + 1]]))
    ensures BridgeTagged(b')
  {
    forall d | 0 <= d < |b'.conns| ensures OwnFrames(b'.streams, d, b'.conns[d].inbox) {
      assert OwnFrames(b.streams, d, b.conns[d].inbox);
    }
  }

  lemma LaneMoveKeepsTags(b: Bridge, b': Bridge)
    requires BridgeTagged(b) && b' == b.(lane := b'.lane) && |b'.lane.senders| == |b.lane.senders|
    requires LaneTagged(b.streams, b'.lane)
    ensures BridgeTagged(b')
  {
  }

  lemma BridgeStepKeepsTags(b: Bridge, a: BridgeAction)
    requires BridgeTagged(b) && !a.BridgeAccept? && BridgeStep(b, a).Some?
    ensures BridgeTagged(BridgeStep(b, a).value) && BridgeStep(b, a).value.streams == b.streams
  {
    var b' := BridgeStep(b, a).value;
    match a
    case BridgeAsk(c, _) => ConnMoveKeepsTags(b, b', c);
    case BridgePart(c, _) => ConnMoveKeepsTags(b, b', c);
    case BridgeClose(c) => ConnMoveKeepsTags(b, b', c);
    case BridgeAcquire(i) => LaneMoveKeepsTags(b, b');
    case BridgePush(i) => LaneMoveKeepsTags(b, b');
    case BridgeFail =>
  }

  /** A routed frame lands in the inbox of its own connection. */
  lemma RouteKeepsTags(b: Bridge, f: Frame, dropped: bool)
    requires BridgeTagged(b) && TagOk(b.streams, f.stream, f.origin) && Route(b, f, dropped).Some?
    ensures BridgeTagged(Route(b, f, dropped).value) && Route(b, f, dropped).value.streams == b.streams
  {
    var b' := Route(b, f, dropped).value;
    if b'.conns != b.conns {
      var c := b.recipients[f.stream];
      assert b.streams[c] == f.stream;
      assert f.origin.Connection? && f.origin.index == c;
      forall d | 0 <= d < |b'.conns| ensures OwnFrames(b'.streams, d, b'.conns[d].inbox) {
        assert OwnFrames(b.streams, d, b.conns[d].inbox);
      }
    }
  }

  /** Each identifier has one owner, and neither 0 nor 1 is a connection's. */
  ghost predicate Owned(streams: seq<nat>) {
    && (forall c :: 0 <= c < |streams| ==> streams[c] >= 2)
    && (forall c, d :: 0 <= c < d < |streams| ==> streams[c] != streams[d])
  }

  /** Then the identifier alone tells who a frame is about. */
  lemma StreamTellsOrigin(streams: seq<nat>, stream: nat, o: Origin, p: Origin)
    requires Owned(streams) && TagOk(streams, stream, o) && TagOk(streams, stream, p)
    ensures o == p
  {
  }

  /** Stream data lands in the inbox of the relay opened by its own sender. */
  lemma DispatchStreamKeepsTags(streams: seq<nat>, h: Host, f: Frame)
    requires Owned(streams) && HostTagged(streams, h) && TagOk(streams, f.stream, f.origin)
    requires DispatchStream(h, f).Some?
    ensures HostTagged(streams, DispatchStream(h, f).value)
  {
    if Routable(h, f.stream) {
      var t := h.tasks[h.inputs[f.stream].value];
      StreamTellsOrigin(streams, f.stream, f.origin, t.origin);
      assert OwnWork(t.(inbox := t.inbox + [f]));
    }
  }

  lemma ReplyKeepsTags(streams: seq<nat>, h: Host, kind: Kind, stream: nat, origin: Origin)
    requires HostTagged(streams, h) && LoopFree(h) && TagOk(streams, stream, origin)
    ensures HostTagged(streams, Reply(h, kind, stream, origin))
  {
  }

  lemma DispatchLookupKeepsTags(streams: seq<nat>, h: Host, f: Frame, policy: Policy, at: nat)
    requires HostTagged(streams, h) && LoopFree(h) && TagOk(streams, f.stream, f.origin)
    ensures HostTagged(streams, DispatchLookup(h, f, policy, at))
  {
    ReplyKeepsTags(streams, h, ErrorFrame, f.stream, f.origin);
  }

  lemma DispatchOpenKeepsTags(streams: seq<nat>, h: Host, f: Frame, policy: Policy, at: nat, connected: bool)
    requires HostTagged(streams, h) && LoopFree(h) && TagOk(streams, f.stream, f.origin)
    ensures HostTagged(streams, DispatchOpen(h, f, policy, at, connected))
  {
    ReplyKeepsTags(streams, h, ErrorFrame, f.stream, f.origin);
  }

  lemma DispatchKeepsTags(streams: seq<nat>, h: Host, f: Frame, policy: Policy, at: nat, connected: bool)
    requires Owned(streams) && HostTagged(streams, h) && LoopFree(h) && TagOk(streams, f.stream, f.origin)
    requires Dispatch(h, f, policy, at, connected).Some?
    ensures HostTagged(streams, Dispatch(h, f, policy, at, connected).value)
  {
    match f.kind
    case CredentialLookup => DispatchLookupKeepsTags(streams, h, f, policy, at);
    case AgentOpen => DispatchOpenKeepsTags(streams, h, f, policy, at, connected);
    case StreamData => DispatchStreamKeepsTags(streams, h, f);
    case StreamClose => DispatchStreamKeepsTags(streams, h, f);
    case Cancel => DispatchStreamKeepsTags(streams, h, f);
    case IdentityRequest => ReplyKeepsTags(streams, h, ErrorFrame, f.stream, f.origin);
    case Health => ReplyKeepsTags(streams, h, HealthAck, 0, Control);
    case _ =>
  }

  /** A task moves on without changing whose it is, perhaps offering a frame of its own. */
  lemma TaskMoveKeepsTags(streams: seq<nat>, h: Host, h': Host, i: nat)
    requires HostTagged(streams, h) && i < |h.tasks| && |h'.tasks| == |h.tasks| && |h'.lane.senders| == |h.lane.senders|
    requires h'.tasks == h.tasks[i := h'.tasks[i]] && h'.loop == h.loop
    requires h'.tasks[i].stream == h.tasks[i].stream && h'.tasks[i].origin == h.tasks[i].origin
    requires OwnWork(h'.tasks[i]) && forall s :: s in h'.inputs ==> s in h.inputs && h'.inputs[s] == h.inputs[s]
    requires h'.lane == h.lane
             || (i + 1 < |h.lane.senders| && h'.lane.senders[i + 1].Some?
                 && h'.lane.senders[i + 1].value.frame.stream == h.tasks[i].stream
                 && h'.lane.senders[i + 1].value.frame.origin == h.tasks[i].origin
                 && h'.lane == h.lane.(senders := h.lane.senders[i + 1 := h'.lane.senders[i + 1]]))
    ensures HostTagged(streams, h')
  {
  }

  lemma LookupTaskKeepsTags(
    streams: seq<nat>, h: Host, i: nat, policy: Policy, at: nat, origin: string, answer: seq<Byte>, failed: bool)
    requires HostTagged(streams, h)
    ensures var found := FindCredential(h, i, policy, at, origin, answer); found.Some? ==> HostTagged(streams, found.value)
    ensures var answered := AnswerLookup(h, i, policy, failed); answered.Some? ==> HostTagged(streams, answered.value)
  {
    var found, answered := FindCredential(h, i, policy, at, origin, answer), AnswerLookup(h, i, policy, failed);
    if found.Some? {
      TaskMoveKeepsTags(streams, h, found.value, i);
    }
    if answered.Some? {
      TaskMoveKeepsTags(streams, h, answered.value, i);
    }
  }

  lemma RelayTaskKeepsTags(
    streams: seq<nat>, h: Host, i: nat, policy: Policy, at: nat, answer: seq<Byte>, announce: bool)
    requires HostTagged(streams, h)
    ensures var taken := TakePacket(h, i, policy, at); taken.Some? ==> HostTagged(streams, taken.value)
    ensures var answered := AnswerPacket(h, i, policy, answer); answered.Some? ==> HostTagged(streams, answered.value)
    ensures var left := LeaveRelay(h, i, announce); left.Some? ==> HostTagged(streams, left.value)
  {
    var taken, answered, left := TakePacket(h, i, policy, at), AnswerPacket(h, i, policy, answer), LeaveRelay(h, i, announce);
    if taken.Some? {
      TaskMoveKeepsTags(streams, h, taken.value, i);
    }
    if answered.Some? {
      TaskMoveKeepsTags(streams, h, answered.value, i);
    }
    if left.Some? {
      TaskMoveKeepsTags(streams, h, left.value, i);
    }
  }

  lemma FinishKeepsTags(streams: seq<nat>, h: Host, i: nat)
    requires HostTagged(streams, h) && FinishTask(h, i).Some?
    ensures HostTagged(streams, FinishTask(h, i).value)
  {
    TaskMoveKeepsTags(streams, h, FinishTask(h, i).value, i);
  }

  lemma AnswerIdentityKeepsTags(streams: seq<nat>, h: Host, policy: Policy, answer: Option<seq<Byte>>)
    requires HostTagged(streams, h) && AnswerIdentity(h, policy, answer).Some?
    ensures HostTagged(streams, AnswerIdentity(h, policy, answer).value)
  {
  }

  lemma HostStepKeepsTags(streams: seq<nat>, h: Host, policy: Policy, at: nat, a: HostAction)
    requires HostTagged(streams, h) && HostStep(h, policy, at, a).Some?
    ensures HostTagged(streams, HostStep(h, policy, at, a).value)
  {
    match a
    case HostAnswerIdentity(answer) => AnswerIdentityKeepsTags(streams, h, policy, answer);
    case HostFindCredential(i, origin, bytes) => LookupTaskKeepsTags(streams, h, i, policy, at, origin, bytes, true);
    case HostAnswerLookup(i, failed) => LookupTaskKeepsTags(streams, h, i, policy, at, "", [], failed);
    case HostTakePacket(i) => RelayTaskKeepsTags(streams, h, i, policy, at, [], true);
    case HostAnswerPacket(i, bytes) => RelayTaskKeepsTags(streams, h, i, policy, at, bytes, true);
    case HostLeaveRelay(i, announce) => RelayTaskKeepsTags(streams, h, i, policy, at, [], announce);
    case HostFinishTask(i) => FinishKeepsTags(streams, h, i);
    case _ =>
  }

  lemma ReceiveKeepsRouting(w: World, c: nat)
    requires RoutingInv(w) && DoBridgeReceive(w, c).Some?
    ensures RoutingInv(DoBridgeReceive(w, c).value)
  {
    var w' := DoBridgeReceive(w, c).value;
    assert OwnFrames(w.bridge.streams, c, w.bridge.conns[c].inbox);
    forall d | 0 <= d < |w'.bridge.conns| ensures OwnFrames(w'.bridge.streams, d, w'.bridge.conns[d].inbox) {
      assert OwnFrames(w.bridge.streams, d, w.bridge.conns[d].inbox);
    }
  }

  /** The host moves, perhaps taking the first frame off its wire. */
  lemma HostMoveKeepsRouting(w: World, w': World)
    requires RoutingInv(w) && HostTagged(w.bridge.streams, w'.host) && w'.bridge == w.bridge
    requires w'.toHost == w.toHost || (w.toHost != [] && w'.toHost == w.toHost[1..])
    requires w'.toAgent == w.toAgent && w'.delivered == w.delivered
    ensures RoutingInv(w')
  {
  }

  lemma HostReadKeepsRouting(w: World, connected: bool)
    requires w.policies != [] && RoutingInv(w) && DoHostRead(w, connected).Some?
    ensures RoutingInv(DoHostRead(w, connected).value)
  {
    var f, at := w.toHost[0], |w.policies| - 1;
    assert TagOk(w.bridge.streams, f.stream, f.origin) && Owned(w.bridge.streams);
    DispatchKeepsTags(w.bridge.streams, w.host, f, Policy0(w), at, connected);
    var h := Dispatch(w.host, f, Policy0(w), at, connected).value;
    HostMoveKeepsRouting(w, w.(host := h, toHost := w.toHost[1..]));
  }

  lemma HostActKeepsRouting(w: World, a: HostAction)
    requires w.policies != [] && RoutingInv(w) && DoHostAct(w, a).Some?
    ensures RoutingInv(DoHostAct(w, a).value)
  {
    HostStepKeepsTags(w.bridge.streams, w.host, Policy0(w), |w.policies| - 1, a);
    HostMoveKeepsRouting(w, DoHostAct(w, a).value);
  }

  lemma HostWriteKeepsRouting(w: World)
    requires w.policies != [] && RoutingInv(w) && DoHostWrite(w).Some?
    ensures RoutingInv(DoHostWrite(w).value)
  {
    var s := w.host.lane.queue[0];
    assert TagOk(w.bridge.streams, s.frame.stream, s.frame.origin);
    assert Release(Policy0(w), s).frame.stream == s.frame.stream && Release(Policy0(w), s).frame.origin == s.frame.origin;
  }

  lemma BridgeReadKeepsRouting(w: World, dropped: bool)
    requires RoutingInv(w) && DoBridgeRead(w, dropped).Some?
    ensures RoutingInv(DoBridgeRead(w, dropped).value)
  {
    if w.bridge.stance.Serving? || w.bridge.stance.Stopped? {
      RouteKeepsTags(w.bridge, w.toAgent[0], dropped);
    }
  }

  lemma BridgeWriteKeepsRouting(w: World)
    requires RoutingInv(w) && DoBridgeWrite(w).Some?
    ensures RoutingInv(DoBridgeWrite(w).value)
  {
    LaneMoveKeepsTags(w.bridge, DoBridgeWrite(w).value.bridge);
  }

  lemma NextKeepsRouting(w: World, a: Action)
    requires w.policies != [] && RoutingInv(w) && Next(w, a).Some?
    ensures RoutingInv(Next(w, a).value)
  {
    match a
    case ChangePolicy(_, _) =>
    case HostAct(h) => HostActKeepsRouting(w, h);
    case HostRead(connected) => HostReadKeepsRouting(w, connected);
    case HostWrite => HostWriteKeepsRouting(w);
    case BridgeAct(b) =>
      if b.BridgeAccept? {
        AcceptKeepsRouting(w, b.endpoint);
      } else {
        BridgeStepKeepsTags(w.bridge, b);
      }
    case BridgeRead(dropped) => BridgeReadKeepsRouting(w, dropped);
    case BridgeWrite => BridgeWriteKeepsRouting(w);
    case BridgeReceive(c) => ReceiveKeepsRouting(w, c);
  }

  lemma {:induction false} RunKeepsRouting(t: seq<World>, acts: seq<Action>, i: nat)
    requires IsRun(t, acts) && i < |t|
    ensures RoutingInv(t[i])
  {
    if i > 0 {
      RunKeepsRouting(t, acts, i - 1);
      RunSteps(t, acts, i - 1);
      NextKeepsRouting(t[i - 1], acts[i - 1]);
    }
  }

  lemma StreamsGrow(w: World, a: Action)
    requires w.policies != [] && Next(w, a).Some?
    ensures w.bridge.streams <= Next(w, a).value.bridge.streams
  {
  }

  /** Connections keep their stream for good: later worlds only add connections. */
  lemma {:induction false} StreamsOnlyGrow(t: seq<World>, acts: seq<Action>, i: nat, j: nat)
    requires IsRun(t, acts) && i <= j < |t|
    ensures t[i].bridge.streams <= t[j].bridge.streams
    decreases j
  {
    if i < j {
      StreamsOnlyGrow(t, acts, i, j - 1);
      RunSteps(t, acts, j - 1);
      StreamsGrow(t[j - 1], acts[j - 1]);
    }
  }

  /**
   In every run: no two connections ever share a stream identifier, none is 0 or 1 or beyond 32
   bits, whatever a host task holds or asks was sent by the party the task was started for, and
   everything delivered to a local socket answers a frame of that very connection.
   */
  lemma OnlyTheAskerIsAnswered(t: seq<World>, acts: seq<Action>, i: nat, j: nat)
    requires IsRun(t, acts) && i <= j < |t|
    ensures t[i].bridge.streams <= t[j].bridge.streams
    ensures forall c :: 0 <= c < |t[j].bridge.streams| ==> 2 <= t[j].bridge.streams[c] < STREAM_ID_SPACE
    ensures forall c, d :: 0 <= c < d < |t[j].bridge.streams| ==> t[j].bridge.streams[c] != t[j].bridge.streams[d]
    ensures forall k :: 0 <= k < |t[j].host.tasks| ==>
              OwnWork(t[j].host.tasks[k]) && TagOk(t[j].bridge.streams, t[j].host.tasks[k].stream, t[j].host.tasks[k].origin)
    ensures forall k :: 0 <= k < |t[j].delivered| ==> RightlyDelivered(t[j].bridge.streams, t[j].delivered[k])
  {
    StreamsOnlyGrow(t, acts, i, j);
    RunKeepsRouting(t, acts, j);
  }
}
