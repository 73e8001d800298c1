/** The host never sees a second open of one stream, so its duplicate-sender branch is dead. */
module BrokerOpens {
  import opened Bytes
  import opened Wrappers
  import opened LivePolicy
  import opened FrameLane
  import opened HostBroker
  import opened AgentBridge
  import opened BrokerSystem
  import opened BrokerRouting

  /** Frames on their way to the host, in the order it will read them. */
  function Pipe(w: World): seq<Frame> {
    w.toHost + seq(|w.bridge.lane.queue|, i requires 0 <= i < |w.bridge.lane.queue| => w.bridge.lane.queue[i].frame)
  }

  predicate IsOpen(f: Frame, stream: nat) {
    f.kind.AgentOpen? && f.stream == stream
  }

  /** No open of this stream has left its connection yet. */
  ghost predicate Unopened(pipe: seq<Frame>, h: Host, stream: nat) {
    stream !in h.relayed && forall i :: 0 <= i < |pipe| ==> !IsOpen(pipe[i], stream)
  }

  ghost predicate PipeOk(pipe: seq<Frame>, h: Host) {
    && (forall i, j :: 0 <= i < j < |pipe| && pipe[i].kind.AgentOpen? ==> !IsOpen(pipe[j], pipe[i].stream))
    && (forall i :: 0 <= i < |pipe| && pipe[i].kind.AgentOpen? ==> pipe[i].stream !in h.relayed)
  }

  /** Connection `c` has its open still ahead of it, or in its own hands. */
  ghost predicate OpenPending(b: Bridge, c: nat)
    requires c < |b.conns| && c + 1 < |b.lane.senders|
  {
    b.conns[c].phase.Fresh? || (b.lane.senders[c + 1].Some? && b.lane.senders[c + 1].value.frame.kind.AgentOpen?)
  }

  ghost predicate SendersOk(b: Bridge) {
    && |b.streams| == |b.conns| && |b.lane.senders| == |b.conns| + 1
    && (b.stance.AwaitIdentityResult? || b.stance.AwaitReady? ==> b.lane.queue == [])
    && (b.lane.senders[0].Some? ==> !b.lane.senders[0].value.frame.kind.AgentOpen?)
    && (forall c :: 0 <= c < |b.conns| && b.lane.senders[c + 1].Some? ==>
          b.lane.senders[c + 1].value.frame.stream == b.streams[c] && !b.conns[c].phase.Fresh?)
  }

  ghost predicate OpensInv(w: World) {
    && SendersOk(w.bridge) && PipeOk(Pipe(w), w.host)
    && (forall c :: 0 <= c < |w.bridge.conns| && OpenPending(w.bridge, c) ==>
          Unopened(Pipe(w), w.host, w.bridge.streams[c]))
    && (forall s :: s in w.host.inputs ==> s in w.host.relayed && w.host.inputs[s].Some?)
    && (forall s :: s in w.host.relayed ==> s in w.bridge.streams || s < 2)
  }

  /** Steps that leave the pipe, the host's record and every pending open as they were. */
  lemma SameOpens(w: World, w': World)
    requires OpensInv(w) && SendersOk(w'.bridge)
    requires Pipe(w') == Pipe(w) && w'.host.relayed == w.host.relayed && w'.bridge.streams == w.bridge.streams
    requires forall s :: s in w'.host.inputs ==> s in w.host.inputs && w'.host.inputs[s] == w.host.inputs[s]
    requires forall c :: 0 <= c < |w'.bridge.conns| && OpenPending(w'.bridge, c) ==> OpenPending(w.bridge, c)
    ensures OpensInv(w')
  {
    forall c | 0 <= c < |w'.bridge.conns| && OpenPending(w'.bridge, c)
      ensures Unopened(Pipe(w'), w'.host, w'.bridge.streams[c])
    {
      assert Unopened(Pipe(w), w.host, w.bridge.streams[c]);
    }
  }

  /** Accepting leaves the bridge as it was, ends it, or adds one connection under a new stream. */
  lemma AcceptShape(b: Bridge, endpoint: Endpoint)
    requires Accept(b, endpoint).Some?
    ensures var b' := Accept(b, endpoint).value;
            && b'.lane.queue == b.lane.queue
            && ((b'.conns == b.conns && b'.streams == b.streams && b'.lane == b.lane)
                || (b'.conns == b.conns + [Conn(endpoint, Fresh, [])] && b'.streams == b.streams + [b.next]
                    && b'.lane == Join(b.lane) && b'.stance == b.stance))
  {
  }

  /** A stream nobody owns yet has not been opened. */
  lemma NewStreamIsUnopened(w: World, id: nat)
    requires RoutingInv(w) && OpensInv(w) && id >= 2 && id !in w.bridge.streams
    ensures Unopened(Pipe(w), w.host, id)
  {
    PipeTagged(w);
    forall i | 0 <= i < |Pipe(w)|
      ensures !IsOpen(Pipe(w)[i], id)
    {
      assert TagOk(w.bridge.streams, Pipe(w)[i].stream, Pipe(w)[i].origin);
    }
  }

  /** One more connection, with its open still ahead of it. */
  lemma NewcomerKeepsOpens(w: World, w': World, endpoint: Endpoint)
    requires RoutingInv(w) && OpensInv(w) && w.bridge.next >= 2 && w.bridge.next !in w.bridge.streams
    requires w' == w.(bridge := w'.bridge) && w'.bridge.stance == w.bridge.stance
    requires w'.bridge.conns == w.bridge.conns + [Conn(endpoint, Fresh, [])]
    requires w'.bridge.streams == w.bridge.streams + [w.bridge.next] && w'.bridge.lane == Join(w.bridge.lane)
    ensures OpensInv(w')
  {
    assert Pipe(w') == Pipe(w);
    NewStreamIsUnopened(w, w.bridge.next);
    forall c | 0 <= c < |w'.bridge.conns| && OpenPending(w'.bridge, c)
      ensures Unopened(Pipe(w'), w'.host, w'.bridge.streams[c])
    {
      if c < |w.bridge.conns| {
        assert OpenPending(w.bridge, c) && Unopened(Pipe(w), w.host, w.bridge.streams[c]);
      }
    }
  }

  lemma NewStreamIsNew(b: Bridge, b': Bridge)
    requires StreamsOk(b') && b'.streams == b.streams + [b.next]
    ensures b.next >= 2 && b.next !in b.streams
  {
    var last := |b.streams|;
    assert b'.streams[last] == b.next && forall c :: 0 <= c < last ==> b'.streams[c] == b.streams[c];
  }

  lemma AcceptKeepsOpens(w: World, endpoint: Endpoint)
    requires RoutingInv(w) && OpensInv(w) && DoBridgeAct(w, BridgeAccept(endpoint)).Some?
    ensures OpensInv(DoBridgeAct(w, BridgeAccept(endpoint)).value)
  {
    var w' := DoBridgeAct(w, BridgeAccept(endpoint)).value;
    AcceptShape(w.bridge, endpoint);
    if w'.bridge.conns == w.bridge.conns {
      SameOpens(w, w');
    } else {
      AcceptKeepsStreams(w.bridge, endpoint);
      NewStreamIsNew(w.bridge, w'.bridge);
      NewcomerKeepsOpens(w, w', endpoint);
    }
  }

  lemma PipeTagged(w: World)
    requires RoutingInv(w)
    ensures FramesOk(w.bridge.streams, Pipe(w))
  {
  }

  /** An open that joins the pipe is the first of its stream. */
  lemma PipeGrows(pipe: seq<Frame>, h: Host, f: Frame)
    requires PipeOk(pipe, h) && (f.kind.AgentOpen? ==> Unopened(pipe, h, f.stream))
    ensures PipeOk(pipe + [f], h)
  {
  }

  /** Any other frame leaves an unopened stream unopened. */
  lemma StaysUnopened(pipe: seq<Frame>, h: Host, f: Frame, stream: nat)
    requires Unopened(pipe, h, stream) && !IsOpen(f, stream)
    ensures Unopened(pipe + [f], h, stream)
  {
  }

  /** Whose frame the sender pushes: the event loop's is no open, a connection's names its own stream. */
  lemma PushedFrame(w: World, i: nat)
    requires OpensInv(w) && i < |w.bridge.lane.senders| && w.bridge.lane.senders[i].Some?
    ensures var f := w.bridge.lane.senders[i].value.frame;
            && (i == 0 ==> !f.kind.AgentOpen?)
            && (i > 0 ==> f.stream == w.bridge.streams[i - 1] && !w.bridge.conns[i - 1].phase.Fresh?)
            && (f.kind.AgentOpen? ==> Unopened(Pipe(w), w.host, f.stream))
  {
    if i > 0 && w.bridge.lane.senders[i].value.frame.kind.AgentOpen? {
      assert OpenPending(w.bridge, i - 1);
    }
  }

  /** The connections still to open after a push, and that the push is not theirs. */
  lemma PendingAfterPush(w: World, w': World, i: nat, c: nat)
    requires RoutingInv(w) && OpensInv(w) && i < |w.bridge.lane.senders| && w.bridge.lane.senders[i].Some?
    requires w'.bridge.conns == w.bridge.conns && w'.bridge.lane.senders == w.bridge.lane.senders[i := None]
    requires w'.host == w.host && c < |w.bridge.conns| && OpenPending(w'.bridge, c)
    requires Pipe(w') == Pipe(w) + [w.bridge.lane.senders[i].value.frame]
    ensures Unopened(Pipe(w'), w.host, w.bridge.streams[c])
  {
    var f := w.bridge.lane.senders[i].value.frame;
    PushedFrame(w, i);
    assert OpenPending(w.bridge, c) && c != i - 1;
    assert Unopened(Pipe(w), w.host, w.bridge.streams[c]);
    StaysUnopened(Pipe(w), w.host, f, w.bridge.streams[c]);
  }

  lemma PushKeepsOpens(w: World, i: nat)
    requires RoutingInv(w) && OpensInv(w) && DoBridgeAct(w, BridgePush(i)).Some?
    ensures OpensInv(DoBridgeAct(w, BridgePush(i)).value)
  {
    var w' := DoBridgeAct(w, BridgePush(i)).value;
    var f := w.bridge.lane.senders[i].value.frame;
    assert Pipe(w') == Pipe(w) + [f];
    PushedFrame(w, i);
    PipeGrows(Pipe(w), w.host, f);
    forall c | 0 <= c < |w'.bridge.conns| && OpenPending(w'.bridge, c)
      ensures Unopened(Pipe(w'), w'.host, w'.bridge.streams[c])
    {
      PendingAfterPush(w, w', i, c);
    }
  }

  /** Dispatching starts relays only for opens, and only under their own stream. */
  lemma DispatchOpens(h: Host, f: Frame, policy: Policy, at: nat, connected: bool)
    requires LoopFree(h) && Dispatch(h, f, policy, at, connected).Some?
    requires forall s :: s in h.inputs ==> s in h.relayed && h.inputs[s].Some?
    requires f.kind.AgentOpen? ==> f.stream !in h.relayed
    ensures var h' := Dispatch(h, f, policy, at, connected).value;
            && h.relayed <= h'.relayed <= h.relayed + {f.stream} && (h'.relayed != h.relayed ==> f.kind.AgentOpen?)
            && (forall s :: s in h'.inputs ==> s in h'.relayed && h'.inputs[s].Some?)
  {
  }

  /** The host takes the first frame of the pipe; a relay may start for it if it is an open. */
  lemma ReadKeepsOpens(w: World, w': World)
    requires RoutingInv(w) && OpensInv(w) && w.toHost != []
    requires w'.bridge == w.bridge && w'.toHost == w.toHost[1..]
    requires w.host.relayed <= w'.host.relayed <= w.host.relayed + {w.toHost[0].stream}
    requires w'.host.relayed != w.host.relayed ==> w.toHost[0].kind.AgentOpen?
    requires forall s :: s in w'.host.inputs ==> s in w'.host.relayed && w'.host.inputs[s].Some?
    ensures OpensInv(w')
  {
    var f := w.toHost[0];
    assert Pipe(w)[0] == f && Pipe(w') == Pipe(w)[1..];
    assert forall i :: 0 <= i < |Pipe(w')| ==> Pipe(w')[i] == Pipe(w)[i + 1];
    assert TagOk(w.bridge.streams, f.stream, f.origin);
    forall c | 0 <= c < |w'.bridge.conns| && OpenPending(w'.bridge, c)
      ensures Unopened(Pipe(w'), w'.host, w'.bridge.streams[c])
    {
      assert Unopened(Pipe(w), w.host, w.bridge.streams[c]) && !IsOpen(Pipe(w)[0], w.bridge.streams[c]);
    }
  }

  lemma HostReadKeepsOpens(w: World, connected: bool)
    requires w.policies != [] && RoutingInv(w) && OpensInv(w) && DoHostRead(w, connected).Some?
    ensures OpensInv(DoHostRead(w, connected).value)
  {
    assert Pipe(w)[0] == w.toHost[0];
    DispatchOpens(w.host, w.toHost[0], Policy0(w), |w.policies| - 1, connected);
    ReadKeepsOpens(w, DoHostRead(w, connected).value);
  }

  lemma AskKeepsOpens(w: World, c: nat, payload: seq<Byte>)
    requires OpensInv(w) && DoBridgeAct(w, BridgeAsk(c, payload)).Some?
    ensures OpensInv(DoBridgeAct(w, BridgeAsk(c, payload)).value)
  {
    SameOpens(w, DoBridgeAct(w, BridgeAsk(c, payload)).value);
  }

  lemma PartKeepsOpens(w: World, c: nat, farewell: Option<Kind>)
    requires OpensInv(w) && DoBridgeAct(w, BridgePart(c, farewell)).Some?
    ensures OpensInv(DoBridgeAct(w, BridgePart(c, farewell)).value)
  {
    SameOpens(w, DoBridgeAct(w, BridgePart(c, farewell)).value);
  }

  lemma CloseKeepsOpens(w: World, c: nat)
    requires OpensInv(w) && DoBridgeAct(w, BridgeClose(c)).Some?
    ensures OpensInv(DoBridgeAct(w, BridgeClose(c)).value)
  {
    SameOpens(w, DoBridgeAct(w, BridgeClose(c)).value);
  }

  lemma AcquireKeepsOpens(w: World, i: nat)
    requires OpensInv(w) && DoBridgeAct(w, BridgeAcquire(i)).Some?
    ensures OpensInv(DoBridgeAct(w, BridgeAcquire(i)).value)
  {
    SameOpens(w, DoBridgeAct(w, BridgeAcquire(i)).value);
  }

  lemma BridgeActKeepsOpens(w: World, a: BridgeAction)
    requires RoutingInv(w) && OpensInv(w) && DoBridgeAct(w, a).Some?
    ensures OpensInv(DoBridgeAct(w, a).value)
  {
    match a
    case BridgeAccept(endpoint) => AcceptKeepsOpens(w, endpoint);
    case BridgeAsk(c, payload) => AskKeepsOpens(w, c, payload);
    case BridgePush(i) => PushKeepsOpens(w, i);
    case BridgePart(c, farewell) => PartKeepsOpens(w, c, farewell);
    case BridgeClose(c) => CloseKeepsOpens(w, c);
    case BridgeAcquire(i) => AcquireKeepsOpens(w, i);
    case BridgeFail => SameOpens(w, DoBridgeAct(w, a).value);
  }

  lemma HostActKeepsOpens(w: World, a: HostAction)
    requires w.policies != [] && OpensInv(w) && DoHostAct(w, a).Some?
    ensures OpensInv(DoHostAct(w, a).value)
  {
    SameOpens(w, DoHostAct(w, a).value);
  }

  /** The bridge asks for health, the last frame it writes past its own lane. */
  lemma HealthKeepsOpens(w: World, w': World)
    requires OpensInv(w) && w.bridge.lane.queue == [] && w'.host == w.host
    requires w'.bridge == w.bridge.(stance := w'.bridge.stance) && w'.toHost == w.toHost + [Frame(Health, 0, [], Control)]
    ensures OpensInv(w')
  {
    var health := Frame(Health, 0, [], Control);
    assert Pipe(w') == Pipe(w) + [health];
    PipeGrows(Pipe(w), w.host, health);
    forall c | 0 <= c < |w'.bridge.conns| && OpenPending(w'.bridge, c)
      ensures Unopened(Pipe(w'), w'.host, w'.bridge.streams[c])
    {
      assert OpenPending(w.bridge, c);
      StaysUnopened(Pipe(w), w.host, health, w.bridge.streams[c]);
    }
  }

  /** Routing a frame touches no stream, no queued frame and no pending open. */
  lemma RouteShape(b: Bridge, f: Frame, dropped: bool)
    requires SendersOk(b) && Route(b, f, dropped).Some?
    ensures var b' := Route(b, f, dropped).value;
            && SendersOk(b') && b'.streams == b.streams && b'.lane.queue == b.lane.queue && |b'.conns| == |b.conns|
            && forall c :: 0 <= c < |b'.conns| && OpenPending(b', c) ==> OpenPending(b, c)
  {
  }

  lemma BridgeReadKeepsOpens(w: World, dropped: bool)
    requires OpensInv(w) && DoBridgeRead(w, dropped).Some?
    ensures OpensInv(DoBridgeRead(w, dropped).value)
  {
    var w' := DoBridgeRead(w, dropped).value;
    if w.bridge.stance.AwaitIdentityResult? || w.bridge.stance.AwaitReady? {
      if w'.toHost == w.toHost {
        SameOpens(w, w');
      } else {
        HealthKeepsOpens(w, w');
      }
    } else {
      RouteShape(w.bridge, w.toAgent[0], dropped);
      assert Pipe(w') == Pipe(w);
      SameOpens(w, w');
    }
  }

  lemma BridgeWriteKeepsOpens(w: World)
    requires OpensInv(w) && DoBridgeWrite(w).Some?
    ensures OpensInv(DoBridgeWrite(w).value)
  {
    assert Pipe(DoBridgeWrite(w).value) == Pipe(w);
    SameOpens(w, DoBridgeWrite(w).value);
  }

  lemma NextKeepsOpens(w: World, a: Action)
    requires w.policies != [] && RoutingInv(w) && OpensInv(w) && Next(w, a).Some?
    ensures OpensInv(Next(w, a).value)
  {
    match a
    case ChangePolicy(_, _) => SameOpens(w, Next(w, a).value);
    case HostAct(h) => HostActKeepsOpens(w, h);
    case HostRead(connected) => HostReadKeepsOpens(w, connected);
    case HostWrite => SameOpens(w, Next(w, a).value);
    case BridgeAct(b) => BridgeActKeepsOpens(w, b);
    case BridgeRead(dropped) => BridgeReadKeepsOpens(w, dropped);
    case BridgeWrite => BridgeWriteKeepsOpens(w);
    case BridgeReceive(c) => SameOpens(w, Next(w, a).value);
  }

  lemma {:induction false} RunKeepsOpens(t: seq<World>, acts: seq<Action>, i: nat)
    requires IsRun(t, acts) && i < |t|
    ensures OpensInv(t[i])
  {
    if i > 0 {
      RunKeepsOpens(t, acts, i - 1);
      RunKeepsRouting(t, acts, i - 1);
      RunSteps(t, acts, i - 1);
      NextKeepsOpens(t[i - 1], acts[i - 1]);
    }
  }

  /** Freshness comes from the bridge: an open the host reads never names a stream it already serves. */
  lemma OpensAreNeverDuplicated(t: seq<World>, acts: seq<Action>, i: nat)
    requires IsRun(t, acts) && i < |t|
    ensures t[i].toHost != [] && t[i].toHost[0].kind.AgentOpen? ==>
              t[i].toHost[0].stream !in t[i].host.relayed && t[i].toHost[0].stream !in t[i].host.inputs
    ensures forall s :: s in t[i].host.inputs ==> t[i].host.inputs[s].Some?
  {
    RunKeepsOpens(t, acts, i);
    if t[i].toHost != [] {
      assert Pipe(t[i])[0] == t[i].toHost[0];
    }
  }
}
