/** Runs in which what a policy grants is served: identity, a credential and an agent packet, whatever their bytes. */
module BrokerService {
  import opened Bytes
  import opened Wrappers
  import opened CredentialGrants
  import opened LivePolicy
  import opened FrameLane
  import opened HostBroker
  import opened AgentBridge
  import opened BrokerSystem
  import opened BrokerAgents

  // ----- The handshake -----

  function Adapter(g: Grants, resolved: bool): Option<Selector> {
    if resolved then g.sshAgent else None
  }

  /** The policy has not changed since the start, and nothing is on the wires. */
  ghost predicate Calm(w: World, p: Policy) {
    w.policies == [p] && w.toHost == [] && w.toAgent == []
  }

  function IdentityFrame(g: Grants, identity: Option<seq<Byte>>): Frame {
    if g.gitIdentity && identity.Some? then Frame(IdentityResult, 1, identity.value, Handshake) else REFUSAL
  }

  /** The idle host writes the frame its loop offered. */
  lemma LoopSends(w0: World, p: Policy, adapter: Option<Selector>, frame: Frame, auth: Option<Authorization>) returns (w: World)
    requires Reaches(w0) && Calm(w0, p) && w0.host == NewHost(adapter).(lane := OneSender(frame, auth))
    requires |frame.payload| <= 65_536
    requires auth.Some? ==> Epoch(p, auth.value.op) == auth.value.epoch && Authorized(p, auth.value.op)
    ensures Reaches(w) && w.policies == [p] && w.host == NewHost(adapter) && w.bridge == w0.bridge
    ensures w.toHost == [] && w.toAgent == [frame] && w.asked == w0.asked && w.delivered == w0.delivered
    ensures w.written == w0.written + [Written(Sending(frame, auth, true), 0)]
  {
    HostSends(w0, 0);
    w := HostSent(w0, 0);
    assert w.host.lane.senders == [None] && w.toAgent == [frame];
  }

  /** The identity request is answered with the identity exactly if it is granted and there is one. */
  lemma Introduces(p: Policy, resolved: bool, identity: Option<seq<Byte>>) returns (w: World)
    requires p == NewPolicy(p.revision, p.grants) && (identity.Some? ==> |identity.value| <= 65_536)
    ensures Reaches(w) && w.policies == [p] && w.host == NewHost(Adapter(p.grants, resolved)) && w.bridge == NEW_BRIDGE
    ensures w.toHost == [] && w.toAgent == [IdentityFrame(p.grants, identity)] && w.asked == [] && w.delivered == []
    ensures |w.written| == 1 && w.written[0].sent.frame == IdentityFrame(p.grants, identity)
  {
    var start, adapter := Start(p, resolved), Adapter(p.grants, resolved);
    ReachStart(p.revision, p.grants, resolved);
    var frame := IdentityFrame(p.grants, identity);
    var auth := if frame == REFUSAL then None else Some(Authorization(Author, p.revision, 0, Metadata));
    var w1 := start.(host := NewHost(adapter).(lane := OneSender(frame, auth)), toHost := []);
    assert start.toHost[1..] == [] && [None][0 := Some(Sending(frame, auth, false))] == w1.host.lane.senders;
    if p.grants.gitIdentity {
      var w2 := start.(host := start.host.(loop := AwaitIdentity(1, Handshake, Captured(p.revision, 0))), toHost := []);
      assert Next(start, HostRead(false)) == Some(w2);
      ReachStep(start, HostRead(false), w2);
      assert Next(w2, HostAct(HostAnswerIdentity(identity))) == Some(w1);
      ReachStep(w2, HostAct(HostAnswerIdentity(identity)), w1);
    } else {
      assert Next(start, HostRead(false)) == Some(w1);
      ReachStep(start, HostRead(false), w1);
    }
    w := LoopSends(w1, p, adapter, frame, auth);
  }

  /** The bridge asks for health. */
  lemma Prompts(p: Policy, resolved: bool, identity: Option<seq<Byte>>) returns (w: World)
    requires p == NewPolicy(p.revision, p.grants) && (identity.Some? ==> |identity.value| <= 65_536)
    ensures Reaches(w) && w.policies == [p] && w.toHost == [HEALTH] && w.toAgent == []
    ensures w.host == NewHost(Adapter(p.grants, resolved)) && w.bridge == NEW_BRIDGE.(stance := AwaitReady)
    ensures w.asked == [] && w.delivered == []
    ensures |w.written| == 1 && w.written[0].sent.frame == IdentityFrame(p.grants, identity)
  {
    var w0 := Introduces(p, resolved, identity);
    w := w0.(bridge := NEW_BRIDGE.(stance := AwaitReady), toHost := [HEALTH], toAgent := []);
    assert w0.toAgent[1..] == [] && w0.toHost + [HEALTH] == [HEALTH];
    assert Next(w0, BridgeRead(false)) == Some(w);
    ReachStep(w0, BridgeRead(false), w);
  }

  /** The host offers the acknowledgement. */
  lemma Acknowledges(w0: World, p: Policy, adapter: Option<Selector>) returns (w: World)
    requires Reaches(w0) && w0.policies == [p] && w0.toHost == [HEALTH] && w0.toAgent == [] && w0.host == NewHost(adapter)
    ensures Reaches(w) && w == w0.(host := NewHost(adapter).(lane := OneSender(HEALTH_ACK, None)), toHost := [])
  {
    w := w0.(host := NewHost(adapter).(lane := OneSender(HEALTH_ACK, None)), toHost := []);
    assert w0.toHost[1..] == [] && [None][0 := Some(Sending(HEALTH_ACK, None, false))] == w.host.lane.senders;
    assert Next(w0, HostRead(false)) == Some(w);
    ReachStep(w0, HostRead(false), w);
  }

  /** The bridge reads it and serves. */
  lemma Greets(p: Policy, resolved: bool, identity: Option<seq<Byte>>) returns (w: World)
    requires p == NewPolicy(p.revision, p.grants) && (identity.Some? ==> |identity.value| <= 65_536)
    ensures Reaches(w) && Calm(w, p) && w.host == NewHost(Adapter(p.grants, resolved))
    ensures w.bridge == NEW_BRIDGE.(stance := Serving) && w.asked == [] && w.delivered == []
    ensures |w.written| == 2 && w.written[0].sent.frame == IdentityFrame(p.grants, identity)
  {
    var adapter := Adapter(p.grants, resolved);
    var w0 := Prompts(p, resolved, identity);
    var w1 := Acknowledges(w0, p, adapter);
    var w2 := LoopSends(w1, p, adapter, HEALTH_ACK, None);
    w := w2.(bridge := NEW_BRIDGE.(stance := Serving), toAgent := []);
    assert w2.toAgent[1..] == [];
    assert Next(w2, BridgeRead(false)) == Some(w);
    ReachStep(w2, BridgeRead(false), w);
  }

  /** Identity is handed over whenever it is granted. */
  lemma IdentityIsServed(revision: nat, g: Grants, resolved: bool, identity: seq<Byte>) returns (w: World)
    requires g.gitIdentity && |identity| <= 65_536
    ensures Reaches(w) && w.bridge.stance == Serving
    ensures |w.written| > 0 && w.written[0].sent.frame == Frame(IdentityResult, 1, identity, Handshake)
  {
    w := Greets(NewPolicy(revision, g), resolved, Some(identity));
  }

  // ----- One connection -----

  /** A connection on stream 2, in some phase, with what is in its inbox and what it has offered. */
  function Connected(endpoint: Endpoint, phase: Phase, inbox: seq<Frame>, offered: Option<Sending>): Bridge {
    Bridge(Serving, 3, [Conn(endpoint, phase, inbox)], [2], map[2 := 0], TwoSenders(offered), MAX_STREAMS - 1)
  }

  lemma Connects(p: Policy, resolved: bool, endpoint: Endpoint) returns (w: World)
    requires p == NewPolicy(p.revision, p.grants)
    ensures Reaches(w) && Calm(w, p) && w.host == NewHost(Adapter(p.grants, resolved))
    ensures w.bridge == Connected(endpoint, Fresh, [], None) && w.asked == [] && w.delivered == []
  {
    var w0 := Greets(p, resolved, None);
    w := w0.(bridge := Connected(endpoint, Fresh, [], None));
    assert w0.bridge.lane.senders + [None] == [None, None] && w0.bridge.streams + [2] == [2];
    assert w0.bridge.conns + [Conn(endpoint, Fresh, [])] == [Conn(endpoint, Fresh, [])];
    assert w0.bridge.recipients[2 := 0] == map[2 := 0];
    assert Next(w0, BridgeAct(BridgeAccept(endpoint))) == Some(w);
    ReachStep(w0, BridgeAct(BridgeAccept(endpoint)), w);
  }

  /** The connection's request reaches the wire. */
  lemma Requests(w0: World, p: Policy, endpoint: Endpoint, was: Phase, phase: Phase, payload: seq<Byte>, frame: Frame)
      returns (w: World)
    requires Reaches(w0) && Calm(w0, p) && w0.bridge == Connected(endpoint, was, [], None) && |payload| <= 65_536
    requires frame.stream == 2 && frame.origin == Connection(0) && |frame.payload| <= 65_536
    requires Ask(w0.bridge, 0, payload) == Some(OfferFrom(w0.bridge, 0, phase, frame.kind, frame.payload))
    ensures Reaches(w) && w.bridge == Connected(endpoint, phase, [], None) && w == w0.(bridge := w.bridge, toHost := [frame])
  {
    var w1 := w0.(bridge := Connected(endpoint, phase, [], Some(Sending(frame, None, false))));
    assert w0.bridge.lane.senders[1 := Some(Sending(frame, None, false))] == w1.bridge.lane.senders;
    assert w0.bridge.conns[0 := Conn(endpoint, phase, [])] == w1.bridge.conns;
    assert Next(w0, BridgeAct(BridgeAsk(0, payload))) == Some(w1);
    ReachStep(w0, BridgeAct(BridgeAsk(0, payload)), w1);
    BridgeSends(w1, 1);
    w := BridgeSent(w1, 1);
    assert w.bridge.lane.senders == [None, None] && w.toHost == [frame];
  }

  /** A frame on the wire reaches the inbox of its connection. */
  lemma ReachesInbox(w0: World, p: Policy, endpoint: Endpoint, frame: Frame) returns (w: World)
    requires Reaches(w0) && w0.policies == [p] && w0.toAgent == [frame] && w0.bridge == Connected(endpoint, Waiting, [], None)
    requires frame.stream == 2 && (frame.kind.CredentialResult? || frame.kind.StreamData?)
    ensures Reaches(w) && w == w0.(bridge := Connected(endpoint, Waiting, [frame], None), toAgent := [])
  {
    w := w0.(bridge := Connected(endpoint, Waiting, [frame], None), toAgent := []);
    assert w0.toAgent[1..] == [] && w0.bridge.conns[0].inbox + [frame] == [frame];
    assert w0.bridge.conns[0 := Conn(endpoint, Waiting, [frame])] == w.bridge.conns;
    assert Next(w0, BridgeRead(false)) == Some(w);
    ReachStep(w0, BridgeRead(false), w);
  }

  /** A frame in the inbox reaches the socket. */
  lemma Receives(w0: World, p: Policy, endpoint: Endpoint, frame: Frame) returns (w: World)
    requires Reaches(w0) && w0.policies == [p] && w0.bridge == Connected(endpoint, Waiting, [frame], None)
    requires Delivers(endpoint, frame) && w0.delivered == []
    ensures Reaches(w) && w.delivered == [Delivery(0, frame)] && w.asked == w0.asked
  {
    w := w0.(bridge := Receive(w0.bridge, 0).value, delivered := [Delivery(0, frame)]);
    assert w0.delivered + [Delivery(0, frame)] == [Delivery(0, frame)];
    assert Next(w0, BridgeReceive(0)) == Some(w);
    ReachStep(w0, BridgeReceive(0), w);
  }

  /** The frame the host's first task offered reaches the socket. */
  lemma Delivered(w0: World, p: Policy, endpoint: Endpoint, frame: Frame, auth: Authorization) returns (w: World)
    requires Reaches(w0) && Calm(w0, p) && w0.bridge == Connected(endpoint, Waiting, [], None) && w0.delivered == []
    requires w0.host.loop.Ready? && w0.host.lane == TwoSenders(Some(Sending(frame, Some(auth), false)))
    requires Epoch(p, auth.op) == auth.epoch && Authorized(p, auth.op)
    requires frame.stream == 2 && |frame.payload| <= 65_536 && Delivers(endpoint, frame)
    ensures Reaches(w) && w.delivered == [Delivery(0, frame)] && w.asked == w0.asked
  {
    HostSends(w0, 1);
    var w1 := HostSent(w0, 1);
    assert w1.toAgent == [frame];
    var w2 := ReachesInbox(w1, p, endpoint, frame);
    w := Receives(w2, p, endpoint, frame);
  }

  // ----- A credential -----

  function Helping(adapter: Option<Selector>, job: Job, offered: Option<Sending>): Host {
    Host(adapter, Ready, [Task(2, Connection(0), 0, job, [])], map[], TwoSenders(offered), MAX_HELPERS - 1, MAX_STREAMS, {})
  }

  /** The host starts a helper for a lookup. */
  lemma Looks(p: Policy, resolved: bool, body: seq<Byte>) returns (w: World)
    requires p == NewPolicy(p.revision, p.grants) && p.grants.gitHttps.Some? && |body| <= 65_536
    ensures Reaches(w) && Calm(w, p) && w.bridge == Connected(CredentialSocket, Waiting, [], None)
    ensures w.host == Helping(Adapter(p.grants, resolved), Helper(Captured(p.revision, 0), body), None)
    ensures w.asked == [] && w.delivered == []
  {
    var w0 := Connects(p, resolved, CredentialSocket);
    var frame := Frame(CredentialLookup, 2, body, Connection(0));
    var w1 := Requests(w0, p, CredentialSocket, Fresh, Waiting, body, frame);
    w := w1.(host := Helping(Adapter(p.grants, resolved), Helper(Captured(p.revision, 0), body), None), toHost := []);
    assert w1.host.lane.senders + [None] == [None, None] && w1.toHost[1..] == [];
    assert w1.host.tasks + w.host.tasks == w.host.tasks;
    assert Next(w1, HostRead(false)) == Some(w);
    ReachStep(w1, HostRead(false), w);
  }

  /** The backend finds the credential and the helper offers it. */
  lemma Finds(p: Policy, resolved: bool, origin: CredentialGrants.Origin, body: seq<Byte>, answer: seq<Byte>) returns (w: World)
    requires p == NewPolicy(p.revision, p.grants) && p.grants.gitHttps.Some? && origin in p.grants.gitHttps.value
    requires |body| <= 65_536 && |answer| <= 65_536
    ensures Reaches(w) && Calm(w, p) && w.bridge == Connected(CredentialSocket, Waiting, [], None) && w.delivered == []
    ensures w.host == Helping(Adapter(p.grants, resolved), Replying, Some(Sending(
                        Frame(CredentialResult, 2, answer, Connection(0)),
                        Some(Authorization(Lookup, p.revision, 0, CredentialFor(origin, 0))), false)))
  {
    var adapter, source := Adapter(p.grants, resolved), CredentialFor(origin, 0);
    var w0 := Looks(p, resolved, body);
    var w1 := w0.(host := Helping(adapter, Found(Captured(p.revision, 0), body, source, answer), None));
    assert w0.host.tasks[0 := w1.host.tasks[0]] == w1.host.tasks;
    assert Next(w0, HostAct(HostFindCredential(0, origin, answer))) == Some(w1);
    ReachStep(w0, HostAct(HostFindCredential(0, origin, answer)), w1);
    var sending := Sending(Frame(CredentialResult, 2, answer, Connection(0)),
                           Some(Authorization(Lookup, p.revision, 0, source)), false);
    w := w1.(host := Helping(adapter, Replying, Some(sending)));
    assert w1.host.tasks[0 := w.host.tasks[0]] == w.host.tasks;
    assert w1.host.lane.senders[1 := Some(sending)] == w.host.lane.senders;
    assert Next(w1, HostAct(HostAnswerLookup(0, false))) == Some(w);
    ReachStep(w1, HostAct(HostAnswerLookup(0, false)), w);
  }

  /** A lookup for an allowed origin can be answered: what the backend finds reaches the socket. */
  lemma LookupIsServed(revision: nat, g: Grants, resolved: bool, origin: CredentialGrants.Origin, body: seq<Byte>, answer: seq<Byte>)
      returns (w: World)
    requires g.gitHttps.Some? && origin in g.gitHttps.value && |body| <= 65_536 && |answer| <= 65_536
    ensures Reaches(w) && w.delivered == [Delivery(0, Frame(CredentialResult, 2, answer, Connection(0)))]
  {
    var p := NewPolicy(revision, g);
    var w0 := Finds(p, resolved, origin, body, answer);
    w := Delivered(w0, p, CredentialSocket, Frame(CredentialResult, 2, answer, Connection(0)),
                   Authorization(Lookup, revision, 0, CredentialFor(origin, 0)));
  }

  // ----- An agent packet -----

  function Relaying(agent: Selector, job: Job, inbox: seq<Frame>, offered: Option<Sending>): Host {
    Host(Some(agent), Ready, [Task(2, Connection(0), 0, job, inbox)], map[2 := Some(0)], TwoSenders(offered),
         MAX_HELPERS, MAX_STREAMS - 1, {2})
  }

  /** The host starts a relay for a connection. */
  lemma Relayed(p: Policy, agent: Selector) returns (w: World)
    requires p == NewPolicy(p.revision, p.grants) && p.grants.sshAgent == Some(agent)
    ensures Reaches(w) && Calm(w, p) && w.bridge == Connected(AgentSocket, Resting, [], None)
    ensures w.host == Relaying(agent, Relay(agent), [], None) && w.asked == [] && w.delivered == []
  {
    var w0 := Connects(p, true, AgentSocket);
    var w1 := Requests(w0, p, AgentSocket, Fresh, Resting, [], OPEN);
    w := w1.(host := Relaying(agent, Relay(agent), [], None), toHost := []);
    assert w1.host.lane.senders + [None] == [None, None] && w1.toHost[1..] == [];
    assert w1.host.tasks + w.host.tasks == w.host.tasks && w1.host.relayed + {2} == {2};
    assert w1.host.inputs[2 := Some(0)] == map[2 := Some(0)];
    assert Next(w1, HostRead(true)) == Some(w);
    ReachStep(w1, HostRead(true), w);
  }

  /** A packet reaches the relay. */
  lemma Queues(p: Policy, agent: Selector, packet: seq<Byte>) returns (w: World)
    requires p == NewPolicy(p.revision, p.grants) && p.grants.sshAgent == Some(agent)
    requires ValidPacket(packet) && |packet| <= 65_536
    ensures Reaches(w) && Calm(w, p) && w.bridge == Connected(AgentSocket, Waiting, [], None) && w.delivered == []
    ensures w.host == Relaying(agent, Relay(agent), [Frame(StreamData, 2, packet, Connection(0))], None) && w.asked == []
  {
    var w0 := Relayed(p, agent);
    var frame := Frame(StreamData, 2, packet, Connection(0));
    var w1 := Requests(w0, p, AgentSocket, Resting, Waiting, packet, frame);
    w := w1.(host := Relaying(agent, Relay(agent), [frame], None), toHost := []);
    assert w1.toHost[1..] == [] && w1.host.tasks[0].inbox + [frame] == [frame];
    assert w1.host.tasks[0 := w.host.tasks[0]] == w.host.tasks;
    assert Next(w1, HostRead(true)) == Some(w);
    ReachStep(w1, HostRead(true), w);
  }

  /** The relay takes the packet and puts it to the agent. */
  lemma Exchanges(p: Policy, agent: Selector, packet: seq<Byte>) returns (w: World)
    requires p == NewPolicy(p.revision, p.grants) && p.grants.sshAgent == Some(agent)
    requires ValidPacket(packet) && |packet| <= 65_536
    ensures Reaches(w) && Calm(w, p) && w.bridge == Connected(AgentSocket, Waiting, [], None) && w.delivered == []
    ensures w.host == Relaying(agent, Exchanging(agent, Captured(p.revision, 0), Connection(0), packet), [], None)
    ensures w.asked == [Asked(agent, 0, 0, Connection(0), packet)]
  {
    var w0 := Queues(p, agent, packet);
    w := w0.(host := Relaying(agent, Exchanging(agent, Captured(p.revision, 0), Connection(0), packet), [], None),
             asked := [Asked(agent, 0, 0, Connection(0), packet)]);
    assert w0.host.tasks[0].inbox[1..] == [] && w0.asked + w.asked == w.asked;
    assert w0.host.tasks[0 := w.host.tasks[0]] == w.host.tasks;
    assert Next(w0, HostAct(HostTakePacket(0))) == Some(w);
    ReachStep(w0, HostAct(HostTakePacket(0)), w);
  }

  /** A packet for a granted agent can be answered: it reaches the agent, and the answer the socket. */
  lemma PacketIsServed(revision: nat, g: Grants, agent: Selector, packet: seq<Byte>, answer: seq<Byte>) returns (w: World)
    requires g.sshAgent == Some(agent)
    requires ValidPacket(packet) && |packet| <= 65_536 && ValidPacket(answer) && |answer| <= 65_536
    ensures Reaches(w) && w.asked == [Asked(agent, 0, 0, Connection(0), packet)]
    ensures w.delivered == [Delivery(0, Frame(StreamData, 2, answer, Connection(0)))]
  {
    var p := NewPolicy(revision, g);
    var w0 := Exchanges(p, agent, packet);
    var auth := Authorization(Agent, revision, 0, AnsweredBy(agent));
    var sending := Sending(Frame(StreamData, 2, answer, Connection(0)), Some(auth), false);
    var w1 := w0.(host := Relaying(agent, Relay(agent), [], Some(sending)));
    assert w0.host.tasks[0 := w1.host.tasks[0]] == w1.host.tasks;
    assert w0.host.lane.senders[1 := Some(sending)] == w1.host.lane.senders;
    assert Next(w0, HostAct(HostAnswerPacket(0, answer))) == Some(w1);
    ReachStep(w0, HostAct(HostAnswerPacket(0, answer)), w1);
    w := Delivered(w1, p, AgentSocket, sending.frame, auth);
  }
}
