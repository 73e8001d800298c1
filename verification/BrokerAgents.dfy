/** Runs in which the policy selects one agent and another one answers, or selects none and one is asked. */
module BrokerAgents {
  import opened Bytes
  import opened Wrappers
  import opened CredentialGrants
  import opened LivePolicy
  import opened FrameLane
  import opened HostBroker
  import opened AgentBridge
  import opened BrokerSystem

  ghost predicate Reaches(w: World) {
    exists t, acts :: IsRun(t, acts) && t[|t| - 1] == w
  }

  lemma ReachStart(revision: nat, grants: Grants, resolved: bool)
    ensures Reaches(Start(NewPolicy(revision, grants), resolved))
  {
    var w := Start(NewPolicy(revision, grants), resolved);
    assert IsRun([w], []);
    assert [w][|[w]| - 1] == w;
  }

  lemma ReachStep(w: World, a: Action, w': World)
    requires Reaches(w) && w.policies != [] && Next(w, a) == Some(w')
    ensures Reaches(w')
  {
    var t, acts :| IsRun(t, acts) && t[|t| - 1] == w;
    var longer, more := t + [w'], acts + [a];
    forall i | 0 <= i < |more|
      ensures StepAt(longer, more, i)
    {
      if i < |acts| {
        assert StepAt(t, acts, i);
        assert longer[i] == t[i] && longer[i + 1] == t[i + 1] && more[i] == acts[i];
      }
    }
    assert longer[0] == t[0];
    assert IsRun(longer, more) && longer[|longer| - 1] == w';
  }

  // ----- One frame through a lane -----

  /** What is left of a world whose host sent the frame sender `i` had offered. */
  function HostSent(w: World, i: nat): World
    requires w.policies != [] && i < |w.host.lane.senders| && w.host.lane.senders[i].Some?
  {
    var s := Release(Policy0(w), w.host.lane.senders[i].value.(permitted := true));
    w.(host := w.host.(lane := w.host.lane.(senders := w.host.lane.senders[i := None])),
       toAgent := w.toAgent + [s.frame], written := w.written + [Written(s, |w.policies| - 1)])
  }

  lemma HostSends(w: World, i: nat)
    requires Reaches(w) && w.policies != [] && w.host.loop.Ready? && w.host.lane.queue == []
    requires i < |w.host.lane.senders| && w.host.lane.senders[i].Some? && (i == 0 || w.host.lane.senders[0].None?)
    requires !w.host.lane.senders[i].value.permitted && Cost(w.host.lane.senders[i].value) <= w.host.lane.free
    ensures Reaches(HostSent(w, i))
  {
    var lane := w.host.lane;
    var s := lane.senders[i].value;
    var taken := Acquire(lane, i);
    var w1 := w.(host := w.host.(lane := taken));
    assert Next(w, HostAct(HostAcquire(i))) == Some(w1);
    ReachStep(w, HostAct(HostAcquire(i)), w1);
    var pushed := Push(taken, i);
    var w2 := w1.(host := w1.host.(lane := pushed));
    assert Next(w1, HostAct(HostPush(i))) == Some(w2);
    ReachStep(w1, HostAct(HostPush(i)), w2);
    assert pushed.queue == [s.(permitted := true)] && Pop(pushed) == lane.(senders := lane.senders[i := None]);
    assert Next(w2, HostWrite) == Some(HostSent(w, i));
    ReachStep(w2, HostWrite, HostSent(w, i));
  }

  function BridgeSent(w: World, i: nat): World
    requires i < |w.bridge.lane.senders| && w.bridge.lane.senders[i].Some?
  {
    w.(bridge := w.bridge.(lane := w.bridge.lane.(senders := w.bridge.lane.senders[i := None])),
       toHost := w.toHost + [w.bridge.lane.senders[i].value.frame])
  }

  lemma BridgeSends(w: World, i: nat)
    requires Reaches(w) && w.policies != [] && w.bridge.stance.Serving? && w.bridge.lane.queue == []
    requires i < |w.bridge.lane.senders| && w.bridge.lane.senders[i].Some? && 0 < i && w.bridge.lane.senders[0].None?
    requires !w.bridge.lane.senders[i].value.permitted && Cost(w.bridge.lane.senders[i].value) <= w.bridge.lane.free
    ensures Reaches(BridgeSent(w, i))
  {
    var lane := w.bridge.lane;
    var s := lane.senders[i].value;
    var taken := Acquire(lane, i);
    var w1 := w.(bridge := w.bridge.(lane := taken));
    assert Next(w, BridgeAct(BridgeAcquire(i))) == Some(w1);
    ReachStep(w, BridgeAct(BridgeAcquire(i)), w1);
    var pushed := Push(taken, i);
    var w2 := w1.(bridge := w1.bridge.(lane := pushed));
    assert Next(w1, BridgeAct(BridgePush(i))) == Some(w2);
    ReachStep(w1, BridgeAct(BridgePush(i)), w2);
    assert pushed.queue == [s.(permitted := true)] && Pop(pushed) == lane.(senders := lane.senders[i := None]);
    assert Next(w2, BridgeWrite) == Some(BridgeSent(w, i));
    ReachStep(w2, BridgeWrite, BridgeSent(w, i));
  }

  // ----- The run -----

  const OLD := NO_GRANTS.(sshAgent := Some("old"))
  const CURRENT := NO_GRANTS.(sshAgent := Some("current"))

  function Policies(): seq<Policy> {
    [NewPolicy(1, OLD), Policy(2, CURRENT, 1, 2, 1)]
  }

  function OneSender(frame: Frame, auth: Option<Authorization>): Lane {
    Lane(MAX_QUEUED_BYTES, [Some(Sending(frame, auth, false))], [])
  }

  function TwoSenders(second: Option<Sending>): Lane {
    Lane(MAX_QUEUED_BYTES, [None, second], [])
  }

  const REFUSAL := Frame(ErrorFrame, 1, [], Handshake)
  const HEALTH := Frame(Health, 0, [], Control)
  const HEALTH_ACK := Frame(HealthAck, 0, [], Control)
  const OPEN := Frame(AgentOpen, 2, [], Connection(0))
  const PACKET: seq<Byte> := [0, 0, 0, 1, 5]
  const ASKED := Frame(StreamData, 2, PACKET, Connection(0))
  const ANSWER := Frame(StreamData, 2, [9], Connection(0))

  /** Before the handshake, with the selector already changed. */
  lemma Changed() returns (w: World)
    ensures Reaches(w) && w == World(Policies(), NewHost(Some("old")), NEW_BRIDGE,
                                     [Frame(IdentityRequest, 1, [], Handshake)], [], [], [], [])
  {
    var start := Start(NewPolicy(1, OLD), true);
    ReachStart(1, OLD, true);
    w := start.(policies := Policies());
    assert start.policies + [Policy(2, CURRENT, 1, 2, 1)] == Policies();
    assert Next(start, ChangePolicy(2, CURRENT)) == Some(w);
    ReachStep(start, ChangePolicy(2, CURRENT), w);
  }

  /** The idle host reads a frame it answers at once, and writes the answer. */
  lemma Replies(w0: World, reply: Frame) returns (w: World)
    requires Reaches(w0) && w0.policies == Policies() && w0.host == NewHost(Some("old"))
    requires |w0.toHost| == 1 && w0.toAgent == [] && reply.payload == []
    requires Dispatch(w0.host, w0.toHost[0], Policies()[1], 1, false)
             == Some(Reply(w0.host, reply.kind, reply.stream, reply.origin))
    ensures Reaches(w) && w.policies == w0.policies && w.host == w0.host && w.bridge == w0.bridge
    ensures w.toHost == [] && w.toAgent == [reply]
  {
    var w1 := w0.(host := w0.host.(lane := OneSender(reply, None)), toHost := []);
    assert w0.toHost[1..] == [] && w0.host.lane.senders[0 := Some(Sending(reply, None, false))] == w1.host.lane.senders;
    assert Next(w0, HostRead(false)) == Some(w1);
    ReachStep(w0, HostRead(false), w1);
    HostSends(w1, 0);
    w := HostSent(w1, 0);
    assert w.host.lane.senders == [None] && w.toAgent == [reply];
  }

  /** The identity request is refused, and the bridge asks for health. */
  lemma Refused() returns (w: World)
    ensures Reaches(w) && w.policies == Policies() && w.host == NewHost(Some("old"))
    ensures w.bridge == NEW_BRIDGE.(stance := AwaitReady) && w.toHost == [HEALTH] && w.toAgent == []
  {
    var w0 := Changed();
    var w1 := Replies(w0, REFUSAL);
    w := w1.(bridge := w1.bridge.(stance := AwaitReady), toHost := [HEALTH], toAgent := []);
    assert w1.toAgent[1..] == [] && w1.toHost + [HEALTH] == [HEALTH];
    assert Next(w1, BridgeRead(false)) == Some(w);
    ReachStep(w1, BridgeRead(false), w);
  }

  lemma Serves() returns (w: World)
    ensures Reaches(w) && w.policies == Policies() && w.host == NewHost(Some("old"))
    ensures w.bridge == NEW_BRIDGE.(stance := Serving) && w.toHost == [] && w.toAgent == []
  {
    var w0 := Refused();
    var w1 := Replies(w0, HEALTH_ACK);
    w := w1.(bridge := w1.bridge.(stance := Serving), toAgent := []);
    assert w1.toAgent[1..] == [];
    assert Next(w1, BridgeRead(false)) == Some(w);
    ReachStep(w1, BridgeRead(false), w);
  }

  /** A connection on stream 2, in some phase and with a frame offered or not. */
  function OneConn(phase: Phase, offered: Option<Sending>): Bridge {
    Bridge(Serving, 3, [Conn(AgentSocket, phase, [])], [2], map[2 := 0], TwoSenders(offered), MAX_STREAMS - 1)
  }

  lemma Accepts() returns (w: World)
    ensures Reaches(w) && w.policies == Policies() && w.host == NewHost(Some("old"))
    ensures w.bridge == OneConn(Fresh, None) && w.toHost == [] && w.toAgent == []
  {
    var w0 := Serves();
    w := w0.(bridge := OneConn(Fresh, None));
    assert w0.bridge.lane.senders + [None] == [None, None] && w0.bridge.streams + [2] == [2];
    assert w0.bridge.conns + [Conn(AgentSocket, Fresh, [])] == [Conn(AgentSocket, Fresh, [])];
    assert w0.bridge.recipients[2 := 0] == map[2 := 0];
    assert Next(w0, BridgeAct(BridgeAccept(AgentSocket))) == Some(w);
    ReachStep(w0, BridgeAct(BridgeAccept(AgentSocket)), w);
  }

  /** A host with one relay, connected to the old agent. */
  function OneRelay(job: Job, inbox: seq<Frame>, offered: Option<Sending>): Host {
    Host(Some("old"), Ready, [Task(2, Connection(0), 1, job, inbox)], map[2 := Some(0)], TwoSenders(offered),
         MAX_HELPERS, MAX_STREAMS - 1, {2})
  }

  lemma Opens() returns (w: World)
    ensures Reaches(w) && w.policies == Policies() && w.host == NewHost(Some("old"))
    ensures w.bridge == OneConn(Resting, None) && w.toHost == [OPEN] && w.toAgent == []
  {
    var w0 := Accepts();
    var w1 := w0.(bridge := OneConn(Resting, Some(Sending(OPEN, None, false))));
    assert w0.bridge.lane.senders[1 := Some(Sending(OPEN, None, false))] == w1.bridge.lane.senders;
    assert w0.bridge.conns[0 := Conn(AgentSocket, Resting, [])] == w1.bridge.conns;
    assert Next(w0, BridgeAct(BridgeAsk(0, []))) == Some(w1);
    ReachStep(w0, BridgeAct(BridgeAsk(0, [])), w1);
    BridgeSends(w1, 1);
    w := BridgeSent(w1, 1);
    assert w.bridge.lane.senders == [None, None] && w.bridge == OneConn(Resting, None) && w.toHost == [OPEN];
  }

  lemma Relays() returns (w: World)
    ensures Reaches(w) && w.policies == Policies() && w.host == OneRelay(Relay("old"), [], None)
    ensures w.bridge == OneConn(Resting, None) && w.toHost == [] && w.toAgent == []
  {
    var w0 := Opens();
    w := w0.(host := OneRelay(Relay("old"), [], None), toHost := []);
    assert w0.host.lane.senders + [None] == [None, None] && w0.toHost[1..] == [];
    assert w0.host.tasks + w.host.tasks == w.host.tasks && w0.host.relayed + {2} == {2};
    assert w0.host.inputs[2 := Some(0)] == map[2 := Some(0)];
    assert Next(w0, HostRead(true)) == Some(w);
    ReachStep(w0, HostRead(true), w);
  }

  lemma PacketIsValid()
    ensures ValidPacket(PACKET)
  {
    assert PACKET[..4] == [0, 0, 0, 1];
    assert [0, 0, 0, 1][..3] == [0, 0, 0] && [0, 0, 0][..2] == [0, 0] && [0, 0][..1] == [0];
    assert OfBe([0]) == 0 && OfBe([0, 0]) == 0 && OfBe([0, 0, 0]) == 0;
  }

  lemma Asks() returns (w: World)
    ensures Reaches(w) && w.policies == Policies() && w.host == OneRelay(Relay("old"), [], None)
    ensures w.bridge == OneConn(Waiting, None) && w.toHost == [ASKED] && w.toAgent == []
  {
    var w0 := Relays();
    PacketIsValid();
    var w1 := w0.(bridge := OneConn(Waiting, Some(Sending(ASKED, None, false))));
    assert w0.bridge.lane.senders[1 := Some(Sending(ASKED, None, false))] == w1.bridge.lane.senders;
    assert w0.bridge.conns[0 := Conn(AgentSocket, Waiting, [])] == w1.bridge.conns;
    assert Next(w0, BridgeAct(BridgeAsk(0, PACKET))) == Some(w1);
    ReachStep(w0, BridgeAct(BridgeAsk(0, PACKET)), w1);
    BridgeSends(w1, 1);
    w := BridgeSent(w1, 1);
    assert w.bridge.lane.senders == [None, None] && w.bridge == OneConn(Waiting, None) && w.toHost == [ASKED];
  }

  /** The packet waits in the relay's inbox. */
  lemma Arrives() returns (w: World)
    ensures Reaches(w) && w.policies == Policies() && w.host == OneRelay(Relay("old"), [ASKED], None)
  {
    var w0 := Asks();
    assert w0.toHost[1..] == [] && w0.host.tasks[0].inbox + [ASKED] == [ASKED];
    w := w0.(host := OneRelay(Relay("old"), [ASKED], None), toHost := []);
    assert w0.host.tasks[0 := w0.host.tasks[0].(inbox := [ASKED])] == w.host.tasks;
    assert Next(w0, HostRead(true)) == Some(w);
    ReachStep(w0, HostRead(true), w);
  }

  /** The relay takes it and asks the agent under the policy then in force. */
  lemma Takes(w0: World) returns (w: World)
    requires Reaches(w0) && w0.policies != [] && w0.host == OneRelay(Relay("old"), [ASKED], None)
    ensures var at := |w0.policies| - 1;
            && Reaches(w) && w.policies == w0.policies && w.asked == w0.asked + [Asked("old", 1, at, Connection(0), PACKET)]
            && w.host == OneRelay(Exchanging("old", Captured(Epoch(w0.policies[at], Agent), at), Connection(0), PACKET), [], None)
  {
    PacketIsValid();
    var at := |w0.policies| - 1;
    w := w0.(asked := w0.asked + [Asked("old", 1, at, Connection(0), PACKET)],
             host := OneRelay(Exchanging("old", Captured(Epoch(w0.policies[at], Agent), at), Connection(0), PACKET), [], None));
    assert w0.host.tasks[0].inbox[1..] == [];
    assert w0.host.tasks[0 := w.host.tasks[0]] == w.host.tasks;
    assert Next(w0, HostAct(HostTakePacket(0))) == Some(w);
    ReachStep(w0, HostAct(HostTakePacket(0)), w);
  }

  lemma Answers() returns (w: World)
    ensures Reaches(w) && w.policies == Policies()
    ensures w.host == OneRelay(Relay("old"), [], Some(Sending(ANSWER, Some(Authorization(Agent, 2, 1, AnsweredBy("old"))), false)))
  {
    var w0 := Arrives();
    var w1 := Takes(w0);
    w := w1.(host := OneRelay(Relay("old"), [], Some(Sending(ANSWER, Some(Authorization(Agent, 2, 1, AnsweredBy("old"))), false))));
    assert w1.host.tasks[0 := w.host.tasks[0]] == w.host.tasks && w1.host.lane.senders[1 := w.host.lane.senders[1]] == w.host.lane.senders;
    assert Next(w1, HostAct(HostAnswerPacket(0, [9]))) == Some(w);
    ReachStep(w1, HostAct(HostAnswerPacket(0, [9])), w);
  }

  /** The host writes what the old agent answered under a policy that selects the current one. */
  lemma AnotherAgentCanAnswer() returns (w: World, k: nat)
    ensures Reaches(w) && k < |w.written| && w.written[k].sent.frame.kind.StreamData?
    ensures w.written[k].sent.auth.Some? && w.written[k].sent.auth.value.source == AnsweredBy("old")
    ensures w.written[k].now < |w.policies| && w.policies[w.written[k].now].grants.sshAgent == Some("current")
  {
    var w0 := Answers();
    HostSends(w0, 1);
    w, k := HostSent(w0, 1), |w0.written|;
    assert "old" != "current" && Policy0(w0) == Policy(2, CURRENT, 1, 2, 1);
  }

  /** The relay asks the agent although every grant was revoked while the packet waited. */
  lemma RevokedAgentIsAsked() returns (w: World, k: nat)
    ensures Reaches(w) && k < |w.asked| && w.asked[k].agent == "old" && w.asked[k].at < |w.policies|
    ensures w.policies[w.asked[k].at].grants == NO_GRANTS
  {
    var w0 := Arrives();
    var w1 := w0.(policies := w0.policies + [Policy(3, NO_GRANTS, 1, 3, 1)]);
    assert Next(w0, ChangePolicy(3, NO_GRANTS)) == Some(w1);
    ReachStep(w0, ChangePolicy(3, NO_GRANTS), w1);
    w := Takes(w1);
    k := |w1.asked|;
  }
}
