/**
 The broker and the bridge joined by two ordered wires, together with the policy the host consults
 and records, for the proofs only, of what was written and what was delivered. Reading one frame
 and checking-then-writing one frame are single steps; everything else interleaves freely.
 */
module BrokerSystem {
  import opened Bytes
  import opened Wrappers
  import opened Sums
  import CredentialGrants
  import opened LivePolicy
  import opened FrameLane
  import opened HostBroker
  import opened AgentBridge

  /** `now` is the index of the policy in force when the frame was written. */
  datatype Written = Written(sent: Sending, now: nat)

  datatype Delivery = Delivery(conn: nat, frame: Frame)

  /** A packet of `asker` was put to an agent at a moment, by a relay started at another. */
  datatype Asked = Asked(agent: CredentialGrants.Selector, since: nat, at: nat, asker: Origin, packet: seq<Byte>)

  datatype World = World(
    policies: seq<Policy>, host: Host, bridge: Bridge, toHost: seq<Frame>, toAgent: seq<Frame>,
    written: seq<Written>, asked: seq<Asked>, delivered: seq<Delivery>)

  /**
   After the hello exchange the bridge has just asked for identity metadata on stream 1. The backend
   was made from this policy; `resolved` says whether it could resolve the selected agent.
   */
  function Start(policy: Policy, resolved: bool): World {
    World([policy], NewHost(if resolved then policy.grants.sshAgent else None), NEW_BRIDGE, 
          [Frame(IdentityRequest, 1, [], Handshake)], [], [], [], [])
  }

  function Policy0(w: World): Policy
    requires w.policies != []
  {
    w.policies[|w.policies| - 1]
  }

  datatype Action =
    | ChangePolicy(revision: nat, grants: CredentialGrants.Grants)
    | HostAct(host: HostAction)
    | HostRead(connected: bool)
    | HostWrite
    | BridgeAct(bridge: BridgeAction)
    | BridgeRead(dropped: bool)
    | BridgeWrite
    | BridgeReceive(conn: nat)

  function DoChangePolicy(w: World, revision: nat, grants: CredentialGrants.Grants): Option<World>
    requires w.policies != []
  {
    var p := Reconcile(Policy0(w), revision, grants);
    if p.Ok? then Some(w.(policies := w.policies + [p.value])) else None
  }

  /** What a relay that now takes its next packet asks for the record. */
  function Asking(t: Task, at: nat): Asked
    requires t.job.Relay? && t.inbox != []
  {
    Asked(t.job.agent, t.since, at, t.inbox[0].origin, t.inbox[0].payload)
  }

  function DoHostAct(w: World, a: HostAction): Option<World>
    requires w.policies != []
  {
    var h := HostStep(w.host, Policy0(w), |w.policies| - 1, a);
    if h.None? then None
    else
      var asked :=
        if a.HostTakePacket? then w.asked + [Asking(w.host.tasks[a.task], |w.policies| - 1)] else w.asked;
      Some(w.(host := h.value, asked := asked))
  }

  function DoHostRead(w: World, connected: bool): Option<World>
    requires w.policies != []
  {
    if !LoopFree(w.host) || w.toHost == [] then None
    else
      var h := Dispatch(w.host, w.toHost[0], Policy0(w), |w.policies| - 1, connected);
      if h.Some? then Some(w.(host := h.value, toHost := w.toHost[1..])) else None
  }

  function DoHostWrite(w: World): Option<World>
    requires w.policies != []
  {
    if !LoopFree(w.host) || w.host.lane.queue == [] then None
    else
      var s := Release(Policy0(w), w.host.lane.queue[0]);
      Some(w.(host := w.host.(lane := Pop(w.host.lane)), toAgent := w.toAgent + [s.frame],
              written := w.written + [Written(s, |w.policies| - 1)]))
  }

  function DoBridgeAct(w: World, a: BridgeAction): Option<World> {
    var b := BridgeStep(w.bridge, a);
    if b.Some? then Some(w.(bridge := b.value)) else None
  }

  /** During the handshake one exact answer is expected; afterwards frames are routed. */
  function DoBridgeRead(w: World, dropped: bool): Option<World> {
    if w.toAgent == [] then None
    else
      var f := w.toAgent[0];
      var read := w.(toAgent := w.toAgent[1..]);
      match w.bridge.stance
      case AwaitIdentityResult =>
        Some(if (f.kind.IdentityResult? || f.kind.ErrorFrame?) && f.stream == 1 then
               read.(bridge := w.bridge.(stance := AwaitReady), toHost := w.toHost + [Frame(Health, 0, [], Control)])
             else read.(bridge := w.bridge.(stance := Stopped)))
      case AwaitReady =>
        Some(read.(bridge := w.bridge.(stance := if f.kind.HealthAck? && f.stream == 0 then Serving else Stopped)))
      case _ =>
        var b := Route(w.bridge, f, dropped);
        if b.Some? then Some(read.(bridge := b.value)) else None
  }

  function DoBridgeWrite(w: World): Option<World> {
    if !w.bridge.stance.Serving? || !Quiet(w.bridge.lane, 0) || w.bridge.lane.queue == [] then None
    else
      Some(w.(bridge := w.bridge.(lane := Pop(w.bridge.lane)), toHost := w.toHost + [w.bridge.lane.queue[0].frame]))
  }

  function DoBridgeReceive(w: World, c: nat): Option<World> {
    var b := Receive(w.bridge, c);
    if b.None? then None
    else
      var f := w.bridge.conns[c].inbox[0];
      Some(w.(bridge := b.value,
              delivered := if Delivers(w.bridge.conns[c].endpoint, f) then w.delivered + [Delivery(c, f)] else w.delivered))
  }

  function Next(w: World, a: Action): Option<World>
    requires w.policies != []
  {
    match a
    case ChangePolicy(revision, grants) => DoChangePolicy(w, revision, grants)
    case HostAct(h) => DoHostAct(w, h)
    case HostRead(connected) => DoHostRead(w, connected)
    case HostWrite => DoHostWrite(w)
    case BridgeAct(b) => DoBridgeAct(w, b)
    case BridgeRead(dropped) => DoBridgeRead(w, dropped)
    case BridgeWrite => DoBridgeWrite(w)
    case BridgeReceive(c) => DoBridgeReceive(w, c)
  }

  ghost predicate StepAt(t: seq<World>, acts: seq<Action>, i: nat)
    requires i < |acts| && |t| == |acts| + 1
  {
    t[i].policies != [] && Next(t[i], acts[i]) == Some(t[i + 1])
  }

  /** Every finite behaviour: a start, then any enabled actions in any order. */
  ghost predicate IsRun(t: seq<World>, acts: seq<Action>) {
    && |t| == |acts| + 1 && (exists revision, grants, resolved :: t[0] == Start(NewPolicy(revision, grants), resolved))
    && forall i :: 0 <= i < |acts| ==> StepAt(t, acts, i)
  }

  lemma RunSteps(t: seq<World>, acts: seq<Action>, i: nat)
    requires IsRun(t, acts) && i < |acts|
    ensures t[i].policies != [] && Next(t[i], acts[i]) == Some(t[i + 1])
  {
    assert StepAt(t, acts, i);
  }

  // ===== Admission =====

  ghost predicate AdmissionInv(w: World) {
    IsHistory(w.policies) && HostBroker.Admitted(w.host) && AgentBridge.Admitted(w.bridge)
  }

  lemma StartIsAdmitted(policy: Policy, resolved: bool)
    requires policy == NewPolicy(policy.revision, policy.grants)
    ensures AdmissionInv(Start(policy, resolved))
  {
    EmptyIsConserved();
  }

  lemma HostActKeepsAdmission(w: World, a: HostAction)
    requires AdmissionInv(w) && DoHostAct(w, a).Some?
    ensures AdmissionInv(DoHostAct(w, a).value)
  {
    HostStepKeepsAdmission(w.host, Policy0(w), |w.policies| - 1, a);
  }

  lemma HostReadKeepsAdmission(w: World, connected: bool)
    requires AdmissionInv(w) && DoHostRead(w, connected).Some?
    ensures AdmissionInv(DoHostRead(w, connected).value)
  {
    DispatchKeepsAdmission(w.host, w.toHost[0], Policy0(w), |w.policies| - 1, connected);
  }

  lemma BridgeReadKeepsAdmission(w: World, dropped: bool)
    requires AdmissionInv(w) && DoBridgeRead(w, dropped).Some?
    ensures AdmissionInv(DoBridgeRead(w, dropped).value)
  {
    if w.bridge.stance.Serving? || w.bridge.stance.Stopped? {
      RouteKeepsAdmission(w.bridge, w.toAgent[0], dropped);
    }
  }

  lemma NextKeepsAdmission(w: World, a: Action)
    requires AdmissionInv(w) && Next(w, a).Some?
    ensures AdmissionInv(Next(w, a).value)
  {
    match a
    case ChangePolicy(_, _) =>
    case HostAct(h) => HostActKeepsAdmission(w, h);
    case HostRead(connected) => HostReadKeepsAdmission(w, connected);
    case HostWrite => PopConserves(w.host.lane);
    case BridgeAct(b) => BridgeStepKeepsAdmission(w.bridge, b);
    case BridgeRead(dropped) => BridgeReadKeepsAdmission(w, dropped);
    case BridgeWrite => PopConserves(w.bridge.lane);
    case BridgeReceive(c) => ConnMoveKeepsAdmission(w.bridge, Receive(w.bridge, c).value, c);
  }

  lemma {:induction false} RunKeepsAdmission(t: seq<World>, acts: seq<Action>, i: nat)
    requires IsRun(t, acts) && i < |t|
    ensures AdmissionInv(t[i])
  {
    if i == 0 {
      var revision, grants, resolved :| t[0] == Start(NewPolicy(revision, grants), resolved);
      StartIsAdmitted(NewPolicy(revision, grants), resolved);
    } else {
      RunKeepsAdmission(t, acts, i - 1);
      RunSteps(t, acts, i - 1);
      NextKeepsAdmission(t[i - 1], acts[i - 1]);
    }
  }

  // ----- Inboxes -----

  ghost predicate InboxesOk(h: Host, b: Bridge) {
    && (forall i :: 0 <= i < |h.tasks| ==> |h.tasks[i].inbox| <= INBOX_FRAMES)
    && (forall c :: 0 <= c < |b.conns| ==> |b.conns[c].inbox| <= INBOX_FRAMES)
  }

  lemma HostStepKeepsInboxes(h: Host, policy: Policy, at: nat, a: HostAction, b: Bridge)
    requires InboxesOk(h, b) && HostStep(h, policy, at, a).Some?
    ensures InboxesOk(HostStep(h, policy, at, a).value, b)
  {
  }

  lemma DispatchKeepsInboxes(h: Host, f: Frame, policy: Policy, at: nat, connected: bool, b: Bridge)
    requires InboxesOk(h, b) && LoopFree(h) && Dispatch(h, f, policy, at, connected).Some?
    ensures InboxesOk(Dispatch(h, f, policy, at, connected).value, b)
  {
  }

  lemma BridgeStepKeepsInboxes(h: Host, b: Bridge, a: BridgeAction)
    requires InboxesOk(h, b) && BridgeStep(b, a).Some?
    ensures InboxesOk(h, BridgeStep(b, a).value)
  {
  }

  lemma RouteKeepsInboxes(h: Host, b: Bridge, f: Frame, dropped: bool)
    requires InboxesOk(h, b) && Route(b, f, dropped).Some?
    ensures InboxesOk(h, Route(b, f, dropped).value)
  {
  }

  lemma BridgeReadKeepsInboxes(w: World, dropped: bool)
    requires InboxesOk(w.host, w.bridge) && DoBridgeRead(w, dropped).Some?
    ensures InboxesOk(w.host, DoBridgeRead(w, dropped).value.bridge)
  {
    if w.bridge.stance.Serving? || w.bridge.stance.Stopped? {
      RouteKeepsInboxes(w.host, w.bridge, w.toAgent[0], dropped);
    }
  }

  lemma NextKeepsInboxes(w: World, a: Action)
    requires w.policies != [] && InboxesOk(w.host, w.bridge) && Next(w, a).Some?
    ensures InboxesOk(Next(w, a).value.host, Next(w, a).value.bridge)
  {
    match a
    case HostAct(h) => HostStepKeepsInboxes(w.host, Policy0(w), |w.policies| - 1, h, w.bridge);
    case HostRead(connected) =>
      DispatchKeepsInboxes(w.host, w.toHost[0], Policy0(w), |w.policies| - 1, connected, w.bridge);
    case BridgeAct(b) => BridgeStepKeepsInboxes(w.host, w.bridge, b);
    case BridgeRead(dropped) => BridgeReadKeepsInboxes(w, dropped);
    case _ =>
  }

  lemma {:induction false} RunKeepsInboxes(t: seq<World>, acts: seq<Action>, i: nat)
    requires IsRun(t, acts) && i < |t|
    ensures InboxesOk(t[i].host, t[i].bridge)
  {
    if i > 0 {
      RunKeepsInboxes(t, acts, i - 1);
      RunSteps(t, acts, i - 1);
      NextKeepsInboxes(t[i - 1], acts[i - 1]);
    }
  }

  function PayloadBytes(s: Sending): nat {
    |s.frame.payload|
  }

  /** In every state of every run the advertised bounds hold, whatever the other side does. */
  lemma EverythingStaysBounded(t: seq<World>, acts: seq<Action>, i: nat)
    requires IsRun(t, acts) && i < |t|
    ensures |set j | 0 <= j < |t[i].host.tasks|
              && (t[i].host.tasks[j].job.Helper? || t[i].host.tasks[j].job.Found? || t[i].host.tasks[j].job.Replying?)| <= 4
    ensures |set j | 0 <= j < |t[i].host.tasks|
              && (t[i].host.tasks[j].job.Relay? || t[i].host.tasks[j].job.Exchanging? || t[i].host.tasks[j].job.Leaving?)| <= 32
    ensures |set c | 0 <= c < |t[i].bridge.conns| && !t[i].bridge.conns[c].phase.Closed?| <= 32
    ensures |t[i].host.lane.queue| <= 64 && |t[i].bridge.lane.queue| <= 64
    ensures Sum(t[i].host.lane.queue, PayloadBytes) <= 524_288
    ensures Sum(t[i].bridge.lane.queue, PayloadBytes) <= 524_288
    ensures forall j :: 0 <= j < |t[i].host.tasks| ==> |t[i].host.tasks[j].inbox| <= 8
    ensures forall c :: 0 <= c < |t[i].bridge.conns| ==> |t[i].bridge.conns[c].inbox| <= 8
  {
    RunKeepsInboxes(t, acts, i);
    RunKeepsAdmission(t, acts, i);
    var h, b := t[i].host, t[i].bridge;
    SumIsMonotone(h.lane.queue, PayloadBytes, Cost);
    SumIsMonotone(b.lane.queue, PayloadBytes, Cost);
    SumCounts(h.tasks, HelperWeight);
    assert (set j | 0 <= j < |h.tasks| && (h.tasks[j].job.Helper? || h.tasks[j].job.Found? || h.tasks[j].job.Replying?))
           == Carriers(h.tasks, HelperWeight);
    SumCounts(h.tasks, RelayWeight);
    assert (set j | 0 <= j < |h.tasks| && (h.tasks[j].job.Relay? || h.tasks[j].job.Exchanging? || h.tasks[j].job.Leaving?))
           == Carriers(h.tasks, RelayWeight);
    SumCounts(b.conns, LiveWeight);
    assert (set c | 0 <= c < |b.conns| && !b.conns[c].phase.Closed?) == Carriers(b.conns, LiveWeight);
  }

  /** And nothing leaks: once the work is over every permit is back. */
  lemma NothingLeaks(t: seq<World>, acts: seq<Action>, i: nat)
    requires IsRun(t, acts) && i < |t|
    ensures (forall j :: 0 <= j < |t[i].host.tasks| ==> !IsHelper(t[i].host.tasks[j])) ==>
              t[i].host.helpersFree == MAX_HELPERS
    ensures (forall j :: 0 <= j < |t[i].host.tasks| ==> !IsRelay(t[i].host.tasks[j])) ==>
              t[i].host.streamsFree == MAX_STREAMS
    ensures (forall c :: 0 <= c < |t[i].bridge.conns| ==> t[i].bridge.conns[c].phase.Closed?) ==>
              t[i].bridge.streamsFree == MAX_STREAMS
    ensures Drained(t[i].host.lane) ==> t[i].host.lane.free == MAX_QUEUED_BYTES
    ensures Drained(t[i].bridge.lane) ==> t[i].bridge.lane.free == MAX_QUEUED_BYTES
  {
    RunKeepsAdmission(t, acts, i);
    var h, b := t[i].host, t[i].bridge;
    if forall j :: 0 <= j < |h.tasks| ==> !IsHelper(h.tasks[j]) {
      SumOfNothing(h.tasks, HelperWeight);
    }
    if forall j :: 0 <= j < |h.tasks| ==> !IsRelay(h.tasks[j]) {
      SumOfNothing(h.tasks, RelayWeight);
    }
    if forall c :: 0 <= c < |b.conns| ==> b.conns[c].phase.Closed? {
      SumOfNothing(b.conns, LiveWeight);
    }
    if Drained(h.lane) {
      SumOfNothing(h.lane.senders, HeldBy);
    }
    if Drained(b.lane) {
      SumOfNothing(b.lane.senders, HeldBy);
    }
  }

  /** Nothing queued and no sender waiting. */
  ghost predicate Drained(lane: Lane) {
    lane.queue == [] && forall j :: 0 <= j < |lane.senders| ==> lane.senders[j].None?
  }
}
