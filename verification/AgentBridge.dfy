/**
 The container end: the accept loops and the event loop of `serve_credential_bridge` with one
 task per accepted local connection.
 */
module AgentBridge {
  import opened Bytes
  import opened Wrappers
  import opened Sums
  import opened FrameLane

  const STREAM_ID_SPACE: nat := 0x1_0000_0000

  datatype Endpoint = CredentialSocket | AgentSocket

  /** `Fresh` has sent nothing yet; `Waiting` has a request out; `Parting` only has cleanup left. */
  datatype Phase = Fresh | Resting | Waiting | Parting | Closed

  datatype Conn = Conn(endpoint: Endpoint, phase: Phase, inbox: seq<Frame>)

  datatype Stance = AwaitIdentityResult | AwaitReady | Serving | Stopped

  /** Connection `c` owns stream `streams[c]`. */
  datatype Bridge = Bridge(
    stance: Stance, next: nat, conns: seq<Conn>, streams: seq<nat>, recipients: map<nat, nat>,
    lane: Lane, streamsFree: nat)

  const NEW_BRIDGE := Bridge(AwaitIdentityResult, 2, [], [], map[], EMPTY_LANE, MAX_STREAMS)

  function LiveWeight(c: Conn): nat {
    if c.phase.Closed? then 0 else 1
  }

  /** `accept_loop`: the shared 32-bit counter wraps; drawing zero ends the bridge. */
  function Accept(b: Bridge, endpoint: Endpoint): Option<Bridge> {
    if !b.stance.Serving? then None
    else if b.streamsFree == 0 then Some(b)
    else
      var id := b.next;
      var drawn := b.(next := (b.next + 1) % STREAM_ID_SPACE);
      if id == 0 || id in b.recipients then Some(drawn.(stance := Stopped))
      else
        Some(drawn.(conns := b.conns + [Conn(endpoint, Fresh, [])], streams := b.streams + [id],
                    recipients := b.recipients[id := |b.conns|], lane := Join(b.lane), streamsFree := b.streamsFree - 1))
  }

  predicate Awake(b: Bridge, c: nat) {
    b.stance.Serving? && c < |b.conns| && c < |b.streams| && Quiet(b.lane, c + 1)
  }

  function OfferFrom(b: Bridge, c: nat, phase: Phase, kind: Kind, payload: seq<Byte>): Bridge
    requires Awake(b, c)
  {
    b.(conns := b.conns[c := b.conns[c].(phase := phase)],
       lane := Offer(b.lane, c + 1, Frame(kind, b.streams[c], payload, Connection(c)), None))
  }

  /** The connection's next request: one lookup, or an open followed by valid agent packets. */
  function Ask(b: Bridge, c: nat, payload: seq<Byte>): Option<Bridge> {
    if !Awake(b, c) || |payload| > MAX_FRAME_BYTES then None
    else
      match (b.conns[c].endpoint, b.conns[c].phase)
      case (CredentialSocket, Fresh) => Some(OfferFrom(b, c, Waiting, CredentialLookup, payload))
      case (AgentSocket, Fresh) => Some(OfferFrom(b, c, Resting, AgentOpen, []))
      case (AgentSocket, Resting) =>
        if ValidPacket(payload) then Some(OfferFrom(b, c, Waiting, StreamData, payload)) else None
      case _ => None
  }

  /** True when the frame's payload is written to the local socket. */
  predicate Delivers(endpoint: Endpoint, f: Frame) {
    match endpoint
    case CredentialSocket => f.kind.CredentialResult?
    case AgentSocket => f.kind.StreamData? && ValidPacket(f.payload)
  }

  function Receive(b: Bridge, c: nat): Option<Bridge> {
    if !Awake(b, c) || !b.conns[c].phase.Waiting? || b.conns[c].inbox == [] then None
    else
      var conn := b.conns[c];
      var phase := if conn.endpoint.AgentSocket? && Delivers(conn.endpoint, conn.inbox[0]) then Resting else Parting;
      Some(b.(conns := b.conns[c := conn.(phase := phase, inbox := conn.inbox[1..])]))
  }

  /** The local side closed, timed out or failed; `farewell` is the frame announcing it, if any. */
  function Part(b: Bridge, c: nat, farewell: Option<Kind>): Option<Bridge> {
    if !Awake(b, c) || b.conns[c].phase.Closed? then None
    else if farewell.None? then Some(b.(conns := b.conns[c := b.conns[c].(phase := Parting)]))
    else if farewell.value.Cancel? || farewell.value.StreamClose? then
      Some(OfferFrom(b, c, Parting, farewell.value, []))
    else None
  }

  function Close(b: Bridge, c: nat): Option<Bridge> {
    if !Awake(b, c) || !b.conns[c].phase.Parting? then None
    else
      Some(b.(conns := b.conns[c := b.conns[c].(phase := Closed)], recipients := b.recipients - {b.streams[c]},
              streamsFree := b.streamsFree + 1))
  }

  /**
   One frame from the host. A response for a stream nobody owns any more ends the bridge; `dropped`
   says whether a parting connection has already let go of its inbox.
   */
  function Route(b: Bridge, f: Frame, dropped: bool): Option<Bridge> {
    if !b.stance.Serving? || !Quiet(b.lane, 0) then None
    else if f.kind.Health? && f.stream == 0 then
      Some(b.(lane := Offer(b.lane, 0, Frame(HealthAck, 0, [], Control), None)))
    else if f.kind.CredentialResult? || f.kind.StreamData? || f.kind.StreamClose? || f.kind.ErrorFrame? then
      if f.stream !in b.recipients then Some(b.(stance := Stopped))
      else
        var c := b.recipients[f.stream];
        if c >= |b.conns| || b.conns[c].phase.Closed? || (b.conns[c].phase.Parting? && dropped) then
          Some(b.(stance := Stopped))
        else if |b.conns[c].inbox| >= INBOX_FRAMES then None
        else Some(b.(conns := b.conns[c := b.conns[c].(inbox := b.conns[c].inbox + [f])]))
    else Some(b.(stance := Stopped))
  }

  datatype BridgeAction =
    | BridgeAccept(endpoint: Endpoint)
    | BridgeAsk(conn: nat, payload: seq<Byte>)
    | BridgePart(conn: nat, farewell: Option<Kind>)
    | BridgeClose(conn: nat)
    | BridgeAcquire(sender: nat)
    | BridgePush(sender: nat)
    | BridgeFail

  /** Everything the bridge does on its own, between reading and writing the wire. */
  function BridgeStep(b: Bridge, a: BridgeAction): Option<Bridge> {
    match a
    case BridgeAccept(endpoint) => Accept(b, endpoint)
    case BridgeAsk(c, payload) => Ask(b, c, payload)
    case BridgePart(c, farewell) => Part(b, c, farewell)
    case BridgeClose(c) => Close(b, c)
    case BridgeAcquire(i) => if b.stance.Serving? && CanAcquire(b.lane, i) then Some(b.(lane := Acquire(b.lane, i))) else None
    case BridgePush(i) => if b.stance.Serving? && CanPush(b.lane, i) then Some(b.(lane := Push(b.lane, i))) else None
    case BridgeFail => Some(b.(stance := Stopped))
  }

  // ----- Admission is conserved -----

  ghost predicate Admitted(b: Bridge) {
    && Conserved(b.lane) && |b.lane.senders| == |b.conns| + 1 && |b.streams| == |b.conns|
    && b.streamsFree + Sum(b.conns, LiveWeight) == MAX_STREAMS
  }

  lemma ConnMoveKeepsAdmission(b: Bridge, b': Bridge, c: nat)
    requires Admitted(b) && c < |b.conns| && |b'.conns| == |b.conns| && |b'.lane.senders| == |b.lane.senders|
    requires b'.conns == b.conns[c := b'.conns[c]] && b'.streams == b.streams
    requires b'.lane == b.lane
             || (Quiet(b.lane, c + 1) && b'.lane.senders[c + 1].Some?
                 && b'.lane == Offer(b.lane, c + 1, b'.lane.senders[c + 1].value.frame, b'.lane.senders[c + 1].value.auth))
    requires b'.streamsFree + LiveWeight(b'.conns[c]) == b.streamsFree + LiveWeight(b.conns[c])
    ensures Admitted(b')
  {
    SumUpdate(b.conns, c, b'.conns[c], LiveWeight);
    if b'.lane != b.lane {
      OfferConserves(b.lane, c + 1, b'.lane.senders[c + 1].value.frame, b'.lane.senders[c + 1].value.auth);
    }
  }

  lemma AcceptKeepsAdmission(b: Bridge, endpoint: Endpoint)
    requires Admitted(b) && Accept(b, endpoint).Some?
    ensures Admitted(Accept(b, endpoint).value)
  {
    JoinConserves(b.lane);
    SumAppend(b.conns, Conn(endpoint, Fresh, []), LiveWeight);
  }

  lemma RouteKeepsAdmission(b: Bridge, f: Frame, dropped: bool)
    requires Admitted(b) && Route(b, f, dropped).Some?
    ensures Admitted(Route(b, f, dropped).value)
  {
    OfferConserves(b.lane, 0, Frame(HealthAck, 0, [], Control), None);
    var b' := Route(b, f, dropped).value;
    if b'.conns != b.conns {
      var c := b.recipients[f.stream];
      SumUpdate(b.conns, c, b'.conns[c], LiveWeight);
    }
  }

  lemma BridgeStepKeepsAdmission(b: Bridge, a: BridgeAction)
    requires Admitted(b) && BridgeStep(b, a).Some?
    ensures Admitted(BridgeStep(b, a).value)
  {
    var b' := BridgeStep(b, a).value;
    match a
    case BridgeAccept(endpoint) => AcceptKeepsAdmission(b, endpoint);
    case BridgeAsk(c, _) => ConnMoveKeepsAdmission(b, b', c);
    case BridgePart(c, _) => ConnMoveKeepsAdmission(b, b', c);
    case BridgeClose(c) => ConnMoveKeepsAdmission(b, b', c);
    case BridgeAcquire(i) => AcquireConserves(b.lane, i);
    case BridgePush(i) => PushConserves(b.lane, i);
    case BridgeFail =>
  }

  // ----- Stream identifiers -----

  /** Identifiers are drawn once, never 0 or 1, and recipients point at their owners. */
  ghost predicate StreamsOk(b: Bridge) {
    && (!b.stance.Stopped? ==> b.next == 0 || 2 <= b.next < STREAM_ID_SPACE)
    && (forall c :: 0 <= c < |b.streams| ==> 2 <= b.streams[c] < STREAM_ID_SPACE)
    && (!b.stance.Stopped? && b.next != 0 ==> forall c :: 0 <= c < |b.streams| ==> b.streams[c] < b.next)
    && (forall c, d :: 0 <= c < d < |b.streams| ==> b.streams[c] != b.streams[d])
    && (forall s :: s in b.recipients ==> b.recipients[s] < |b.streams| && b.streams[b.recipients[s]] == s)
  }

  /** A new connection gets a stream above all others; only the wrapped counter ends the bridge. */
  lemma AcceptKeepsStreams(b: Bridge, endpoint: Endpoint)
    requires StreamsOk(b) && |b.streams| == |b.conns| && Accept(b, endpoint).Some?
    ensures StreamsOk(Accept(b, endpoint).value)
    ensures var b' := Accept(b, endpoint).value;
            && (b'.stance.Stopped? <==> b.streamsFree > 0 && b.next == 0)
            && b'.streams == (if b.streamsFree > 0 && b.next != 0 then b.streams + [b.next] else b.streams)
            && (|b'.streams| > |b.streams| ==> forall c :: 0 <= c < |b.streams| ==> b.streams[c] < b'.streams[|b.streams|])
  {
    var b' := Accept(b, endpoint).value;
    if |b'.streams| > |b.streams| {
      assert b'.streams == b.streams + [b.next];
    }
  }
}
