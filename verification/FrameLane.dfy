/**
 Broker frames and the bounded outgoing lane each end of the bridge sends through: a semaphore of
 payload bytes in front of a channel of at most `MAX_QUEUED_FRAMES` frames. A sender first takes
 byte permits, then waits for a channel slot; the permits return when the frame leaves the lane.
 */
module FrameLane {
  import opened Bytes
  import opened Wrappers
  import opened Sums
  import CredentialGrants
  import LivePolicy

  const MAX_FRAME_BYTES: nat := 64 * 1024
  const MAX_STREAMS: nat := 32
  const MAX_QUEUED_FRAMES: nat := 64
  const MAX_QUEUED_BYTES: nat := 512 * 1024
  const MAX_HELPERS: nat := 4
  const INBOX_FRAMES: nat := 8

  datatype Kind =
    | CredentialLookup | CredentialResult | AgentOpen | StreamData | StreamClose | Cancel
    | IdentityRequest | IdentityResult | Health | HealthAck | Stop | ErrorFrame

  /** Who a frame is about. Carried for the proofs; no step of either end reads it. */
  datatype Origin = Control | Handshake | Connection(index: nat)

  datatype Frame = Frame(kind: Kind, stream: nat, payload: seq<Byte>, origin: Origin)

  /**
   What a result is: a credential for an origin that was last found allowed at a moment, or what an
   agent under a selector answered. Carried for the proofs; no step of either end reads it.
   */
  datatype Source =
    | Metadata
    | CredentialFor(origin: CredentialGrants.Origin, checked: nat)
    | AnsweredBy(selector: CredentialGrants.Selector)

  /** The policy epoch captured when the operation was dispatched, and when that was. */
  datatype Authorization = Authorization(op: LivePolicy.Operation, epoch: nat, at: nat, source: Source)

  datatype Sending = Sending(frame: Frame, auth: Option<Authorization>, permitted: bool)

  /** Sender 0 is the end's own event loop; sender `i + 1` is its task or connection `i`. */
  datatype Lane = Lane(free: nat, senders: seq<Option<Sending>>, queue: seq<Sending>)

  const EMPTY_LANE := Lane(MAX_QUEUED_BYTES, [None], [])

  function Cost(s: Sending): nat {
    if |s.frame.payload| == 0 then 1 else |s.frame.payload|
  }

  function HeldBy(s: Option<Sending>): nat {
    if s.Some? && s.value.permitted then Cost(s.value) else 0
  }

  function Join(lane: Lane): Lane {
    lane.(senders := lane.senders + [None])
  }

  predicate Quiet(lane: Lane, i: nat) {
    i < |lane.senders| && lane.senders[i].None?
  }

  function Offer(lane: Lane, i: nat, frame: Frame, auth: Option<Authorization>): Lane
    requires Quiet(lane, i)
  {
    lane.(senders := lane.senders[i := Some(Sending(frame, auth, false))])
  }

  /** `acquire_many_owned`: enabled only while enough bytes are free. */
  predicate CanAcquire(lane: Lane, i: nat) {
    i < |lane.senders| && lane.senders[i].Some? && !lane.senders[i].value.permitted
    && Cost(lane.senders[i].value) <= lane.free
  }

  function Acquire(lane: Lane, i: nat): Lane
    requires CanAcquire(lane, i)
  {
    var s := lane.senders[i].value;
    lane.(free := lane.free - Cost(s), senders := lane.senders[i := Some(s.(permitted := true))])
  }

  predicate CanPush(lane: Lane, i: nat) {
    i < |lane.senders| && lane.senders[i].Some? && lane.senders[i].value.permitted
    && |lane.queue| < MAX_QUEUED_FRAMES
  }

  function Push(lane: Lane, i: nat): Lane
    requires CanPush(lane, i)
  {
    lane.(senders := lane.senders[i := None], queue := lane.queue + [lane.senders[i].value])
  }

  function Pop(lane: Lane): Lane
    requires lane.queue != []
  {
    lane.(free := lane.free + Cost(lane.queue[0]), queue := lane.queue[1..])
  }

  /** Nothing is lost or minted: free permits and permits held by live frames make the total. */
  ghost predicate Conserved(lane: Lane) {
    && lane.free + Sum(lane.senders, HeldBy) + Sum(lane.queue, Cost) == MAX_QUEUED_BYTES
    && |lane.queue| <= MAX_QUEUED_FRAMES
  }

  lemma EmptyIsConserved()
    ensures Conserved(EMPTY_LANE)
  {
    assert Sum(EMPTY_LANE.senders, HeldBy) == Sum([], HeldBy) + HeldBy(None);
  }

  lemma JoinConserves(lane: Lane)
    requires Conserved(lane)
    ensures Conserved(Join(lane))
  {
    SumAppend(lane.senders, None, HeldBy);
  }

  lemma OfferConserves(lane: Lane, i: nat, frame: Frame, auth: Option<Authorization>)
    requires Conserved(lane) && Quiet(lane, i)
    ensures Conserved(Offer(lane, i, frame, auth))
  {
    SumUpdate(lane.senders, i, Some(Sending(frame, auth, false)), HeldBy);
  }

  lemma AcquireConserves(lane: Lane, i: nat)
    requires Conserved(lane) && CanAcquire(lane, i)
    ensures Conserved(Acquire(lane, i))
    ensures var n := |lane.senders[i].value.frame.payload|;
            Acquire(lane, i).free + (if n == 0 then 1 else n) == lane.free
  {
    SumUpdate(lane.senders, i, Some(lane.senders[i].value.(permitted := true)), HeldBy);
  }

  lemma PushConserves(lane: Lane, i: nat)
    requires Conserved(lane) && CanPush(lane, i)
    ensures Conserved(Push(lane, i))
  {
    SumUpdate(lane.senders, i, None, HeldBy);
    SumAppend(lane.queue, lane.senders[i].value, Cost);
  }

  lemma PopConserves(lane: Lane)
    requires Conserved(lane) && lane.queue != []
    ensures Conserved(Pop(lane))
    ensures var n := |lane.queue[0].frame.payload|;
            Pop(lane).free == lane.free + (if n == 0 then 1 else n)
  {
    SumFirst(lane.queue, Cost);
  }

  /** A sender waits for bytes exactly while too few are free, and then exactly while 64 frames are queued. */
  lemma SendersWaitExactly(lane: Lane, i: nat)
    requires i < |lane.senders| && lane.senders[i].Some?
    ensures var s := lane.senders[i].value;
            && (CanAcquire(lane, i) <==> !s.permitted && 1 <= lane.free && |s.frame.payload| <= lane.free)
            && (CanPush(lane, i) <==> s.permitted && |lane.queue| < 64)
  {
  }

  /** `validate_agent_packet`: a big-endian length followed by exactly that many bytes. */
  predicate ValidPacket(p: seq<Byte>) {
    |p| >= 4 && OfBe(p[..4]) != 0 && OfBe(p[..4]) + 4 == |p|
  }

  /** So a valid packet is some bytes after their own length in four bytes. */
  lemma PacketsAreLengthPrefixed(p: seq<Byte>)
    ensures ValidPacket(p) <==> 4 < |p| < 4 + Pow256(4) && p == ToBe(|p| - 4, 4) + p[4..]
  {
    if |p| > 4 {
      ToOfBe(p[..4]);
      assert p == p[..4] + p[4..];
      if |p| < 4 + Pow256(4) {
        OfToBe(|p| - 4, 4);
        assert (ToBe(|p| - 4, 4) + p[4..])[..4] == ToBe(|p| - 4, 4);
      }
    }
  }
}
