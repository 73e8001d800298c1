/** A request is refused exactly where its grant is absent or admission is exhausted, and what is started is what was asked. */
module BrokerRefusals {
  import opened Bytes
  import opened Wrappers
  import opened Sums
  import CredentialGrants
  import opened LivePolicy
  import opened FrameLane
  import opened HostBroker
  import opened AgentBridge
  import opened BrokerSystem
  import opened BrokerOpens

  /** The lookups being served. */
  function Helpers(h: Host): set<int> {
    set j | 0 <= j < |h.tasks| && (h.tasks[j].job.Helper? || h.tasks[j].job.Found? || h.tasks[j].job.Replying?)
  }

  /** The agent streams being served. */
  function Relays(h: Host): set<int> {
    set j | 0 <= j < |h.tasks| && (h.tasks[j].job.Relay? || h.tasks[j].job.Exchanging? || h.tasks[j].job.Leaving?)
  }

  lemma PermitsCountTasks(h: Host)
    requires HostBroker.Admitted(h)
    ensures h.helpersFree + |Helpers(h)| == 4 && h.streamsFree + |Relays(h)| == 32
  {
    SumIsCount(h.tasks, HelperWeight);
    assert Helpers(h) == Carriers(h.tasks, HelperWeight);
    SumIsCount(h.tasks, RelayWeight);
    assert Relays(h) == Carriers(h.tasks, RelayWeight);
  }

  /** The event loop refuses the frame it read: an empty error on its stream, and nothing else changes. */
  ghost predicate Refuses(h: Host, f: Frame, h': Host) {
    && h'.tasks == h.tasks && h'.loop == h.loop && |h.lane.senders| > 0
    && h'.lane == h.lane.(senders := h.lane.senders[0 := Some(Sending(Frame(ErrorFrame, f.stream, [], f.origin), None, false))])
  }

  /** A task for the frame was started, with the rest of the host as it was. */
  ghost predicate Starts(h: Host, f: Frame, h': Host) {
    && |h'.tasks| == |h.tasks| + 1 && h'.tasks[..|h.tasks|] == h.tasks && h'.loop == h.loop
    && h'.tasks[|h.tasks|].stream == f.stream && h'.tasks[|h.tasks|].origin == f.origin && h'.tasks[|h.tasks|].inbox == []
  }

  /** A lookup is refused exactly without the HTTPS grant, and ends the broker exactly as a fifth one. */
  lemma LookupsAreRefusedExactly(h: Host, f: Frame, policy: Policy, at: nat, connected: bool)
    requires HostBroker.Admitted(h) && LoopFree(h) && f.kind.CredentialLookup?
    ensures var h' := Dispatch(h, f, policy, at, connected);
            && h'.Some?
            && (Refuses(h, f, h'.value) <==> policy.grants.gitHttps.None?)
            && (h'.value.loop.Ended? <==> policy.grants.gitHttps.Some? && |Helpers(h)| == 4)
            && (Starts(h, f, h'.value) <==> policy.grants.gitHttps.Some? && |Helpers(h)| < 4)
            && (Starts(h, f, h'.value) ==>
                  h'.value.tasks[|h.tasks|].job.Helper? && h'.value.tasks[|h.tasks|].job.body == f.payload
                  && h'.value.tasks[|h.tasks|].since == at)
  {
    PermitsCountTasks(h);
  }

  /** An open is refused exactly without the agent grant, an agent to connect to, or a free one of 32 streams. */
  lemma OpensAreRefusedExactly(h: Host, f: Frame, policy: Policy, at: nat, connected: bool)
    requires HostBroker.Admitted(h) && LoopFree(h) && f.kind.AgentOpen? && f.stream !in h.inputs
    ensures var h' := Dispatch(h, f, policy, at, connected);
            && h'.Some?
            && (Starts(h, f, h'.value) <==>
                  policy.grants.sshAgent.Some? && |Relays(h)| < 32 && h.adapter.Some? && connected)
            && (Refuses(h, f, h'.value) <==> !Starts(h, f, h'.value))
            && (Starts(h, f, h'.value) ==>
                  h'.value.tasks[|h.tasks|].job == Relay(h.adapter.value) && h'.value.tasks[|h.tasks|].since == at)
  {
    PermitsCountTasks(h);
  }

  /** An identity request is refused exactly without the identity grant. */
  lemma IdentityIsRefusedExactly(h: Host, f: Frame, policy: Policy, at: nat, connected: bool)
    requires LoopFree(h) && f.kind.IdentityRequest?
    ensures var h' := Dispatch(h, f, policy, at, connected);
            && h'.Some? && (Refuses(h, f, h'.value) <==> !policy.grants.gitIdentity)
            && (policy.grants.gitIdentity ==>
                  && h'.value.loop.AwaitIdentity? && h'.value.loop.stream == f.stream && h'.value.loop.origin == f.origin
                  && h'.value.loop.captured.at == at && h'.value.lane == h.lane)
  {
  }

  /** Whatever the host reads in a run, it refuses exactly so. */
  lemma RequestsAreRefusedExactly(t: seq<World>, acts: seq<Action>, i: nat)
    requires IsRun(t, acts) && i < |acts| && acts[i].HostRead?
    ensures t[i].toHost != [] && t[i].policies != []
    ensures var f, h, h', p := t[i].toHost[0], t[i].host, t[i + 1].host, t[i].policies[|t[i].policies| - 1];
            && (f.kind.CredentialLookup? ==>
                  && (Refuses(h, f, h') <==> p.grants.gitHttps.None?)
                  && (h'.loop.Ended? <==> p.grants.gitHttps.Some? && |Helpers(h)| == 4)
                  && (Starts(h, f, h') <==> p.grants.gitHttps.Some? && |Helpers(h)| < 4))
            && (f.kind.AgentOpen? ==>
                  && (Starts(h, f, h') <==>
                        p.grants.sshAgent.Some? && |Relays(h)| < 32 && h.adapter.Some? && acts[i].connected)
                  && (Refuses(h, f, h') <==> !Starts(h, f, h')))
            && (f.kind.IdentityRequest? ==> (Refuses(h, f, h') <==> !p.grants.gitIdentity))
  {
    RunSteps(t, acts, i);
    RunKeepsAdmission(t, acts, i);
    OpensAreNeverDuplicated(t, acts, i);
    var f, at := t[i].toHost[0], |t[i].policies| - 1;
    if f.kind.CredentialLookup? {
      LookupsAreRefusedExactly(t[i].host, f, t[i].policies[at], at, acts[i].connected);
    } else if f.kind.AgentOpen? {
      OpensAreRefusedExactly(t[i].host, f, t[i].policies[at], at, acts[i].connected);
    } else if f.kind.IdentityRequest? {
      IdentityIsRefusedExactly(t[i].host, f, t[i].policies[at], at, acts[i].connected);
    }
  }

  /** The task that serves the stream of a frame. */
  ghost predicate Serves(h: Host, stream: nat, i: nat) {
    && i < |h.tasks| && (h.tasks[i].job.Relay? || h.tasks[i].job.Exchanging? || h.tasks[i].job.Leaving?)
    && stream in h.inputs && h.inputs[stream] == Some(i)
  }

  /** A frame of a stream joins the inbox of its relay, waits while eight are there, or ends the broker for want of a relay. */
  lemma StreamFramesAreRouted(h: Host, f: Frame, policy: Policy, at: nat, connected: bool, i: nat)
    requires LoopFree(h) && (f.kind.StreamData? || f.kind.StreamClose? || f.kind.Cancel?)
    ensures var h' := Dispatch(h, f, policy, at, connected);
            && ((forall j: nat :: !Serves(h, f.stream, j)) ==> h'.Some? && h'.value == h.(loop := Ended))
            && (Serves(h, f.stream, i) ==> (h'.None? <==> |h.tasks[i].inbox| >= 8))
            && (Serves(h, f.stream, i) && h'.Some? ==>
                  && |h'.value.tasks| == |h.tasks| && h'.value.tasks[i].inbox == h.tasks[i].inbox + [f]
                  && h'.value.tasks[i] == h.tasks[i].(inbox := h'.value.tasks[i].inbox)
                  && (forall j :: 0 <= j < |h.tasks| && j != i ==> h'.value.tasks[j] == h.tasks[j])
                  && h'.value == h.(tasks := h'.value.tasks))
  {
    if Routable(h, f.stream) {
      assert Serves(h, f.stream, h.inputs[f.stream].value);
    }
  }

  /** A health request is acknowledged on stream 0; a stop, or anything only the host may send, ends the broker. */
  lemma OtherFramesAreHandled(h: Host, f: Frame, policy: Policy, at: nat, connected: bool)
    requires LoopFree(h)
    requires !(f.kind.CredentialLookup? || f.kind.AgentOpen? || f.kind.IdentityRequest?)
    requires !(f.kind.StreamData? || f.kind.StreamClose? || f.kind.Cancel?)
    ensures var h' := Dispatch(h, f, policy, at, connected);
            && h'.Some?
            && (f.kind.Health? ==>
                  && h'.value == h.(lane := h'.value.lane) && |h'.value.lane.senders| == |h.lane.senders| > 0
                  && h'.value.lane.senders[0] == Some(Sending(Frame(HealthAck, 0, [], Control), None, false))
                  && h'.value.lane.senders[1..] == h.lane.senders[1..] && h'.value.lane.queue == h.lane.queue)
            && (!f.kind.Health? ==> h'.value == h.(loop := Ended))
  {
  }

  // ----- What is answered -----

  /** A helper answers with the credential found exactly while the HTTPS grant stands and it fits a frame. */
  lemma LookupsAreAnsweredExactly(h: Host, i: nat, policy: Policy, failed: bool)
    requires i < |h.tasks|
    ensures AnswerLookup(h, i, policy, failed).Some? <==>
              && (h.tasks[i].job.Helper? || h.tasks[i].job.Found?) && !h.loop.Ended?
              && i + 1 < |h.lane.senders| && h.lane.senders[i + 1].None?
    ensures AnswerLookup(h, i, policy, failed).Some? ==>
            var h', t := AnswerLookup(h, i, policy, failed).value, h.tasks[i];
            var good := t.job.Found? && !failed && policy.grants.gitHttps.Some?;
            && |h'.lane.senders| == |h.lane.senders| > i + 1
            && (good && |t.job.answer| <= 65_536 ==>
                  h'.lane.senders[i + 1].Some?
                  && h'.lane.senders[i + 1].value.frame == Frame(CredentialResult, t.stream, t.job.answer, t.origin))
            && (good && |t.job.answer| > 65_536 ==> h'.lane == h.lane)
            && (!good ==>
                  h'.lane.senders[i + 1].Some?
                  && h'.lane.senders[i + 1].value.frame == Frame(ErrorFrame, t.stream, [], t.origin))
  {
  }

  /** A relay may leave at any time, with or without an empty close on its own stream. */
  lemma RelaysLeave(h: Host, i: nat, announce: bool)
    requires i < |h.tasks|
    ensures LeaveRelay(h, i, announce).Some? <==>
              && (h.tasks[i].job.Relay? || h.tasks[i].job.Exchanging?) && !h.loop.Ended?
              && i + 1 < |h.lane.senders| && h.lane.senders[i + 1].None?
    ensures LeaveRelay(h, i, announce).Some? ==>
            var h', t := LeaveRelay(h, i, announce).value, h.tasks[i];
            && h' == h.(tasks := h.tasks[i := t.(job := Leaving)], lane := h'.lane)
            && h'.lane == (if !announce then h.lane else h.lane.(senders := h.lane.senders[i + 1 :=
                 Some(Sending(Frame(StreamClose, t.stream, [], t.origin), None, false))]))
  {
  }

  /** The identity request is answered with what the backend gave exactly while its grant stands. */
  lemma IdentityIsAnsweredExactly(h: Host, policy: Policy, answer: Option<seq<Byte>>)
    ensures AnswerIdentity(h, policy, answer).Some? <==>
              h.loop.AwaitIdentity? && |h.lane.senders| > 0 && h.lane.senders[0].None?
    ensures AnswerIdentity(h, policy, answer).Some? ==>
            var h', l := AnswerIdentity(h, policy, answer).value, h.loop;
            var good := answer.Some? && policy.grants.gitIdentity;
            && |h'.lane.senders| == |h.lane.senders| > 0
            && (h'.loop.Ended? <==> good && |answer.value| > 65_536)
            && (good && |answer.value| <= 65_536 ==>
                  h'.lane.senders[0].Some?
                  && h'.lane.senders[0].value.frame == Frame(IdentityResult, l.stream, answer.value, l.origin))
            && (!good ==>
                  h'.lane.senders[0].Some? && h'.lane.senders[0].value.frame == Frame(ErrorFrame, l.stream, [], l.origin))
  {
  }

  /** What is written for a queued frame: itself, or a denial without contents exactly when its authority moved. */
  lemma DeniedExactlyWhenMoved(policy: Policy, s: Sending)
    ensures var x := Release(policy, s);
            var moved := s.auth.Some? && (Epoch(policy, s.auth.value.op) != s.auth.value.epoch
              || (s.auth.value.op.Lookup? && policy.grants.gitHttps.None?)
              || (s.auth.value.op.Agent? && policy.grants.sshAgent.None?)
              || (s.auth.value.op.Author? && !policy.grants.gitIdentity));
            && (!moved ==> x == s)
            && (moved ==> x.frame.payload == [] && x.frame.stream == s.frame.stream && x.frame.origin == s.frame.origin
                          && x.frame.kind == (if s.auth.value.op.Agent? then StreamClose else ErrorFrame))
  {
  }

  // ----- What the bridge does with a frame -----

  /** A frame that answers a local connection. */
  predicate AnswersConnection(f: Frame) {
    f.kind.CredentialResult? || f.kind.StreamData? || f.kind.StreamClose? || f.kind.ErrorFrame?
  }

  /**
   An answer joins the inbox of the connection that owns its stream, waits while eight are there, and ends the
   bridge when nobody does; a health request on stream 0 is acknowledged; anything else ends the bridge.
   */
  lemma AnswersAreRouted(b: Bridge, f: Frame, dropped: bool)
    requires b.stance.Serving? && |b.lane.senders| > 0 && b.lane.senders[0].None?
    ensures var r := Route(b, f, dropped);
            var owned := f.stream in b.recipients && b.recipients[f.stream] < |b.conns|
              && !b.conns[b.recipients[f.stream]].phase.Closed?
              && !(b.conns[b.recipients[f.stream]].phase.Parting? && dropped);
            && (f.kind.Health? && f.stream == 0 ==>
                  && r.Some? && r.value == b.(lane := r.value.lane)
                  && r.value.lane == b.lane.(senders :=
                       b.lane.senders[0 := Some(Sending(Frame(HealthAck, 0, [], Control), None, false))]))
            && (!AnswersConnection(f) && !(f.kind.Health? && f.stream == 0) ==> r == Some(b.(stance := Stopped)))
            && (AnswersConnection(f) && !owned ==> r == Some(b.(stance := Stopped)))
            && (AnswersConnection(f) && owned ==>
                  var c := b.recipients[f.stream];
                  && (r.None? <==> |b.conns[c].inbox| >= 8)
                  && (r.Some? ==>
                        && |r.value.conns| == |b.conns| && r.value == b.(conns := r.value.conns)
                        && r.value.conns[c] == b.conns[c].(inbox := b.conns[c].inbox + [f])
                        && forall d :: 0 <= d < |b.conns| && d != c ==> r.value.conns[d] == b.conns[d]))
  {
  }

  /** Only an answer on stream 1 opens the handshake, and only an acknowledgement on stream 0 completes it. */
  lemma HandshakeIsExact(w: World, dropped: bool)
    requires w.toAgent != []
    requires w.bridge.stance == AwaitIdentityResult || w.bridge.stance == AwaitReady
    ensures var f, r := w.toAgent[0], DoBridgeRead(w, dropped);
            && r.Some? && r.value.toAgent == w.toAgent[1..] && r.value.host == w.host
            && r.value.bridge == w.bridge.(stance := r.value.bridge.stance)
            && (w.bridge.stance == AwaitIdentityResult ==>
                  var first := f.stream == 1 && (f.kind.IdentityResult? || f.kind.ErrorFrame?);
                  && r.value.bridge.stance == (if first then AwaitReady else Stopped)
                  && r.value.toHost == if first then w.toHost + [Frame(Health, 0, [], Control)] else w.toHost)
            && (w.bridge.stance == AwaitReady ==>
                  && r.value.bridge.stance == (if f.stream == 0 && f.kind.HealthAck? then Serving else Stopped)
                  && r.value.toHost == w.toHost)
  {
  }

  /** A connection may leave at any time, silently or with an empty cancel or close on its own stream. */
  lemma LeavingIsAnnounced(b: Bridge, c: nat, farewell: Option<Kind>)
    requires b.stance.Serving? && c < |b.conns| == |b.streams| && c + 1 < |b.lane.senders| && b.lane.senders[c + 1].None?
    ensures var r := Part(b, c, farewell);
            && (r.Some? <==> !b.conns[c].phase.Closed? && (farewell == None || farewell == Some(Cancel) || farewell == Some(StreamClose)))
            && (r.Some? ==>
                  && r.value == b.(conns := b.conns[c := b.conns[c].(phase := Parting)], lane := r.value.lane)
                  && r.value.lane == (if farewell.None? then b.lane else b.lane.(senders := b.lane.senders[c + 1 :=
                       Some(Sending(Frame(farewell.value, b.streams[c], [], Connection(c)), None, false))])))
  {
  }
}
