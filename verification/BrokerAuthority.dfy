/** No result outlives a policy change: what the host may write, and when. */
module BrokerAuthority {
  import opened Bytes
  import opened Wrappers
  import CredentialGrants
  import opened LivePolicy
  import opened FrameLane
  import opened HostBroker
  import opened BrokerSystem

  /** The kinds of frame that carry a credential, an identity or an agent's answer to the container. */
  predicate IsResult(kind: Kind) {
    kind.CredentialResult? || kind.IdentityResult? || kind.StreamData?
  }

  function OperationOf(kind: Kind): Operation
    requires IsResult(kind)
  {
    match kind
    case CredentialResult => Lookup
    case IdentityResult => Author
    case StreamData => Agent
  }

  ghost predicate CapturedOk(ps: seq<Policy>, op: Operation, epoch: nat, at: nat) {
    at < |ps| && Epoch(ps[at], op) == epoch
  }

  /** The agent selected by the first policy, the only one the backend ever resolves. */
  ghost predicate FirstAgent(ps: seq<Policy>, selector: CredentialGrants.Selector) {
    ps != [] && ps[0].grants.sshAgent == Some(selector)
  }

  /** A credential was found allowed no earlier than its lookup was dispatched; an answer is the first agent's. */
  ghost predicate SourceOk(ps: seq<Policy>, op: Operation, at: nat, source: Source) {
    match op
    case Lookup => source.CredentialFor? && at <= source.checked < |ps| && ps[source.checked].grants.Allows(source.origin)
    case Agent => source.AnsweredBy? && FirstAgent(ps, source.selector)
    case Author => source.Metadata?
  }

  ghost predicate SendingOk(ps: seq<Policy>, s: Sending) {
    && (IsResult(s.frame.kind) ==> s.auth.Some? && s.auth.value.op == OperationOf(s.frame.kind))
    && (s.auth.Some? ==>
          && CapturedOk(ps, s.auth.value.op, s.auth.value.epoch, s.auth.value.at)
          && SourceOk(ps, s.auth.value.op, s.auth.value.at, s.auth.value.source))
  }

  ghost predicate LaneOk(ps: seq<Policy>, lane: Lane) {
    && (forall i :: 0 <= i < |lane.senders| && lane.senders[i].Some? ==> SendingOk(ps, lane.senders[i].value))
    && (forall i :: 0 <= i < |lane.queue| ==> SendingOk(ps, lane.queue[i]))
  }

  /** The policy grants what a result of this kind needs. */
  ghost predicate GrantedFor(p: Policy, kind: Kind) {
    && (kind.CredentialResult? ==> p.grants.gitHttps.Some?)
    && (kind.StreamData? ==> p.grants.sshAgent.Some?)
    && (kind.IdentityResult? ==> p.grants.gitIdentity)
  }

  /** The two policies grant it alike. */
  ghost predicate GrantedAlike(p: Policy, q: Policy, kind: Kind) {
    && (kind.CredentialResult? ==> p.grants.gitHttps == q.grants.gitHttps)
    && (kind.StreamData? ==> p.grants.sshAgent == q.grants.sshAgent)
    && (kind.IdentityResult? ==> p.grants.gitIdentity == q.grants.gitIdentity)
  }

  /** The task was started under a policy that granted it. */
  ghost predicate Admissible(ps: seq<Policy>, t: Task) {
    && t.since < |ps|
    && (t.job.Helper? || t.job.Found? || t.job.Replying? ==> ps[t.since].grants.gitHttps.Some?)
    && (t.job.Relay? || t.job.Exchanging? || t.job.Leaving? ==> ps[t.since].grants.sshAgent.Some?)
  }

  ghost predicate TaskOk(ps: seq<Policy>, t: Task) {
    && Admissible(ps, t)
    && match t.job
       case Helper(captured, _) => CapturedOk(ps, Lookup, captured.epoch, captured.at)
       case Found(captured, _, credential, _) =>
         CapturedOk(ps, Lookup, captured.epoch, captured.at) && SourceOk(ps, Lookup, captured.at, credential)
       case Relay(agent) => FirstAgent(ps, agent)
       case Exchanging(agent, captured, _, _) => FirstAgent(ps, agent) && CapturedOk(ps, Agent, captured.epoch, captured.at)
       case _ => true
  }

  ghost predicate HostOk(ps: seq<Policy>, h: Host) {
    && LaneOk(ps, h.lane)
    && (h.adapter.Some? ==> FirstAgent(ps, h.adapter.value))
    && (forall i :: 0 <= i < |h.tasks| ==> TaskOk(ps, h.tasks[i]))
    && (h.loop.AwaitIdentity? ==>
          CapturedOk(ps, Author, h.loop.captured.epoch, h.loop.captured.at) && ps[h.loop.captured.at].grants.gitIdentity)
  }

  /**
   A written result was covered by one unchanged, enabled grant at every moment from the dispatch
   of its operation to the write.
   */
  ghost predicate Covered(ps: seq<Policy>, x: Written) {
    IsResult(x.sent.frame.kind) ==>
      && x.sent.auth.Some? && x.sent.auth.value.op == OperationOf(x.sent.frame.kind)
      && x.sent.auth.value.at <= x.now < |ps|
      && SourceOk(ps[..x.now + 1], x.sent.auth.value.op, x.sent.auth.value.at, x.sent.auth.value.source)
      && (forall k :: x.sent.auth.value.at <= k <= x.now ==>
            Scope(ps[k], x.sent.auth.value.op) == Scope(ps[x.now], x.sent.auth.value.op)
            && Authorized(ps[k], x.sent.auth.value.op))
      && (forall k :: x.sent.auth.value.at <= k <= x.now ==>
            GrantedFor(ps[k], x.sent.frame.kind) && GrantedAlike(ps[k], ps[x.now], x.sent.frame.kind))
  }

  /** The agent asked is the first one, through a relay started under authority. */
  ghost predicate AskedOk(ps: seq<Policy>, x: Asked) {
    x.since <= x.at < |ps| && ps[x.since].grants.sshAgent.Some? && FirstAgent(ps, x.agent)
  }

  ghost predicate AuthorityInv(w: World) {
    && IsHistory(w.policies) && HostOk(w.policies, w.host)
    && (forall i :: 0 <= i < |w.written| ==> Covered(w.policies, w.written[i]))
    && (forall i :: 0 <= i < |w.asked| ==> AskedOk(w.policies, w.asked[i]))
  }

  // ----- A policy change -----

  lemma SendingOutlives(ps: seq<Policy>, p: Policy, s: Sending)
    requires SendingOk(ps, s)
    ensures SendingOk(ps + [p], s)
  {
  }

  lemma LaneOutlives(ps: seq<Policy>, p: Policy, lane: Lane)
    requires LaneOk(ps, lane)
    ensures LaneOk(ps + [p], lane)
  {
    forall i | 0 <= i < |lane.senders| && lane.senders[i].Some? ensures SendingOk(ps + [p], lane.senders[i].value) {
      SendingOutlives(ps, p, lane.senders[i].value);
    }
    forall i | 0 <= i < |lane.queue| ensures SendingOk(ps + [p], lane.queue[i]) {
      SendingOutlives(ps, p, lane.queue[i]);
    }
  }

  lemma TaskOutlives(ps: seq<Policy>, p: Policy, t: Task)
    requires TaskOk(ps, t)
    ensures TaskOk(ps + [p], t)
  {
  }

  lemma CoveredOutlives(ps: seq<Policy>, p: Policy, x: Written)
    requires Covered(ps, x)
    ensures Covered(ps + [p], x)
  {
    if IsResult(x.sent.frame.kind) {
      assert (ps + [p])[..x.now + 1] == ps[..x.now + 1];
    }
  }

  lemma PolicyGrowth(w: World, p: Policy)
    requires AuthorityInv(w) && IsHistory(w.policies + [p])
    ensures AuthorityInv(w.(policies := w.policies + [p]))
  {
    var ps := w.policies + [p];
    LaneOutlives(w.policies, p, w.host.lane);
    forall i | 0 <= i < |w.host.tasks| ensures TaskOk(ps, w.host.tasks[i]) {
      TaskOutlives(w.policies, p, w.host.tasks[i]);
    }
    forall i | 0 <= i < |w.written| ensures Covered(ps, w.written[i]) {
      CoveredOutlives(w.policies, p, w.written[i]);
    }
  }

  // ----- The host's own steps -----

  lemma ReplyKeepsHost(ps: seq<Policy>, h: Host, kind: Kind, stream: nat, origin: Origin)
    requires HostOk(ps, h) && LoopFree(h) && !IsResult(kind)
    ensures HostOk(ps, Reply(h, kind, stream, origin))
  {
  }

  lemma SpawnKeepsHost(ps: seq<Policy>, h: Host, t: Task)
    requires HostOk(ps, h) && TaskOk(ps, t)
    ensures HostOk(ps, Spawn(h, t))
  {
  }

  lemma DispatchLookupKeepsHost(ps: seq<Policy>, h: Host, f: Frame)
    requires ps != [] && HostOk(ps, h) && LoopFree(h)
    ensures HostOk(ps, DispatchLookup(h, f, ps[|ps| - 1], |ps| - 1))
  {
    var last := |ps| - 1;
    ReplyKeepsHost(ps, h, ErrorFrame, f.stream, f.origin);
    if h.helpersFree > 0 && Authorized(ps[last], Lookup) {
      SpawnKeepsHost(ps, h.(helpersFree := h.helpersFree - 1),
                     Task(f.stream, f.origin, last, Helper(Captured(Epoch(ps[last], Lookup), last), f.payload), []));
    }
  }

  lemma DispatchOpenKeepsHost(ps: seq<Policy>, h: Host, f: Frame, connected: bool)
    requires ps != [] && HostOk(ps, h) && LoopFree(h)
    ensures HostOk(ps, DispatchOpen(h, f, ps[|ps| - 1], |ps| - 1, connected))
  {
    ReplyKeepsHost(ps, h, ErrorFrame, f.stream, f.origin);
    ReplyKeepsHost(ps, h.(inputs := h.inputs[f.stream := None]), ErrorFrame, f.stream, f.origin);
    if h.streamsFree > 0 && h.adapter.Some? && Authorized(ps[|ps| - 1], Agent) {
      SpawnKeepsHost(ps, h.(streamsFree := h.streamsFree - 1, inputs := h.inputs[f.stream := Some(|h.tasks|)],
                            relayed := h.relayed + {f.stream}),
                     Task(f.stream, f.origin, |ps| - 1, Relay(h.adapter.value), []));
    }
  }

  lemma DispatchStreamKeepsHost(ps: seq<Policy>, h: Host, f: Frame)
    requires HostOk(ps, h) && DispatchStream(h, f).Some?
    ensures HostOk(ps, DispatchStream(h, f).value)
  {
  }

  lemma DispatchKeepsHost(ps: seq<Policy>, h: Host, f: Frame, connected: bool)
    requires ps != [] && HostOk(ps, h) && LoopFree(h)
    requires Dispatch(h, f, ps[|ps| - 1], |ps| - 1, connected).Some?
    ensures HostOk(ps, Dispatch(h, f, ps[|ps| - 1], |ps| - 1, connected).value)
  {
    match f.kind
    case CredentialLookup => DispatchLookupKeepsHost(ps, h, f);
    case AgentOpen => DispatchOpenKeepsHost(ps, h, f, connected);
    case StreamData => DispatchStreamKeepsHost(ps, h, f);
    case StreamClose => DispatchStreamKeepsHost(ps, h, f);
    case Cancel => DispatchStreamKeepsHost(ps, h, f);
    case IdentityRequest => ReplyKeepsHost(ps, h, ErrorFrame, f.stream, f.origin);
    case Health => ReplyKeepsHost(ps, h, HealthAck, 0, Control);
    case _ =>
  }

  /** A task moves on, perhaps offering a frame that is in order. */
  lemma TaskMoveKeepsHost(ps: seq<Policy>, h: Host, h': Host, i: nat)
    requires HostOk(ps, h) && i < |h.tasks| && |h'.tasks| == |h.tasks| && |h'.lane.senders| == |h.lane.senders|
    requires h'.tasks == h.tasks[i := h'.tasks[i]] && TaskOk(ps, h'.tasks[i])
    requires h'.adapter == h.adapter && h'.loop == h.loop
    requires h'.lane == h.lane
             || (i + 1 < |h.lane.senders| && h'.lane.senders[i + 1].Some? && SendingOk(ps, h'.lane.senders[i + 1].value)
                 && h'.lane == h.lane.(senders := h.lane.senders[i + 1 := h'.lane.senders[i + 1]]))
    ensures HostOk(ps, h')
  {
  }

  lemma LaneMoveKeepsHost(ps: seq<Policy>, h: Host, h': Host)
    requires HostOk(ps, h) && h' == h.(lane := h'.lane) && LaneOk(ps, h'.lane)
    ensures HostOk(ps, h')
  {
  }

  lemma AnswerIdentityKeepsHost(ps: seq<Policy>, h: Host, answer: Option<seq<Byte>>)
    requires ps != [] && HostOk(ps, h) && AnswerIdentity(h, ps[|ps| - 1], answer).Some?
    ensures HostOk(ps, AnswerIdentity(h, ps[|ps| - 1], answer).value)
  {
  }

  lemma LookupTaskKeepsHost(
    ps: seq<Policy>, h: Host, i: nat, origin: CredentialGrants.Origin, answer: seq<Byte>, failed: bool)
    requires ps != [] && HostOk(ps, h)
    ensures var found := FindCredential(h, i, ps[|ps| - 1], |ps| - 1, origin, answer); found.Some? ==> HostOk(ps, found.value)
    ensures var answered := AnswerLookup(h, i, ps[|ps| - 1], failed); answered.Some? ==> HostOk(ps, answered.value)
  {
    var found, answered := FindCredential(h, i, ps[|ps| - 1], |ps| - 1, origin, answer), AnswerLookup(h, i, ps[|ps| - 1], failed);
    if found.Some? {
      TaskMoveKeepsHost(ps, h, found.value, i);
    }
    if answered.Some? {
      TaskMoveKeepsHost(ps, h, answered.value, i);
    }
  }

  lemma TakePacketKeepsHost(ps: seq<Policy>, h: Host, i: nat)
    requires ps != [] && HostOk(ps, h) && TakePacket(h, i, ps[|ps| - 1], |ps| - 1).Some?
    ensures HostOk(ps, TakePacket(h, i, ps[|ps| - 1], |ps| - 1).value)
  {
    assert TaskOk(ps, h.tasks[i]);
    TaskMoveKeepsHost(ps, h, TakePacket(h, i, ps[|ps| - 1], |ps| - 1).value, i);
  }

  lemma AnswerPacketKeepsHost(ps: seq<Policy>, h: Host, i: nat, answer: seq<Byte>)
    requires ps != [] && HostOk(ps, h) && AnswerPacket(h, i, ps[|ps| - 1], answer).Some?
    ensures HostOk(ps, AnswerPacket(h, i, ps[|ps| - 1], answer).value)
  {
    assert TaskOk(ps, h.tasks[i]);
    TaskMoveKeepsHost(ps, h, AnswerPacket(h, i, ps[|ps| - 1], answer).value, i);
  }

  lemma LeaveRelayKeepsHost(ps: seq<Policy>, h: Host, i: nat, announce: bool)
    requires HostOk(ps, h) && LeaveRelay(h, i, announce).Some?
    ensures HostOk(ps, LeaveRelay(h, i, announce).value)
  {
    assert TaskOk(ps, h.tasks[i]);
    TaskMoveKeepsHost(ps, h, LeaveRelay(h, i, announce).value, i);
  }

  lemma FinishKeepsHost(ps: seq<Policy>, h: Host, i: nat)
    requires HostOk(ps, h) && FinishTask(h, i).Some?
    ensures HostOk(ps, FinishTask(h, i).value)
  {
    TaskMoveKeepsHost(ps, h, FinishTask(h, i).value, i);
  }

  lemma HostStepKeepsHost(ps: seq<Policy>, h: Host, a: HostAction)
    requires ps != [] && HostOk(ps, h) && HostStep(h, ps[|ps| - 1], |ps| - 1, a).Some?
    ensures HostOk(ps, HostStep(h, ps[|ps| - 1], |ps| - 1, a).value)
  {
    match a
    case HostAnswerIdentity(answer) => AnswerIdentityKeepsHost(ps, h, answer);
    case HostFindCredential(i, origin, bytes) => LookupTaskKeepsHost(ps, h, i, origin, bytes, true);
    case HostAnswerLookup(i, failed) => LookupTaskKeepsHost(ps, h, i, "", [], failed);
    case HostTakePacket(i) => TakePacketKeepsHost(ps, h, i);
    case HostAnswerPacket(i, bytes) => AnswerPacketKeepsHost(ps, h, i, bytes);
    case HostLeaveRelay(i, announce) => LeaveRelayKeepsHost(ps, h, i, announce);
    case HostFinishTask(i) => FinishKeepsHost(ps, h, i);
    case HostAcquire(i) => LaneMoveKeepsHost(ps, h, h.(lane := Acquire(h.lane, i)));
    case HostPush(i) => LaneMoveKeepsHost(ps, h, h.(lane := Push(h.lane, i)));
    case HostFail =>
  }

  /** The check at the write step is what makes the released frame covered. */
  lemma ReleaseIsCovered(ps: seq<Policy>, s: Sending)
    requires IsHistory(ps) && SendingOk(ps, s)
    ensures Covered(ps, Written(Release(ps[|ps| - 1], s), |ps| - 1))
  {
    var last := |ps| - 1;
    assert ps[..last + 1] == ps;
    if s.auth.Some? && Epoch(ps[last], s.auth.value.op) == s.auth.value.epoch && Authorized(ps[last], s.auth.value.op) {
      EqualEpochsPinScope(ps, s.auth.value.at, last, s.auth.value.op);
    }
  }

  /** Moves that leave the policies and the records alone. */
  lemma HostMoveKeepsAuthority(w: World, w': World)
    requires AuthorityInv(w) && w'.policies == w.policies && w'.written == w.written && w'.asked == w.asked
    requires HostOk(w.policies, w'.host)
    ensures AuthorityInv(w')
  {
  }

  lemma WriteKeepsAuthority(w: World)
    requires AuthorityInv(w) && DoHostWrite(w).Some?
    ensures AuthorityInv(DoHostWrite(w).value)
  {
    ReleaseIsCovered(w.policies, w.host.lane.queue[0]);
  }

  lemma HostActKeepsAuthority(w: World, a: HostAction)
    requires AuthorityInv(w) && DoHostAct(w, a).Some?
    ensures AuthorityInv(DoHostAct(w, a).value)
  {
    HostStepKeepsHost(w.policies, w.host, a);
    HostMoveKeepsAuthority(w, DoHostAct(w, a).value.(asked := w.asked));
    if a.HostTakePacket? {
      assert TaskOk(w.policies, w.host.tasks[a.task]);
    }
  }

  lemma HostReadKeepsAuthority(w: World, connected: bool)
    requires AuthorityInv(w) && DoHostRead(w, connected).Some?
    ensures AuthorityInv(DoHostRead(w, connected).value)
  {
    DispatchKeepsHost(w.policies, w.host, w.toHost[0], connected);
    HostMoveKeepsAuthority(w, DoHostRead(w, connected).value);
  }

  lemma BridgeReadKeepsAuthority(w: World, dropped: bool)
    requires AuthorityInv(w) && DoBridgeRead(w, dropped).Some?
    ensures AuthorityInv(DoBridgeRead(w, dropped).value)
  {
    HostMoveKeepsAuthority(w, DoBridgeRead(w, dropped).value);
  }

  lemma NextKeepsAuthority(w: World, a: Action)
    requires AuthorityInv(w) && Next(w, a).Some?
    ensures AuthorityInv(Next(w, a).value)
  {
    match a
    case ChangePolicy(revision, grants) => PolicyGrowth(w, Reconcile(Policy0(w), revision, grants).value);
    case HostAct(h) => HostActKeepsAuthority(w, h);
    case HostRead(connected) => HostReadKeepsAuthority(w, connected);
    case HostWrite => WriteKeepsAuthority(w);
    case BridgeAct(b) => HostMoveKeepsAuthority(w, DoBridgeAct(w, b).value);
    case BridgeRead(dropped) => BridgeReadKeepsAuthority(w, dropped);
    case BridgeWrite => HostMoveKeepsAuthority(w, DoBridgeWrite(w).value);
    case BridgeReceive(c) => HostMoveKeepsAuthority(w, DoBridgeReceive(w, c).value);
  }

  lemma StartHasAuthority(revision: nat, grants: CredentialGrants.Grants, resolved: bool)
    ensures AuthorityInv(Start(NewPolicy(revision, grants), resolved))
  {
  }

  lemma {:induction false} RunKeepsAuthority(t: seq<World>, acts: seq<Action>, i: nat)
    requires IsRun(t, acts) && i < |t|
    ensures AuthorityInv(t[i])
  {
    if i == 0 {
      var revision, grants, resolved :| t[0] == Start(NewPolicy(revision, grants), resolved);
      StartHasAuthority(revision, grants, resolved);
    } else {
      RunKeepsAuthority(t, acts, i - 1);
      RunSteps(t, acts, i - 1);
      NextKeepsAuthority(t[i - 1], acts[i - 1]);
    }
  }

  // ----- What was written -----

  /** In every run, every result the host ever wrote was covered from dispatch to write. */
  lemma NoResultOutlivesAChange(t: seq<World>, acts: seq<Action>, i: nat, k: nat)
    requires IsRun(t, acts) && i < |t| && k < |t[i].written| && IsResult(t[i].written[k].sent.frame.kind)
    ensures Covered(t[i].policies, t[i].written[k])
    ensures var x := t[i].written[k];
            && x.sent.auth.Some? && x.sent.auth.value.at <= x.now < |t[i].policies|
            && forall m :: x.sent.auth.value.at <= m <= x.now ==>
                 GrantedFor(t[i].policies[m], x.sent.frame.kind)
                 && GrantedAlike(t[i].policies[m], t[i].policies[x.now], x.sent.frame.kind)
    ensures forall m :: t[i].written[k].sent.auth.Some? && t[i].written[k].sent.auth.value.at <= m < t[i].written[k].now ==>
              Epoch(t[i].policies[m], t[i].written[k].sent.auth.value.op)
              == Epoch(t[i].policies[m + 1], t[i].written[k].sent.auth.value.op)
  {
    RunKeepsAuthority(t, acts, i);
    var x := t[i].written[k];
    forall m | x.sent.auth.value.at <= m < x.now
      ensures Epoch(t[i].policies[m], x.sent.auth.value.op) == Epoch(t[i].policies[m + 1], x.sent.auth.value.op)
    {
      ChangedScopeMovesEpoch(t[i].policies, m, x.sent.auth.value.op);
      EpochsNeverFall(t[i].policies, m, m + 1, x.sent.auth.value.op);
    }
  }

  /** In every run, every written credential is for an origin that the policy allowed at its release, and ever since its dispatch. */
  lemma CredentialsStayInsideThePolicy(t: seq<World>, acts: seq<Action>, i: nat, k: nat)
    requires IsRun(t, acts) && i < |t| && k < |t[i].written| && t[i].written[k].sent.frame.kind.CredentialResult?
    ensures var x := t[i].written[k];
            && x.now < |t[i].policies| && x.sent.auth.Some? && x.sent.auth.value.source.CredentialFor?
            && forall m :: x.sent.auth.value.at <= m <= x.now ==>
                 && t[i].policies[m].grants.gitHttps.Some?
                 && x.sent.auth.value.source.origin in t[i].policies[m].grants.gitHttps.value
  {
    RunKeepsAuthority(t, acts, i);
    var ps, x := t[i].policies, t[i].written[k];
    assert Covered(ps, x);
    var checked := x.sent.auth.value.source.checked;
    assert ps[..x.now + 1][checked] == ps[checked];
    assert Scope(ps[checked], Lookup) == Scope(ps[x.now], Lookup);
  }

  /**
   In every run, every agent packet the host wrote was answered by the agent that the first policy
   selected; so it is the agent of the policy in force exactly while the selector is still the first.
   */
  lemma AnswersComeFromTheFirstAgent(t: seq<World>, acts: seq<Action>, i: nat, k: nat)
    requires IsRun(t, acts) && i < |t| && k < |t[i].written| && t[i].written[k].sent.frame.kind.StreamData?
    ensures var x := t[i].written[k];
            && x.now < |t[i].policies| && x.sent.auth.Some? && x.sent.auth.value.source.AnsweredBy?
            && t[i].policies[0].grants.sshAgent == Some(x.sent.auth.value.source.selector)
            && (t[i].policies[x.now].grants.sshAgent == Some(x.sent.auth.value.source.selector)
                <==> t[i].policies[x.now].grants.sshAgent == t[i].policies[0].grants.sshAgent)
  {
    RunKeepsAuthority(t, acts, i);
    assert Covered(t[i].policies, t[i].written[k]);
  }

  // ----- What was started and what was asked -----

  /** In every run, whatever the host has started was authorized when it was started. */
  lemma OnlyAuthorizedWorkIsStarted(t: seq<World>, acts: seq<Action>, i: nat)
    requires IsRun(t, acts) && i < |t|
    ensures forall j :: 0 <= j < |t[i].host.tasks| ==> Admissible(t[i].policies, t[i].host.tasks[j])
    ensures t[i].host.loop.AwaitIdentity? ==>
              t[i].host.loop.captured.at < |t[i].policies| && t[i].policies[t[i].host.loop.captured.at].grants.gitIdentity
  {
    RunKeepsAuthority(t, acts, i);
    forall j | 0 <= j < |t[i].host.tasks|
      ensures Admissible(t[i].policies, t[i].host.tasks[j])
    {
      assert TaskOk(t[i].policies, t[i].host.tasks[j]);
    }
  }

  /** The policy of moment `m` took the agent away, and none up to moment `j` gave one back. */
  ghost predicate AgentRevokedAt(ps: seq<Policy>, m: nat, j: nat) {
    && 0 < m <= j < |ps| && ps[m - 1].grants.sshAgent.Some?
    && forall n :: m <= n <= j ==> ps[n].grants.sshAgent.None?
  }

  ghost predicate AgentRevokedSince(ps: seq<Policy>, i: nat, j: nat) {
    exists m :: i < m && AgentRevokedAt(ps, m, j)
  }

  lemma {:induction false} RevokedExactlyWhenNoAgent(ps: seq<Policy>, i: nat, j: nat)
    requires i <= j < |ps| && ps[i].grants.sshAgent.Some?
    ensures AgentRevokedSince(ps, i, j) <==> ps[j].grants.sshAgent.None?
    decreases j
  {
    if i < j && ps[j].grants.sshAgent.None? {
      if ps[j - 1].grants.sshAgent.Some? {
        assert AgentRevokedAt(ps, j, j);
      } else {
        RevokedExactlyWhenNoAgent(ps, i, j - 1);
        var m :| i < m && AgentRevokedAt(ps, m, j - 1);
        assert AgentRevokedAt(ps, m, j);
      }
    }
  }

  /**
   A relay puts a packet to the agent without looking at the policy again. So in every run the agent
   is asked under authority exactly when no revocation stands since the relay was started; and what
   it answers to a packet it was asked without authority is never written.
   */
  lemma AskedUnderAuthorityExactlyUnlessRevoked(t: seq<World>, acts: seq<Action>, i: nat, k: nat)
    requires IsRun(t, acts) && i < |t| && k < |t[i].asked|
    ensures var x := t[i].asked[k];
            && x.since <= x.at < |t[i].policies| && t[i].policies[0].grants.sshAgent == Some(x.agent)
            && t[i].policies[x.since].grants.sshAgent.Some?
            && (t[i].policies[x.at].grants.sshAgent.Some? <==> !AgentRevokedSince(t[i].policies, x.since, x.at))
    ensures t[i].policies[t[i].asked[k].at].grants.sshAgent.None? ==>
              forall n :: 0 <= n < |t[i].written| && t[i].written[n].sent.frame.kind.StreamData? ==>
                t[i].written[n].sent.auth.Some? && t[i].written[n].sent.auth.value.at != t[i].asked[k].at
  {
    RunKeepsAuthority(t, acts, i);
    var x := t[i].asked[k];
    assert AskedOk(t[i].policies, x);
    RevokedExactlyWhenNoAgent(t[i].policies, x.since, x.at);
    forall n | 0 <= n < |t[i].written| && t[i].written[n].sent.frame.kind.StreamData?
      ensures t[i].written[n].sent.auth.Some? && t[i].policies[t[i].written[n].sent.auth.value.at].grants.sshAgent.Some?
    {
      assert Covered(t[i].policies, t[i].written[n]);
    }
  }
}
