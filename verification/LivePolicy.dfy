/**
 The supervisor's live credential policy: grants plus one epoch per capability. An epoch is the
 revision at which that capability last changed.
 */
module LivePolicy {
  import opened Wrappers
  import opened CredentialGrants

  datatype Operation = Lookup | Agent | Author

  datatype Policy = Policy(revision: nat, grants: Grants, httpsEpoch: nat, agentEpoch: nat, identityEpoch: nat)

  datatype ReconcileError = InvalidGrants | InvalidRevision | StaleRevision

  function NewPolicy(revision: nat, grants: Grants): Policy {
    Policy(revision, grants, revision, revision, revision)
  }

  function Reconcile(p: Policy, revision: nat, grants: Grants): Result<Policy, ReconcileError> {
    if grants.gitHttps.Some? && |grants.gitHttps.value| > MAX_HTTPS_ORIGINS then Err(InvalidGrants)
    else if revision == 0 then Err(InvalidRevision)
    else if revision < p.revision || (revision == p.revision && grants != p.grants) then Err(StaleRevision)
    else
      Ok(Policy(
           revision, grants,
           if p.grants.gitHttps != grants.gitHttps then revision else p.httpsEpoch,
           if p.grants.sshAgent != grants.sshAgent then revision else p.agentEpoch,
           if p.grants.gitIdentity != grants.gitIdentity then revision else p.identityEpoch))
  }

  function Epoch(p: Policy, op: Operation): nat {
    match op
    case Lookup => p.httpsEpoch
    case Agent => p.agentEpoch
    case Author => p.identityEpoch
  }

  /** The grants an operation relies on, and only those. */
  function Scope(p: Policy, op: Operation): Grants {
    match op
    case Lookup => NO_GRANTS.(gitHttps := p.grants.gitHttps)
    case Agent => NO_GRANTS.(sshAgent := p.grants.sshAgent)
    case Author => NO_GRANTS.(gitIdentity := p.grants.gitIdentity)
  }

  predicate Authorized(p: Policy, op: Operation) {
    match op
    case Lookup => p.grants.Enabled(GitHttps)
    case Agent => p.grants.Enabled(SshAgent)
    case Author => p.grants.Enabled(GitIdentity)
  }

  /** A reconciliation is accepted exactly for a later revision, or for the same one again, and then holds what it brings. */
  lemma ReconcileMeans(p: Policy, revision: nat, grants: Grants)
    ensures var r := Reconcile(p, revision, grants);
            && (r.Ok? <==>
                  && (grants.gitHttps.Some? ==> |grants.gitHttps.value| <= 64) && revision > 0
                  && (revision > p.revision || (revision == p.revision && grants == p.grants)))
            && (r == Err(InvalidGrants) <==> grants.gitHttps.Some? && |grants.gitHttps.value| > 64)
            && (r == Err(InvalidRevision) ==> revision == 0) && (r == Err(StaleRevision) ==> revision <= p.revision)
            && (r.Ok? ==> r.value.revision == revision && r.value.grants == grants)
            && (r.Ok? ==> r.value.httpsEpoch == if grants.gitHttps == p.grants.gitHttps then p.httpsEpoch else revision)
            && (r.Ok? ==> r.value.agentEpoch == if grants.sshAgent == p.grants.sshAgent then p.agentEpoch else revision)
            && (r.Ok? ==> r.value.identityEpoch == if grants.gitIdentity == p.grants.gitIdentity then p.identityEpoch else revision)
  {
  }

  /** What each operation relies on: its authorization, its scope and its epoch, grant by grant. */
  lemma OperationsByGrant(p: Policy, q: Policy)
    ensures Authorized(p, Lookup) <==> p.grants.gitHttps.Some?
    ensures Authorized(p, Agent) <==> p.grants.sshAgent.Some?
    ensures Authorized(p, Author) <==> p.grants.gitIdentity
    ensures Scope(p, Lookup) == Scope(q, Lookup) <==> p.grants.gitHttps == q.grants.gitHttps
    ensures Scope(p, Agent) == Scope(q, Agent) <==> p.grants.sshAgent == q.grants.sshAgent
    ensures Scope(p, Author) == Scope(q, Author) <==> p.grants.gitIdentity == q.grants.gitIdentity
  {
  }

  ghost predicate Accepted(p: Policy, q: Policy) {
    Reconcile(p, q.revision, q.grants) == Ok(q)
  }

  /** Every policy the supervisor ever held, oldest first. */
  ghost predicate IsHistory(ps: seq<Policy>) {
    && |ps| > 0 && ps[0] == NewPolicy(ps[0].revision, ps[0].grants)
    && forall i :: 0 < i < |ps| ==> Accepted(ps[i - 1], ps[i])
  }

  lemma {:induction false} EpochsTrailRevision(ps: seq<Policy>, i: nat, op: Operation)
    requires IsHistory(ps) && i < |ps|
    ensures Epoch(ps[i], op) <= ps[i].revision
  {
    if i > 0 {
      EpochsTrailRevision(ps, i - 1, op);
      assert Accepted(ps[i - 1], ps[i]);
    }
  }

  lemma {:induction false} EpochsNeverFall(ps: seq<Policy>, i: nat, j: nat, op: Operation)
    requires IsHistory(ps) && i <= j < |ps|
    ensures Epoch(ps[i], op) <= Epoch(ps[j], op)
    decreases j
  {
    if i < j {
      EpochsNeverFall(ps, i, j - 1, op);
      EpochsTrailRevision(ps, j - 1, op);
      assert Accepted(ps[j - 1], ps[j]);
    }
  }

  /**
   Equal epochs pin the capability: it was never changed in between, not even there and back.
   */
  lemma {:induction false} EqualEpochsPinScope(ps: seq<Policy>, i: nat, j: nat, op: Operation)
    requires IsHistory(ps) && i <= j < |ps| && Epoch(ps[i], op) == Epoch(ps[j], op)
    ensures forall k :: i <= k <= j ==> Scope(ps[k], op) == Scope(ps[j], op)
    ensures forall k :: i <= k <= j ==> Authorized(ps[k], op) == Authorized(ps[j], op)
    decreases j
  {
    if i < j {
      EpochsNeverFall(ps, i, j - 1, op);
      EpochsNeverFall(ps, j - 1, j, op);
      EpochsTrailRevision(ps, j - 1, op);
      assert Accepted(ps[j - 1], ps[j]);
      EqualEpochsPinScope(ps, i, j - 1, op);
    }
  }

  /** And every change of a capability moves its epoch. */
  lemma ChangedScopeMovesEpoch(ps: seq<Policy>, i: nat, op: Operation)
    requires IsHistory(ps) && i + 1 < |ps|
    ensures Scope(ps[i], op) != Scope(ps[i + 1], op) <==> Epoch(ps[i], op) < Epoch(ps[i + 1], op)
  {
    EpochsTrailRevision(ps, i, op);
    assert Accepted(ps[i], ps[i + 1]);
  }
}
