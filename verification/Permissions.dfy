/**
 Permission records, binding receipts and the workspaces they name: the decisions of the
 permission store and the protocol its writes follow, over every run with crashes between the
 receipt write and the record write, and with workspaces deleted and replaced in between.
 */
module Permissions {
  import opened Wrappers
  import opened CredentialGrants

  const MAX_REVISION: nat := 0xFFFF_FFFF_FFFF_FFFF

  type Nonce = string

  /**
   One workspace directory. `incarnation` numbers directories in order of creation and is never
   read by the store: a replacement may repeat every field the store can see.
   */
  datatype Workspace = Workspace(
    createdAt: string, sourceDigest: string, device: nat, inode: nat, originHint: Option<Origin>,
    explicitName: bool, incarnation: nat)

  datatype Receipt = Receipt(createdAt: string, sourceDigest: string, device: nat, inode: nat, nonce: Nonce)

  datatype Binding = Staged | Bound(receipt: Receipt)

  datatype Record = Record(revision: nat, binding: Binding, grants: Grants)

  datatype Enable = HttpsOrigins(origins: seq<Origin>) | AgentSocket(socket: Option<Selector>) | Identity

  datatype Command =
    | EnableCapability(what: Enable)
    | Allow(origins: seq<Origin>)
    | Deny(origins: seq<Origin>)
    | DisableCapabilities(capabilities: seq<Capability>)

  datatype StoreError =
    | Policy(policy: PolicyError)
    | ExplicitNameRequired
    | BindingMismatch
    | RevisionExhausted
    | Storage

  // ----- What the files say -----

  /** `issued` remembers, for the proofs only, the directory in which each receipt was written. */
  datatype World = World(
    record: Option<Record>, workspace: Option<Workspace>, receipt: Option<Receipt>,
    issued: map<Nonce, Workspace>, nextIncarnation: nat)

  const INITIAL := World(None, None, None, map[], 0)

  function GrantsOf(record: Option<Record>): Grants {
    if record.Some? then record.value.grants else NO_GRANTS
  }

  function RevisionOf(record: Option<Record>): nat {
    if record.Some? then record.value.revision else 0
  }

  predicate ReceiptMatches(receipt: Receipt, ws: Workspace) {
    && receipt.createdAt == ws.createdAt && receipt.sourceDigest == ws.sourceDigest
    && receipt.device == ws.device && receipt.inode == ws.inode
  }

  function ReceiptFor(ws: Workspace, nonce: Nonce): Receipt {
    Receipt(ws.createdAt, ws.sourceDigest, ws.device, ws.inode, nonce)
  }

  /** The record is bound to exactly the receipt kept in this workspace directory. */
  predicate BoundMatches(binding: Binding, ws: Workspace, receipt: Option<Receipt>) {
    binding.Bound? && ReceiptMatches(binding.receipt, ws) && receipt == Some(binding.receipt)
  }

  function ValidateMutationBinding(
    record: Record, workspace: Option<Workspace>, receipt: Option<Receipt>, command: Command): Result<(), StoreError>
  {
    if record.grants.IsEmpty() && command.EnableCapability? then Ok(())
    else
      match (record.binding, workspace)
      case (Staged, None) => Ok(())
      case (Staged, Some(ws)) =>
        if receipt.Some? && ReceiptMatches(receipt.value, ws) then Ok(()) else Err(ExplicitNameRequired)
      case (Bound(_), Some(ws)) =>
        if BoundMatches(record.binding, ws, receipt) then Ok(()) else Err(BindingMismatch)
      case (Bound(_), None) => Err(BindingMismatch)
  }

  function EnableGrants(grants: Grants, what: Enable, workspace: Option<Workspace>): Result<Grants, StoreError> {
    match what
    case HttpsOrigins(origins) =>
      var wanted :=
        if origins != [] || grants.Enabled(GitHttps) then Some(origins)
        else if workspace.Some? && workspace.value.originHint.Some? then Some([workspace.value.originHint.value])
        else None;
      if wanted.None? then Err(Policy(OriginsRequired))
      else
        var r := grants.EnableHttps(wanted.value);
        if r.Ok? then Ok(r.value) else Err(Policy(r.error))
    case AgentSocket(socket) =>
      Ok(grants.(sshAgent := if socket.Some? then socket
                             else if grants.sshAgent.Some? then grants.sshAgent
                             else Some("auto")))
    case Identity => Ok(grants.(gitIdentity := true))
  }

  /** The grants a granting command asks for; it never takes a capability away. */
  function ApplyCommand(grants: Grants, command: Command, workspace: Option<Workspace>): (r: Result<Grants, StoreError>)
    requires !command.DisableCapabilities?
    ensures r.Ok? ==> !r.value.IsEmpty()
    ensures r.Ok? && grants.IsEmpty() ==> command.EnableCapability?
  {
    match command
    case EnableCapability(what) => EnableGrants(grants, what, workspace)
    case Allow(origins) =>
      var r := grants.AdjustOrigins(origins, true);
      if r.Ok? then assert r.value.Enabled(GitHttps); Ok(r.value) else Err(Policy(r.error))
    case Deny(origins) =>
      var r := grants.AdjustOrigins(origins, false);
      if r.Ok? then assert r.value.Enabled(GitHttps); Ok(r.value) else Err(Policy(r.error))
  }

  function DisableAll(grants: Grants, capabilities: seq<Capability>): Grants {
    if capabilities == [] then grants
    else DisableAll(grants, capabilities[..|capabilities| - 1]).Disable(capabilities[|capabilities| - 1])
  }

  function Revoked(grants: Grants, capabilities: seq<Capability>): Grants {
    if capabilities == [] then NO_GRANTS else DisableAll(grants, capabilities)
  }

  // ----- What commands do, capability by capability -----

  /** The grants before and after a granting command. */
  ghost predicate Obeyed(before: Grants, command: Command, workspace: Option<Workspace>, after: Grants) {
    match command
    case EnableCapability(HttpsOrigins(origins)) =>
      && after.sshAgent == before.sshAgent && after.gitIdentity == before.gitIdentity && after.gitHttps.Some?
      && forall o :: o in after.gitHttps.value <==>
           || o in origins || (before.gitHttps.Some? && o in before.gitHttps.value)
           || (origins == [] && before.gitHttps.None? && workspace.Some? && workspace.value.originHint == Some(o))
    case EnableCapability(AgentSocket(socket)) =>
      && after.gitHttps == before.gitHttps && after.gitIdentity == before.gitIdentity
      && (socket.Some? ==> after.sshAgent == socket)
      && (socket.None? && before.sshAgent.Some? ==> after.sshAgent == before.sshAgent)
      && (socket.None? && before.sshAgent.None? ==> after.sshAgent == Some("auto"))
    case EnableCapability(Identity) =>
      after.gitHttps == before.gitHttps && after.sshAgent == before.sshAgent && after.gitIdentity
    case Allow(origins) =>
      && after.sshAgent == before.sshAgent && after.gitIdentity == before.gitIdentity
      && before.gitHttps.Some? && after.gitHttps.Some?
      && forall o :: o in after.gitHttps.value <==> o in before.gitHttps.value || o in origins
    case Deny(origins) =>
      && after.sshAgent == before.sshAgent && after.gitIdentity == before.gitIdentity
      && before.gitHttps.Some? && after.gitHttps.Some?
      && forall o :: o in after.gitHttps.value <==> o in before.gitHttps.value && o !in origins
    case DisableCapabilities(capabilities) =>
      && (after.gitHttps == if capabilities == [] || GitHttps in capabilities then None else before.gitHttps)
      && (after.sshAgent == if capabilities == [] || SshAgent in capabilities then None else before.sshAgent)
      && (after.gitIdentity <==> before.gitIdentity && capabilities != [] && GitIdentity !in capabilities)
  }

  /** The origins allowed before, together with these. */
  function Union(grants: Grants, origins: seq<Origin>): set<Origin> {
    (if grants.gitHttps.Some? then grants.gitHttps.value else {}) + set o | o in origins
  }

  /** Why a granting command is refused. */
  ghost predicate RefusedFor(before: Grants, command: Command, workspace: Option<Workspace>, e: PolicyError) {
    match e
    case HttpsDisabled => (command.Allow? || command.Deny?) && before.gitHttps.None?
    case OriginsRequired =>
      || ((command.Allow? || command.Deny?) && before.gitHttps.Some? && command.origins == [])
      || (command.EnableCapability? && command.what.HttpsOrigins? && command.what.origins == [] && before.gitHttps.None?
          && (workspace.None? || workspace.value.originHint.None?))
    case TooManyOrigins =>
      || (command.Allow? && before.gitHttps.Some? && command.origins != [] && |Union(before, command.origins)| > 64)
      || (command.EnableCapability? && command.what.HttpsOrigins? && |Union(before, command.what.origins)| > 64)
  }

  lemma AdjustMeans(grants: Grants, command: Command, workspace: Option<Workspace>)
    requires command.Allow? || command.Deny?
    ensures var r := ApplyCommand(grants, command, workspace);
            && (r.Ok? ==> Obeyed(grants, command, workspace, r.value))
            && (r.Err? ==> r.error.Policy?)
            && forall e :: r == Err(Policy(e)) <==> RefusedFor(grants, command, workspace, e)
  {
    if grants.gitHttps.Some? {
      assert Union(grants, command.origins) == grants.gitHttps.value + set o | o in command.origins;
    }
  }

  lemma EnableHttpsGrants(grants: Grants, origins: seq<Origin>)
    ensures var r := grants.EnableHttps(origins);
            && (r == Err(OriginsRequired) <==> grants.gitHttps.None? && origins == [])
            && (r == Err(TooManyOrigins) <==> |Union(grants, origins)| > 64)
            && (r.Ok? ==> r.value == grants.(gitHttps := Some(Union(grants, origins))))
            && (r.Err? ==> !r.error.HttpsDisabled?)
  {
    if grants.gitHttps.None? && origins == [] {
      assert Union(grants, origins) == {};
    }
  }

  lemma HintMeans(grants: Grants, hint: Origin)
    requires grants.gitHttps.None?
    ensures grants.EnableHttps([hint]) == Ok(grants.(gitHttps := Some({hint})))
  {
    EnableHttpsGrants(grants, [hint]);
    assert Union(grants, [hint]) == {hint};
  }

  /** Without origins of its own, a first enable takes the one the workspace hints at. */
  lemma FirstEnableMeans(grants: Grants, command: Command, workspace: Option<Workspace>)
    requires command == EnableCapability(HttpsOrigins([])) && grants.gitHttps.None?
    ensures var r := ApplyCommand(grants, command, workspace);
            && (r.Ok? ==> Obeyed(grants, command, workspace, r.value))
            && (r.Err? ==> r.error.Policy?)
            && forall e :: r == Err(Policy(e)) <==> RefusedFor(grants, command, workspace, e)
  {
    assert Union(grants, []) == {};
    if workspace.Some? && workspace.value.originHint.Some? {
      HintMeans(grants, workspace.value.originHint.value);
    }
  }

  lemma EnableMeans(grants: Grants, command: Command, workspace: Option<Workspace>)
    requires command.EnableCapability? && command.what.HttpsOrigins?
    requires command.what.origins != [] || grants.gitHttps.Some?
    ensures var r := ApplyCommand(grants, command, workspace);
            && (r.Ok? ==> Obeyed(grants, command, workspace, r.value))
            && (r.Err? ==> r.error.Policy?)
            && forall e :: r == Err(Policy(e)) <==> RefusedFor(grants, command, workspace, e)
  {
    EnableHttpsGrants(grants, command.what.origins);
  }

  /** A granting command does exactly what it says, and each refusal has exactly its reason. */
  lemma CommandMeans(grants: Grants, command: Command, workspace: Option<Workspace>)
    requires !command.DisableCapabilities?
    ensures var r := ApplyCommand(grants, command, workspace);
            && (r.Ok? ==> Obeyed(grants, command, workspace, r.value))
            && (r.Err? ==> r.error.Policy?)
            && forall e :: r == Err(Policy(e)) <==> RefusedFor(grants, command, workspace, e)
  {
    if command.Allow? || command.Deny? {
      AdjustMeans(grants, command, workspace);
    } else if command == EnableCapability(HttpsOrigins([])) && grants.gitHttps.None? {
      FirstEnableMeans(grants, command, workspace);
    } else if command.what.HttpsOrigins? {
      EnableMeans(grants, command, workspace);
    }
  }

  lemma {:induction false} DisableAllMeans(grants: Grants, capabilities: seq<Capability>)
    ensures var after := DisableAll(grants, capabilities);
            && after.gitHttps == (if GitHttps in capabilities then None else grants.gitHttps)
            && after.sshAgent == (if SshAgent in capabilities then None else grants.sshAgent)
            && (after.gitIdentity <==> grants.gitIdentity && GitIdentity !in capabilities)
  {
    if capabilities != [] {
      var last := |capabilities| - 1;
      DisableAllMeans(grants, capabilities[..last]);
      assert capabilities == capabilities[..last] + [capabilities[last]];
    }
  }

  /** Disabling removes the listed capabilities, or all of them, and touches nothing else. */
  lemma RevocationMeans(grants: Grants, capabilities: seq<Capability>, workspace: Option<Workspace>)
    ensures Obeyed(grants, DisableCapabilities(capabilities), workspace, Revoked(grants, capabilities))
  {
    DisableAllMeans(grants, capabilities);
  }

  lemma EmptyMeansNothingGranted(grants: Grants)
    ensures grants.IsEmpty() <==> grants.gitHttps.None? && grants.sshAgent.None? && !grants.gitIdentity
  {
  }

  // ----- Bindings -----

  /** A receipt matches the directory it would be written for, and no other. */
  lemma MatchesItsDirectory(receipt: Receipt, ws: Workspace)
    ensures ReceiptMatches(receipt, ws) <==> receipt == ReceiptFor(ws, receipt.nonce)
    ensures ReceiptFor(ws, receipt.nonce)
            == Receipt(ws.createdAt, ws.sourceDigest, ws.device, ws.inode, receipt.nonce)
  {
  }

  /** The record is bound to the receipt that lies in this very directory. */
  ghost predicate BoundHere(record: Record, ws: Workspace, receipt: Option<Receipt>) {
    && record.binding.Bound? && receipt == Some(record.binding.receipt)
    && record.binding.receipt == ReceiptFor(ws, record.binding.receipt.nonce)
  }

  /** A granting change may rely on the binding as it is: a first enable always may. */
  ghost predicate NeedsBinding(record: Record, command: Command) {
    record.grants.gitHttps.Some? || record.grants.sshAgent.Some? || record.grants.gitIdentity || !command.EnableCapability?
  }

  /** Staged grants stand before a directory without a receipt of its own. */
  ghost predicate NameRequired(record: Record, workspace: Option<Workspace>, receipt: Option<Receipt>, command: Command) {
    && NeedsBinding(record, command) && record.binding.Staged? && workspace.Some?
    && !(receipt.Some? && receipt.value == ReceiptFor(workspace.value, receipt.value.nonce))
  }

  /** Bound grants stand before no directory, or another one. */
  ghost predicate Misbound(record: Record, workspace: Option<Workspace>, receipt: Option<Receipt>, command: Command) {
    && NeedsBinding(record, command) && record.binding.Bound?
    && !(workspace.Some? && BoundHere(record, workspace.value, receipt))
  }

  /** Each refusal of a granting change for its binding has exactly its reason. */
  lemma BindingRefusalMeans(record: Record, workspace: Option<Workspace>, receipt: Option<Receipt>, command: Command)
    ensures var r := ValidateMutationBinding(record, workspace, receipt, command);
            && (r == Err(ExplicitNameRequired) <==> NameRequired(record, workspace, receipt, command))
            && (r == Err(BindingMismatch) <==> Misbound(record, workspace, receipt, command))
            && (r.Err? ==> r.error.ExplicitNameRequired? || r.error.BindingMismatch?)
  {
    if workspace.Some? {
      if receipt.Some? {
        MatchesItsDirectory(receipt.value, workspace.value);
      }
      if record.binding.Bound? {
        MatchesItsDirectory(record.binding.receipt, workspace.value);
      }
    }
  }

  // ----- Leases and reported state -----

  datatype Lease = Lease(nonce: Nonce, revision: nat, grants: Grants)

  /** `credential_supervisor_lease`: reads only already-bound policy. */
  function LeaseFor(record: Option<Record>, ws: Workspace, receipt: Option<Receipt>, homeOk: bool):
    Result<Option<Lease>, StoreError>
  {
    match record
    case None => Ok(None)
    case Some(r) =>
      if r.grants.IsEmpty() then Ok(None)
      else if !BoundMatches(r.binding, ws, receipt) || !homeOk then Err(BindingMismatch)
      else Ok(Some(Lease(r.binding.receipt.nonce, r.revision, r.grants)))
  }

  datatype Reported = Absent | ReportStaged | BindingPending | ReportBound | Stale

  /** The permission state `inspect_status` reports. */
  function Inspect(w: World): Reported {
    match w.record
    case None => Absent
    case Some(r) =>
      match r.binding
      case Staged =>
        if r.grants.IsEmpty() || w.workspace.None? then ReportStaged
        else if w.receipt.Some? && ReceiptMatches(w.receipt.value, w.workspace.value) then BindingPending
        else Stale
      case Bound(_) =>
        if w.workspace.Some? && BoundMatches(r.binding, w.workspace.value, w.receipt) then ReportBound else Stale
  }

  /** A lease is handed out exactly for grants bound to this directory, and carries the stored record. */
  lemma LeaseCarriesTheRecord(record: Option<Record>, ws: Workspace, receipt: Option<Receipt>, homeOk: bool)
    ensures var lease := LeaseFor(record, ws, receipt, homeOk);
            && (lease == Ok(None) <==> GrantsOf(record) == NO_GRANTS)
            && (lease.Ok? && lease.value.Some? <==>
                  GrantsOf(record) != NO_GRANTS && BoundHere(record.value, ws, receipt) && homeOk)
            && (lease.Ok? && lease.value.Some? ==>
                  && lease.value.value.revision == record.value.revision && lease.value.value.grants == record.value.grants
                  && lease.value.value.nonce == record.value.binding.receipt.nonce)
            && (lease.Err? ==> lease.error == BindingMismatch)
  {
    if record.Some? && record.value.binding.Bound? {
      MatchesItsDirectory(record.value.binding.receipt, ws);
    }
  }

  /** Each permission state is reported exactly for what the files say. */
  lemma ReportMeans(w: World)
    ensures Inspect(w) == Absent <==> w.record.None?
    ensures Inspect(w) == ReportBound <==>
              w.record.Some? && w.workspace.Some? && BoundHere(w.record.value, w.workspace.value, w.receipt)
    ensures Inspect(w) == ReportStaged <==>
              w.record.Some? && w.record.value.binding.Staged? && (w.record.value.grants == NO_GRANTS || w.workspace.None?)
    ensures Inspect(w) == BindingPending <==>
              && w.record.Some? && w.record.value.binding.Staged? && w.record.value.grants != NO_GRANTS && w.workspace.Some?
              && w.receipt.Some? && w.receipt.value == ReceiptFor(w.workspace.value, w.receipt.value.nonce)
  {
    if w.workspace.Some? {
      if w.receipt.Some? {
        MatchesItsDirectory(w.receipt.value, w.workspace.value);
      }
      if w.record.Some? && w.record.value.binding.Bound? {
        MatchesItsDirectory(w.record.value.binding.receipt, w.workspace.value);
      }
    }
  }

  // ----- The protocol -----

  /** The user removes the workspace directory, and the receipt with it. */
  ghost predicate Deleted(w: World, w': World) {
    w' == w.(workspace := None, receipt := None)
  }

  ghost predicate Cloned(w: World, w': World) {
    w.workspace.None? && w'.workspace.Some? && w'.workspace.value.incarnation == w.nextIncarnation
    && w' == w.(workspace := w'.workspace, receipt := None, nextIncarnation := w.nextIncarnation + 1)
  }

  /** A receipt with a new nonce; staged grants reach a workspace only by its explicit name. */
  ghost predicate ReceiptWritten(w: World, w': World) {
    && w.workspace.Some? && w.receipt.None? && w'.receipt.Some?
    && ReceiptMatches(w'.receipt.value, w.workspace.value) && w'.receipt.value.nonce !in w.issued
    && (GrantsOf(w.record).IsEmpty() || w.workspace.value.explicitName)
    && w' == w.(receipt := w'.receipt, issued := w.issued[w'.receipt.value.nonce := w.workspace.value])
  }

  /** The rule every record replacement obeys. */
  ghost predicate RecordRule(w: World, next: Record) {
    && next.revision == RevisionOf(w.record) + 1 && next.revision <= MAX_REVISION
    && match next.binding
       case Staged =>
         || next.grants.IsEmpty()
         || (w.record.Some? && w.record.value.binding.Staged? && !w.record.value.grants.IsEmpty())
         || (GrantsOf(w.record).IsEmpty() && w.workspace.None?)
       case Bound(receipt) =>
         && !next.grants.IsEmpty() && receipt.nonce in w.issued
         && (|| GrantsOf(w.record).IsEmpty()
             || w.record.value.binding == next.binding
             || (w.record.value.binding.Staged? && w.issued[receipt.nonce].explicitName))
  }

  ghost predicate RecordWritten(w: World, w': World) {
    w'.record.Some? && RecordRule(w, w'.record.value) && w' == w.(record := w'.record)
  }

  ghost predicate Step(w: World, w': World) {
    Deleted(w, w') || Cloned(w, w') || ReceiptWritten(w, w') || RecordWritten(w, w')
  }

  ghost predicate IsRun(t: seq<World>) {
    |t| > 0 && t[0] == INITIAL && forall i :: 0 < i < |t| ==> Step(t[i - 1], t[i])
  }

  // ----- The inductive invariant -----

  ghost predicate Inv(w: World) {
    && (w.record.Some? ==> w.record.value.revision >= 1)
    && (w.record.Some? && w.record.value.binding.Bound? ==>
          !w.record.value.grants.IsEmpty() && w.record.value.binding.receipt.nonce in w.issued)
    && (w.receipt.Some? ==>
          && w.workspace.Some? && ReceiptMatches(w.receipt.value, w.workspace.value)
          && w.receipt.value.nonce in w.issued && w.issued[w.receipt.value.nonce] == w.workspace.value
          && (GrantsOf(w.record).IsEmpty() || w.record.value.binding.Bound? || w.workspace.value.explicitName))
  }

  lemma StepKeepsInv(w: World, w': World)
    requires Inv(w) && Step(w, w')
    ensures Inv(w')
  {
  }

  lemma {:induction false} RunKeepsInv(t: seq<World>, i: nat)
    requires IsRun(t) && i < |t|
    ensures Inv(t[i])
  {
    if i > 0 {
      RunKeepsInv(t, i - 1);
      StepKeepsInv(t[i - 1], t[i]);
    }
  }

  /** A nonce keeps naming the directory it was written in. */
  lemma {:induction false} IssuedIsStable(t: seq<World>, i: nat, j: nat, nonce: Nonce)
    requires IsRun(t) && i <= j < |t| && nonce in t[i].issued
    ensures nonce in t[j].issued && t[j].issued[nonce] == t[i].issued[nonce]
    decreases j
  {
    if i < j {
      IssuedIsStable(t, i, j - 1, nonce);
      assert Step(t[j - 1], t[j]);
    }
  }

  // ----- Authority never transfers -----

  /** Every capability was disabled at some point after `i` and no later than `j`. */
  ghost predicate EmptiedBetween(t: seq<World>, i: nat, j: nat)
    requires j < |t|
  {
    exists k :: i < k <= j && GrantsOf(t[k].record).IsEmpty()
  }

  lemma EmptiedEarlier(t: seq<World>, i: nat, j: nat)
    requires 0 < j < |t| && EmptiedBetween(t, i, j - 1)
    ensures EmptiedBetween(t, i, j)
  {
    var k :| i < k <= j - 1 && GrantsOf(t[k].record).IsEmpty();
  }

  lemma {:induction false} BindingLastsUntilEmptied(t: seq<World>, i: nat, j: nat)
    requires IsRun(t) && i <= j < |t|
    requires t[i].record.Some? && t[i].record.value.binding.Bound?
    ensures EmptiedBetween(t, i, j) || (t[j].record.Some? && t[j].record.value.binding == t[i].record.value.binding)
    decreases j
  {
    if i < j {
      BindingLastsUntilEmptied(t, i, j - 1);
      if EmptiedBetween(t, i, j - 1) {
        EmptiedEarlier(t, i, j);
      } else {
        RunKeepsInv(t, j - 1);
        assert Step(t[j - 1], t[j]);
        if GrantsOf(t[j].record).IsEmpty() {
          assert EmptiedBetween(t, i, j);
        }
      }
    }
  }

  /**
   Grants once bound to one workspace directory are never leased to any other directory, however
   alike the two look, unless every capability was disabled in between.
   */
  lemma AuthorityNeverTransfers(t: seq<World>, i: nat, j: nat, homeOk: bool)
    requires IsRun(t) && i <= j < |t|
    requires t[i].record.Some? && t[i].record.value.binding.Bound?
    requires t[j].workspace.Some?
    requires var lease := LeaseFor(t[j].record, t[j].workspace.value, t[j].receipt, homeOk);
             lease.Ok? && lease.value.Some?
    ensures var nonce := t[i].record.value.binding.receipt.nonce;
            nonce in t[i].issued
            && (t[j].workspace.value.incarnation == t[i].issued[nonce].incarnation || EmptiedBetween(t, i, j))
  {
    RunKeepsInv(t, i);
    RunKeepsInv(t, j);
    BindingLastsUntilEmptied(t, i, j);
    IssuedIsStable(t, i, j, t[i].record.value.binding.receipt.nonce);
  }

  ghost predicate StagedOrExplicit(w: World) {
    && w.record.Some? && !w.record.value.grants.IsEmpty()
    && (w.record.value.binding.Bound? ==>
          && w.record.value.binding.receipt.nonce in w.issued
          && w.issued[w.record.value.binding.receipt.nonce].explicitName)
  }

  /** Staged grants are never consumed by an automatically named workspace. */
  lemma {:induction false} StagedGrantsNeedExplicitName(t: seq<World>, i: nat, j: nat)
    requires IsRun(t) && i <= j < |t|
    requires t[i].record.Some? && t[i].record.value.binding.Staged? && !t[i].record.value.grants.IsEmpty()
    ensures EmptiedBetween(t, i, j) || StagedOrExplicit(t[j])
    decreases j
  {
    if i < j {
      StagedGrantsNeedExplicitName(t, i, j - 1);
      if EmptiedBetween(t, i, j - 1) {
        EmptiedEarlier(t, i, j);
      } else {
        RunKeepsInv(t, j - 1);
        assert Step(t[j - 1], t[j]);
        if GrantsOf(t[j].record).IsEmpty() {
          assert EmptiedBetween(t, i, j);
        }
      }
    }
  }

  // ----- Revisions -----

  /** Revisions never go back, and equal revisions mean the very same record. */
  lemma {:induction false} RevisionsIdentifyRecords(t: seq<World>, i: nat, j: nat)
    requires IsRun(t) && i <= j < |t|
    ensures RevisionOf(t[i].record) <= RevisionOf(t[j].record) <= MAX_REVISION
    ensures RevisionOf(t[i].record) == RevisionOf(t[j].record) <==> t[i].record == t[j].record
    decreases j
  {
    if i < j {
      RevisionsIdentifyRecords(t, i, j - 1);
      RunKeepsInv(t, i);
      RunKeepsInv(t, j - 1);
      assert Step(t[j - 1], t[j]);
    } else if i > 0 {
      RevisionsIdentifyRecords(t, i - 1, i - 1);
      RunKeepsInv(t, i - 1);
      assert Step(t[i - 1], t[i]);
    }
  }

  // ----- Reported state agrees with authority -----

  /** `Bound` is reported exactly when a lease would be handed out. */
  lemma ReportedBoundIsLeasable(t: seq<World>, i: nat)
    requires IsRun(t) && i < |t| && t[i].workspace.Some?
    ensures var lease := LeaseFor(t[i].record, t[i].workspace.value, t[i].receipt, true);
            Inspect(t[i]) == ReportBound <==> lease.Ok? && lease.value.Some?
  {
    RunKeepsInv(t, i);
  }
}
