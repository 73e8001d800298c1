/**
 The permission store as it mutates its files. The object stands for one permission record, the
 workspace directory of that name and the receipt inside it; the ghost `trace` shows that every
 write follows the protocol, whatever is interrupted and whatever the user deletes or re-creates.
 */
module PermissionStore {
  import opened Wrappers
  import opened CredentialGrants
  import opened Permissions

  /** Revoking capabilities one by one never grants anything. */
  lemma {:induction false} DisableAllOnlyRevokes(grants: Grants, capabilities: seq<Capability>)
    ensures forall c: Capability :: DisableAll(grants, capabilities).Enabled(c) <==> grants.Enabled(c) && c !in capabilities
  {
    if capabilities != [] {
      var last := |capabilities| - 1;
      DisableAllOnlyRevokes(grants, capabilities[..last]);
      assert capabilities == capabilities[..last] + [capabilities[last]];
    }
  }

  lemma RevokedOnlyRevokes(grants: Grants, capabilities: seq<Capability>)
    ensures grants.IsEmpty() ==> Revoked(grants, capabilities).IsEmpty()
  {
    DisableAllOnlyRevokes(grants, capabilities);
    var after := DisableAll(grants, capabilities);
    assert grants.IsEmpty() ==> !after.Enabled(GitHttps) && !after.Enabled(SshAgent) && !after.Enabled(GitIdentity);
  }

  /** The record to change; a missing one is made up empty and staged. */
  function RecordOrNew(record: Option<Record>): Record {
    if record.Some? then record.value else Record(0, Staged, NO_GRANTS)
  }

  /** When all is `calm`, every write happens and nothing dies on the way. */
  class Store {
    var record: Option<Record>
    var workspace: Option<Workspace>
    var receipt: Option<Receipt>
    ghost var issued: map<Nonce, Workspace>
    var nextIncarnation: nat
    ghost var trace: seq<World>

    ghost function Now(): World
      reads this
    {
      World(record, workspace, receipt, issued, nextIncarnation)
    }

    ghost predicate Valid()
      reads this
    {
      IsRun(trace) && trace[|trace| - 1] == Now()
    }

    constructor ()
      ensures Valid() && Now() == INITIAL
    {
      record, workspace, receipt := None, None, None;
      issued, nextIncarnation, trace := map[], 0, [INITIAL];
    }

    ghost method Note()
      requires IsRun(trace) && Step(trace[|trace| - 1], Now())
      modifies this`trace
      ensures Valid() && trace == old(trace) + [Now()]
    {
      trace := trace + [Now()];
    }

    /** The user removes the workspace directory. */
    method Delete()
      requires Valid()
      modifies this`workspace, this`receipt, this`trace
      ensures Valid() && old(trace) <= trace && workspace.None?
    {
      workspace, receipt := None, None;
      Note();
    }

    /** A clone makes a new directory; nothing the store can see need differ from an older one. */
    method Clone(wanted: Workspace)
      requires Valid() && workspace.None?
      modifies this`workspace, this`receipt, this`nextIncarnation, this`trace
      ensures Valid() && old(trace) <= trace && receipt.None?
      ensures workspace == Some(wanted.(incarnation := old(nextIncarnation)))
    {
      workspace, receipt := Some(wanted.(incarnation := nextIncarnation)), None;
      nextIncarnation := nextIncarnation + 1;
      Note();
    }

    /** What may happen to the directory while only the policy lock is held. */
    method Disturb()
      requires Valid()
      modifies this`workspace, this`receipt, this`nextIncarnation, this`trace
      ensures Valid() && old(trace) <= trace
    {
      Delete();
      if * {
        var any: Workspace := *;
        Clone(any);
      }
    }

    /** `ensure_receipt`: the receipt already there if it matches, else one with a new random nonce. */
    method EnsureReceipt(nonce: Nonce, calm: bool) returns (r: Result<Receipt, StoreError>)
      requires Valid() && workspace.Some? && nonce !in issued
      requires receipt.None? ==> GrantsOf(record).IsEmpty() || workspace.value.explicitName
      modifies this`receipt, this`issued, this`trace
      ensures Valid() && old(trace) <= trace
      ensures r.Ok? ==> receipt == Some(r.value) && r.value.nonce in issued && issued[r.value.nonce] == workspace.value
      ensures r.Ok? ==> ReceiptMatches(r.value, workspace.value)
      ensures r.Ok? && old(receipt).Some? ==> receipt == old(receipt)
      ensures r.Err? ==> r.error.Storage? && !calm
    {
      RunKeepsInv(trace, |trace| - 1);
      if receipt.Some? {
        if ReceiptMatches(receipt.value, workspace.value) {
          return Ok(receipt.value);
        } else {
          return Err(BindingMismatch);
        }
      }
      var written: bool := *;
      if !written && !calm {
        return Err(Storage);
      }
      receipt := Some(ReceiptFor(workspace.value, nonce));
      issued := issued[nonce := workspace.value];
      Note();
      var alive: bool := *;
      return if alive || calm then Ok(receipt.value) else Err(Storage);
    }

    /** `persist_change`: an unchanged record is not rewritten, a changed one gets the next revision. */
    method PersistChange(changed: Record, previous: Option<Record>, calm: bool) returns (r: Result<(), StoreError>)
      requires Valid() && previous == record && changed.revision == RevisionOf(record)
      requires previous == Some(changed) || changed.revision == MAX_REVISION
               || RecordRule(Now(), changed.(revision := changed.revision + 1))
      modifies this`record, this`trace
      ensures Valid() && old(trace) <= trace
      ensures r.Ok? ==> record == if old(record) == Some(changed) then old(record)
                                  else Some(changed.(revision := changed.revision + 1))
      ensures record == old(record) || record == Some(changed.(revision := changed.revision + 1))
      ensures r.Err? ==> r.error.RevisionExhausted? || r.error.Storage?
      ensures r.Err? && r.error.RevisionExhausted? ==> record == old(record) && RevisionOf(record) == MAX_REVISION
      ensures calm ==> (r.Err? <==> old(record) != Some(changed) && changed.revision == MAX_REVISION)
      ensures calm && r.Err? ==> r.error.RevisionExhausted?
    {
      if previous == Some(changed) {
        return Ok(());
      }
      if changed.revision == MAX_REVISION {
        return Err(RevisionExhausted);
      }
      var written: bool := *;
      if !written && !calm {
        return Err(Storage);
      }
      record := Some(changed.(revision := changed.revision + 1));
      Note();
      var alive: bool := *;
      return if alive || calm then Ok(()) else Err(Storage);
    }

    /** The `Disable` branch of `mutate_credentials`: revocation needs no workspace. */
    method Disable(capabilities: seq<Capability>, calm: bool) returns (r: Result<(), StoreError>)
      requires Valid()
      modifies this`record, this`trace
      ensures Valid() && old(trace) <= trace
      ensures r.Ok? ==>
                && record.Some?
                && Obeyed(GrantsOf(old(record)), DisableCapabilities(capabilities), None, record.value.grants)
                && record.value.binding ==
                     if record.value.grants == NO_GRANTS || old(record).None? then Staged else old(record).value.binding
      ensures record == old(record)
              || (record.Some?
                  && Obeyed(GrantsOf(old(record)), DisableCapabilities(capabilities), None, record.value.grants))
      ensures r.Err? ==> r.error.RevisionExhausted? || r.error.Storage?
      ensures calm && r.Err? ==> r.error.RevisionExhausted? && RevisionOf(old(record)) == MAX_REVISION
    {
      var previous := record;
      var changed := RecordOrNew(previous);
      RunKeepsInv(trace, |trace| - 1);
      RevisionsIdentifyRecords(trace, 0, |trace| - 1);
      RevokedOnlyRevokes(changed.grants, capabilities);
      RevocationMeans(changed.grants, capabilities, None);
      changed := changed.(grants := Revoked(changed.grants, capabilities));
      if changed.grants.IsEmpty() {
        changed := changed.(binding := Staged);
      }
      r := PersistChange(changed, previous, calm);
    }

    /** The receipt a granting change is bound to; the directory may be disturbed once it is written. */
    method Attach(nonce: Nonce, disturbed: bool, calm: bool) returns (r: Result<Receipt, StoreError>)
      requires Valid() && workspace.Some? && nonce !in issued
      requires receipt.None? ==> GrantsOf(record).IsEmpty() || workspace.value.explicitName
      modifies this`workspace, this`receipt, this`issued, this`nextIncarnation, this`trace
      ensures Valid() && old(trace) <= trace
      ensures r.Ok? ==> r.value.nonce in issued && issued[r.value.nonce] == old(workspace).value
      ensures r.Ok? ==> ReceiptMatches(r.value, old(workspace).value)
      ensures r.Ok? && !disturbed ==> workspace == old(workspace) && receipt == Some(r.value)
      ensures r.Err? ==> r.error.Storage? && !calm
    {
      r := EnsureReceipt(nonce, calm);
      if r.Ok? && disturbed {
        ghost var before := trace;
        Disturb();
        IssuedIsStable(trace, |before| - 1, |trace| - 1, r.value.nonce);
      }
    }

    /** What a written granting change leaves: the grants wanted, bound to the directory seen at the start. */
    ghost predicate Granted(grants: Grants, before: Option<Record>, seen: Option<Workspace>)
      reads this
    {
      && record.Some? && record.value.grants == grants
      && (record == before || record.value.revision == RevisionOf(before) + 1)
      && (seen.Some? ==>
            && record.value.binding.Bound? && record.value.binding.receipt.nonce in issued
            && issued[record.value.binding.receipt.nonce] == seen.value)
      && (seen.None? ==> record.value.binding.Staged?)
    }

    /** The two writes of a granting change for a workspace: the receipt first, the record second. */
    method WriteBound(grants: Grants, nonce: Nonce, disturbed: bool, calm: bool) returns (r: Result<(), StoreError>)
      requires Valid() && workspace.Some? && nonce !in issued && !grants.IsEmpty()
      requires GrantsOf(record).IsEmpty() || BoundMatches(record.value.binding, workspace.value, receipt)
               || (record.value.binding.Staged? && receipt.Some? && ReceiptMatches(receipt.value, workspace.value))
      modifies this
      ensures Valid() && old(trace) <= trace
      ensures r.Ok? ==> Granted(grants, old(record), old(workspace))
      ensures r.Ok? && !disturbed ==> workspace.Some? && Inspect(Now()) == ReportBound
      ensures record == old(record) || (record.Some? && record.value.grants == grants)
      ensures r.Err? ==> r.error.RevisionExhausted? || r.error.Storage?
      ensures calm && r.Err? ==> r.error.RevisionExhausted? && RevisionOf(old(record)) == MAX_REVISION
    {
      RunKeepsInv(trace, |trace| - 1);
      RevisionsIdentifyRecords(trace, 0, |trace| - 1);
      var previous := record;
      var changed := RecordOrNew(previous).(grants := grants);
      if !BoundMatches(changed.binding, workspace.value, receipt) {
        var ensured := Attach(nonce, disturbed, calm);
        if ensured.Err? {
          return Err(ensured.error);
        }
        changed := changed.(binding := Bound(ensured.value));
      }
      r := PersistChange(changed, previous, calm);
    }

    /** The one write of a granting change without a workspace. */
    method WriteStaged(grants: Grants, calm: bool) returns (r: Result<(), StoreError>)
      requires Valid() && workspace.None? && !grants.IsEmpty()
      requires GrantsOf(record).IsEmpty() || record.value.binding.Staged?
      modifies this`record, this`trace
      ensures Valid() && old(trace) <= trace
      ensures r.Ok? ==> Granted(grants, old(record), None) && Inspect(Now()) == ReportStaged
      ensures record == old(record) || (record.Some? && record.value.grants == grants)
      ensures r.Err? ==> r.error.RevisionExhausted? || r.error.Storage?
      ensures calm && r.Err? ==> r.error.RevisionExhausted? && RevisionOf(old(record)) == MAX_REVISION
    {
      RunKeepsInv(trace, |trace| - 1);
      RevisionsIdentifyRecords(trace, 0, |trace| - 1);
      var previous := record;
      var changed := RecordOrNew(previous).(grants := grants);
      if previous.Some? && previous.value.grants.IsEmpty() {
        changed := changed.(binding := Staged);
      }
      r := PersistChange(changed, previous, calm);
    }

    /**
     The granting branch of `mutate_credentials`. `disturbed` lets the directory vanish or be
     replaced between the receipt write and the record write. Each refusal has exactly its reason and
     changes nothing; otherwise the record left is the old one or holds what the command asks for.
     */
    method Grant(command: Command, nonce: Nonce, disturbed: bool, calm: bool) returns (r: Result<(), StoreError>)
      requires Valid() && !command.DisableCapabilities? && nonce !in issued
      modifies this
      ensures Valid() && old(trace) <= trace
      ensures r.Ok? && !disturbed ==> Inspect(Now()) == if workspace.Some? then ReportBound else ReportStaged
      ensures var before := if old(record).Some? then old(record).value else Record(0, Staged, NO_GRANTS);
              var unnamed := NameRequired(before, old(workspace), old(receipt), command);
              var misbound := Misbound(before, old(workspace), old(receipt), command);
              && (r == Err(ExplicitNameRequired) <==> unnamed)
              && (r == Err(BindingMismatch) <==> misbound)
              && (forall e :: r == Err(Policy(e)) <==>
                    !unnamed && !misbound && RefusedFor(before.grants, command, old(workspace), e))
              && (r.Err? && !r.error.RevisionExhausted? && !r.error.Storage? ==> Now() == old(Now()))
              && (record == old(record)
                  || (record.Some? && Obeyed(before.grants, command, old(workspace), record.value.grants)))
              && (r.Ok? ==> record.Some? && Granted(record.value.grants, old(record), old(workspace)))
              && (r.Ok? ==> Obeyed(before.grants, command, old(workspace), record.value.grants))
              && (calm && r.Err? ==> !r.error.Storage?)
              && (calm && r.Err? && r.error.RevisionExhausted? ==> before.revision == MAX_REVISION)
    {
      var before := RecordOrNew(record);
      BindingRefusalMeans(before, workspace, receipt, command);
      CommandMeans(before.grants, command, workspace);
      var allowed := ValidateMutationBinding(before, workspace, receipt, command);
      if allowed.Err? {
        return Err(allowed.error);
      }
      var wanted := ApplyCommand(before.grants, command, workspace);
      if wanted.Err? {
        return Err(wanted.error);
      }
      if workspace.Some? {
        r := WriteBound(wanted.value, nonce, disturbed, calm);
      } else {
        r := WriteStaged(wanted.value, calm);
      }
    }

    /** `bind_created_workspace`, called after a successful clone. */
    method BindCreated(nonce: Nonce, disturbed: bool, calm: bool) returns (r: Result<(), StoreError>)
      requires Valid() && workspace.Some? && nonce !in issued
      modifies this
      ensures Valid() && old(trace) <= trace
      ensures GrantsOf(old(record)).IsEmpty() ==> r == Ok(()) && Now() == old(Now())
      ensures !GrantsOf(old(record)).IsEmpty() && !old(workspace).value.explicitName ==>
                r == Err(ExplicitNameRequired) && Now() == old(Now())
      ensures r == Err(BindingMismatch) <==>
                && !GrantsOf(old(record)).IsEmpty() && old(workspace).value.explicitName
                && old(record).value.binding.Bound? && !BoundHere(old(record).value, old(workspace).value, old(receipt))
      ensures r == Err(BindingMismatch) ==> Now() == old(Now())
      ensures r.Ok? && !GrantsOf(old(record)).IsEmpty() ==>
                && record.Some? && record.value.grants == GrantsOf(old(record)) && record.value.binding.Bound?
                && record.value.binding.receipt.nonce in issued
                && issued[record.value.binding.receipt.nonce] == old(workspace).value
      ensures calm && old(workspace).value.explicitName && old(record).Some? && old(record).value.binding.Staged? ==>
                r.Ok? || old(record).value.revision == MAX_REVISION
    {
      RunKeepsInv(trace, |trace| - 1);
      RevisionsIdentifyRecords(trace, 0, |trace| - 1);
      if record.None? || record.value.grants.IsEmpty() {
        return Ok(());
      }
      if !workspace.value.explicitName {
        return Err(ExplicitNameRequired);
      }
      if record.value.binding.Bound? {
        MatchesItsDirectory(record.value.binding.receipt, workspace.value);
        return if BoundMatches(record.value.binding, workspace.value, receipt) then Ok(()) else Err(BindingMismatch);
      }
      var previous := record;
      var ensured := Attach(nonce, disturbed, calm);
      if ensured.Err? {
        return Err(ensured.error);
      }
      r := PersistChange(previous.value.(binding := Bound(ensured.value)), previous, calm);
    }
  }
}
