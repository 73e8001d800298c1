/** Independently granted credential capabilities; absence is always disabled. */
module CredentialGrants {
  import opened Wrappers

  const MAX_HTTPS_ORIGINS: nat := 64

  type Origin = string
  type Selector = string

  datatype Capability = GitHttps | SshAgent | GitIdentity

  datatype PolicyError = OriginsRequired | HttpsDisabled | TooManyOrigins

  datatype Grants = Grants(gitHttps: Option<set<Origin>>, sshAgent: Option<Selector>, gitIdentity: bool) {
    predicate IsEmpty() {
      gitHttps.None? && sshAgent.None? && !gitIdentity
    }

    predicate Enabled(capability: Capability) {
      match capability
      case GitHttps => gitHttps.Some?
      case SshAgent => sshAgent.Some?
      case GitIdentity => gitIdentity
    }

    predicate Allows(origin: Origin) {
      gitHttps.Some? && origin in gitHttps.value
    }

    function Disable(capability: Capability): Grants {
      match capability
      case GitHttps => this.(gitHttps := None)
      case SshAgent => this.(sshAgent := None)
      case GitIdentity => this.(gitIdentity := false)
    }

    function EnableHttps(origins: seq<Origin>): Result<Grants, PolicyError> {
      if gitHttps.None? && origins == [] then Err(OriginsRequired)
      else
        var desired := (if gitHttps.Some? then gitHttps.value else {}) + (set o | o in origins);
        if |desired| > MAX_HTTPS_ORIGINS then Err(TooManyOrigins) else Ok(this.(gitHttps := Some(desired)))
    }

    /** Allow or deny origins of an enabled allowlist; never enables or disables the capability. */
    function AdjustOrigins(origins: seq<Origin>, allow: bool): (r: Result<Grants, PolicyError>)
      ensures r.Ok? ==> forall c :: r.value.Enabled(c) == Enabled(c)
    {
      if gitHttps.None? then Err(HttpsDisabled)
      else if origins == [] then Err(OriginsRequired)
      else if allow then EnableHttps(origins)
      else Ok(this.(gitHttps := Some(set o | o in gitHttps.value && o !in origins)))
    }
  }

  const NO_GRANTS := Grants(None, None, false)
}
