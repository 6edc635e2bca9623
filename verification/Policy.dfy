/** The denial reasons with their codes, and the policy that the protected domain applies. */
module Policy {
  import opened Wrappers
  import opened Models
  import opened State

  datatype Reason =
    | MALFORMED_ACT | NO_FINALITY_AUTHORITY | INVALID_AUTHORITY | STALE_AUTHORITY | AUTHORITY_ALREADY_USED
    | REPLAY_DETECTED | NONCE_FAILURE | ACT_MISMATCH | DESCRIPTOR_MISMATCH | SCOPE_MISMATCH | PURPOSE_MISMATCH
    | CONSEQUENCE_CLASS_MISMATCH | JURISDICTION_MISMATCH | POLICY_EPOCH_MISMATCH | REVOCATION_STATE_MISMATCH
    | PROTECTED_STATE_MISMATCH | NETWORK_STATE_MISMATCH | SINK_MISMATCH | EFFECTUATION_BOUNDARY_MISMATCH
    | ATTESTATION_FAILURE | JURISDICTION_UNRESOLVED | EVIDENCE_MISSING | ACTIVATION_MISSING

  function Code(r: Reason): string {
    match r
    case MALFORMED_ACT => "EF-001"
    case NO_FINALITY_AUTHORITY => "EF-002"
    case INVALID_AUTHORITY => "EF-003"
    case STALE_AUTHORITY => "EF-004"
    case AUTHORITY_ALREADY_USED => "EF-005"
    case REPLAY_DETECTED => "EF-006"
    case NONCE_FAILURE => "EF-007"
    case ACT_MISMATCH => "EF-010"
    case DESCRIPTOR_MISMATCH => "EF-011"
    case SCOPE_MISMATCH => "EF-012"
    case PURPOSE_MISMATCH => "EF-013"
    case CONSEQUENCE_CLASS_MISMATCH => "EF-014"
    case JURISDICTION_MISMATCH => "EF-021"
    case POLICY_EPOCH_MISMATCH => "EF-030"
    case REVOCATION_STATE_MISMATCH => "EF-031"
    case PROTECTED_STATE_MISMATCH => "EF-032"
    case NETWORK_STATE_MISMATCH => "EF-033"
    case SINK_MISMATCH => "EF-040"
    case EFFECTUATION_BOUNDARY_MISMATCH => "EF-041"
    case ATTESTATION_FAILURE => "EF-050"
    case JURISDICTION_UNRESOLVED => "EF-063"
    case EVIDENCE_MISSING => "EF-080"
    case ACTIVATION_MISSING => "EF-080"
  }

  /** Ages and lifetimes in microseconds, effect durations in seconds. */
  datatype PolicyConfig = PolicyConfig(
    maxCandidateAge: int, maxEffectDuration: int, authorityTtl: int, requireAttestation: bool,
    allowedActTypes: set<string>)

  /** An optional string Python counts as absent: `None` or empty. */
  predicate Missing(o: Option<string>) {
    o.None? || o.value == ""
  }

  /** What policy reads of the protected state, in the order it reads it. Two allowlists are read twice,
      first for being restrictive at all, then for the candidate's entry. */
  datatype PolicyView = PolicyView(
    policyEpoch: int, authorityEpoch: int, revocationEpoch: int, sinkIds: set<string>,
    jurisdictionsRestrict: bool, jurisdictions: set<string>, purposesRestrict: bool, purposes: set<string>,
    requireAttestation: bool)

  function ViewOf(s: NetState): PolicyView {
    PolicyView(s.epochs.policy, s.epochs.authority, s.epochs.revocation, s.allowedSinkIds,
               s.allowedJurisdictions != {}, s.allowedJurisdictions, s.allowedPurposes != {}, s.allowedPurposes,
               s.requireAttestation)
  }

  /** `TelecomPolicy.validate` on what it read: the first failing check, if any. An empty allowlist of
      jurisdictions, purposes or act types restricts nothing; an empty list of sinks allows none. */
  function ValidateView(config: PolicyConfig, v: PolicyView, c: Candidate, now: int): Option<Reason> {
    var jurisdiction := c.networkContext.jurisdiction;
    var duration := c.requestedEffect.durationSeconds;
    if now < c.createdAt then Some(MALFORMED_ACT)
    else if now >= c.expiresAt then Some(STALE_AUTHORITY)
    else if now - c.createdAt > config.maxCandidateAge then Some(NONCE_FAILURE)
    else if c.policyState.policyEpoch != v.policyEpoch then Some(POLICY_EPOCH_MISMATCH)
    else if c.policyState.authorityEpoch != v.authorityEpoch then Some(PROTECTED_STATE_MISMATCH)
    else if c.policyState.revocationEpoch != v.revocationEpoch then Some(REVOCATION_STATE_MISMATCH)
    else if c.finalitySink.sinkId !in v.sinkIds then Some(SINK_MISMATCH)
    else if Missing(jurisdiction) then Some(JURISDICTION_UNRESOLVED)
    else if v.jurisdictionsRestrict && jurisdiction.value !in v.jurisdictions then Some(JURISDICTION_MISMATCH)
    else if v.purposesRestrict && c.purpose.purposeId !in v.purposes then Some(PURPOSE_MISMATCH)
    else if (config.requireAttestation || v.requireAttestation) && Missing(c.initiator.runtimeAttestationDigest) then
      Some(ATTESTATION_FAILURE)
    else if config.allowedActTypes != {} && c.actType !in config.allowedActTypes then Some(CONSEQUENCE_CLASS_MISMATCH)
    else if duration.Some? && duration.value > config.maxEffectDuration then Some(SCOPE_MISMATCH)
    else if c.resourceScope.resourceIds == [] then Some(SCOPE_MISMATCH)
    else None
  }

  /** `TelecomPolicy.validate` when nothing moves meanwhile. */
  function Validate(config: PolicyConfig, s: NetState, c: Candidate, now: int): Option<Reason> {
    ValidateView(config, ViewOf(s), c, now)
  }

  /** The candidate is inside its time window, names current epochs, and asks for nothing outside what
      the state and the configuration permit. */
  predicate Permitted(config: PolicyConfig, s: NetState, c: Candidate, now: int) {
    && c.createdAt <= now < c.expiresAt && now <= c.createdAt + config.maxCandidateAge
    && (c.policyState.policyEpoch, c.policyState.authorityEpoch, c.policyState.revocationEpoch)
       == (s.epochs.policy, s.epochs.authority, s.epochs.revocation)
    && c.finalitySink.sinkId in s.allowedSinkIds
    && c.networkContext.jurisdiction.Some? && |c.networkContext.jurisdiction.value| > 0
    && (c.networkContext.jurisdiction.value in s.allowedJurisdictions || s.allowedJurisdictions == {})
    && (c.purpose.purposeId in s.allowedPurposes || s.allowedPurposes == {})
    && (config.requireAttestation || s.requireAttestation ==>
        c.initiator.runtimeAttestationDigest.Some? && |c.initiator.runtimeAttestationDigest.value| > 0)
    && (c.actType in config.allowedActTypes || config.allowedActTypes == {})
    && (c.requestedEffect.durationSeconds.Some? ==> c.requestedEffect.durationSeconds.value <= config.maxEffectDuration)
    && c.resourceScope.resourceIds != []
  }

  /** Policy denies exactly the candidates that are not permitted, whatever the order of its checks. */
  lemma DeniesIffNotPermitted(config: PolicyConfig, s: NetState, c: Candidate, now: int)
    ensures Validate(config, s, c, now).None? <==> Permitted(config, s, c, now)
  {
  }

  /** What policy checks apart from the protected state: time window, attestation by configuration,
      act type, duration and resources. */
  predicate Sensible(config: PolicyConfig, c: Candidate, now: int) {
    && c.createdAt <= now < c.expiresAt && now <= c.createdAt + config.maxCandidateAge
    && (c.requestedEffect.durationSeconds.Some? ==> c.requestedEffect.durationSeconds.value <= config.maxEffectDuration)
    && (c.actType in config.allowedActTypes || config.allowedActTypes == {})
    && (config.requireAttestation ==> !Missing(c.initiator.runtimeAttestationDigest))
    && !Missing(c.networkContext.jurisdiction) && c.resourceScope.resourceIds != []
  }

  lemma PassedIsSensible(config: PolicyConfig, v: PolicyView, c: Candidate, now: int)
    requires ValidateView(config, v, c, now).None?
    ensures Sensible(config, c, now)
    ensures (c.policyState.policyEpoch, c.policyState.authorityEpoch, c.policyState.revocationEpoch)
            == (v.policyEpoch, v.authorityEpoch, v.revocationEpoch)
  {
  }

  // ---- which denial, with which code ----

  /** The checks of policy in their order, each as what it asks for. */
  predicate Meets(config: PolicyConfig, s: NetState, c: Candidate, now: int, check: nat) {
    match check
    case 0 => c.createdAt <= now
    case 1 => now < c.expiresAt
    case 2 => now <= c.createdAt + config.maxCandidateAge
    case 3 => c.policyState.policyEpoch == s.epochs.policy
    case 4 => c.policyState.authorityEpoch == s.epochs.authority
    case 5 => c.policyState.revocationEpoch == s.epochs.revocation
    case 6 => c.finalitySink.sinkId in s.allowedSinkIds
    case 7 => c.networkContext.jurisdiction.Some? && |c.networkContext.jurisdiction.value| > 0
    case 8 =>
      c.networkContext.jurisdiction.Some?
      && (s.allowedJurisdictions == {} || c.networkContext.jurisdiction.value in s.allowedJurisdictions)
    case 9 => s.allowedPurposes == {} || c.purpose.purposeId in s.allowedPurposes
    case 10 =>
      (config.requireAttestation || s.requireAttestation) ==>
        c.initiator.runtimeAttestationDigest.Some? && |c.initiator.runtimeAttestationDigest.value| > 0
    case 11 => config.allowedActTypes == {} || c.actType in config.allowedActTypes
    case 12 =>
      c.requestedEffect.durationSeconds.Some? ==> c.requestedEffect.durationSeconds.value <= config.maxEffectDuration
    case 13 => |c.resourceScope.resourceIds| > 0
    case _ => true
  }

  const CHECKS := 14

  /** The reason given when a check is the first to fail, with its code. */
  function Given(check: nat): (Reason, string) {
    match check
    case 0 => (MALFORMED_ACT, "EF-001")
    case 1 => (STALE_AUTHORITY, "EF-004")
    case 2 => (NONCE_FAILURE, "EF-007")
    case 3 => (POLICY_EPOCH_MISMATCH, "EF-030")
    case 4 => (PROTECTED_STATE_MISMATCH, "EF-032")
    case 5 => (REVOCATION_STATE_MISMATCH, "EF-031")
    case 6 => (SINK_MISMATCH, "EF-040")
    case 7 => (JURISDICTION_UNRESOLVED, "EF-063")
    case 8 => (JURISDICTION_MISMATCH, "EF-021")
    case 9 => (PURPOSE_MISMATCH, "EF-013")
    case 10 => (ATTESTATION_FAILURE, "EF-050")
    case 11 => (CONSEQUENCE_CLASS_MISMATCH, "EF-014")
    case _ => (SCOPE_MISMATCH, "EF-012")
  }

  /** This check fails and all those before it are met. */
  predicate FirstFailing(config: PolicyConfig, s: NetState, c: Candidate, now: int, check: nat) {
    check < CHECKS && !Meets(config, s, c, now, check) && forall k: nat :: k < check ==> Meets(config, s, c, now, k)
  }

  lemma MetBefore(config: PolicyConfig, s: NetState, c: Candidate, now: int, check: nat)
    requires FirstFailing(config, s, c, now, check)
    ensures !Meets(config, s, c, now, check)
    ensures check > 0 ==> Meets(config, s, c, now, 0)
    ensures check > 1 ==> Meets(config, s, c, now, 1)
    ensures check > 2 ==> Meets(config, s, c, now, 2)
    ensures check > 3 ==> Meets(config, s, c, now, 3)
    ensures check > 4 ==> Meets(config, s, c, now, 4)
    ensures check > 5 ==> Meets(config, s, c, now, 5)
    ensures check > 6 ==> Meets(config, s, c, now, 6)
    ensures check > 7 ==> Meets(config, s, c, now, 7)
    ensures check > 8 ==> Meets(config, s, c, now, 8)
    ensures check > 9 ==> Meets(config, s, c, now, 9)
    ensures check > 10 ==> Meets(config, s, c, now, 10)
    ensures check > 11 ==> Meets(config, s, c, now, 11)
    ensures check > 12 ==> Meets(config, s, c, now, 12)
  {
    hide Meets;
  }

  /** Policy gives the reason and the code of the first failing check. */
  lemma DeniesWithFirst(config: PolicyConfig, s: NetState, c: Candidate, now: int, check: nat)
    requires FirstFailing(config, s, c, now, check)
    ensures Validate(config, s, c, now) == Some(Given(check).0) && Code(Given(check).0) == Given(check).1
  {
    hide FirstFailing, Code;
    MetBefore(config, s, c, now, check);
    GivenCode(check);
  }

  lemma GivenCode(check: nat)
    ensures Code(Given(check).0) == Given(check).1
  {
  }

  lemma {:induction false} SomeFirst(config: PolicyConfig, s: NetState, c: Candidate, now: int,
                                     check: nat) returns (first: nat)
    requires check < CHECKS && !Meets(config, s, c, now, check)
    ensures first <= check && FirstFailing(config, s, c, now, first)
  {
    hide Meets;
    if k: nat :| k < check && !Meets(config, s, c, now, k) {
      first := SomeFirst(config, s, c, now, k);
    } else {
      first := check;
    }
  }

  /** And the other way: a denial has a first failing check, which decides its reason; nothing fails
      exactly when policy passes. */
  lemma ReasonIffFirst(config: PolicyConfig, s: NetState, c: Candidate, now: int, r: Reason)
    ensures Validate(config, s, c, now) == Some(r)
            <==> exists check :: FirstFailing(config, s, c, now, check) && Given(check).0 == r
    ensures Validate(config, s, c, now).None? <==> forall check: nat ::
              check < CHECKS ==> Meets(config, s, c, now, check)
  {
    hide Meets, Validate, FirstFailing, Given;
    if check: nat :| check < CHECKS && !Meets(config, s, c, now, check) {
      var first := SomeFirst(config, s, c, now, check);
      DeniesWithFirst(config, s, c, now, first);
      forall other | FirstFailing(config, s, c, now, other) ensures other == first {
        OnlyFirst(config, s, c, now, first, other);
      }
    } else {
      AllMet(config, s, c, now);
      forall other ensures !FirstFailing(config, s, c, now, other) {
        MetIsNotFirst(config, s, c, now, other);
      }
    }
  }

  lemma OnlyFirst(config: PolicyConfig, s: NetState, c: Candidate, now: int, first: nat, other: nat)
    requires FirstFailing(config, s, c, now, first) && FirstFailing(config, s, c, now, other)
    ensures other == first
  {
    hide Meets;
  }

  lemma MetIsNotFirst(config: PolicyConfig, s: NetState, c: Candidate, now: int, check: nat)
    requires forall k: nat :: k < CHECKS ==> Meets(config, s, c, now, k)
    ensures !FirstFailing(config, s, c, now, check)
  {
    hide Meets;
  }

  lemma AllMet(config: PolicyConfig, s: NetState, c: Candidate, now: int)
    requires forall k: nat :: k < CHECKS ==> Meets(config, s, c, now, k)
    ensures Validate(config, s, c, now).None?
  {
    assert Meets(config, s, c, now, 0) && Meets(config, s, c, now, 1) && Meets(config, s, c, now, 2);
    assert Meets(config, s, c, now, 3) && Meets(config, s, c, now, 4) && Meets(config, s, c, now, 5);
    assert Meets(config, s, c, now, 6) && Meets(config, s, c, now, 7) && Meets(config, s, c, now, 8);
    assert Meets(config, s, c, now, 9) && Meets(config, s, c, now, 10) && Meets(config, s, c, now, 11);
    assert Meets(config, s, c, now, 12) && Meets(config, s, c, now, 13);
  }
}
