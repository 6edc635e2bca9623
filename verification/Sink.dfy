/** The finality sink: an ordered ladder of checks, then consumption of the authority and the
    network effect as one step, undone if the network raises. */
module Sink {
  import opened Wrappers
  import opened Crypto
  import opened Models
  import opened Evidence
  import opened State
  import opened Policy
  import opened SystemState
  import opened Ped

  /** Every place where the sink denies, in the order of the source. */
  datatype Rung =
    | NoAuthority | UnknownKey | BadSignature | AuthorityExpired | CandidateMismatch
    | EvidenceMismatch
    | ActivationAbsent | ActivationExpired | ActivationSinkMismatch | ActivationDigestMismatch | CommitmentMismatch
    | AlreadyUsed
    | SinkIdMismatch | BoundaryMismatch
    | StateReferenceMismatch | TopologyChanged | ConfigurationChanged | PolicyEpochChanged | AuthorityEpochChanged
    | RevocationEpochChanged
    | NonceMismatch | SequenceMismatch | ActTypeMismatch | ResourceTypeMismatch | ResourceIdsMismatch
    | SubscriberScopeMismatch | PurposeMismatch | JurisdictionMismatch | EffectTypeMismatch
    | ParametersInconsistent | ParametersMismatch | DurationExceeded
    | UsedUnderLock | NotConsumed

  function ReasonOf(r: Rung): Reason {
    match r
    case NoAuthority => NO_FINALITY_AUTHORITY
    case UnknownKey => INVALID_AUTHORITY
    case BadSignature => INVALID_AUTHORITY
    case AuthorityExpired => STALE_AUTHORITY
    case CandidateMismatch => ACT_MISMATCH
    case EvidenceMismatch => EVIDENCE_MISSING
    case ActivationAbsent => ACTIVATION_MISSING
    case ActivationExpired => STALE_AUTHORITY
    case ActivationSinkMismatch => SINK_MISMATCH
    case ActivationDigestMismatch => PROTECTED_STATE_MISMATCH
    case CommitmentMismatch => PROTECTED_STATE_MISMATCH
    case AlreadyUsed => AUTHORITY_ALREADY_USED
    case SinkIdMismatch => SINK_MISMATCH
    case BoundaryMismatch => EFFECTUATION_BOUNDARY_MISMATCH
    case StateReferenceMismatch => PROTECTED_STATE_MISMATCH
    case TopologyChanged => NETWORK_STATE_MISMATCH
    case ConfigurationChanged => NETWORK_STATE_MISMATCH
    case PolicyEpochChanged => POLICY_EPOCH_MISMATCH
    case AuthorityEpochChanged => PROTECTED_STATE_MISMATCH
    case RevocationEpochChanged => REVOCATION_STATE_MISMATCH
    case NonceMismatch => NONCE_FAILURE
    case SequenceMismatch => NONCE_FAILURE
    case ActTypeMismatch => CONSEQUENCE_CLASS_MISMATCH
    case ResourceTypeMismatch => SCOPE_MISMATCH
    case ResourceIdsMismatch => SCOPE_MISMATCH
    case SubscriberScopeMismatch => SCOPE_MISMATCH
    case PurposeMismatch => PURPOSE_MISMATCH
    case JurisdictionMismatch => JURISDICTION_MISMATCH
    case EffectTypeMismatch => CONSEQUENCE_CLASS_MISMATCH
    case ParametersInconsistent => DESCRIPTOR_MISMATCH
    case ParametersMismatch => ACT_MISMATCH
    case DurationExceeded => SCOPE_MISMATCH
    case UsedUnderLock => AUTHORITY_ALREADY_USED
    case NotConsumed => AUTHORITY_ALREADY_USED
  }

  /** The fields of the verification report. */
  datatype Check =
    | AuthoritySignature | CandidateActBinding | EvidenceBinding | ActivationBinding | ConsumptionState | SinkBinding
    | TopologyEpoch | ConfigurationEpoch | PolicyEpoch | AuthorityEpoch | RevocationEpoch | Nonce | Sequence
    | ResourceScope | SubscriberScope | Purpose | EffectParameters

  datatype Status = VALID | MATCH | UNUSED | CURRENT | FRESH | CONSUMED

  /** The entries of the report in the order they are filled in. */
  function Label(i: nat): (Check, Status) {
    match i
    case 0 => (Check.AuthoritySignature, VALID)
    case 1 => (Check.CandidateActBinding, MATCH)
    case 2 => (Check.EvidenceBinding, MATCH)
    case 3 => (Check.ActivationBinding, MATCH)
    case 4 => (Check.ConsumptionState, UNUSED)
    case 5 => (Check.SinkBinding, MATCH)
    case 6 => (Check.TopologyEpoch, CURRENT)
    case 7 => (Check.ConfigurationEpoch, CURRENT)
    case 8 => (Check.PolicyEpoch, CURRENT)
    case 9 => (Check.AuthorityEpoch, CURRENT)
    case 10 => (Check.RevocationEpoch, CURRENT)
    case 11 => (Check.Nonce, FRESH)
    case 12 => (Check.Sequence, MATCH)
    case 13 => (Check.ResourceScope, MATCH)
    case 14 => (Check.SubscriberScope, MATCH)
    case 15 => (Check.Purpose, MATCH)
    case _ => (Check.EffectParameters, MATCH)
  }

  /** How many entries are filled in when a rung denies. */
  function Passed(r: Rung): nat {
    match r
    case NoAuthority => 0
    case UnknownKey => 0
    case BadSignature => 0
    case AuthorityExpired => 1
    case CandidateMismatch => 1
    case EvidenceMismatch => 2
    case ActivationAbsent => 3
    case ActivationExpired => 3
    case ActivationSinkMismatch => 3
    case ActivationDigestMismatch => 3
    case CommitmentMismatch => 3
    case AlreadyUsed => 4
    case SinkIdMismatch => 5
    case BoundaryMismatch => 5
    case StateReferenceMismatch => 6
    case TopologyChanged => 6
    case ConfigurationChanged => 7
    case PolicyEpochChanged => 8
    case AuthorityEpochChanged => 9
    case RevocationEpochChanged => 10
    case NonceMismatch => 11
    case SequenceMismatch => 12
    case ActTypeMismatch => 13
    case ResourceTypeMismatch => 13
    case ResourceIdsMismatch => 13
    case SubscriberScopeMismatch => 14
    case PurposeMismatch => 15
    case JurisdictionMismatch => 16
    case EffectTypeMismatch => 16
    case ParametersInconsistent => 16
    case ParametersMismatch => 16
    case DurationExceeded => 17
    case UsedUnderLock => 17
    case NotConsumed => 17
  }

  lemma PassedEnvelope()
    ensures Passed(NoAuthority) == 0 && Passed(UnknownKey) == 0 && Passed(BadSignature) == 0
            && Passed(AuthorityExpired) == 1
    ensures Passed(CandidateMismatch) == 1
  {
  }

  lemma PassedStores()
    ensures Passed(EvidenceMismatch) == 2 && Passed(ActivationAbsent) == 3 && Passed(ActivationExpired) == 3
            && Passed(ActivationSinkMismatch) == 3
    ensures Passed(ActivationDigestMismatch) == 3 && Passed(CommitmentMismatch) == 3 && Passed(AlreadyUsed) == 4
  {
  }

  lemma PassedBinding()
    ensures Passed(SinkIdMismatch) == 5 && Passed(BoundaryMismatch) == 5 && Passed(StateReferenceMismatch) == 6
            && Passed(TopologyChanged) == 6
    ensures Passed(ConfigurationChanged) == 7 && Passed(PolicyEpochChanged) == 8 && Passed(AuthorityEpochChanged) == 9
            && Passed(RevocationEpochChanged) == 10
  {
  }

  lemma PassedScope()
    ensures Passed(NonceMismatch) == 11 && Passed(SequenceMismatch) == 12 && Passed(ActTypeMismatch) == 13
    ensures Passed(ResourceTypeMismatch) == 13 && Passed(ResourceIdsMismatch) == 13
            && Passed(SubscriberScopeMismatch) == 14
  {
  }

  lemma PassedEffect()
    ensures Passed(PurposeMismatch) == 15 && Passed(JurisdictionMismatch) == 16 && Passed(EffectTypeMismatch) == 16
    ensures Passed(ParametersInconsistent) == 16 && Passed(ParametersMismatch) == 16 && Passed(DurationExceeded) == 17
  {
  }

  function Report(n: nat): map<Check, Status> {
    if n == 0 then map[] else Report(n - 1)[Label(n - 1).0 := Label(n - 1).1]
  }

  lemma EmptyReport()
    ensures Report(0) == map[]
  {
  }

  lemma Fill(n: nat, check: Check, status: Status)
    requires Label(n) == (check, status)
    ensures Report(n + 1) == Report(n)[check := status]
  {
  }

  function Position(check: Check): (i: nat)
    ensures i < 17 && Label(i).0 == check
  {
    match check
    case AuthoritySignature => 0
    case CandidateActBinding => 1
    case EvidenceBinding => 2
    case ActivationBinding => 3
    case ConsumptionState => 4
    case SinkBinding => 5
    case TopologyEpoch => 6
    case ConfigurationEpoch => 7
    case PolicyEpoch => 8
    case AuthorityEpoch => 9
    case RevocationEpoch => 10
    case Nonce => 11
    case Sequence => 12
    case ResourceScope => 13
    case SubscriberScope => 14
    case Purpose => 15
    case EffectParameters => 16
  }

  lemma PositionOf(i: nat)
    requires i < 17
    ensures Position(Label(i).0) == i
  {
  }

  /** The report holds exactly the first n checks, so a reply that allows reports every check and one
      that denies reports those passed before its rung. */
  lemma {:induction false} ReportCovers(n: nat)
    requires n <= 17
    ensures |Report(n)| == n
    ensures forall check: Check :: check in Report(n) <==> Position(check) < n
    ensures forall check: Check :: check in Report(n) ==> Report(n)[check] == Label(Position(check)).1
  {
    hide Label, Position;
    if n > 0 {
      ReportCovers(n - 1);
      PositionOf(n - 1);
    }
  }

  datatype Response = Response(
    requestId: string, allow: bool, code: string, verification: map<Check, Status>,
    authorityId: Option<string>, consumed: bool, permitted: bool, effectId: Option<string>)

  /** `Raised` passes on the exception of the network. */
  datatype Outcome = Answered(response: Response) | NetworkRaised

  function Deny(requestId: string, rung: Rung, checks: map<Check, Status>, authorityId: Option<string>): Response {
    Response(requestId, false, Code(ReasonOf(rung)), checks, authorityId, false, false, None)
  }

  function Denial(requestId: string, rung: Rung, authorityId: Option<string>): Response {
    Deny(requestId, rung, Report(Passed(rung)), authorityId)
  }

  function Allowed(requestId: string, authorityId: string, effectId: string): Response {
    Response(requestId, true, "OK", Report(17)[Check.ConsumptionState := CONSUMED], Some(authorityId), true, true,
             Some(effectId))
  }

  datatype SinkIdentity = SinkIdentity(sinkId: string, sinkType: string)

  /** One presentation: the arguments of a call and the time read on entry. */
  datatype Presentation = Presentation(
    sink: SinkIdentity, requestId: string, candidate: Candidate, authority: Option<Authority>,
    effect: ProposedEffect, now: int)

  // ---- the ladder, grouped by the shared state each part reads ----

  function CheckEnvelope(cfg: Config, c: Candidate, a: Authority, now: int): Option<Rung> {
    if a.issuer.keyId != cfg.keyId || a.issuer.algorithm != cfg.algorithm then Some(UnknownKey)
    else if !Verify(cfg.p, UnsignedPayload(cfg.p, a), a.issuer.signature) then Some(BadSignature)
    else if now >= a.lifetime.expiresAt then Some(AuthorityExpired)
    else if CandidateDigest(cfg.p, c) != a.binding.candidateActDigest.value || c.candidateActId != a.candidateActId then
      Some(CandidateMismatch)
    else None
  }

  function CheckEvidence(c: Candidate, a: Authority, evidence: Option<EvidenceRecord>): Option<Rung> {
    if evidence.None? || evidence.value.digest != a.binding.evidenceDigest.value
       || evidence.value.entry.decision != "ALLOW"
       || evidence.value.entry.candidateActId != c.candidateActId || evidence.value.entry.decisionId != a.decisionId
    then Some(EvidenceMismatch)
    else None
  }

  function CheckActivation(cfg: Config, sinkId: string, c: Candidate, a: Authority, now: int,
                           activation: Option<ActivationRecord>): Option<Rung> {
    if activation.None? then Some(ActivationAbsent)
    else if now >= activation.value.expiresAt then Some(ActivationExpired)
    else if activation.value.sinkId != sinkId then Some(ActivationSinkMismatch)
    else if activation.value.authorityDigest != AuthorityDigest(cfg.p, a)
            || activation.value.candidateDigest != CandidateDigest(cfg.p, c) then Some(ActivationDigestMismatch)
    else if activation.value.activationCommitment != a.binding.activationCommitment then Some(CommitmentMismatch)
    else None
  }

  function CheckSink(sink: SinkIdentity, c: Candidate, a: Authority): Option<Rung> {
    if a.binding.finalitySinkId != sink.sinkId || c.finalitySink.sinkId != sink.sinkId then Some(SinkIdMismatch)
    else if a.binding.effectuationBoundaryId != BoundaryId(sink.sinkType, sink.sinkId)
            || c.finalitySink.sinkType != sink.sinkType then Some(BoundaryMismatch)
    else None
  }

  function CheckState(a: Authority, protectedStateReference: string, epochs: Epochs): Option<Rung> {
    if a.binding.protectedStateReference != protectedStateReference then Some(StateReferenceMismatch)
    else if a.binding.epochs.topology != epochs.topology then Some(TopologyChanged)
    else if a.binding.epochs.configuration != epochs.configuration then Some(ConfigurationChanged)
    else if a.binding.epochs.policy != epochs.policy then Some(PolicyEpochChanged)
    else if a.binding.epochs.authority != epochs.authority then Some(AuthorityEpochChanged)
    else if a.binding.epochs.revocation != epochs.revocation then Some(RevocationEpochChanged)
    else None
  }

  function Elements(xs: seq<string>): set<string> { set x | x in xs }

  function CheckScope(cfg: Config, c: Candidate, a: Authority, activation: ActivationRecord,
                      e: ProposedEffect): Option<Rung> {
    if a.binding.nonce != c.freshness.nonce || activation.nonce != c.freshness.nonce then Some(NonceMismatch)
    else if a.binding.sequence != c.freshness.sequence then Some(SequenceMismatch)
    else if a.scope.actType != c.actType then Some(ActTypeMismatch)
    else if a.scope.resourceType != e.resourceType then Some(ResourceTypeMismatch)
    else if Elements(e.resourceIds) != Elements(a.scope.resourceIds) then Some(ResourceIdsMismatch)
    else if a.scope.subscriberScope != c.resourceScope.subscriberScope then Some(SubscriberScopeMismatch)
    else if a.scope.purposeId != c.purpose.purposeId then Some(PurposeMismatch)
    else if a.scope.jurisdiction != c.networkContext.jurisdiction then Some(JurisdictionMismatch)
    else if e.effectType != a.scope.permittedEffectType then Some(EffectTypeMismatch)
    else if DigestOf(cfg.p, e.parameters, e.parametersDigest.algorithm) != e.parametersDigest.value then
      Some(ParametersInconsistent)
    else if e.parametersDigest.value != a.scope.parametersDigest then Some(ParametersMismatch)
    else if a.scope.durationSecondsMax.Some? && e.durationSeconds.Some?
            && e.durationSeconds.value > a.scope.durationSecondsMax.value then Some(DurationExceeded)
    else None
  }

  function First(x: Option<Rung>, y: Option<Rung>): Option<Rung> {
    if x.Some? then x else y
  }

  function RecordOf(activations: Activations, authorityId: string): Option<ActivationRecord> {
    if authorityId in activations.records then Some(activations.records[authorityId]) else None
  }

  /** The checks that read the two stores. */
  function StoreLadder(cfg: Config, evidence: EvidenceState, activations: Activations, sinkId: string,
                       c: Candidate, a: Authority, now: int): Option<Rung> {
    First(CheckEvidence(c, a, Evidence.Get(evidence, a.binding.evidenceId)),
      First(CheckActivation(cfg, sinkId, c, a, now, RecordOf(activations, a.authorityId)),
        if a.authorityId in activations.used then Some(AlreadyUsed) else None))
  }

  /** The first check that fails, if any, when nothing else moves meanwhile. */
  function Ladder(cfg: Config, sys: System, q: Presentation): (r: Option<Rung>)
    ensures r.None? ==> q.authority.Some? && q.authority.value.authorityId in sys.activations.records
  {
    if q.authority.None? then Some(NoAuthority)
    else
      var a, c := q.authority.value, q.candidate;
      First(CheckEnvelope(cfg, c, a, q.now),
        First(StoreLadder(cfg, sys.evidence, sys.activations, q.sink.sinkId, c, a, q.now),
          First(CheckSink(q.sink, c, a),
            First(CheckState(a, sys.net.protectedStateReference, sys.net.epochs),
              if a.authorityId in sys.activations.records then
                CheckScope(cfg, c, a, sys.activations.records[a.authorityId], q.effect)
              else Some(ActivationAbsent)))))
  }

  function EffectOf(c: Candidate, a: Authority, e: ProposedEffect): NetEffect {
    NetEffect(c.candidateActId, a.authorityId, e.effectType, e.resourceType, e.resourceIds, e.parameters,
              e.durationSeconds)
  }

  /** `verify_and_effectuate` as one step. `applied` is the effect id, or `None` when the network raises. */
  function SinkStep(cfg: Config, sys: System, q: Presentation, applied: Option<string>): (System, Outcome) {
    match Ladder(cfg, sys, q)
    case Some(rung) =>
      var id := if q.authority.Some? then Some(q.authority.value.authorityId) else None;
      (sys, Answered(Denial(q.requestId, rung, id)))
    case None =>
      var a := q.authority.value;
      match applied
      case None => (sys, NetworkRaised)
      case Some(effectId) =>
        (sys.(activations := sys.activations.(used := sys.activations.used + {a.authorityId}),
              effects := sys.effects[effectId := EffectOf(q.candidate, a, q.effect)]),
         Answered(Allowed(q.requestId, a.authorityId, effectId)))
  }

  /** The locked section as one step, whatever it finds on entry. */
  function LockedStep(sys: System, requestId: string, c: Candidate, a: Authority, e: ProposedEffect,
                      applied: Option<string>): (System, Outcome) {
    var id := a.authorityId;
    if id in sys.activations.used then (sys, Answered(Denial(requestId, UsedUnderLock, Some(id))))
    else if id !in sys.activations.records then (sys, Answered(Denial(requestId, NotConsumed, Some(id))))
    else
      match applied
      case None => (sys, NetworkRaised)
      case Some(effectId) =>
        (sys.(activations := sys.activations.(used := sys.activations.used + {id}),
              effects := sys.effects[effectId := EffectOf(c, a, e)]),
         Answered(Allowed(requestId, id, effectId)))
  }

  lemma LockedDenials(requestId: string, id: Option<string>)
    ensures Denial(requestId, UsedUnderLock, id) == Deny(requestId, UsedUnderLock, Report(17), id)
    ensures Denial(requestId, NotConsumed, id) == Deny(requestId, NotConsumed, Report(17), id)
  {
    hide Report, Code, ReasonOf;
  }

  /** After the whole ladder has passed and nothing has moved since, the locked section finds the
      authority registered and unused: neither of its two denials is given. */
  lemma LockedAfterLadder(cfg: Config, sys: System, q: Presentation, applied: Option<string>)
    requires Ladder(cfg, sys, q).None?
    ensures q.authority.value.authorityId in sys.activations.records
    ensures q.authority.value.authorityId !in sys.activations.used
    ensures LockedStep(sys, q.requestId, q.candidate, q.authority.value, q.effect, applied)
            == SinkStep(cfg, sys, q, applied)
  {
    hide CheckEnvelope, CheckEvidence, CheckActivation, CheckSink, CheckState, CheckScope, Denial, Allowed, EffectOf;
  }

  /** Every reply that denies reports exactly the checks passed before the rung that denied, and every
      reply that allows reports all seventeen, consumption among them. */
  lemma ReplyReports(cfg: Config, sys: System, q: Presentation, applied: Option<string>)
    ensures var ladder, outcome := Ladder(cfg, sys, q), SinkStep(cfg, sys, q, applied).1;
            && (ladder.Some? ==>
                  outcome.Answered? && !outcome.response.allow && outcome.response.code == Code(ReasonOf(ladder.value))
                  && (forall check: Check ::
                      check in outcome.response.verification <==> Position(check) < Passed(ladder.value))
                  && (forall check: Check :: check in outcome.response.verification ==>
                        outcome.response.verification[check] == Label(Position(check)).1))
            && (ladder.None? && applied.Some? ==>
                  outcome.Answered? && outcome.response.allow
                  && (forall check: Check :: check in outcome.response.verification
                        && outcome.response.verification[check]
                           == if check == Check.ConsumptionState then CONSUMED else Label(Position(check)).1))
            && (ladder.None? && applied.None? ==> outcome == NetworkRaised)
  {
    hide Ladder, Report, Label, Position, Code, ReasonOf, EffectOf;
    forall r: Rung ensures Passed(r) <= 17 {
    }
    ReportCovers(17);
    if Ladder(cfg, sys, q).Some? {
      ReportCovers(Passed(Ladder(cfg, sys, q).value));
    }
  }

  lemma RungReasons1()
    ensures ReasonOf(NoAuthority) == NO_FINALITY_AUTHORITY
    ensures ReasonOf(UnknownKey) == INVALID_AUTHORITY
    ensures ReasonOf(BadSignature) == INVALID_AUTHORITY
    ensures ReasonOf(AuthorityExpired) == STALE_AUTHORITY
    ensures ReasonOf(CandidateMismatch) == ACT_MISMATCH
    ensures ReasonOf(EvidenceMismatch) == EVIDENCE_MISSING
  {
  }

  lemma RungReasons2()
    ensures ReasonOf(ActivationAbsent) == ACTIVATION_MISSING
    ensures ReasonOf(ActivationExpired) == STALE_AUTHORITY
    ensures ReasonOf(ActivationSinkMismatch) == SINK_MISMATCH
    ensures ReasonOf(ActivationDigestMismatch) == PROTECTED_STATE_MISMATCH
    ensures ReasonOf(CommitmentMismatch) == PROTECTED_STATE_MISMATCH
    ensures ReasonOf(AlreadyUsed) == AUTHORITY_ALREADY_USED
  {
  }

  lemma RungReasons3()
    ensures ReasonOf(SinkIdMismatch) == SINK_MISMATCH
    ensures ReasonOf(BoundaryMismatch) == EFFECTUATION_BOUNDARY_MISMATCH
    ensures ReasonOf(StateReferenceMismatch) == PROTECTED_STATE_MISMATCH
    ensures ReasonOf(TopologyChanged) == NETWORK_STATE_MISMATCH
    ensures ReasonOf(ConfigurationChanged) == NETWORK_STATE_MISMATCH
    ensures ReasonOf(PolicyEpochChanged) == POLICY_EPOCH_MISMATCH
  {
  }

  lemma RungReasons4()
    ensures ReasonOf(AuthorityEpochChanged) == PROTECTED_STATE_MISMATCH
    ensures ReasonOf(RevocationEpochChanged) == REVOCATION_STATE_MISMATCH
    ensures ReasonOf(NonceMismatch) == NONCE_FAILURE
    ensures ReasonOf(SequenceMismatch) == NONCE_FAILURE
    ensures ReasonOf(ActTypeMismatch) == CONSEQUENCE_CLASS_MISMATCH
    ensures ReasonOf(ResourceTypeMismatch) == SCOPE_MISMATCH
  {
  }

  lemma RungReasons5()
    ensures ReasonOf(ResourceIdsMismatch) == SCOPE_MISMATCH
    ensures ReasonOf(SubscriberScopeMismatch) == SCOPE_MISMATCH
    ensures ReasonOf(PurposeMismatch) == PURPOSE_MISMATCH
    ensures ReasonOf(JurisdictionMismatch) == JURISDICTION_MISMATCH
    ensures ReasonOf(EffectTypeMismatch) == CONSEQUENCE_CLASS_MISMATCH
    ensures ReasonOf(ParametersInconsistent) == DESCRIPTOR_MISMATCH
  {
  }

  lemma RungReasons6()
    ensures ReasonOf(ParametersMismatch) == ACT_MISMATCH
    ensures ReasonOf(DurationExceeded) == SCOPE_MISMATCH
    ensures ReasonOf(UsedUnderLock) == AUTHORITY_ALREADY_USED
    ensures ReasonOf(NotConsumed) == AUTHORITY_ALREADY_USED
  {
  }

  lemma SomeCodes()
    ensures Code(ACTIVATION_MISSING) == "EF-080"
    ensures Code(ACT_MISMATCH) == "EF-010"
    ensures Code(AUTHORITY_ALREADY_USED) == "EF-005"
    ensures Code(CONSEQUENCE_CLASS_MISMATCH) == "EF-014"
    ensures Code(DESCRIPTOR_MISMATCH) == "EF-011"
    ensures Code(EFFECTUATION_BOUNDARY_MISMATCH) == "EF-041"
    ensures Code(EVIDENCE_MISSING) == "EF-080"
    ensures Code(INVALID_AUTHORITY) == "EF-003"
    ensures Code(JURISDICTION_MISMATCH) == "EF-021"
  {
  }

  lemma OtherCodes()
    ensures Code(NETWORK_STATE_MISMATCH) == "EF-033"
    ensures Code(NONCE_FAILURE) == "EF-007"
    ensures Code(NO_FINALITY_AUTHORITY) == "EF-002"
    ensures Code(POLICY_EPOCH_MISMATCH) == "EF-030"
    ensures Code(PROTECTED_STATE_MISMATCH) == "EF-032"
    ensures Code(PURPOSE_MISMATCH) == "EF-013"
    ensures Code(REVOCATION_STATE_MISMATCH) == "EF-031"
    ensures Code(SCOPE_MISMATCH) == "EF-012"
    ensures Code(SINK_MISMATCH) == "EF-040"
    ensures Code(STALE_AUTHORITY) == "EF-004"
  {
  }

  /** The code of every denial, as the sink's reasons and the table of codes give it. */
  lemma RungCodes()
    ensures Code(ReasonOf(NoAuthority)) == "EF-002"
    ensures Code(ReasonOf(UnknownKey)) == Code(ReasonOf(BadSignature)) == "EF-003"
    ensures Code(ReasonOf(AuthorityExpired)) == Code(ReasonOf(ActivationExpired)) == "EF-004"
    ensures Code(ReasonOf(AlreadyUsed)) == Code(ReasonOf(UsedUnderLock)) == Code(ReasonOf(NotConsumed)) == "EF-005"
    ensures Code(ReasonOf(NonceMismatch)) == Code(ReasonOf(SequenceMismatch)) == "EF-007"
    ensures Code(ReasonOf(CandidateMismatch)) == Code(ReasonOf(ParametersMismatch)) == "EF-010"
    ensures Code(ReasonOf(ParametersInconsistent)) == "EF-011"
    ensures Code(ReasonOf(ResourceTypeMismatch)) == Code(ReasonOf(ResourceIdsMismatch)) == "EF-012"
    ensures Code(ReasonOf(SubscriberScopeMismatch)) == Code(ReasonOf(DurationExceeded)) == "EF-012"
    ensures Code(ReasonOf(PurposeMismatch)) == "EF-013"
    ensures Code(ReasonOf(ActTypeMismatch)) == Code(ReasonOf(EffectTypeMismatch)) == "EF-014"
    ensures Code(ReasonOf(JurisdictionMismatch)) == "EF-021"
    ensures Code(ReasonOf(PolicyEpochChanged)) == "EF-030" && Code(ReasonOf(RevocationEpochChanged)) == "EF-031"
    ensures Code(ReasonOf(ActivationDigestMismatch)) == Code(ReasonOf(CommitmentMismatch)) == "EF-032"
    ensures Code(ReasonOf(StateReferenceMismatch)) == Code(ReasonOf(AuthorityEpochChanged)) == "EF-032"
    ensures Code(ReasonOf(TopologyChanged)) == Code(ReasonOf(ConfigurationChanged)) == "EF-033"
    ensures Code(ReasonOf(ActivationSinkMismatch)) == Code(ReasonOf(SinkIdMismatch)) == "EF-040"
    ensures Code(ReasonOf(BoundaryMismatch)) == "EF-041"
    ensures Code(ReasonOf(EvidenceMismatch)) == Code(ReasonOf(ActivationAbsent)) == "EF-080"
  {
    hide Code, ReasonOf;
    RungReasons1();
    RungReasons2();
    RungReasons3();
    RungReasons4();
    RungReasons5();
    RungReasons6();
    SomeCodes();
    OtherCodes();
  }

  /** The effect carries what was presented, field by field. */
  predicate Carries(effect: NetEffect, q: Presentation) {
    && q.authority.Some? && effect.authorityId == q.authority.value.authorityId
    && effect.candidateActId == q.candidate.candidateActId
    && effect.effectType == q.effect.effectType && effect.resourceType == q.effect.resourceType
    && effect.resourceIds == q.effect.resourceIds && effect.parameters == q.effect.parameters
    && effect.durationSeconds == q.effect.durationSeconds
  }

  lemma EffectCarries(q: Presentation)
    requires q.authority.Some?
    ensures Carries(EffectOf(q.candidate, q.authority.value, q.effect), q)
  {
  }

  /** What a reply says besides its report, and what it goes with: a denial or an exception changes nothing;
      an ALLOW consumes the authority and puts one effect on the network, which carries what was presented. */
  lemma ReplySays(cfg: Config, sys: System, q: Presentation, applied: Option<string>)
    ensures var (after, outcome) := SinkStep(cfg, sys, q, applied);
            if outcome.Answered? && outcome.response.allow then
              && applied.Some? && q.authority.Some?
              && var r, id := outcome.response, q.authority.value.authorityId;
                 && r.requestId == q.requestId && r.code == "OK" && r.authorityId == Some(id)
                 && r.consumed && r.permitted && r.effectId == applied
                 && after.activations.used == sys.activations.used + {id}
                 && after.activations.records == sys.activations.records
                 && after.net == sys.net && after.nonces == sys.nonces && after.evidence == sys.evidence
                 && applied.value in after.effects && Carries(after.effects[applied.value], q)
                 && after.effects == sys.effects[applied.value := after.effects[applied.value]]
            else
              && after == sys
              && (outcome.Answered? ==>
                    && outcome.response.requestId == q.requestId && outcome.response.authorityId ==
                       (if q.authority.Some? then Some(q.authority.value.authorityId) else None)
                    && !outcome.response.consumed && !outcome.response.permitted && outcome.response.effectId == None)
  {
    hide Ladder, Report, Passed, Code, ReasonOf, EffectOf;
    if q.authority.Some? { EffectCarries(q); }
  }

  class NetworkFinalitySink {
    const cfg: Config
    const sink: SinkIdentity
    const state: ProtectedNetworkState
    const evidenceStore: InMemoryEvidenceStore
    const activationStore: InMemoryActivationStore
    const network: DemoNetwork

    constructor (cfg: Config, sink: SinkIdentity, state: ProtectedNetworkState, evidenceStore: InMemoryEvidenceStore,
                 activationStore: InMemoryActivationStore, network: DemoNetwork)
      ensures this.cfg == cfg && this.sink == sink && this.state == state && this.evidenceStore == evidenceStore
      ensures this.activationStore == activationStore && this.network == network
    {
      this.cfg := cfg;
      this.sink := sink;
      this.state := state;
      this.evidenceStore := evidenceStore;
      this.activationStore := activationStore;
      this.network := network;
    }

    /** What this object sees of the system, next to the given nonces. */
    function View(nonces: set<string>): System
      reads state, evidenceStore, activationStore, network
    {
      System(state.Reading(), nonces, evidenceStore.State(), activationStore.State(), network.effects)
    }

    method VerifyAndEffectuate(requestId: string, candidate: Candidate, authority: Option<Authority>,
                               effect: ProposedEffect, now: int, applied: Option<string>) returns (outcome: Outcome)
      modifies activationStore, network
      ensures forall nonces ::
        (View(nonces), outcome)
        == SinkStep(cfg, old(View(nonces)), Presentation(sink, requestId, candidate, authority, effect, now), applied)
    {
      hide CheckEnvelope, CheckEvidence, CheckActivation, CheckSink, CheckState, CheckScope, Code, ReasonOf, Report,
           Passed;
      PassedEnvelope();
      EmptyReport();
      if authority == None {
        return Answered(Deny(requestId, NoAuthority, map[], None));
      }
      var a := authority.value;
      var id := Some(a.authorityId);
      var checks, denied := VerifyEnvelope(candidate, a, now);
      if denied != None {
        return Answered(Deny(requestId, denied.value, checks, id));
      }
      var activation;
      checks, denied, activation := VerifyStores(candidate, a, now, checks);
      if denied != None {
        return Answered(Deny(requestId, denied.value, checks, id));
      }
      checks, denied := VerifyBinding(candidate, a, checks);
      if denied != None {
        return Answered(Deny(requestId, denied.value, checks, id));
      }
      checks, denied := VerifyScope(candidate, a, activation.value, effect, checks);
      if denied != None {
        return Answered(Deny(requestId, denied.value, checks, id));
      }
      outcome := Effectuate(requestId, candidate, a, effect, checks, applied);
    }

    /** Key, signature, expiry and candidate binding. */
    method VerifyEnvelope(candidate: Candidate, a: Authority, now: int)
      returns (checks: map<Check, Status>, denied: Option<Rung>)
      ensures denied == CheckEnvelope(cfg, candidate, a, now)
      ensures checks == Report(if denied == None then 2 else Passed(denied.value))
    {
      hide CandidateDigest, AuthorityDigest, UnsignedPayload, DigestOf, Verify, BoundaryId, Report, Passed;
      PassedEnvelope();
      EmptyReport();
      checks := map[];
      if a.issuer.keyId != cfg.keyId || a.issuer.algorithm != cfg.algorithm {
        return checks, Some(UnknownKey);
      }
      if !Verify(cfg.p, UnsignedPayload(cfg.p, a), a.issuer.signature) {
        return checks, Some(BadSignature);
      }
      checks := checks[Check.AuthoritySignature := VALID];
      Fill(0, Check.AuthoritySignature, VALID);

      if now >= a.lifetime.expiresAt {
        return checks, Some(AuthorityExpired);
      }
      if CandidateDigest(cfg.p, candidate) != a.binding.candidateActDigest.value
        || candidate.candidateActId != a.candidateActId {
        return checks, Some(CandidateMismatch);
      }
      checks := checks[Check.CandidateActBinding := MATCH];
      Fill(1, Check.CandidateActBinding, MATCH);
      denied := None;
    }

    /** Evidence, activation and consumption state, each read from its store. */
    method VerifyStores(candidate: Candidate, a: Authority, now: int, checks0: map<Check, Status>)
      returns (checks: map<Check, Status>, denied: Option<Rung>, found: Option<ActivationRecord>)
      requires checks0 == Report(2)
      ensures denied == StoreLadder(cfg, evidenceStore.State(), activationStore.State(), sink.sinkId, candidate, a, now)
      ensures checks == Report(if denied == None then 5 else Passed(denied.value))
      ensures denied == None ==>
        a.authorityId in activationStore.records && found == Some(activationStore.records[a.authorityId])
    {
      hide CandidateDigest, AuthorityDigest, UnsignedPayload, DigestOf, Verify, BoundaryId, Report, Passed;
      PassedStores();
      checks := checks0;
      found := None;
      var evidence := evidenceStore.Find(a.binding.evidenceId);
      if evidence == None || evidence.value.digest != a.binding.evidenceDigest.value
         || evidence.value.entry.decision != "ALLOW"
         || evidence.value.entry.candidateActId != candidate.candidateActId
         || evidence.value.entry.decisionId != a.decisionId {
        return checks, Some(EvidenceMismatch), found;
      }
      checks := checks[Check.EvidenceBinding := MATCH];
      Fill(2, Check.EvidenceBinding, MATCH);

      found := activationStore.Get(a.authorityId);
      if found == None {
        return checks, Some(ActivationAbsent), found;
      }
      var activation := found.value;
      if now >= activation.expiresAt {
        return checks, Some(ActivationExpired), found;
      }
      if activation.sinkId != sink.sinkId {
        return checks, Some(ActivationSinkMismatch), found;
      }
      if activation.authorityDigest != AuthorityDigest(cfg.p, a)
        || activation.candidateDigest != CandidateDigest(cfg.p, candidate) {
        return checks, Some(ActivationDigestMismatch), found;
      }
      if activation.activationCommitment != a.binding.activationCommitment {
        return checks, Some(CommitmentMismatch), found;
      }
      checks := checks[Check.ActivationBinding := MATCH];
      Fill(3, Check.ActivationBinding, MATCH);

      var used := activationStore.IsUsed(a.authorityId);
      if used {
        return checks, Some(AlreadyUsed), found;
      }
      checks := checks[Check.ConsumptionState := UNUSED];
      Fill(4, Check.ConsumptionState, UNUSED);
      denied := None;
    }

    /** Sink, boundary, state reference and the five epochs. */
    method VerifyBinding(candidate: Candidate, a: Authority, checks0: map<Check, Status>)
      returns (checks: map<Check, Status>, denied: Option<Rung>)
      requires checks0 == Report(5)
      ensures denied == First(CheckSink(sink, candidate, a), CheckState(a, state.protectedStateReference, state.epochs))
      ensures checks == Report(if denied == None then 11 else Passed(denied.value))
    {
      hide CandidateDigest, AuthorityDigest, UnsignedPayload, DigestOf, Verify, BoundaryId, Report, Passed;
      PassedBinding();
      checks := checks0;
      if a.binding.finalitySinkId != sink.sinkId || candidate.finalitySink.sinkId != sink.sinkId {
        return checks, Some(SinkIdMismatch);
      }
      var expectedBoundary := BoundaryId(sink.sinkType, sink.sinkId);
      if a.binding.effectuationBoundaryId != expectedBoundary || candidate.finalitySink.sinkType != sink.sinkType {
        return checks, Some(BoundaryMismatch);
      }
      checks := checks[Check.SinkBinding := MATCH];
      Fill(5, Check.SinkBinding, MATCH);

      if a.binding.protectedStateReference != state.protectedStateReference {
        return checks, Some(StateReferenceMismatch);
      }
      if a.binding.epochs.topology != state.epochs.topology {
        return checks, Some(TopologyChanged);
      }
      checks := checks[Check.TopologyEpoch := CURRENT];
      Fill(6, Check.TopologyEpoch, CURRENT);
      if a.binding.epochs.configuration != state.epochs.configuration {
        return checks, Some(ConfigurationChanged);
      }
      checks := checks[Check.ConfigurationEpoch := CURRENT];
      Fill(7, Check.ConfigurationEpoch, CURRENT);
      if a.binding.epochs.policy != state.epochs.policy {
        return checks, Some(PolicyEpochChanged);
      }
      checks := checks[Check.PolicyEpoch := CURRENT];
      Fill(8, Check.PolicyEpoch, CURRENT);
      if a.binding.epochs.authority != state.epochs.authority {
        return checks, Some(AuthorityEpochChanged);
      }
      checks := checks[Check.AuthorityEpoch := CURRENT];
      Fill(9, Check.AuthorityEpoch, CURRENT);
      if a.binding.epochs.revocation != state.epochs.revocation {
        return checks, Some(RevocationEpochChanged);
      }
      checks := checks[Check.RevocationEpoch := CURRENT];
      Fill(10, Check.RevocationEpoch, CURRENT);
      denied := None;
    }

    /** The part of the ladder that compares the presentation with the authority's scope. */
    method VerifyScope(candidate: Candidate, a: Authority, activation: ActivationRecord, effect: ProposedEffect,
                       checks0: map<Check, Status>) returns (checks: map<Check, Status>, denied: Option<Rung>)
      requires checks0 == Report(11)
      ensures denied == CheckScope(cfg, candidate, a, activation, effect)
      ensures checks == Report(if denied == None then 17 else Passed(denied.value))
    {
      hide DigestOf, Report, Elements, Passed;
      PassedScope();
      PassedEffect();
      checks := checks0;
      if a.binding.nonce != candidate.freshness.nonce || activation.nonce != candidate.freshness.nonce {
        return checks, Some(NonceMismatch);
      }
      checks := checks[Check.Nonce := FRESH];
      Fill(11, Check.Nonce, FRESH);
      if a.binding.sequence != candidate.freshness.sequence {
        return checks, Some(SequenceMismatch);
      }
      checks := checks[Check.Sequence := MATCH];
      Fill(12, Check.Sequence, MATCH);

      if a.scope.actType != candidate.actType {
        return checks, Some(ActTypeMismatch);
      }
      if a.scope.resourceType != effect.resourceType {
        return checks, Some(ResourceTypeMismatch);
      }
      if Elements(effect.resourceIds) != Elements(a.scope.resourceIds) {
        return checks, Some(ResourceIdsMismatch);
      }
      checks := checks[Check.ResourceScope := MATCH];
      Fill(13, Check.ResourceScope, MATCH);
      if a.scope.subscriberScope != candidate.resourceScope.subscriberScope {
        return checks, Some(SubscriberScopeMismatch);
      }
      checks := checks[Check.SubscriberScope := MATCH];
      Fill(14, Check.SubscriberScope, MATCH);
      if a.scope.purposeId != candidate.purpose.purposeId {
        return checks, Some(PurposeMismatch);
      }
      checks := checks[Check.Purpose := MATCH];
      Fill(15, Check.Purpose, MATCH);
      if a.scope.jurisdiction != candidate.networkContext.jurisdiction {
        return checks, Some(JurisdictionMismatch);
      }
      if effect.effectType != a.scope.permittedEffectType {
        return checks, Some(EffectTypeMismatch);
      }

      var actual := DigestOf(cfg.p, effect.parameters, effect.parametersDigest.algorithm);
      if actual != effect.parametersDigest.value {
        return checks, Some(ParametersInconsistent);
      }
      if effect.parametersDigest.value != a.scope.parametersDigest {
        return checks, Some(ParametersMismatch);
      }
      checks := checks[Check.EffectParameters := MATCH];
      Fill(16, Check.EffectParameters, MATCH);

      var maxDuration := a.scope.durationSecondsMax;
      if maxDuration != None && effect.durationSeconds != None && effect.durationSeconds.value > maxDuration.value {
        return checks, Some(DurationExceeded);
      }
      denied := None;
    }

    /** Under the locks: check again, consume, apply, and give the authority back if the network raises. */
    method Effectuate(requestId: string, candidate: Candidate, a: Authority, effect: ProposedEffect,
                      checks: map<Check, Status>, applied: Option<string>) returns (outcome: Outcome)
      requires checks == Report(17)
      modifies activationStore, network
      ensures forall nonces ::
        (View(nonces), outcome) == LockedStep(old(View(nonces)), requestId, candidate, a, effect, applied)
    {
      hide Report, Code, ReasonOf, Denial, Deny, Passed, EffectOf;
      LockedDenials(requestId, Some(a.authorityId));
      var id := Some(a.authorityId);
      var used := activationStore.IsUsed(a.authorityId);
      if used {
        return Answered(Deny(requestId, UsedUnderLock, checks, id));
      }
      var consumed := activationStore.Consume(a.authorityId);
      if !consumed {
        return Answered(Deny(requestId, NotConsumed, checks, id));
      }
      if applied == None {
        activationStore.Unconsume(a.authorityId);
        assert activationStore.used == old(activationStore.used);
        return NetworkRaised;
      }
      network.Apply(EffectOf(candidate, a, effect), applied.value);
      outcome := Answered(Response(requestId, true, "OK", checks[Check.ConsumptionState := CONSUMED], id, true, true,
                                   applied));
    }
  }
}
