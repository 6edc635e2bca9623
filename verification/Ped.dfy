/** The protected enforcement domain: validate, reserve the nonce, commit evidence, sign an
    authority and install its activation at the sink. */
module Ped {
  import opened Wrappers
  import opened Canonical
  import opened Crypto
  import opened Models
  import opened Evidence
  import opened State
  import opened Policy
  import opened SystemState
  import Base64Url

  function Min(a: int, b: int): int { if a < b then a else b }

  function Max(a: int, b: int): int { if a < b then b else a }

  function DecisionText(allow: bool): string { if allow then "ALLOW" else "DENY" }

  function BoundaryId(sinkType: string, sinkId: string): string {
    "boundary:" + sinkType + ":" + sinkId
  }

  function Commitment(p: Primitives, secret: seq<byte>): string {
    Base64Url.Encode(p.hash(SHA256, secret))
  }

  function ExpiryOf(policy: PolicyConfig, c: Candidate, now: int): int {
    now + Min(policy.authorityTtl, Max(0, c.expiresAt - now))
  }

  /** Policy first; the nonce is looked at only when policy passes. */
  function DenialOf(cfg: Config, sys: System, c: Candidate, now: int): Option<Reason> {
    var denial := Validate(cfg.policy, sys.net, c, now);
    if denial.None? && c.freshness.nonce in sys.nonces then Some(REPLAY_DETECTED) else denial
  }

  function DecisionOf(net: NetState, c: Candidate, denial: Option<Reason>, ids: Ids): Decision {
    Decision(ids.decisionId, c.candidateActId, denial.None?, net.epochs.topology, net.epochs.configuration,
             net.protectedStateReference, net.monotonicCounter + 1, Some(ids.evidenceId),
             if denial.None? then None else Some(Code(denial.value)))
  }

  function EntryOf(net: NetState, c: Candidate, allow: bool, now: int, ids: Ids): Entry {
    Entry(ids.evidenceId, c.candidateActId, ids.decisionId, DecisionText(allow), net.protectedStateReference,
          net.monotonicCounter + 1, now)
  }

  /** The authority before it is signed. */
  function DraftAuthority(cfg: Config, net: NetState, c: Candidate, evidence: EvidenceRecord, now: int,
                          ids: Ids): Authority {
    Authority(ids.authorityId, c.candidateActId, ids.decisionId,
      AuthorityScope(c.actType, c.resourceScope.resourceType, c.resourceScope.resourceIds,
                     c.resourceScope.subscriberScope,
        c.requestedEffect.effectType, c.requestedEffect.parametersDigest.value, c.requestedEffect.durationSeconds,
        c.networkContext.networkDomain, c.networkContext.jurisdiction, c.purpose.purposeId),
      AuthorityBinding(Digest(SHA256, CandidateDigest(cfg.p, c)), evidence.entry.evidenceId,
                       Digest(SHA256, evidence.digest),
        net.protectedStateReference, net.epochs, c.freshness.nonce, c.freshness.sequence, c.finalitySink.sinkId,
        BoundaryId(c.finalitySink.sinkType, c.finalitySink.sinkId), Commitment(cfg.p, ids.secret)),
      AuthorityLifetime(now, ExpiryOf(cfg.policy, c, now), true),
      AuthorityIssuer(cfg.pedId, cfg.keyId, cfg.algorithm, ""))
  }

  function ActivationOf(cfg: Config, c: Candidate, a: Authority): ActivationRecord {
    ActivationRecord(a.authorityId, AuthorityDigest(cfg.p, a), CandidateDigest(cfg.p, c), c.finalitySink.sinkId,
      c.freshness.nonce, a.binding.activationCommitment, a.lifetime.expiresAt, false)
  }

  /** The state after evidence is committed, which every call reaches. */
  function AfterEvidence(cfg: Config, sys: System, c: Candidate, now: int, ids: Ids): System {
    var allowedByPolicy := Validate(cfg.policy, sys.net, c, now).None?;
    var allow := DenialOf(cfg, sys, c, now).None?;
    sys.(nonces := if allowedByPolicy then sys.nonces + {c.freshness.nonce} else sys.nonces,
         net := sys.net.(monotonicCounter := sys.net.monotonicCounter + 1),
         evidence := Commit(cfg.p, sys.evidence, EntryOf(sys.net, c, allow, now, ids)))
  }

  function IssuedAuthority(cfg: Config, sys: System, c: Candidate, now: int, ids: Ids): Authority {
    var record := NewRecord(cfg.p, sys.evidence.tail, EntryOf(sys.net, c, true, now, ids));
    Signed(cfg.p, DraftAuthority(cfg, sys.net, c, record, now, ids))
  }

  /** `validate_and_issue` as one step. */
  function PedStep(cfg: Config, sys: System, c: Candidate, now: int, ids: Ids): (System, PedResult) {
    var denial := DenialOf(cfg, sys, c, now);
    var decision := DecisionOf(sys.net, c, denial, ids);
    var after := AfterEvidence(cfg, sys, c, now, ids);
    if denial.Some? then (after, Denied(decision))
    else
      var a := IssuedAuthority(cfg, sys, c, now, ids);
      var (activations, answer) := MemStep(sys.activations, Op.Put(ActivationOf(cfg, c, a)));
      if answer == Stored(true) then (after.(activations := activations), Issued(decision, a)) else (after, Raised)
  }

  predicate Recorded(evidence: EvidenceState, evidenceId: string, decision: string) {
    evidenceId in evidence.records && evidence.records[evidenceId].entry.decision == decision
  }

  /** An authority comes out exactly for a permitted candidate, a nonce not seen before and an id that
      is not taken; a nonce is reserved, and ALLOW recorded, exactly for the first two. */
  lemma IssuesIff(cfg: Config, sys: System, c: Candidate, now: int, ids: Ids)
    ensures var allowed := Permitted(cfg.policy, sys.net, c, now) && c.freshness.nonce !in sys.nonces;
            var (after, result) := PedStep(cfg, sys, c, now, ids);
            && (result.Issued? <==> allowed && ids.authorityId !in sys.activations.records)
            && (result.Denied? <==> !allowed)
            && (|after.nonces| == |sys.nonces| + 1 <==> allowed)
            && Recorded(after.evidence, ids.evidenceId, DecisionText(allowed))
  {
    hide Validate, Permitted, Sign, UnsignedPayload, CandidateDigest, AuthorityDigest, Commitment, EntryDigest,
         BoundaryId, ExpiryOf;
    DeniesIffNotPermitted(cfg.policy, sys.net, c, now);
    if c.freshness.nonce in sys.nonces {
      assert sys.nonces + {c.freshness.nonce} == sys.nonces;
    }
  }

  // ---- what a call answers and issues, field by field ----

  /** The decision names the call and the state it was made in. */
  predicate DecidedIn(sys: System, c: Candidate, ids: Ids, d: Decision) {
    && d.decisionId == ids.decisionId && d.candidateActId == c.candidateActId && d.evidenceId == Some(ids.evidenceId)
    && d.topologyEpoch == sys.net.epochs.topology && d.configurationEpoch == sys.net.epochs.configuration
    && d.stateReference == sys.net.protectedStateReference && d.monotonicCounter == sys.net.monotonicCounter + 1
    && (d.allow <==> d.denialCode == None)
  }

  /** Every answer carries such a decision: it allows exactly when an authority comes with it, and a denial
      carries the code of the first failing check of policy, or EF-006 exactly for a permitted candidate
      whose nonce was seen. */
  lemma AnswerIs(cfg: Config, sys: System, c: Candidate, now: int, ids: Ids, check: nat)
    ensures var r, permitted := PedStep(cfg, sys, c, now, ids).1, Permitted(cfg.policy, sys.net, c, now);
            && (r.Issued? ==> DecidedIn(sys, c, ids, r.decision) && r.decision.allow)
            && (r.Denied? ==> DecidedIn(sys, c, ids, r.decision) && !r.decision.allow)
            && (FirstFailing(cfg.policy, sys.net, c, now, check) ==>
                  r.Denied? && r.decision.denialCode == Some(Given(check).1))
            && (r.Denied? && permitted ==> c.freshness.nonce in sys.nonces && r.decision.denialCode == Some("EF-006"))
            && (permitted && c.freshness.nonce in sys.nonces ==> r.Denied?)
  {
    hide Validate, Permitted, FirstFailing, Signed, DraftAuthority, NewRecord, ActivationOf, Commit;
    DeniesIffNotPermitted(cfg.policy, sys.net, c, now);
    if FirstFailing(cfg.policy, sys.net, c, now, check) {
      DeniesWithFirst(cfg.policy, sys.net, c, now, check);
    }
  }

  /** The record committed for every call. */
  lemma RecordIs(cfg: Config, sys: System, c: Candidate, now: int, ids: Ids)
    ensures var (after, r) := PedStep(cfg, sys, c, now, ids);
            && ids.evidenceId in after.evidence.records
            && var record := after.evidence.records[ids.evidenceId];
               && record.entry
                  == Entry(ids.evidenceId, c.candidateActId, ids.decisionId, if r.Denied? then "DENY" else "ALLOW",
                                        sys.net.protectedStateReference, sys.net.monotonicCounter + 1, now)
               && record.previousDigest == sys.evidence.tail && after.evidence.tail == record.digest
               && record.digest == EntryDigest(cfg.p, record.entry, record.previousDigest)
  {
    hide Validate, Signed, DraftAuthority, ActivationOf, EntryDigest;
  }

  /** The scope is what the candidate asks for. */
  predicate ScopeAsked(c: Candidate, s: AuthorityScope) {
    && s.actType == c.actType && s.resourceType == c.resourceScope.resourceType
    && s.resourceIds == c.resourceScope.resourceIds && s.subscriberScope == c.resourceScope.subscriberScope
    && s.permittedEffectType == c.requestedEffect.effectType
    && s.parametersDigest == c.requestedEffect.parametersDigest.value
    && s.durationSecondsMax == c.requestedEffect.durationSeconds
    && s.networkDomain == c.networkContext.networkDomain && s.jurisdiction == c.networkContext.jurisdiction
    && s.purposeId == c.purpose.purposeId
  }

  /** The binding names the candidate and the record by their SHA-256 digests, the state by reference and
      epochs, the freshness, the sink and its boundary, and the hash of the secret. */
  predicate BoundTo(p: Primitives, c: Candidate, net: NetState, record: EvidenceRecord, secret: seq<byte>,
                    b: AuthorityBinding) {
    && b.candidateActDigest == Digest(SHA256, CandidateDigest(p, c))
    && b.evidenceId == record.entry.evidenceId && b.evidenceDigest == Digest(SHA256, record.digest)
    && b.protectedStateReference == net.protectedStateReference && b.epochs == net.epochs
    && b.nonce == c.freshness.nonce && b.sequence == c.freshness.sequence && b.finalitySinkId == c.finalitySink.sinkId
    && b.effectuationBoundaryId == "boundary:" + c.finalitySink.sinkType + ":" + c.finalitySink.sinkId
    && Base64Url.Decode(b.activationCommitment) == Some(p.hash(SHA256, secret))
    && Base64Url.CanonicalText(b.activationCommitment)
  }

  /** Issued now, single use, and expiring at the earlier of the authority lifetime and the candidate. */
  predicate LivesFrom(policy: PolicyConfig, c: Candidate, now: int, l: AuthorityLifetime) {
    && l.issuedAt == now && l.singleUse
    && l.expiresAt <= now + policy.authorityTtl && l.expiresAt <= c.expiresAt
    && (l.expiresAt == now + policy.authorityTtl || l.expiresAt == c.expiresAt)
  }

  lemma ExpiryIs(policy: PolicyConfig, c: Candidate, now: int)
    requires now < c.expiresAt
    ensures ExpiryOf(policy, c, now) <= now + policy.authorityTtl && ExpiryOf(policy, c, now) <= c.expiresAt
    ensures ExpiryOf(policy, c, now) == now + policy.authorityTtl || ExpiryOf(policy, c, now) == c.expiresAt
  {
  }

  /** The authority over this record, field by field. */
  predicate AuthorityFor(cfg: Config, c: Candidate, net: NetState, record: EvidenceRecord, now: int, ids: Ids,
                         a: Authority) {
    && a.authorityId == ids.authorityId && a.candidateActId == c.candidateActId && a.decisionId == ids.decisionId
    && ScopeAsked(c, a.scope) && BoundTo(cfg.p, c, net, record, ids.secret, a.binding)
    && LivesFrom(cfg.policy, c, now, a.lifetime)
    && a.issuer.pedId == cfg.pedId && a.issuer.keyId == cfg.keyId && a.issuer.algorithm == cfg.algorithm
    && a.issuer.signature == Sign(cfg.p, UnsignedPayload(cfg.p, a))
  }

  /** The activation record that goes with it. */
  predicate ActivationFor(cfg: Config, c: Candidate, a: Authority, r: ActivationRecord) {
    && r.authorityId == a.authorityId && r.authorityDigest == AuthorityDigest(cfg.p, a)
    && r.candidateDigest == CandidateDigest(cfg.p, c) && r.sinkId == c.finalitySink.sinkId
    && r.nonce == c.freshness.nonce && r.activationCommitment == a.binding.activationCommitment
    && r.expiresAt == a.lifetime.expiresAt && !r.used
  }

  lemma SignedIs(cfg: Config, c: Candidate, net: NetState, record: EvidenceRecord, now: int, ids: Ids)
    requires now < c.expiresAt
    ensures AuthorityFor(cfg, c, net, record, now, ids, Signed(cfg.p, DraftAuthority(cfg, net, c, record, now, ids)))
  {
    hide Sign, CandidateDigest, AuthorityValue, CanonicalBytes, ExpiryOf, Base64Url.Decode, Base64Url.CanonicalText;
    var draft := DraftAuthority(cfg, net, c, record, now, ids);
    assert WithSignature(Signed(cfg.p, draft), "") == WithSignature(draft, "");
    ExpiryIs(cfg.policy, c, now);
    Base64Url.RoundTrip(cfg.p.hash(SHA256, ids.secret));
    Base64Url.WrittenIffCanonical(Base64Url.Encode(cfg.p.hash(SHA256, ids.secret)));
  }

  /** What a call that issues hands out and installs: the authority for the candidate over the record it
      has just committed, and its activation record. */
  lemma IssuesAsAsked(cfg: Config, sys: System, c: Candidate, now: int, ids: Ids)
    requires PedStep(cfg, sys, c, now, ids).1.Issued?
    ensures var (after, r) := PedStep(cfg, sys, c, now, ids);
            && ids.evidenceId in after.evidence.records && ids.authorityId in after.activations.records
            && AuthorityFor(cfg, c, sys.net, after.evidence.records[ids.evidenceId], now, ids, r.authority)
            && ActivationFor(cfg, c, r.authority, after.activations.records[ids.authorityId])
  {
    hide Validate, Permitted, Signed, DraftAuthority, AuthorityFor, EntryDigest, CandidateDigest, AuthorityDigest;
    IssuesIff(cfg, sys, c, now, ids);
    PermittedInTime(cfg, sys, c, now);
    SignedIs(cfg, c, sys.net, NewRecord(cfg.p, sys.evidence.tail, EntryOf(sys.net, c, true, now, ids)), now, ids);
    IdOfSigned(cfg, c, sys.net, NewRecord(cfg.p, sys.evidence.tail, EntryOf(sys.net, c, true, now, ids)), now, ids);
  }

  lemma PermittedInTime(cfg: Config, sys: System, c: Candidate, now: int)
    ensures Permitted(cfg.policy, sys.net, c, now) ==> now < c.expiresAt
  {
  }

  lemma IdOfSigned(cfg: Config, c: Candidate, net: NetState, record: EvidenceRecord, now: int, ids: Ids)
    ensures Signed(cfg.p, DraftAuthority(cfg, net, c, record, now, ids)).authorityId == ids.authorityId
  {
    hide Sign, UnsignedPayload, CandidateDigest, Commitment, BoundaryId, ExpiryOf;
  }

  class ProtectedEnforcementDomain {
    const cfg: Config
    const state: ProtectedNetworkState
    const nonceRegistry: NonceRegistry
    const evidenceStore: InMemoryEvidenceStore
    const activationStore: InMemoryActivationStore

    constructor (cfg: Config, state: ProtectedNetworkState, nonceRegistry: NonceRegistry,
                 evidenceStore: InMemoryEvidenceStore, activationStore: InMemoryActivationStore)
      ensures this.cfg == cfg && this.state == state && this.nonceRegistry == nonceRegistry
      ensures this.evidenceStore == evidenceStore && this.activationStore == activationStore
    {
      this.cfg := cfg;
      this.state := state;
      this.nonceRegistry := nonceRegistry;
      this.evidenceStore := evidenceStore;
      this.activationStore := activationStore;
    }

    /** What this object sees of the system, next to the given effects. */
    function View(effects: map<string, NetEffect>): System
      reads state, nonceRegistry, evidenceStore, activationStore
    {
      System(state.Reading(), nonceRegistry.seen, evidenceStore.State(), activationStore.State(), effects)
    }

    method ValidateAndIssue(candidate: Candidate, now: int, ids: Ids) returns (result: PedResult)
      requires evidenceStore.p == cfg.p
      modifies state, nonceRegistry, evidenceStore, activationStore
      ensures forall effects :: (View(effects), result) == PedStep(cfg, old(View(effects)), candidate, now, ids)
    {
      hide CandidateDigest, AuthorityDigest, Sign, UnsignedPayload, EntryDigest, Commitment, Validate;
      ghost var before := View(map[]);
      var denial := Validate(cfg.policy, state.Reading(), candidate, now);
      if denial == None {
        var reserved := nonceRegistry.Reserve(candidate.freshness.nonce);
        if !reserved {
          denial := Some(REPLAY_DETECTED);
        }
      }
      assert denial == DenialOf(cfg, before, candidate, now);

      var net := state.Reading();
      var decision := Decision(ids.decisionId, candidate.candidateActId, denial == None, net.epochs.topology,
        net.epochs.configuration, net.protectedStateReference, net.monotonicCounter, None,
        if denial == None then None else Some(Code(denial.value)));
      var counter := state.AdvanceCounter();
      var evidence := evidenceStore.CommitEntry(
        Entry(ids.evidenceId, candidate.candidateActId, ids.decisionId, DecisionText(decision.allow),
              state.protectedStateReference, counter, now));
      decision := decision.(evidenceId := Some(evidence.entry.evidenceId));
      decision := decision.(monotonicCounter := counter);
      assert View(map[]) == AfterEvidence(cfg, before, candidate, now, ids);

      if denial != None {
        return Denied(decision);
      }

      var authority := DraftAuthority(cfg, state.Reading(), candidate, evidence, now, ids);
      authority := WithSignature(authority, Sign(cfg.p, UnsignedPayload(cfg.p, authority)));
      assert authority == IssuedAuthority(cfg, before, candidate, now, ids);
      var installed := activationStore.Put(ActivationOf(cfg, candidate, authority));
      if !installed {
        return Raised;
      }
      result := Issued(decision, authority);
    }
  }
}
