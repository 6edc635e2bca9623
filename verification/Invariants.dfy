/** The invariant holds at the start and every step keeps it, so it holds after every run. */
module Invariants {
  import opened Wrappers
  import opened Crypto
  import opened Models
  import opened Evidence
  import opened State
  import opened Policy
  import opened SystemState
  import opened Ped
  import opened Sink
  import opened Protocol

  // ---- what the ladder makes of an issued authority ----

  /** The store record of an authority names that authority and that candidate. */
  lemma RecordNamesAuthority(cfg: Config, t: Attempt, c: Candidate, a: Authority)
    requires Ideal(cfg.p) && t.authority.Some?
    requires ActivationOf(cfg, t.candidate, t.authority.value).authorityDigest == AuthorityDigest(cfg.p, a)
    requires ActivationOf(cfg, t.candidate, t.authority.value).candidateDigest == CandidateDigest(cfg.p, c)
    ensures a == t.authority.value && c == t.candidate
  {
    hide AuthorityDigest, CandidateDigest, Ideal;
    AuthorityDigestBinds(cfg.p, a, t.authority.value);
    CandidateDigestBinds(cfg.p, c, t.candidate);
  }

  lemma GenuineEnvelope(cfg: Config, t: Attempt, now: int)
    requires Ideal(cfg.p) && Built(cfg, t) && t.authority.Some?
    ensures CheckEnvelope(cfg, t.candidate, t.authority.value, now)
            == if now >= t.authority.value.lifetime.expiresAt then Some(AuthorityExpired) else None
  {
    hide Sign, UnsignedPayload, CandidateDigest, Verify, Validate, Ideal, EntryOf, BoundaryId, Commitment, ExpiryOf;
    SignedAuthorityVerifies(cfg.p, DraftAuthority(cfg, t.net, t.candidate, t.record, t.now, t.ids));
  }

  lemma GenuineActivation(cfg: Config, t: Attempt, sinkId: string, now: int)
    requires Built(cfg, t) && t.authority.Some?
    ensures CheckActivation(cfg, sinkId, t.candidate, t.authority.value, now,
                            Some(ActivationOf(cfg, t.candidate, t.authority.value)))
            == if now >= t.authority.value.lifetime.expiresAt then Some(ActivationExpired)
               else if t.candidate.finalitySink.sinkId != sinkId then Some(ActivationSinkMismatch) else None
  {
    hide Sign, UnsignedPayload, AuthorityDigest, CandidateDigest, Validate, EntryOf, BoundaryId, Commitment, ExpiryOf;
  }

  lemma GenuineSink(cfg: Config, t: Attempt, sink: SinkIdentity)
    requires Built(cfg, t) && t.authority.Some? && sink.sinkId == t.candidate.finalitySink.sinkId
    ensures CheckSink(sink, t.candidate, t.authority.value)
            == if sink.sinkType != t.candidate.finalitySink.sinkType then Some(BoundaryMismatch) else None
  {
    hide Sign, UnsignedPayload, CandidateDigest, Validate, EntryOf, BoundaryId, Commitment, ExpiryOf;
  }

  lemma GenuineState(cfg: Config, t: Attempt, reference: string, epochs: Epochs)
    requires Built(cfg, t) && t.authority.Some?
    ensures CheckState(t.authority.value, reference, epochs).None?
            <==> reference == t.net.protectedStateReference && epochs == t.net.epochs
  {
    hide Sign, UnsignedPayload, CandidateDigest, Validate, EntryOf, BoundaryId, Commitment, ExpiryOf;
  }

  /** The scope checks that can still fail: those about the proposed effect. */
  function EffectLadder(p: Primitives, c: Candidate, e: ProposedEffect): (r: Option<Rung>)
    ensures r.None? <==> InScope(p, c, e)
  {
    if c.resourceScope.resourceType != e.resourceType then Some(ResourceTypeMismatch)
    else if Elements(e.resourceIds) != Elements(c.resourceScope.resourceIds) then Some(ResourceIdsMismatch)
    else if e.effectType != c.requestedEffect.effectType then Some(EffectTypeMismatch)
    else if DigestOf(p, e.parameters, e.parametersDigest.algorithm) != e.parametersDigest.value then
        Some(ParametersInconsistent)
    else if e.parametersDigest.value != c.requestedEffect.parametersDigest.value then Some(ParametersMismatch)
    else if c.requestedEffect.durationSeconds.Some? && e.durationSeconds.Some?
            && e.durationSeconds.value > c.requestedEffect.durationSeconds.value then Some(DurationExceeded)
    else None
  }

  lemma GenuineScope(cfg: Config, t: Attempt, e: ProposedEffect)
    requires Built(cfg, t) && t.authority.Some?
    ensures CheckScope(cfg, t.candidate, t.authority.value, ActivationOf(cfg, t.candidate, t.authority.value), e)
            == EffectLadder(cfg.p, t.candidate, e)
  {
    hide Sign, UnsignedPayload, AuthorityDigest, CandidateDigest, Validate, EntryOf, BoundaryId, Commitment, ExpiryOf,
         DigestOf, Elements;
  }

  // ---- the evidence an authority points at ----

  /** The record committed with attempt `k` is still the one found under its id. */
  predicate Intact(w: World, t: Attempt) {
    Evidence.Get(w.sys.evidence, t.ids.evidenceId) == Some(t.record)
  }

  lemma GenuineEvidence(cfg: Config, start: int, w: World, k: nat)
    requires Ideal(cfg.p) && EvidenceInv(cfg, start, w) && k < |w.attempts| && w.attempts[k].authority.Some?
    ensures var t := w.attempts[k]; var a := t.authority.value;
            CheckEvidence(t.candidate, a, Evidence.Get(w.sys.evidence, a.binding.evidenceId))
            == if Intact(w, t) then None else Some(EvidenceMismatch)
  {
    hide Sign, UnsignedPayload, CandidateDigest, Validate, BoundaryId, Commitment, ExpiryOf, NewRecord, History,
         CommitAll, Chained, Ideal;
    var t, entries := w.attempts[k], Entries(w.attempts);
    var found := Evidence.Get(w.sys.evidence, t.ids.evidenceId);
    StoredAreCommitted(cfg.p, entries);
    HistoryIsChained(cfg.p, entries);
    assert History(cfg.p, entries)[k] == Records(w.attempts)[k] == t.record;
    assert t.record.entry == EntryOf(t.net, t.candidate, true, t.now, t.ids);
    if found.Some? && found.value.digest == t.record.digest {
      var j :| 0 <= j < |History(cfg.p, entries)| && History(cfg.p, entries)[j] == found.value;
      DigestsDistinct(cfg.p, History(cfg.p, entries), j, k);
    }
  }

  // ---- the whole ladder ----

  /** What is left of the ladder when what was issued is presented. */
  function GenuineLadder(cfg: Config, w: World, t: Attempt, q: Presentation): Option<Rung>
    requires t.authority.Some?
  {
    var a := t.authority.value;
    if q.now >= a.lifetime.expiresAt then Some(AuthorityExpired)
    else if !Intact(w, t) then Some(EvidenceMismatch)
    else if q.sink.sinkId != t.candidate.finalitySink.sinkId then Some(ActivationSinkMismatch)
    else if a.authorityId in w.sys.activations.used then Some(AlreadyUsed)
    else if q.sink.sinkType != t.candidate.finalitySink.sinkType then Some(BoundaryMismatch)
    else First(CheckState(a, w.sys.net.protectedStateReference, w.sys.net.epochs),
               EffectLadder(cfg.p, t.candidate, q.effect))
  }

  /** Presenting an issued authority with its own candidate: the ladder answers exactly as the short one. */
  lemma LadderWhenGenuine(cfg: Config, start: int, w: World, k: nat, q: Presentation)
    requires Ideal(cfg.p) && EvidenceInv(cfg, start, w) && ActivationInv(cfg, w) && k < |w.attempts|
    requires w.attempts[k].authority.Some? && q.authority == w.attempts[k].authority
             && q.candidate == w.attempts[k].candidate
    ensures Ladder(cfg, w.sys, q) == GenuineLadder(cfg, w, w.attempts[k], q)
  {
    hide CheckEnvelope, CheckEvidence, CheckActivation, CheckSink, CheckState, CheckScope, EffectLadder, Sound, Built,
         ActivationOf, CommitAll, History, Ideal, Intact;
    var t := w.attempts[k];
    SoundAttempt(cfg, start, w, k);
    GenuineEnvelope(cfg, t, q.now);
    GenuineEvidence(cfg, start, w, k);
    GenuineActivation(cfg, t, q.sink.sinkId, q.now);
    if q.sink.sinkId == t.candidate.finalitySink.sinkId { GenuineSink(cfg, t, q.sink); }
    GenuineScope(cfg, t, q.effect);
  }

  predicate Early(r: Rung) {
    r in {NoAuthority, UnknownKey, BadSignature, AuthorityExpired, CandidateMismatch, EvidenceMismatch,
          ActivationAbsent, ActivationExpired, ActivationSinkMismatch, ActivationDigestMismatch}
  }

  ghost predicate Genuine(w: World, q: Presentation) {
    exists k :: 0 <= k < |w.attempts| && w.attempts[k].authority.Some?
                && q.authority == w.attempts[k].authority && q.candidate == w.attempts[k].candidate
  }

  /** Presenting anything else stops at or before the comparison with the activation record. */
  lemma LadderWhenNot(cfg: Config, w: World, q: Presentation)
    requires Ideal(cfg.p) && ActivationInv(cfg, w) && !Genuine(w, q)
    ensures Ladder(cfg, w.sys, q).Some? && Early(Ladder(cfg, w.sys, q).value)
  {
    hide Verify, UnsignedPayload, AuthorityDigest, CandidateDigest, Ideal, CheckSink, CheckState, CheckScope,
         ActivationOf;
    if q.authority.Some? && q.authority.value.authorityId in w.sys.activations.records {
      var a := q.authority.value;
      var k :| 0 <= k < |w.attempts| && HasId(w.attempts[k], a.authorityId);
      var t, r := w.attempts[k], w.sys.activations.records[a.authorityId];
      assert r == ActivationOf(cfg, t.candidate, t.authority.value);
      if r.authorityDigest == AuthorityDigest(cfg.p, a) && r.candidateDigest == CandidateDigest(cfg.p, q.candidate) {
        RecordNamesAuthority(cfg, t, q.candidate, a);
      }
    }
  }

  /** Attempt `k` issued what is presented, its evidence is intact, and it is not used. */
  predicate Admissible(cfg: Config, w: World, k: nat, q: Presentation) {
    && k < |w.attempts| && Presents(cfg, w.attempts[k], w.sys.net, q) && Intact(w, w.attempts[k])
    && w.attempts[k].authority.value.authorityId !in w.sys.activations.used
  }

  /** The ladder passes exactly the presentations of an issued authority, with the candidate it was
      issued for, whose evidence is intact, which is unused, and which meets `Presents`. */
  lemma AcceptIff(cfg: Config, start: int, w: World, q: Presentation)
    requires Ideal(cfg.p) && EvidenceInv(cfg, start, w) && ActivationInv(cfg, w)
    ensures Ladder(cfg, w.sys, q).None? <==> exists k: nat :: Admissible(cfg, w, k, q)
  {
    hide Ladder, GenuineLadder, Admissible, EvidenceInv, ActivationInv, Ideal;
    forall k: nat | Admissible(cfg, w, k, q)
      ensures k < |w.attempts| && w.attempts[k].authority.Some? && q.authority == w.attempts[k].authority
              && q.candidate == w.attempts[k].candidate
    {
      AdmissibleIsGenuine(cfg, w, k, q);
    }
    forall k | 0 <= k < |w.attempts| && w.attempts[k].authority.Some?
               && q.authority == w.attempts[k].authority && q.candidate == w.attempts[k].candidate
      ensures Ladder(cfg, w.sys, q).None? <==> Admissible(cfg, w, k, q)
    {
      AcceptGenuine(cfg, start, w, k, q);
    }
    if !Genuine(w, q) {
      LadderWhenNot(cfg, w, q);
    }
  }

  lemma AdmissibleIsGenuine(cfg: Config, w: World, k: nat, q: Presentation)
    requires Admissible(cfg, w, k, q)
    ensures k < |w.attempts| && w.attempts[k].authority.Some? && q.authority == w.attempts[k].authority
    ensures q.candidate == w.attempts[k].candidate && Presents(cfg, w.attempts[k], w.sys.net, q)
    ensures q.authority.value.authorityId !in w.sys.activations.used
  {
  }

  lemma AcceptGenuine(cfg: Config, start: int, w: World, k: nat, q: Presentation)
    requires Ideal(cfg.p) && EvidenceInv(cfg, start, w) && ActivationInv(cfg, w) && k < |w.attempts|
    requires w.attempts[k].authority.Some? && q.authority == w.attempts[k].authority
             && q.candidate == w.attempts[k].candidate
    ensures Ladder(cfg, w.sys, q).None? <==> Admissible(cfg, w, k, q)
  {
    hide Ladder, Intact, CheckState, InScope, Sound, Built, Ideal, EvidenceInv, ActivationInv, EffectLadder;
    LadderWhenGenuine(cfg, start, w, k, q);
    SoundAttempt(cfg, start, w, k);
    GenuineState(cfg, w.attempts[k], w.sys.net.protectedStateReference, w.sys.net.epochs);
    assert EffectLadder(cfg.p, q.candidate, q.effect).None? <==> InScope(cfg.p, q.candidate, q.effect);
  }

  lemma SoundAttempt(cfg: Config, start: int, w: World, k: nat)
    requires EvidenceInv(cfg, start, w) && k < |w.attempts|
    ensures Sound(cfg, w.attempts[k]) && Built(cfg, w.attempts[k])
  {
    hide Built, CommitAll, History;
  }

  // ---- preservation ----

  lemma PedKeepsEvidence(cfg: Config, start: int, w: World, c: Candidate, now: int, ids: Ids)
    requires EvidenceInv(cfg, start, w)
    ensures EvidenceInv(cfg, start, WorldStep(cfg, w, PedCall(c, now, ids)))
  {
    hide Validate, Signed, CandidateDigest, AuthorityDigest, Commitment, NewRecord, CommitAll, History;
    var t, w' := AttemptOf(cfg, w.sys, c, now, ids), WorldStep(cfg, w, PedCall(c, now, ids));
    AttemptIsSound(cfg, w.sys, c, now, ids);
    assert Entries(w'.attempts) == Entries(w.attempts) + [t.record.entry];
    assert Records(w'.attempts) == Records(w.attempts) + [t.record];
    AppendEntry(cfg.p, Entries(w.attempts), t.record.entry);
  }

  lemma AttemptIsSound(cfg: Config, sys: System, c: Candidate, now: int, ids: Ids)
    ensures var t := AttemptOf(cfg, sys, c, now, ids);
            Sound(cfg, t) && t.record == NewRecord(cfg.p, sys.evidence.tail, t.record.entry)
            && PedStep(cfg, sys, c, now, ids).0.evidence == Commit(cfg.p, sys.evidence, t.record.entry)
            && PedStep(cfg, sys, c, now, ids).0.net == sys.net.(monotonicCounter := sys.net.monotonicCounter + 1)
  {
    hide Validate, Signed, CandidateDigest, AuthorityDigest, Commitment, EntryDigest, EntryOf, DraftAuthority;
  }

  /** What one call does to the activation records and nonces. */
  lemma AttemptEffect(cfg: Config, sys: System, c: Candidate, now: int, ids: Ids)
    ensures var t := AttemptOf(cfg, sys, c, now, ids); var sys' := PedStep(cfg, sys, c, now, ids).0;
            && t.candidate == c && t.net == sys.net
            && (t.authority.Some? ==>
                  t.denial.None? && t.authority.value.authorityId == ids.authorityId
                  && ids.authorityId !in sys.activations.records)
            && (t.authority.None? && t.denial.None? ==> ids.authorityId in sys.activations.records)
            && sys'.activations == (if t.authority.Some? then
                 Activations(sys.activations.records[ids.authorityId := ActivationOf(cfg, c, t.authority.value)],
                             sys.activations.used)
               else sys.activations)
            && (t.denial.None? ==> c.freshness.nonce !in sys.nonces)
            && sys'.nonces == (if t.denial.None? then sys.nonces + {c.freshness.nonce} else sys.nonces)
            && sys'.effects == sys.effects
  {
    hide Validate, Sign, UnsignedPayload, CandidateDigest, AuthorityDigest, Commitment, EntryDigest, EntryOf;
    var t := AttemptOf(cfg, sys, c, now, ids);
    if t.denial.Some? && Validate(cfg.policy, sys.net, c, now).None? {
      assert sys.nonces + {c.freshness.nonce} == sys.nonces;
    }
  }

  lemma PedKeepsActivation(cfg: Config, w: World, w': World, t: Attempt)
    requires ActivationInv(cfg, w) && w'.attempts == w.attempts + [t]
    requires t.authority.None? ==> w'.sys.activations == w.sys.activations
    requires t.authority.Some? ==>
      var id := t.authority.value.authorityId;
      id !in w.sys.activations.records
      && w'.sys.activations.records
         == w.sys.activations.records[id := ActivationOf(cfg, t.candidate, t.authority.value)]
    ensures ActivationInv(cfg, w')
  {
    hide ActivationOf;
    var n := |w.attempts|;
    forall k | 0 <= k < n ensures Registered(cfg, w'.sys.activations.records, w'.attempts[k]) {
      assert Registered(cfg, w.sys.activations.records, w.attempts[k]);
    }
    forall id | id in w'.sys.activations.records
      ensures exists k :: 0 <= k < |w'.attempts| && HasId(w'.attempts[k], id)
    {
      if id in w.sys.activations.records {
        var k :| 0 <= k < n && HasId(w.attempts[k], id);
        assert HasId(w'.attempts[k], id);
      } else {
        assert HasId(w'.attempts[n], id);
      }
    }
    forall k, l, id | 0 <= k < l < |w'.attempts| && HasId(w'.attempts[k], id) ensures !HasId(w'.attempts[l], id) {
      assert Registered(cfg, w.sys.activations.records, w.attempts[k]);
    }
  }

  lemma PedKeepsNonces(w: World, w': World, t: Attempt)
    requires NonceInv(w) && w'.attempts == w.attempts + [t]
    requires t.denial.Some? ==> w'.sys.nonces == w.sys.nonces
    requires t.denial.None? ==>
      t.candidate.freshness.nonce !in w.sys.nonces && w'.sys.nonces == w.sys.nonces + {t.candidate.freshness.nonce}
    ensures NonceInv(w')
  {
    var n := |w.attempts|;
    forall m | m in w'.sys.nonces ensures exists k :: 0 <= k < |w'.attempts| && Reserves(w'.attempts[k], m) {
      if m in w.sys.nonces {
        var k :| 0 <= k < n && Reserves(w.attempts[k], m);
        assert Reserves(w'.attempts[k], m);
      } else {
        assert Reserves(w'.attempts[n], m);
      }
    }
  }

  lemma MoreAttemptsKeepApplications(cfg: Config, w: World, w': World)
    requires ApplicationInv(cfg, w) && w.attempts <= w'.attempts && w'.applications == w.applications
    requires w'.sys.activations.used == w.sys.activations.used && w'.sys.effects == w.sys.effects
    ensures ApplicationInv(cfg, w')
  {
    hide Presents, UsedApplied, EffectsProduced;
    forall i | 0 <= i < |w'.applications|
      ensures Granted(cfg, w'.attempts, w'.sys.activations.used, w'.applications[i])
    {
      assert Granted(cfg, w.attempts, w.sys.activations.used, w.applications[i]);
    }
  }

  lemma PedKeeps(cfg: Config, start: int, w: World, c: Candidate, now: int, ids: Ids)
    requires Inv(cfg, start, w)
    ensures Inv(cfg, start, WorldStep(cfg, w, PedCall(c, now, ids)))
  {
    hide PedStep, AttemptOf, ActivationOf, EvidenceInv, ActivationInv, NonceInv, ApplicationInv;
    var t, w' := AttemptOf(cfg, w.sys, c, now, ids), WorldStep(cfg, w, PedCall(c, now, ids));
    AttemptEffect(cfg, w.sys, c, now, ids);
    PedKeepsEvidence(cfg, start, w, c, now, ids);
    PedKeepsActivation(cfg, w, w', t);
    PedKeepsNonces(w, w', t);
    MoreAttemptsKeepApplications(cfg, w, w');
  }

  lemma AdmitKeepsGranted(cfg: Config, attempts: seq<Attempt>, used: set<string>, y: Application, x: Application)
    requires Granted(cfg, attempts, used, y)
    requires x.grant < |attempts| && Presents(cfg, attempts[x.grant], x.net, x.q) && x.q.authority.Some?
    requires x.q.authority.value.authorityId !in used
    ensures Granted(cfg, attempts, used + {x.q.authority.value.authorityId}, y) && y.grant != x.grant
  {
    hide InScope;
  }

  lemma NewIsGranted(cfg: Config, attempts: seq<Attempt>, used: set<string>, x: Application)
    requires x.grant < |attempts| && Presents(cfg, attempts[x.grant], x.net, x.q) && x.q.authority.Some?
    requires x.q.authority.value.authorityId in used
    ensures Granted(cfg, attempts, used, x)
  {
  }

  lemma AdmitKeepsUsed(used: set<string>, xs: seq<Application>, x: Application)
    requires UsedApplied(used, xs) && x.q.authority.Some?
    ensures UsedApplied(used + {x.q.authority.value.authorityId}, xs + [x])
  {
    forall u | u in used + {x.q.authority.value.authorityId}
      ensures exists i :: 0 <= i < |xs + [x]| && Applies((xs + [x])[i], u)
    {
      if u == x.q.authority.value.authorityId {
        assert Applies((xs + [x])[|xs|], u);
      } else {
        var i :| 0 <= i < |xs| && Applies(xs[i], u);
        assert Applies((xs + [x])[i], u);
      }
    }
  }

  lemma AdmitKeepsEffects(effects: map<string, NetEffect>, xs: seq<Application>, x: Application)
    requires EffectsProduced(effects, xs) && x.q.authority.Some?
    ensures EffectsProduced(effects[x.effectId := EffectOf(x.q.candidate, x.q.authority.value, x.q.effect)], xs + [x])
  {
    hide EffectOf;
    var effects' := effects[x.effectId := EffectOf(x.q.candidate, x.q.authority.value, x.q.effect)];
    forall e | e in effects' ensures exists i :: 0 <= i < |xs + [x]| && Produces((xs + [x])[i], e, effects'[e]) {
      if e == x.effectId {
        assert Produces((xs + [x])[|xs|], e, effects'[e]);
      } else {
        var i :| 0 <= i < |xs| && Produces(xs[i], e, effects[e]);
        assert Produces((xs + [x])[i], e, effects'[e]);
      }
    }
  }

  lemma AdmitKeepsApplications(cfg: Config, w: World, w': World, x: Application)
    requires ApplicationInv(cfg, w) && w'.attempts == w.attempts && w'.applications == w.applications + [x]
    requires x.grant < |w.attempts| && Presents(cfg, w.attempts[x.grant], x.net, x.q) && x.q.authority.Some?
    requires x.q.authority.value.authorityId !in w.sys.activations.used
    requires w'.sys.activations.used == w.sys.activations.used + {x.q.authority.value.authorityId}
    requires w'.sys.effects == w.sys.effects[x.effectId := EffectOf(x.q.candidate, x.q.authority.value, x.q.effect)]
    ensures ApplicationInv(cfg, w')
  {
    hide EffectOf, Presents, UsedApplied, EffectsProduced, Granted;
    AdmitKeepsUsed(w.sys.activations.used, w.applications, x);
    AdmitKeepsEffects(w.sys.effects, w.applications, x);
    var used := w'.sys.activations.used;
    NewIsGranted(cfg, w.attempts, used, x);
    forall y | y in w.applications ensures Granted(cfg, w.attempts, used, y) && y.grant != x.grant {
      AdmitKeepsGranted(cfg, w.attempts, w.sys.activations.used, y, x);
    }
    assert forall i ::
             0 <= i < |w.applications| ==>
                 w'.applications[i] == w.applications[i] && w.applications[i] in w.applications;
  }

  lemma GrantIsUnique(cfg: Config, w: World, k: nat, id: string)
    requires ActivationInv(cfg, w) && k < |w.attempts| && HasId(w.attempts[k], id)
    ensures GrantOf(w.attempts, id) == k
  {
    hide Registered;
    var g := GrantOf(w.attempts, id);
    assert HasId(w.attempts[g], id);
  }

  /** What a presentation does to the world: nothing, or one more application. */
  lemma SinkEffect(cfg: Config, w: World, q: Presentation, applied: Option<string>)
    ensures var w' := WorldStep(cfg, w, SinkCall(q, applied));
            if Ladder(cfg, w.sys, q).None? && applied.Some? then
              q.authority.Some? && w' == Admitted(w, q, applied.value)
            else w' == w
  {
    hide Ladder, EffectOf, Code, ReasonOf, Report, Passed, GrantOf;
  }

  function Admitted(w: World, q: Presentation, effectId: string): World
    requires q.authority.Some?
  {
    var a := q.authority.value;
    World(w.sys.(activations := w.sys.activations.(used := w.sys.activations.used + {a.authorityId}),
                 effects := w.sys.effects[effectId := EffectOf(q.candidate, a, q.effect)]),
          w.attempts,
          w.applications + [Application(q, GrantOf(w.attempts, a.authorityId), effectId, w.sys.net)])
  }

  lemma SinkKeeps(cfg: Config, start: int, w: World, q: Presentation, applied: Option<string>)
    requires Ideal(cfg.p) && Inv(cfg, start, w)
    ensures Inv(cfg, start, WorldStep(cfg, w, SinkCall(q, applied)))
  {
    hide WorldStep, Ladder, Admissible, Presents, EvidenceInv, ActivationInv, NonceInv, ApplicationInv, EffectOf,
         Intact, GrantOf, Ideal;
    SinkEffect(cfg, w, q, applied);
    if Ladder(cfg, w.sys, q).None? && applied.Some? {
      AcceptIff(cfg, start, w, q);
      var k: nat :| Admissible(cfg, w, k, q);
      AdmissibleIsGenuine(cfg, w, k, q);
      GrantIsUnique(cfg, w, k, q.authority.value.authorityId);
      var w' := Admitted(w, q, applied.value);
      AdmitKeepsApplications(cfg, w, w', Application(q, k, applied.value, w.sys.net));
      SameStores(cfg, start, w, w');
    }
  }

  /** The first three parts of the invariant do not look at consumption or effects. */
  lemma SameStores(cfg: Config, start: int, w: World, w': World)
    requires EvidenceInv(cfg, start, w) && ActivationInv(cfg, w) && NonceInv(w)
    requires w'.attempts == w.attempts && w'.sys.evidence == w.sys.evidence && w'.sys.nonces == w.sys.nonces
    requires w'.sys.net.monotonicCounter == w.sys.net.monotonicCounter
    requires w'.sys.activations.records == w.sys.activations.records
    ensures EvidenceInv(cfg, start, w') && ActivationInv(cfg, w') && NonceInv(w')
  {
    hide Sound, CommitAll, History, Registered, HasId, Reserves;
  }

  lemma EnvironmentKeeps(cfg: Config, start: int, w: World, ev: Event)
    requires Inv(cfg, start, w) && ev.Environment?
    ensures Inv(cfg, start, WorldStep(cfg, w, ev))
  {
    hide EvidenceInv, ActivationInv, NonceInv, ApplicationInv;
    SameStores(cfg, start, w, WorldStep(cfg, w, ev));
    MoreAttemptsKeepApplications(cfg, w, WorldStep(cfg, w, ev));
  }

  lemma StepKeeps(cfg: Config, start: int, w: World, ev: Event)
    requires Ideal(cfg.p) && Inv(cfg, start, w)
    ensures Inv(cfg, start, WorldStep(cfg, w, ev))
  {
    hide WorldStep, Inv, Ideal;
    match ev
    case PedCall(c, now, ids) => PedKeeps(cfg, start, w, c, now, ids);
    case SinkCall(q, applied) => SinkKeeps(cfg, start, w, q, applied);
    case Environment(_, _, _, _, _, _) => EnvironmentKeeps(cfg, start, w, ev);
  }

  lemma FreshInv(cfg: Config, net: NetState)
    ensures Inv(cfg, net.monotonicCounter, Fresh(net))
  {
    hide Sound, Registered, HasId, Reserves, Granted, Applies, Produces, NewRecord;
    assert Entries([]) == [] && Records([]) == [];
  }

  lemma {:induction false} RunKeeps(cfg: Config, start: int, w: World, evs: seq<Event>)
    requires Ideal(cfg.p) && Inv(cfg, start, w)
    ensures Inv(cfg, start, Run(cfg, w, evs))
    decreases |evs|
  {
    hide WorldStep, Inv, Ideal;
    if evs != [] {
      StepKeeps(cfg, start, w, evs[0]);
      RunKeeps(cfg, start, WorldStep(cfg, w, evs[0]), evs[1..]);
    }
  }

  /** After every run from a fresh system, under any wiring, the invariant holds. */
  lemma ReachableInv(cfg: Config, net: NetState, evs: seq<Event>)
    requires Ideal(cfg.p)
    ensures Inv(cfg, net.monotonicCounter, Run(cfg, Fresh(net), evs))
  {
    FreshInv(cfg, net);
    RunKeeps(cfg, net.monotonicCounter, Fresh(net), evs);
  }
}
