/** Whatever the interleaving, an effect passed every check: what was presented is what was issued, in
    time, at the sink it names, with an effect in scope, and no authority has two effects. */
module Passage {
  import opened Wrappers
  import opened Crypto
  import opened Models
  import opened Evidence
  import opened State
  import opened SystemState
  import opened Ped
  import opened Sink
  import opened Protocol
  import opened Concurrent
  import opened Ownership
  import opened Sandwich

  /** How many groups of checks lie behind a thread: envelope, activation, sink, scope. */
  function Stage(pc: SinkPc): nat {
    if pc.AtEvidence? || pc.AtActivation? then 1
    else if pc.AtUsed? then 2
    else if pc.AtReference? || pc.AtEpochs? || pc.AtScope? then 3
    else if pc.AtSinkLock? || pc.AtNetLock? || pc.AtRecheck? || pc.AtConsume? || pc.AtApply? || pc.AtUnconsume? then 4
    else 0
  }

  predicate HasPassed(cfg: Config, records: map<string, ActivationRecord>, q: Presentation, stage: nat) {
    stage > 0 ==>
      q.authority.Some? &&
      var a, c := q.authority.value, q.candidate;
      && CheckEnvelope(cfg, c, a, q.now).None?
      && (stage > 1 ==>
            a.authorityId in records
            && CheckActivation(cfg, q.sink.sinkId, c, a, q.now, Some(records[a.authorityId])).None?)
      && (stage > 2 ==> CheckSink(q.sink, c, a).None?)
      && (stage > 3 ==> CheckScope(cfg, c, a, records[a.authorityId], q.effect).None?)
  }

  predicate Passing(cfg: Config, records: map<string, ActivationRecord>, t: Thread) {
    t.SinkThread? ==>
      && HasPassed(cfg, records, t.q, Stage(t.sinkPc))
      && (Stage(t.sinkPc) in {2, 3} ==> t.sinkPc.record == records[t.q.authority.value.authorityId])
  }

  /** The authority's scope is the candidate's request. */
  predicate ScopedTo(c: Candidate, a: Authority) {
    && a.scope.resourceType == c.resourceScope.resourceType && a.scope.resourceIds == c.resourceScope.resourceIds
    && a.scope.permittedEffectType == c.requestedEffect.effectType
    && a.scope.parametersDigest == c.requestedEffect.parametersDigest.value
    && a.scope.durationSecondsMax == c.requestedEffect.durationSeconds
  }

  ghost predicate PassageInv(cfg: Config, m: Machine) {
    && m.sys.activations.records.Keys == m.grants.Keys
    && (forall tid :: tid in m.threads ==> Passing(cfg, m.sys.activations.records, m.threads[tid]))
    && (forall i :: 0 <= i < |m.applied| ==> HasPassed(cfg, m.sys.activations.records, m.applied[i].q, 4))
    && (forall id :: id in m.grants ==> ScopedTo(m.grants[id].candidate, m.grants[id].authority))
  }

  predicate Grows(records: map<string, ActivationRecord>, records': map<string, ActivationRecord>) {
    forall id :: id in records ==> id in records' && records'[id] == records[id]
  }

  lemma PassedLater(cfg: Config, records: map<string, ActivationRecord>, records': map<string, ActivationRecord>,
                    q: Presentation, stage: nat)
    requires HasPassed(cfg, records, q, stage) && Grows(records, records')
    ensures HasPassed(cfg, records', q, stage)
  {
    hide CheckEnvelope, CheckActivation, CheckSink, CheckScope;
  }

  lemma PassingLater(cfg: Config, records: map<string, ActivationRecord>, records': map<string, ActivationRecord>,
                     t: Thread)
    requires Passing(cfg, records, t) && Grows(records, records')
    ensures Passing(cfg, records', t)
  {
    hide CheckEnvelope, CheckActivation, CheckSink, CheckScope;
  }

  lemma CheckPasses(cfg: Config, m: Machine, t: Thread)
    requires t.SinkThread? && Checking(t.sinkPc) && Passing(cfg, m.sys.activations.records, t)
    ensures Passing(cfg, m.sys.activations.records, SinkCheck(cfg, m, t))
  {
    hide CheckEnvelope, CheckEvidence, AuthorityDigest, CandidateDigest, CheckSink, CheckScope, DeniedBy, At, EpochRung;
  }

  lemma CommitStage(m: Machine, t: Thread, effectId: Option<string>)
    requires t.SinkThread? && !Checking(t.sinkPc) && t.q.authority.Some?
    ensures Stage(CommitMove(m, t, effectId)) in {0, Stage(t.sinkPc)}
    ensures Stage(t.sinkPc) in {0, 4} && (Applying(t, effectId) ==> Stage(t.sinkPc) == 4)
  {
    hide DeniedBy, Allowed, CanConsume;
  }

  lemma SinkPasses(cfg: Config, m: Machine, tid: nat, effectId: Option<string>)
    requires PassageInv(cfg, m) && tid in m.threads && m.threads[tid].SinkThread?
    ensures PassageInv(cfg, SinkNext(cfg, m, tid, m.threads[tid], effectId))
  {
    hide SinkCheck, CommitMove, CommitUsed, SinkLocksAfter, NetLocksAfter, EffectOf, HasPassed, ScopedTo, Stage,
         Checking, Applying;
    var t := m.threads[tid];
    assert Passing(cfg, m.sys.activations.records, t);
    if Checking(t.sinkPc) {
      CheckPasses(cfg, m, t);
    } else if t.q.authority.Some? {
      CommitStage(m, t, effectId);
      NothingPassed(cfg, m.sys.activations.records, t.q);
    }
  }

  lemma NothingPassed(cfg: Config, records: map<string, ActivationRecord>, q: Presentation)
    ensures HasPassed(cfg, records, q, 0)
  {
  }

  lemma BuiltScope(cfg: Config, t: Thread)
    requires t.PedThread? && t.pedPc.AtReadEpochs? && |t.seen| == 5
    ensures ScopedTo(t.candidate, BuiltAuthority(cfg, t))
  {
    hide Sign, UnsignedPayload, CandidateDigest, Commitment, BoundaryId, ExpiryOf;
  }

  lemma PedPasses(cfg: Config, m: Machine, tid: nat)
    requires PassageInv(cfg, m) && tid in m.threads && m.threads[tid].PedThread?
    ensures PassageInv(cfg, PedNext(cfg, m, tid, m.threads[tid]))
  {
    hide PedMove, BuiltAuthority, ActivationOf, Commit, Passing, HasPassed, ScopedTo;
    var t, n := m.threads[tid], PedNext(cfg, m, tid, m.threads[tid]);
    var records, records' := m.sys.activations.records, n.sys.activations.records;
    assert Grows(records, records');
    if Installs(m, t) { BuiltScope(cfg, t); }
    DomainPasses(cfg, records', n.threads[tid]);
    forall other | other in m.threads && other != tid ensures Passing(cfg, records', n.threads[other]) {
      PassingLater(cfg, records, records', m.threads[other]);
    }
    forall i | 0 <= i < |m.applied| ensures HasPassed(cfg, records', m.applied[i].q, 4) {
      PassedLater(cfg, records, records', m.applied[i].q, 4);
    }
  }

  lemma DomainPasses(cfg: Config, records: map<string, ActivationRecord>, t: Thread)
    requires t.PedThread?
    ensures Passing(cfg, records, t)
  {
  }

  lemma NextPasses(cfg: Config, m: Machine, act: Action)
    requires PassageInv(cfg, m)
    ensures PassageInv(cfg, Next(cfg, m, act))
  {
    hide SinkNext, PedNext, Passing, HasPassed, ScopedTo;
    match act
    case SinkAct(tid, effectId) =>
      if tid in m.threads && m.threads[tid].SinkThread? {
        SinkPasses(cfg, m, tid, effectId);
      }
    case PedAct(tid) =>
      if tid in m.threads && m.threads[tid].PedThread? { PedPasses(cfg, m, tid); }
    case EnvAct(_) =>
  }

  lemma OwnershipNext(cfg: Config, m: Machine, act: Action)
    requires OwnershipInv(m)
    ensures OwnershipInv(Next(cfg, m, act))
  {
    hide Act, HasEffect, Owned;
    ActKeeps(cfg, m, act);
  }

  lemma {:induction false} ExecPasses(cfg: Config, m: Machine, acts: seq<Action>)
    requires Ideal(cfg.p) && PassageInv(cfg, m) && ReadInv(cfg, m) && OwnershipInv(m)
    ensures PassageInv(cfg, Exec(cfg, m, acts)) && ReadInv(cfg, Exec(cfg, m, acts)) && OwnershipInv(Exec(cfg, m, acts))
    decreases |acts|
  {
    hide Act, PassageInv, ReadInv, OwnershipInv, Ideal;
    if acts != [] {
      NextPasses(cfg, m, acts[0]);
      NextKeeps(cfg, m, acts[0]);
      OwnershipNext(cfg, m, acts[0]);
      ExecPasses(cfg, Next(cfg, m, acts[0]), acts[1..]);
    }
  }

  lemma PassedScope(cfg: Config, records: map<string, ActivationRecord>, q: Presentation)
    requires HasPassed(cfg, records, q, 4) && ScopedTo(q.candidate, q.authority.value)
    ensures InScope(cfg.p, q.candidate, q.effect)
    ensures q.now < q.authority.value.lifetime.expiresAt
    ensures q.sink == SinkIdentity(q.candidate.finalitySink.sinkId, q.candidate.finalitySink.sinkType)
  {
    hide DigestOf, Elements, Verify, UnsignedPayload, AuthorityDigest, CandidateDigest;
  }

  /** What an effect's presentation was, in any interleaving. */
  predicate WasIssued(cfg: Config, grants: map<string, Grant>, q: Presentation) {
    && q.authority.Some? && q.authority.value.authorityId in grants
    && grants[q.authority.value.authorityId].authority == q.authority.value
    && grants[q.authority.value.authorityId].candidate == q.candidate
    && q.now < q.authority.value.lifetime.expiresAt
    && q.sink == SinkIdentity(q.candidate.finalitySink.sinkId, q.candidate.finalitySink.sinkType)
    && InScope(cfg.p, q.candidate, q.effect)
  }

  /** Under every schedule, however epochs move: each effect was presented with an authority that the
      domain installed, the candidate it was installed for, at the sink the candidate names, before the
      authority expired, in scope; and no two effects share an authority. */
  lemma ConcurrentFinality(cfg: Config, m: Machine, acts: seq<Action>, i: nat)
    requires Ideal(cfg.p) && Initial(m) && i < |Exec(cfg, m, acts).applied|
    ensures var n := Exec(cfg, m, acts);
            && WasIssued(cfg, n.grants, n.applied[i].q)
            && forall j :: 0 <= j < |n.applied| && j != i ==> IdOf(n.applied[j].q) != IdOf(n.applied[i].q)
  {
    hide Exec, HasPassed, Passing, InScope, GrantsInv, ThreadOk, ReadAt, Ideal, HasEffect;
    var n := Exec(cfg, m, acts);
    InitialPassage(cfg, m);
    InitialReads(cfg, m);
    InitialOwnership(m);
    ExecPasses(cfg, m, acts);
    var q := n.applied[i].q;
    assert Follows(n.grants, n.log, q, n.applied[i].readAt);
    assert HasPassed(cfg, n.sys.activations.records, q, 4);
    PassedScope(cfg, n.sys.activations.records, q);
  }

  lemma InitialPassage(cfg: Config, m: Machine)
    requires Initial(m)
    ensures PassageInv(cfg, m)
  {
  }
}
