/** The environment moves in between: an authority may be bound to epochs that policy never compared, and
    its effect may come when the epochs have left the bound values again. */
module Moving {
  import opened Wrappers
  import opened Crypto
  import opened Models
  import opened Evidence
  import opened State
  import opened Policy
  import opened SystemState
  import opened Ped
  import opened Sink
  import opened Protocol
  import opened Invariants
  import opened Finality
  import opened Reference
  import opened Concurrent
  import opened Ownership
  import opened Locks
  import opened Uninterrupted
  import Sandwich
  import Backing
  import opened Issuance

  // ---- what has just been issued passes the ladder ----

  /** `sys'` holds the record and the activation of the authority issued in `sys`, under the same epochs. */
  predicate Installed(cfg: Config, sys: System, sys': System, c: Candidate, now: int, ids: Ids) {
    var a := IssuedAuthority(cfg, sys, c, now, ids);
    && Evidence.Get(sys'.evidence, ids.evidenceId) == Some(RecordFor(cfg, sys, c, now, ids))
    && RecordOf(sys'.activations, ids.authorityId) == Some(ActivationOf(cfg, c, a))
    && sys'.activations.used == sys.activations.used
    && sys'.net.epochs == sys.net.epochs && sys'.net.protectedStateReference == sys.net.protectedStateReference
  }

  function RecordFor(cfg: Config, sys: System, c: Candidate, now: int, ids: Ids): EvidenceRecord {
    NewRecord(cfg.p, sys.evidence.tail, EntryOf(sys.net, c, true, now, ids))
  }

  /** The presentation shows what is issued, in time, at its sink and in scope. */
  predicate ShowsIssued(cfg: Config, sys: System, c: Candidate, now: int, ids: Ids, q: Presentation) {
    && q.authority == Some(IssuedAuthority(cfg, sys, c, now, ids)) && q.candidate == c
    && q.sink == SinkIdentity(c.finalitySink.sinkId, c.finalitySink.sinkType)
    && q.now < now + cfg.policy.authorityTtl && q.now < c.expiresAt && InScope(cfg.p, c, q.effect)
  }

  lemma IssuedParts(cfg: Config, sys: System, c: Candidate, now: int, ids: Ids)
    ensures var a := IssuedAuthority(cfg, sys, c, now, ids);
            && a.authorityId == ids.authorityId && a.lifetime.expiresAt == ExpiryOf(cfg.policy, c, now)
            && a.binding.epochs == sys.net.epochs && a.binding.evidenceId == ids.evidenceId
            && a.binding.evidenceDigest.value == RecordFor(cfg, sys, c, now, ids).digest
            && a.decisionId == ids.decisionId
    ensures Built(cfg, Attempt(c, sys.net, now, ids, None, RecordFor(cfg, sys, c, now, ids),
                               Some(IssuedAuthority(cfg, sys, c, now, ids))))
  {
    hide Sign, UnsignedPayload, CandidateDigest, Commitment, BoundaryId, ExpiryOf, EntryDigest;
  }

  lemma IssuedPasses(cfg: Config, sys: System, sys': System, c: Candidate, now: int, ids: Ids, q: Presentation)
    requires Ideal(cfg.p) && Installed(cfg, sys, sys', c, now, ids) && ShowsIssued(cfg, sys, c, now, ids, q)
    requires ids.authorityId !in sys'.activations.used
    ensures Ladder(cfg, sys', q).None?
  {
    hide CheckEnvelope, CheckActivation, CheckSink, CheckState, CheckScope, IssuedAuthority, RecordFor, Built,
         InScope, EffectLadder,
         ActivationOf, Ideal, NewRecord;
    var a, record := IssuedAuthority(cfg, sys, c, now, ids), RecordFor(cfg, sys, c, now, ids);
    var t := Attempt(c, sys.net, now, ids, None, record, Some(a));
    IssuedParts(cfg, sys, c, now, ids);
    GenuineEnvelope(cfg, t, q.now);
    GenuineActivation(cfg, t, q.sink.sinkId, q.now);
    GenuineSink(cfg, t, q.sink);
    GenuineState(cfg, t, sys'.net.protectedStateReference, sys'.net.epochs);
    GenuineScope(cfg, t, q.effect);
    assert EffectLadder(cfg.p, c, q.effect).None?;
    RecordPasses(cfg, sys, c, now, ids);
  }

  lemma RecordPasses(cfg: Config, sys: System, c: Candidate, now: int, ids: Ids)
    ensures CheckEvidence(c, IssuedAuthority(cfg, sys, c, now, ids), Some(RecordFor(cfg, sys, c, now, ids))).None?
  {
    hide IssuedAuthority, EntryDigest;
    IssuedParts(cfg, sys, c, now, ids);
  }

  // ---- the domain, from its reservation on ----

  /** With a fresh nonce and a fresh id the call issues, bound to the epochs as they are then. */
  lemma ReserveIssues(cfg: Config, sys: System, t: Thread)
    requires t.PedThread? && t.candidate.freshness.nonce !in sys.nonces && t.ids.authorityId !in sys.activations.records
    ensures var (sys', result) := FromReserve(cfg, sys, t);
            && result.Issued? && result.authority == IssuedAuthority(cfg, sys, t.candidate, t.now, t.ids)
            && Installed(cfg, sys, sys', t.candidate, t.now, t.ids)
  {
    hide ActivationOf, Signed, EntryDigest, CandidateDigest, Commitment, BoundaryId, ExpiryOf;
    SameDraft(cfg, sys.net, t);
  }

  /** Alone, a permitted call reads and passes policy, and changes nothing. */
  lemma {:induction false} PassesPolicy(cfg: Config, m: Machine, tid: nat) returns (acts: seq<Action>)
    requires tid in m.threads && Reading(m.sys, m.threads[tid]) && m.threads[tid].pedPc.AtValidate?
    requires Validate(cfg.policy, m.sys.net, m.threads[tid].candidate, m.threads[tid].now).None?
    ensures var n := Exec(cfg, m, acts);
            && (forall i :: 0 <= i < |acts| ==> acts[i] == PedAct(tid))
            && tid in n.threads && n.threads == m.threads[tid := n.threads[tid]] && n.threads[tid].PedThread?
            && n.threads[tid].pedPc.AtReserve? && Reading(n.sys, n.threads[tid])
               && SameCall(m.threads[tid], n.threads[tid])
            && n.sys == m.sys && n.sinkLocks == m.sinkLocks && n.netLocks == m.netLocks
    decreases Rank(m.threads[tid])
  {
    hide PedMove, Saw, Rank, Validate;
    var t, next := m.threads[tid], Next(cfg, m, PedAct(tid));
    StillReading(cfg, m, t);
    PolicyStep(cfg, m, t);
    if next.threads[tid].pedPc.AtReserve? {
      acts := [PedAct(tid)];
      OneStep(cfg, m, PedAct(tid));
    } else {
      RankOfValidating(t);
      var rest := PassesPolicy(cfg, next, tid);
      acts := [PedAct(tid)] + rest;
      assert acts[1..] == rest;
    }
  }

  lemma RankOfValidating(t: Thread)
    requires t.PedThread? && t.pedPc.AtValidate?
    ensures Rank(t) > 0
  {
  }

  lemma PolicyStep(cfg: Config, m: Machine, t: Thread)
    requires Reading(m.sys, t) && t.pedPc.AtValidate? && Validate(cfg.policy, m.sys.net, t.candidate, t.now).None?
    ensures var t' := PedMove(cfg, m, t);
            (t'.pedPc.AtValidate? || t'.pedPc.AtReserve?) && PedWrites(cfg, m, t) == m.sys
  {
    hide ValidateView, Look, Saw;
    if |t.viewAt| == 9 { ViewWhenLooked(t.view, m.sys.net); }
  }

  // ---- schedules put together ----

  lemma {:induction false} RaisesAppend(cfg: Config, m: Machine, first: seq<Action>, second: seq<Action>)
    requires Sandwich.AllRaise(cfg, m, first) && Sandwich.AllRaise(cfg, Exec(cfg, m, first), second)
    ensures Sandwich.AllRaise(cfg, m, first + second)
    decreases |first|
  {
    hide Next, Sandwich.Raises;
    if first == [] {
      assert first + second == second;
    } else {
      assert (first + second)[1..] == first[1..] + second;
      RaisesAppend(cfg, Next(cfg, m, first[0]), first[1..], second);
    }
  }

  /** A schedule without environment steps raises nothing, so it is fine. */
  lemma {:induction false} CallsRaise(cfg: Config, m: Machine, acts: seq<Action>)
    requires forall i :: 0 <= i < |acts| ==> !acts[i].EnvAct?
    ensures Sandwich.AllRaise(cfg, m, acts)
    decreases |acts|
  {
    hide Next;
    if acts != [] { CallsRaise(cfg, Next(cfg, m, acts[0]), acts[1..]); }
  }

  /** The machine after the environment moved. */
  function Moved(cfg: Config, m: Machine, net: NetState): Machine {
    Next(cfg, m, EnvAct(net))
  }

  lemma MovedIs(cfg: Config, m: Machine, net: NetState)
    ensures var n := Moved(cfg, m, net);
            && n.sys == m.sys.(net := net.(monotonicCounter := m.sys.net.monotonicCounter))
            && n.threads == m.threads && n.sinkLocks == m.sinkLocks && n.netLocks == m.netLocks
            && n.log == m.log + [n.sys.net] && n.applied == m.applied
  {
  }

  /** One more part of a schedule: what it reaches, and that epochs still only rise. */
  lemma Extend(cfg: Config, m: Machine, first: seq<Action>, second: seq<Action>)
    requires Sandwich.AllRaise(cfg, m, first) && Sandwich.AllRaise(cfg, Exec(cfg, m, first), second)
    ensures Exec(cfg, m, first + second) == Exec(cfg, Exec(cfg, m, first), second)
    ensures Sandwich.AllRaise(cfg, m, first + second)
  {
    hide Exec, Sandwich.AllRaise;
    ExecAppends(cfg, m, first, second);
    RaisesAppend(cfg, m, first, second);
  }

  lemma EnvRaises(cfg: Config, m: Machine, net: NetState)
    requires NotBelow(net.epochs, m.sys.net.epochs)
    ensures Exec(cfg, m, [EnvAct(net)]) == Moved(cfg, m, net) && Sandwich.AllRaise(cfg, m, [EnvAct(net)])
  {
    hide Next;
    OneStep(cfg, m, EnvAct(net));
    assert [EnvAct(net)][1..] == [];
  }

  /** The state in which the authority is issued. */
  function IssuingState(m: Machine, net: NetState): System {
    m.sys.(net := net.(monotonicCounter := m.sys.net.monotonicCounter))
  }

  predicate Idle(m: Machine, n: Machine, tid: nat) {
    && tid in m.threads && tid in n.threads && n.threads == m.threads[tid := n.threads[tid]]
    && n.sinkLocks == m.sinkLocks && n.netLocks == m.netLocks
  }

  predicate Ready(cfg: Config, m: Machine, tid: nat) {
    && tid in m.threads && m.threads[tid].PedThread? && Unstarted(m.threads[tid])
    && Permitted(cfg.policy, m.sys.net, m.threads[tid].candidate, m.threads[tid].now)
    && m.threads[tid].candidate.freshness.nonce !in m.sys.nonces
    && m.threads[tid].ids.authorityId !in m.sys.activations.records
  }

  /** From its reservation on, alone, a call with a fresh nonce and a fresh id issues. */
  lemma ReservedIssues(cfg: Config, m: Machine, tid: nat) returns (acts: seq<Action>)
    requires tid in m.threads && Reading(m.sys, m.threads[tid]) && m.threads[tid].pedPc.AtReserve?
    requires m.threads[tid].candidate.freshness.nonce !in m.sys.nonces
    requires m.threads[tid].ids.authorityId !in m.sys.activations.records
    ensures var n, t := Exec(cfg, m, acts), m.threads[tid];
            && Sandwich.AllRaise(cfg, m, acts) && Idle(m, n, tid) && n.threads[tid].PedThread?
            && Installed(cfg, m.sys, n.sys, t.candidate, t.now, t.ids)
  {
    hide Exec, Reading, FromReserve, DomainRest, Installed, Sandwich.AllRaise, Rank;
    ReadingIsDomain(m.sys, m.threads[tid]);
    acts := DomainAlone(cfg, m, tid);
    CallsRaise(cfg, m, acts);
    ReserveIssues(cfg, m.sys, m.threads[tid]);
    RestOfReserving(cfg, m.sys, m.threads[tid]);
  }

  /** A permitted call comes to its reservation while the environment moves. */
  lemma ReservesAcross(cfg: Config, m: Machine, tid: nat, net: NetState) returns (acts: seq<Action>)
    requires Ready(cfg, m, tid) && NotBelow(net.epochs, m.sys.net.epochs)
    ensures var n, t := Exec(cfg, m, acts), m.threads[tid];
            && Sandwich.AllRaise(cfg, m, acts) && Idle(m, n, tid) && n.sys == IssuingState(m, net)
            && Reading(n.sys, n.threads[tid]) && n.threads[tid].pedPc.AtReserve? && SameCall(t, n.threads[tid])
  {
    hide Exec, Moved, Reading, Validate, Permitted, Sandwich.AllRaise, NotBelow, Rank;
    var t := m.threads[tid];
    DeniesIffNotPermitted(cfg.policy, m.sys.net, t.candidate, t.now);
    UnstartedReads(m.sys, t);
    var first := PassesPolicy(cfg, m, tid);
    CallsRaise(cfg, m, first);
    var n := Exec(cfg, m, first);
    MovedIs(cfg, n, net);
    EnvRaises(cfg, n, net);
    Extend(cfg, m, first, [EnvAct(net)]);
    ReservingReads(n.sys, Moved(cfg, n, net).sys, n.threads[tid]);
    acts := first + [EnvAct(net)];
  }

  /** A permitted call is overtaken between policy and its reservation, and issues nevertheless, bound to
      the epochs as they are now. */
  lemma IssuesAcross(cfg: Config, m: Machine, tid: nat, net: NetState) returns (acts: seq<Action>)
    requires Ready(cfg, m, tid) && NotBelow(net.epochs, m.sys.net.epochs)
    ensures var n, t := Exec(cfg, m, acts), m.threads[tid];
            && Sandwich.AllRaise(cfg, m, acts) && Idle(m, n, tid) && n.threads[tid].PedThread?
            && Installed(cfg, IssuingState(m, net), n.sys, t.candidate, t.now, t.ids)
  {
    hide Exec, Reading, Installed, Permitted, Sandwich.AllRaise, NotBelow;
    var first := ReservesAcross(cfg, m, tid, net);
    var second := ReservedIssues(cfg, Exec(cfg, m, first), tid);
    Extend(cfg, m, first, second);
    acts := first + second;
  }

  lemma RestOfReserving(cfg: Config, sys: System, t: Thread)
    requires t.PedThread? && t.pedPc.AtReserve?
    ensures DomainRest(cfg, sys, t) == FromReserve(cfg, sys, t)
  {
    hide FromReserve;
  }

  lemma UnstartedReads(sys: System, t: Thread)
    requires t.PedThread? && Unstarted(t)
    ensures Reading(sys, t) && t.pedPc.AtValidate?
  {
  }

  lemma ReservingReads(sys: System, sys': System, t: Thread)
    requires Reading(sys, t) && t.pedPc.AtReserve?
    ensures Reading(sys', t)
  {
  }

  // ---- the sink, overtaken between its checks and the effect ----

  /** Steps of one sink alone: the protected state stands still, and effects are applied now. */
  lemma {:induction false} SinkLog(cfg: Config, m: Machine, tid: nat, applied: Option<string>, acts: seq<Action>)
    requires OnlyRuns(acts, tid, applied) && m.log != [] && m.log[|m.log| - 1] == m.sys.net
    requires tid in m.threads && m.threads[tid].SinkThread?
    ensures var n := Exec(cfg, m, acts);
            && n.sys.net == m.sys.net && m.log <= n.log && m.applied <= n.applied
            && (forall t :: |m.log| - 1 <= t < |n.log| ==> n.log[t] == m.sys.net)
            && (forall i :: |m.applied| <= i < |n.applied| ==> |m.log| - 1 <= n.applied[i].appliedAt < |n.log|)
    decreases |acts|
  {
    hide Next;
    if acts != [] {
      var next := Next(cfg, m, acts[0]);
      SinkLogStep(cfg, m, tid, applied);
      SinkLog(cfg, next, tid, applied, acts[1..]);
      var n := Exec(cfg, next, acts[1..]);
      forall t | |m.log| - 1 <= t < |n.log| ensures n.log[t] == m.sys.net {
        if t < |next.log| - 1 { assert n.log[t] == next.log[t]; }
      }
      forall i | |m.applied| <= i < |n.applied| ensures |m.log| - 1 <= n.applied[i].appliedAt < |n.log| {
        if i < |next.applied| { assert n.applied[i] == next.applied[i]; }
      }
    }
  }

  lemma SinkLogStep(cfg: Config, m: Machine, tid: nat, applied: Option<string>)
    requires tid in m.threads && m.threads[tid].SinkThread? && m.log != [] && m.log[|m.log| - 1] == m.sys.net
    ensures var n := Next(cfg, m, SinkAct(tid, applied));
            && tid in n.threads && n.threads[tid].SinkThread? && n.sys.net == m.sys.net
            && n.log == m.log + [m.sys.net]
            && (n.applied == m.applied || exists x :: n.applied == m.applied + [x] && x.appliedAt == |m.log| - 1)
  {
    hide SinkCheck, CommitMove, CommitUsed, SinkLocksAfter, NetLocksAfter, EffectOf, Checking, PedNext;
    var t, n := m.threads[tid], Next(cfg, m, SinkAct(tid, applied));
    if !Checking(t.sinkPc) && Applying(t, applied) {
      assert n.applied == m.applied + [Applied(t.q, applied.value, t.sinkReads, Now(m))];
    }
  }

  lemma AppliedIsUsed(cfg: Config, m: Machine, i: nat)
    requires OwnershipInv(m) && Sandwich.ReadInv(cfg, m) && i < |m.applied|
    ensures m.applied[i].q.authority.Some? && m.applied[i].q.authority.value.authorityId in m.sys.activations.used
  {
    hide Sandwich.GrantsInv, Sandwich.ThreadOk, Sandwich.ReadAt, Owned, Owns;
    var x := m.applied[i];
    assert Sandwich.AppliedOk(m.grants, m.log, x);
    assert IdOf(m.applied[i].q) == Some(x.q.authority.value.authorityId);
  }

  lemma NothingApplied(cfg: Config, m: Machine)
    requires OwnershipInv(m) && Sandwich.ReadInv(cfg, m) && m.sys.activations.used == {}
    ensures m.applied == []
  {
    hide OwnershipInv, Sandwich.ReadInv;
    if m.applied != [] { AppliedIsUsed(cfg, m, 0); }
  }

  /** A used authority that nobody is working on has an effect, under exactly this authority. */
  lemma UsedWasApplied(cfg: Config, m: Machine, c: Candidate, a: Authority) returns (i: nat)
    requires Ideal(cfg.p) && OwnershipInv(m) && Sandwich.ReadInv(cfg, m) && a.authorityId in m.sys.activations.used
    requires RecordOf(m.sys.activations, a.authorityId) == Some(ActivationOf(cfg, c, a))
    requires forall tid :: tid in m.threads ==> !Owns(m.threads[tid], a.authorityId)
    ensures i < |m.applied| && m.applied[i].q.authority == Some(a) && m.applied[i].q.candidate == c
  {
    hide Sandwich.ThreadOk, Sandwich.ReadAt, Owns, AuthorityDigest, CandidateDigest, Ideal;
    assert !Owned(m.threads, a.authorityId);
    i :| 0 <= i < |m.applied| && IdOf(m.applied[i].q) == Some(a.authorityId);
    var x := m.applied[i];
    assert Sandwich.AppliedOk(m.grants, m.log, x);
    var g := m.grants[a.authorityId];
    assert Sandwich.GrantOk(cfg, m.sys.activations.records, m.log, a.authorityId, g);
    AuthorityDigestBinds(cfg.p, a, g.authority);
    CandidateDigestBinds(cfg.p, c, g.candidate);
  }

  // ---- both boundaries overtaken ----

  /** The sink's checks pass under the issued epochs. */
  lemma ChecksPass(cfg: Config, m: Machine, sid: nat, effectId: string) returns (acts: seq<Action>)
    requires sid in m.threads && m.threads[sid].SinkThread? && Unstarted(m.threads[sid])
    requires Ladder(cfg, m.sys, m.threads[sid].q).None?
    ensures var n := Exec(cfg, m, acts);
            && Sandwich.AllRaise(cfg, m, acts) && Idle(m, n, sid) && n.sys == m.sys
            && n.threads[sid].SinkThread? && n.threads[sid].q == m.threads[sid].q && n.threads[sid].sinkPc == AtSinkLock
            && n.threads[sid].sinkLock == m.threads[sid].sinkLock && n.threads[sid].netLock == m.threads[sid].netLock
  {
    hide Exec, Ladder, Sandwich.AllRaise;
    acts := ChecksAlone(cfg, m, sid, Some(effectId));
    CallsRaise(cfg, m, acts);
  }

  /** From the locks on, the effect is made, whatever the epochs are by now. */
  lemma CommitsNow(cfg: Config, m: Machine, sid: nat, effectId: string) returns (acts: seq<Action>)
    requires sid in m.threads && Clear(m, m.threads[sid]) && m.threads[sid].sinkPc == AtSinkLock
    requires m.log != [] && m.log[|m.log| - 1] == m.sys.net
    ensures var n, id := Exec(cfg, m, acts), m.threads[sid].q.authority.value.authorityId;
            && Sandwich.AllRaise(cfg, m, acts) && n.threads.Keys == m.threads.Keys
            && n.threads == m.threads[sid := n.threads[sid]] && n.threads[sid].SinkThread?
               && n.threads[sid].sinkPc.Finished?
            && n.sys.activations == Activations(m.sys.activations.records, m.sys.activations.used + {id})
            && m.applied <= n.applied
            && (forall i :: |m.applied| <= i < |n.applied| ==>
                  n.applied[i].appliedAt < |n.log| && n.log[n.applied[i].appliedAt] == m.sys.net)
  {
    hide Exec, Sandwich.AllRaise;
    acts := CommitAlone(cfg, m, sid, Some(effectId));
    CallsRaise(cfg, m, acts);
    SinkLog(cfg, m, sid, Some(effectId), acts);
  }

  /** The effect made under an authority: bound to these epochs, while the epochs were those. */
  predicate MadeUnder(n: Machine, i: nat, a: Authority, bound: Epochs, at: Epochs) {
    && i < |n.applied| && n.applied[i].q.authority == Some(a) && a.binding.epochs == bound
    && n.applied[i].appliedAt < |n.log| && n.log[n.applied[i].appliedAt].epochs == at
  }

  /** A call about to start, and a presentation of what it will issue under these epochs. */
  predicate Poised(cfg: Config, m: Machine, tid: nat, sid: nat, net: NetState) {
    && Initial(m) && tid != sid && Ready(cfg, m, tid) && sid in m.threads && m.threads[sid].SinkThread?
    && ShowsIssued(cfg, IssuingState(m, net), m.threads[tid].candidate, m.threads[tid].now, m.threads[tid].ids,
                   m.threads[sid].q)
  }

  predicate AtTheLocks(cfg: Config, m: Machine, tid: nat, sid: nat, first: NetState, n: Machine) {
    && tid in m.threads && m.threads[tid].PedThread? && tid in n.threads && sid in n.threads && sid in m.threads
    && n.threads == m.threads[tid := n.threads[tid]][sid := n.threads[sid]]
    && n.threads[tid].PedThread? && Clear(n, n.threads[sid]) && n.threads[sid].sinkPc == AtSinkLock
    && m.threads[sid].SinkThread? && n.threads[sid].q == m.threads[sid].q
    && var t := m.threads[tid]; var a := IssuedAuthority(cfg, IssuingState(m, first), t.candidate, t.now, t.ids);
       && RecordOf(n.sys.activations, t.ids.authorityId) == Some(ActivationOf(cfg, t.candidate, a))
       && n.sys.activations.used == m.sys.activations.used
  }

  lemma IssuedLadder(cfg: Config, m: Machine, n: Machine, tid: nat, sid: nat, net: NetState)
    requires Ideal(cfg.p) && Poised(cfg, m, tid, sid, net)
    requires Installed(cfg, IssuingState(m, net), n.sys, m.threads[tid].candidate, m.threads[tid].now,
                       m.threads[tid].ids)
    ensures Ladder(cfg, n.sys, m.threads[sid].q).None?
    ensures m.threads[sid].q.authority.Some?
            && CanConsume(n.sys.activations, m.threads[sid].q.authority.value.authorityId)
    ensures n.sys.activations.used == m.sys.activations.used && n.sys.net.epochs == net.epochs
    ensures m.sinkLocks == map[] && m.netLocks == map[] && Unstarted(m.threads[sid])
  {
    hide Ladder, Permitted, IssuedAuthority, InScope, ActivationOf, RecordFor, ExpiryOf, Ideal;
    var t := m.threads[tid];
    IssuedPasses(cfg, IssuingState(m, net), n.sys, t.candidate, t.now, t.ids, m.threads[sid].q);
    UnusedWhenPassed(cfg, n.sys, m.threads[sid].q);
  }

  /** The checks pass, and then the environment moves. */
  lemma OvertakenAtLocks(cfg: Config, m: Machine, sid: nat, net: NetState, effectId: string) returns (acts: seq<Action>)
    requires sid in m.threads && m.threads[sid].SinkThread? && Unstarted(m.threads[sid])
    requires m.sinkLocks == map[] && m.netLocks == map[]
    requires Ladder(cfg, m.sys, m.threads[sid].q).None? && NotBelow(net.epochs, m.sys.net.epochs)
    ensures var n := Exec(cfg, m, acts);
            && Sandwich.AllRaise(cfg, m, acts) && sid in n.threads && n.threads == m.threads[sid := n.threads[sid]]
            && Clear(n, n.threads[sid]) && n.threads[sid].sinkPc == AtSinkLock && n.threads[sid].q == m.threads[sid].q
            && n.sys.activations == m.sys.activations && n.sys.net.epochs == net.epochs
            && n.log != [] && n.log[|n.log| - 1] == n.sys.net
  {
    hide Exec, Moved, Ladder, Sandwich.AllRaise, NotBelow, CanConsume;
    UnusedWhenPassed(cfg, m.sys, m.threads[sid].q);
    var checks := ChecksPass(cfg, m, sid, effectId);
    var n := Exec(cfg, m, checks);
    EnvRaises(cfg, n, net);
    MovedIs(cfg, n, net);
    Extend(cfg, m, checks, [EnvAct(net)]);
    acts := checks + [EnvAct(net)];
  }

  lemma ChecksAcross(cfg: Config, m: Machine, tid: nat, sid: nat, first: NetState, second: NetState, effectId: string)
    returns (acts: seq<Action>)
    requires Ideal(cfg.p) && Poised(cfg, m, tid, sid, first)
    requires NotBelow(first.epochs, m.sys.net.epochs) && NotBelow(second.epochs, first.epochs)
    ensures var n := Exec(cfg, m, acts);
            && Sandwich.AllRaise(cfg, m, acts) && AtTheLocks(cfg, m, tid, sid, first, n)
            && n.log != [] && n.log[|n.log| - 1] == n.sys.net && n.sys.net.epochs == second.epochs
  {
    hide Exec, Ladder, Ready, Sandwich.AllRaise, NotBelow, IssuedAuthority, ShowsIssued, ActivationOf, RecordFor,
         Clear, Initial,
         IssuingState, CanConsume, Ideal;
    PoisedIsReady(cfg, m, tid, sid, first);
    var issue := IssuesAcross(cfg, m, tid, first);
    var n := Exec(cfg, m, issue);
    IssuedLadder(cfg, m, n, tid, sid, first);
    var checks := OvertakenAtLocks(cfg, n, sid, second, effectId);
    Extend(cfg, m, issue, checks);
    acts := issue + checks;
  }

  lemma PoisedIsReady(cfg: Config, m: Machine, tid: nat, sid: nat, net: NetState)
    requires Poised(cfg, m, tid, sid, net)
    ensures tid in m.threads && m.threads[tid].PedThread? && Ready(cfg, m, tid)
  {
    hide Permitted, ShowsIssued;
  }

  /** What every schedule of rising epochs keeps. */
  lemma Reached(cfg: Config, m: Machine, acts: seq<Action>)
    requires Ideal(cfg.p) && Initial(m) && Sandwich.AllRaise(cfg, m, acts)
    ensures Sandwich.ReadInv(cfg, Exec(cfg, m, acts)) && OwnershipInv(Exec(cfg, m, acts))
  {
    hide Exec, Sandwich.AllRaise, OwnershipInv, Sandwich.ReadInv, Sandwich.Rising, Ideal;
    Sandwich.InitialReads(cfg, m);
    InitialOwnership(m);
    Sandwich.ExecKeeps(cfg, m, acts);
    OwnershipAlways(cfg, m, acts);
  }

  /** The call has ended, the sink has finished, and nobody else has started. */
  lemma NobodyOwns(cfg: Config, m: Machine, tid: nat, sid: nat, first: NetState, n: Machine, o: Machine, id: string)
    requires Initial(m) && AtTheLocks(cfg, m, tid, sid, first, n)
    requires sid in o.threads && o.threads == n.threads[sid := o.threads[sid]]
    requires o.threads[sid].SinkThread? && o.threads[sid].sinkPc.Finished?
    ensures forall k :: k in o.threads ==> !Owns(o.threads[k], id)
  {
    hide IssuedAuthority, ActivationOf, Clear;
    forall k | k in o.threads ensures !Owns(o.threads[k], id) {
      if k != tid && k != sid { assert Unstarted(m.threads[k]); }
    }
  }

  /** For every permitted candidate with a fresh nonce, and any two moves that raise epochs: there is a
      schedule in which policy compares the first epochs, the authority is issued and presented under the
      second, and the effect is made under the third. */
  lemma EffectAcrossMoves(cfg: Config, m: Machine, tid: nat, sid: nat, first: NetState, second: NetState,
                          effectId: string)
    returns (acts: seq<Action>, i: nat)
    requires Ideal(cfg.p) && Poised(cfg, m, tid, sid, first)
    requires NotBelow(first.epochs, m.sys.net.epochs) && NotBelow(second.epochs, first.epochs)
    ensures Sandwich.AllRaise(cfg, m, acts)
    ensures var n, t := Exec(cfg, m, acts), m.threads[tid];
            var a := IssuedAuthority(cfg, IssuingState(m, first), t.candidate, t.now, t.ids);
            MadeUnder(n, i, a, first.epochs, second.epochs) && n.applied[i].q.candidate == t.candidate
  {
    hide Exec, Ready, Sandwich.AllRaise, NotBelow, IssuedAuthority, OwnershipInv, Sandwich.ReadInv, ActivationOf, Clear,
         IssuingState, ExpiryOf, Initial, Owns, Ideal;
    PoisedIsReady(cfg, m, tid, sid, first);
    var t := m.threads[tid];
    var a := IssuedAuthority(cfg, IssuingState(m, first), t.candidate, t.now, t.ids);
    var checks := ChecksAcross(cfg, m, tid, sid, first, second, effectId);
    var n := Exec(cfg, m, checks);
    Reached(cfg, m, checks);
    InitialIsUnused(m);
    NothingApplied(cfg, n);
    var commits := CommitsNow(cfg, n, sid, effectId);
    Extend(cfg, m, checks, commits);
    acts := checks + commits;
    Reached(cfg, m, acts);
    NobodyOwns(cfg, m, tid, sid, first, n, Exec(cfg, m, acts), a.authorityId);
    AuthorityIs(cfg, m, first, t);
    i := UsedWasApplied(cfg, Exec(cfg, m, acts), t.candidate, a);
  }

  lemma InitialIsUnused(m: Machine)
    requires Initial(m)
    ensures m.sys.activations.used == {}
  {
  }

  lemma AuthorityIs(cfg: Config, m: Machine, net: NetState, t: Thread)
    requires t.PedThread?
    ensures var a := IssuedAuthority(cfg, IssuingState(m, net), t.candidate, t.now, t.ids);
            a.authorityId == t.ids.authorityId && a.binding.epochs == net.epochs
  {
    hide IssuedAuthority;
    IssuedParts(cfg, IssuingState(m, net), t.candidate, t.now, t.ids);
  }

  /** The effect's authority is bound to a later epoch than policy compared, and the epoch is later still
      when the effect is made. */
  predicate Missed(n: Machine, i: nat, k: nat) {
    && i < |n.applied| && n.applied[i].q.authority.Some? && n.applied[i].appliedAt < |n.log|
    && var bound := At(n.applied[i].q.authority.value.binding.epochs, k + 2);
       && Backing.Compared(n.applied[i].q.candidate.policyState, k) < bound
       && bound < At(n.log[n.applied[i].appliedAt].epochs, k + 2)
  }

  lemma ComparedIsCurrent(cfg: Config, m: Machine, tid: nat, k: nat)
    requires Ready(cfg, m, tid) && k < 3
    ensures Backing.Compared(m.threads[tid].candidate.policyState, k) == At(m.sys.net.epochs, k + 2)
  {
  }

  lemma MovesAreMissed(cfg: Config, m: Machine, tid: nat, sid: nat, first: NetState, second: NetState,
                       effectId: string, k: nat)
    returns (acts: seq<Action>, i: nat)
    requires Ideal(cfg.p) && Poised(cfg, m, tid, sid, first) && k < 3
    requires NotBelow(first.epochs, m.sys.net.epochs) && NotBelow(second.epochs, first.epochs)
    requires At(first.epochs, k + 2) > At(m.sys.net.epochs, k + 2) && At(second.epochs, k + 2) > At(first.epochs, k + 2)
    ensures Sandwich.AllRaise(cfg, m, acts) && Missed(Exec(cfg, m, acts), i, k)
  {
    hide Exec, Ready, Sandwich.AllRaise, NotBelow, IssuedAuthority, Initial, ShowsIssued, At, Backing.Compared, Ideal;
    PoisedIsReady(cfg, m, tid, sid, first);
    ComparedIsCurrent(cfg, m, tid, k);
    acts, i := EffectAcrossMoves(cfg, m, tid, sid, first, second, effectId);
  }

  // ---- the reference candidate, overtaken ----

  function Later(epochs: Epochs, steps: int): Epochs {
    Epochs(epochs.topology, epochs.configuration, epochs.policy + steps, epochs.authority + steps,
           epochs.revocation + steps)
  }

  function RaisedState(steps: int): NetState {
    ReferenceState().(epochs := Later(ReferenceState().epochs, steps))
  }

  function ReferenceSystem(): System {
    System(ReferenceState(), {}, EMPTY, NO_ACTIVATIONS, map[])
  }

  /** What the reference call will issue, presented. */
  function ReferencePresentation(p: Primitives, ids: Ids): Presentation {
    var c := ReferenceCandidate(p, Some(120));
    Present(c, IssuedAuthority(ReferenceConfig(p), ReferenceSystem().(net := RaisedState(1)), c, 0, ids),
            EffectFor(c, ReferenceParameters(Some(120)), Some(120)), 0)
  }

  /** The reference call and one sink, in a fresh system. */
  function ReferenceMachine(p: Primitives, ids: Ids): Machine {
    Machine(ReferenceSystem(),
            map[0 := PedThread(ReferenceCandidate(p, Some(120)), 0, ids, AtValidate, ViewOf(ReferenceState()), [], [],
                               []),
                1 := SinkThread(ReferencePresentation(p, ids), 0, 0, AtEnvelope, [])],
            map[], map[], [ReferenceState()], [], map[], [])
  }

  lemma ReferenceIsPoised(p: Primitives, ids: Ids)
    ensures Poised(ReferenceConfig(p), ReferenceMachine(p, ids), 0, 1, RaisedState(1))
  {
    hide Permitted, ReferenceCandidate, IssuedAuthority, InScope, ExpiryOf, EffectFor, DigestOf, ReferenceParameters;
    var c := ReferenceCandidate(p, Some(120));
    ReferenceIsPermitted(p, Some(120));
    NamedAs(p, Some(120));
    EffectForInScope(p, c, ReferenceParameters(Some(120)), Some(120));
  }

  /** A concrete run of it: policy compares epoch 42, the authority is bound to 43, the effect is made at 44. */
  lemma ReferenceIsOvertaken(p: Primitives, ids: Ids, effectId: string) returns (acts: seq<Action>, i: nat)
    requires Ideal(p)
    ensures var n := Exec(ReferenceConfig(p), ReferenceMachine(p, ids), acts);
            && Sandwich.AllRaise(ReferenceConfig(p), ReferenceMachine(p, ids), acts) && Missed(n, i, 0)
  {
    hide Exec, ReferenceMachine, Poised, Sandwich.AllRaise, Missed, Ideal;
    ReferenceIsPoised(p, ids);
    ReferenceStarts(p, ids);
    acts, i := MovesAreMissed(ReferenceConfig(p), ReferenceMachine(p, ids), 0, 1, RaisedState(1), RaisedState(2),
                              effectId, 0);
  }

  lemma ReferenceStarts(p: Primitives, ids: Ids)
    ensures ReferenceMachine(p, ids).sys.net == ReferenceState()
  {
  }
}
