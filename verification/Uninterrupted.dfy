/** A thread that runs alone from start to end does exactly what the one-step call does: the small
    steps of either boundary refine the calls of which runs are made. */
module Uninterrupted {
  import opened Wrappers
  import opened Crypto
  import opened Models
  import opened Evidence
  import opened State
  import opened Policy
  import opened SystemState
  import opened Ped
  import opened Sink
  import opened Concurrent
  import opened Issuance
  import opened Locks

  /** The epochs still to be compared, from the k-th on. */
  function EpochsFrom(bound: Epochs, now: Epochs, k: nat): Option<Rung>
    decreases 5 - k
  {
    if k >= 5 then None
    else if At(bound, k) != At(now, k) then Some(EpochRung(k))
    else EpochsFrom(bound, now, k + 1)
  }

  lemma EpochsFromStart(a: Authority, reference: string, epochs: Epochs)
    ensures CheckState(a, reference, epochs)
            == if a.binding.protectedStateReference != reference then Some(StateReferenceMismatch)
               else EpochsFrom(a.binding.epochs, epochs, 0)
  {
    var b := a.binding.epochs;
    assert EpochsFrom(b, epochs, 4) == if b.revocation != epochs.revocation then Some(RevocationEpochChanged) else None;
    assert EpochsFrom(b, epochs, 2)
        == if b.policy != epochs.policy then Some(PolicyEpochChanged) else EpochsFrom(b, epochs, 3);
  }

  // ---- what is left of the ladder at each place ----

  function FromReference(cfg: Config, sys: System, q: Presentation, record: ActivationRecord): Option<Rung>
    requires q.authority.Some?
  {
    First(CheckState(q.authority.value, sys.net.protectedStateReference, sys.net.epochs),
          CheckScope(cfg, q.candidate, q.authority.value, record, q.effect))
  }

  function FromUsed(cfg: Config, sys: System, q: Presentation, record: ActivationRecord): Option<Rung>
    requires q.authority.Some?
  {
    First(if q.authority.value.authorityId in sys.activations.used then Some(AlreadyUsed) else None,
          First(CheckSink(q.sink, q.candidate, q.authority.value), FromReference(cfg, sys, q, record)))
  }

  function FromActivation(cfg: Config, sys: System, q: Presentation): Option<Rung>
    requires q.authority.Some?
  {
    var record := RecordOf(sys.activations, q.authority.value.authorityId);
    var r := CheckActivation(cfg, q.sink.sinkId, q.candidate, q.authority.value, q.now, record);
    if r.Some? then r else FromUsed(cfg, sys, q, record.value)
  }

  function FromEvidence(cfg: Config, sys: System, q: Presentation): Option<Rung>
    requires q.authority.Some?
  {
    First(CheckEvidence(q.candidate, q.authority.value,
                        Evidence.Get(sys.evidence, q.authority.value.binding.evidenceId)),
          FromActivation(cfg, sys, q))
  }

  lemma WholeLadder(cfg: Config, sys: System, q: Presentation)
    requires q.authority.Some?
    ensures Ladder(cfg, sys, q)
            == First(CheckEnvelope(cfg, q.candidate, q.authority.value, q.now), FromEvidence(cfg, sys, q))
  {
    hide CheckEnvelope, CheckEvidence, AuthorityDigest, CandidateDigest, CheckSink, CheckState, CheckScope;
  }

  /** The record in the thread's hand is the stored one. */
  predicate InHand(sys: System, t: Thread)
    requires t.SinkThread? && t.q.authority.Some?
  {
    (t.sinkPc.AtUsed? || t.sinkPc.AtReference? || t.sinkPc.AtEpochs? || t.sinkPc.AtScope?) ==>
      RecordOf(sys.activations, t.q.authority.value.authorityId) == Some(t.sinkPc.record)
  }

  function Pending(cfg: Config, sys: System, t: Thread): Option<Rung>
    requires t.SinkThread? && t.q.authority.Some? && Checking(t.sinkPc)
  {
    match t.sinkPc
    case AtEnvelope => Ladder(cfg, sys, t.q)
    case AtEvidence => FromEvidence(cfg, sys, t.q)
    case AtActivation => FromActivation(cfg, sys, t.q)
    case AtUsed(record) => FromUsed(cfg, sys, t.q, record)
    case AtReference(record) => FromReference(cfg, sys, t.q, record)
    case AtEpochs(record) =>
      First(EpochsFrom(t.q.authority.value.binding.epochs, sys.net.epochs, |t.sinkReads|),
            CheckScope(cfg, t.q.candidate, t.q.authority.value, record, t.q.effect))
    case AtScope(record) => CheckScope(cfg, t.q.candidate, t.q.authority.value, record, t.q.effect)
  }

  /** The next read settles the ladder's answer, or leaves it pending unchanged. */
  lemma PendingStep(cfg: Config, m: Machine, t: Thread)
    requires t.SinkThread? && t.q.authority.Some? && Checking(t.sinkPc) && InHand(m.sys, t)
    requires !t.sinkPc.AtEpochs? && !t.sinkPc.AtScope? ==> t.sinkReads == []
    ensures var t' := SinkCheck(cfg, m, t);
            if Checking(t'.sinkPc) then
              InHand(m.sys, t') && Pending(cfg, m.sys, t') == Pending(cfg, m.sys, t)
              && (!t'.sinkPc.AtEpochs? && !t'.sinkPc.AtScope? ==> t'.sinkReads == [])
            else if Pending(cfg, m.sys, t).Some? then t'.sinkPc == Done(t.q, Pending(cfg, m.sys, t).value)
            else t'.sinkPc == AtSinkLock
  {
    hide CheckEnvelope, CheckEvidence, AuthorityDigest, CandidateDigest, CheckSink, CheckScope, CheckState, Ladder,
         DeniedBy, At, EpochRung;
    WholeLadder(cfg, m.sys, t.q);
    EpochsFromStart(t.q.authority.value, m.sys.net.protectedStateReference, m.sys.net.epochs);
  }

  // ---- running alone ----

  predicate OnlyRuns(acts: seq<Action>, tid: nat, applied: Option<string>) {
    forall i :: 0 <= i < |acts| ==> acts[i] == SinkAct(tid, applied)
  }

  /** Only this thread has moved, and it is still the same call. */
  predicate OnlyMoved(m: Machine, n: Machine, tid: nat) {
    && tid in m.threads && tid in n.threads && n.threads == m.threads[tid := n.threads[tid]]
    && m.threads[tid].SinkThread? && n.threads[tid].SinkThread? && n.threads[tid].q == m.threads[tid].q
    && n.threads[tid].sinkLock == m.threads[tid].sinkLock && n.threads[tid].netLock == m.threads[tid].netLock
  }

  lemma OnlyMovedTwice(m: Machine, n: Machine, o: Machine, tid: nat)
    requires OnlyMoved(m, n, tid) && OnlyMoved(n, o, tid)
    ensures OnlyMoved(m, o, tid)
  {
  }

  lemma {:induction false} ExecAppends(cfg: Config, m: Machine, first: seq<Action>, second: seq<Action>)
    ensures Exec(cfg, m, first + second) == Exec(cfg, Exec(cfg, m, first), second)
    decreases |first|
  {
    hide Next;
    if first == [] {
      assert first + second == second;
    } else {
      assert (first + second)[1..] == first[1..] + second;
      ExecAppends(cfg, Next(cfg, m, first[0]), first[1..], second);
    }
  }

  /** One checking step changes nothing but the thread. */
  lemma CheckAlone(cfg: Config, m: Machine, tid: nat, applied: Option<string>)
    requires tid in m.threads && m.threads[tid].SinkThread? && Checking(m.threads[tid].sinkPc)
    ensures var n := Next(cfg, m, SinkAct(tid, applied));
            && OnlyMoved(m, n, tid) && n.threads[tid] == SinkCheck(cfg, m, m.threads[tid])
            && n.sys == m.sys && n.sinkLocks == m.sinkLocks && n.netLocks == m.netLocks
  {
    hide SinkCheck, PedNext, SinkCommit;
  }

  predicate Fit(sys: System, t: Thread) {
    t.SinkThread? && t.q.authority.Some? && Checking(t.sinkPc) && InHand(sys, t)
    && (!t.sinkPc.AtEpochs? && !t.sinkPc.AtScope? ==> t.sinkReads == [])
  }

  /** Alone, the checks end with the ladder's answer, the shared state untouched. */
  lemma {:induction false} ChecksAlone(cfg: Config, m: Machine, tid: nat,
                                       applied: Option<string>) returns (acts: seq<Action>)
    requires tid in m.threads && Fit(m.sys, m.threads[tid])
    ensures var n, t := Exec(cfg, m, acts), m.threads[tid];
            && OnlyRuns(acts, tid, applied) && OnlyMoved(m, n, tid)
            && n.sys == m.sys && n.sinkLocks == m.sinkLocks && n.netLocks == m.netLocks
            && n.threads[tid].sinkPc
               == (if Pending(cfg, m.sys, t).Some? then Done(t.q, Pending(cfg, m.sys, t).value) else AtSinkLock)
    decreases Rank(m.threads[tid])
  {
    hide SinkCheck, Next, Pending, InHand, Checking, Done;
    var t, next := m.threads[tid], Next(cfg, m, SinkAct(tid, applied));
    CheckAlone(cfg, m, tid, applied);
    PendingStep(cfg, m, t);
    CheckAdvances(cfg, m, t);
    if Checking(next.threads[tid].sinkPc) {
      var rest := ChecksAlone(cfg, next, tid, applied);
      acts := [SinkAct(tid, applied)] + rest;
      assert acts[1..] == rest;
      OnlyMovedTwice(m, next, Exec(cfg, m, acts), tid);
    } else {
      acts := [SinkAct(tid, applied)];
      OneStep(cfg, m, acts[0]);
    }
  }

  // ---- from the locks on ----

  predicate Deciding(pc: SinkPc) {
    pc.AtSinkLock? || pc.AtNetLock? || pc.AtRecheck? || pc.AtConsume?
  }

  /** Nobody else is in the way. */
  predicate Clear(m: Machine, t: Thread) {
    && t.SinkThread? && !Checking(t.sinkPc) && t.q.authority.Some?
    && (t.sinkPc.AtSinkLock? ==> t.sinkLock !in m.sinkLocks)
    && (t.sinkPc.AtSinkLock? || t.sinkPc.AtNetLock? ==> t.netLock !in m.netLocks)
    && (Deciding(t.sinkPc) ==> CanConsume(m.sys.activations, t.q.authority.value.authorityId))
  }

  function Using(sys: System, used: set<string>): System {
    sys.(activations := sys.activations.(used := used))
  }

  function Effected(sys: System, q: Presentation, effectId: string): System
    requires q.authority.Some?
  {
    sys.(effects := sys.effects[effectId := EffectOf(q.candidate, q.authority.value, q.effect)])
  }

  /** What is still to come: the final state and the outcome. */
  function Rest(sys: System, t: Thread, applied: Option<string>): (System, Outcome)
    requires t.SinkThread? && !Checking(t.sinkPc) && t.q.authority.Some?
  {
    var id, used := t.q.authority.value.authorityId, sys.activations.used;
    if t.sinkPc.AtRelease? || t.sinkPc.AtSinkRelease? || t.sinkPc.Finished? then (sys, t.sinkPc.outcome)
    else if t.sinkPc.AtUnconsume? || applied.None? then (Using(sys, used - {id}), NetworkRaised)
    else (Effected(if t.sinkPc.AtApply? then sys else Using(sys, used + {id}), t.q, applied.value),
          Answered(Allowed(t.q.requestId, id, applied.value)))
  }

  lemma RestStep(m: Machine, tid: nat, applied: Option<string>)
    requires tid in m.threads && Clear(m, m.threads[tid])
    ensures var t := m.threads[tid]; var n := SinkCommit(m, tid, t, applied);
            && tid in n.threads && Clear(n, n.threads[tid])
               && Rest(n.sys, n.threads[tid], applied) == Rest(m.sys, t, applied)
  {
    hide EffectOf, DeniedBy, Allowed;
    var t := m.threads[tid];
    var id, used := t.q.authority.value.authorityId, m.sys.activations.used;
    if id !in used {
      assert (used + {id}) - {id} == used - {id};
    }
  }

  lemma {:induction false} CommitAlone(cfg: Config, m: Machine, tid: nat,
                                       applied: Option<string>) returns (acts: seq<Action>)
    requires tid in m.threads && Clear(m, m.threads[tid])
    ensures var n, rest := Exec(cfg, m, acts), Rest(m.sys, m.threads[tid], applied);
            && OnlyRuns(acts, tid, applied) && OnlyMoved(m, n, tid)
            && n.sys == rest.0 && n.threads[tid].sinkPc == Finished(rest.1)
    decreases Rank(m.threads[tid])
  {
    hide SinkCommit, Next, Rest, Clear, Rank;
    var t := m.threads[tid];
    if Rank(t) == 0 {
      acts := [];
      EndOfRest(m, t, applied);
    } else {
      var next := Next(cfg, m, SinkAct(tid, applied));
      CommitNext(cfg, m, tid, applied);
      var rest := CommitAlone(cfg, next, tid, applied);
      acts := [SinkAct(tid, applied)] + rest;
      assert acts[1..] == rest;
      OnlyMovedTwice(m, next, Exec(cfg, m, acts), tid);
    }
  }

  lemma EndOfRest(m: Machine, t: Thread, applied: Option<string>)
    requires Clear(m, t) && Rank(t) == 0
    ensures t.SinkThread? && !Checking(t.sinkPc) && t.q.authority.Some?
            && t.sinkPc == Finished(Rest(m.sys, t, applied).1)
    ensures Rest(m.sys, t, applied).0 == m.sys
  {
  }

  lemma CommitNext(cfg: Config, m: Machine, tid: nat, applied: Option<string>)
    requires tid in m.threads && Clear(m, m.threads[tid]) && Rank(m.threads[tid]) > 0
    ensures var n := Next(cfg, m, SinkAct(tid, applied));
            && OnlyMoved(m, n, tid) && Clear(n, n.threads[tid]) && Rank(n.threads[tid]) < Rank(m.threads[tid])
            && Rest(n.sys, n.threads[tid], applied) == Rest(m.sys, m.threads[tid], applied)
  {
    hide PedNext, SinkCheck, CommitMove, CommitUsed, SinkLocksAfter, NetLocksAfter, Applying, EffectOf, Rest, Rank;
    RestStep(m, tid, applied);
    ClearIsAble(m, tid);
    CommitAdvances(m, tid, applied);
  }

  lemma ClearIsAble(m: Machine, tid: nat)
    requires tid in m.threads && Clear(m, m.threads[tid]) && Rank(m.threads[tid]) > 0
    ensures Able(m, tid)
  {
  }

  // ---- the whole call ----

  /** A sink thread that runs alone, both its locks free, ends with the state and the answer of the
      one-step call, report included, and leaves the other threads alone. */
  lemma SinkCallAlone(cfg: Config, m: Machine, tid: nat, applied: Option<string>) returns (acts: seq<Action>)
    requires tid in m.threads && m.threads[tid].SinkThread? && Unstarted(m.threads[tid])
    requires m.threads[tid].sinkLock !in m.sinkLocks && m.threads[tid].netLock !in m.netLocks
    ensures var n, step := Exec(cfg, m, acts), SinkStep(cfg, m.sys, m.threads[tid].q, applied);
            && OnlyRuns(acts, tid, applied) && OnlyMoved(m, n, tid)
            && n.sys == step.0 && n.threads[tid].sinkPc == Finished(step.1)
  {
    hide Exec, Ladder, Rank, SinkStep, Next;
    var t := m.threads[tid];
    if t.q.authority.None? {
      acts := [SinkAct(tid, applied)];
      NothingPresented(cfg, m, tid, applied);
      OneStep(cfg, m, acts[0]);
    } else {
      var checks := ChecksAlone(cfg, m, tid, applied);
      var middle := Exec(cfg, m, checks);
      LadderDecides(cfg, m.sys, middle.sys, t.q, middle.threads[tid], applied);
      acts := checks;
      if Ladder(cfg, m.sys, t.q).None? {
        ReadyToCommit(cfg, m, middle, tid);
        var commits := CommitAlone(cfg, middle, tid, applied);
        acts := checks + commits;
        ExecAppends(cfg, m, checks, commits);
        OnlyMovedTwice(m, middle, Exec(cfg, m, acts), tid);
      }
    }
  }

  lemma OneStep(cfg: Config, m: Machine, act: Action)
    ensures Exec(cfg, m, [act]) == Next(cfg, m, act)
  {
    hide Next;
    assert [act][1..] == [];
  }

  lemma NothingPresented(cfg: Config, m: Machine, tid: nat, applied: Option<string>)
    requires tid in m.threads && m.threads[tid].SinkThread? && Unstarted(m.threads[tid])
             && m.threads[tid].q.authority.None?
    ensures var n, step := Next(cfg, m, SinkAct(tid, applied)), SinkStep(cfg, m.sys, m.threads[tid].q, applied);
            OnlyMoved(m, n, tid) && n.sys == step.0 && n.threads[tid].sinkPc == Finished(step.1)
  {
    hide Report, Passed, Code, ReasonOf, SinkCommit, PedNext;
  }

  /** The one-step call, case by case of the ladder. */
  lemma LadderDecides(cfg: Config, sys: System, middle: System, q: Presentation, t: Thread, applied: Option<string>)
    requires q.authority.Some? && middle == sys && t.SinkThread? && t.q == q
    requires t.sinkPc == if Ladder(cfg, sys, q).Some? then Done(q, Ladder(cfg, sys, q).value) else AtSinkLock
    ensures Ladder(cfg, sys, q).Some? ==>
              (sys, t.sinkPc) == (SinkStep(cfg, sys, q, applied).0, Finished(SinkStep(cfg, sys, q, applied).1))
    ensures Ladder(cfg, sys, q).None? ==>
              q.authority.value.authorityId !in sys.activations.used
                && Rest(sys, t, applied) == SinkStep(cfg, sys, q, applied)
  {
    hide Ladder, Denial, EffectOf, Allowed;
    if Ladder(cfg, sys, q).None? {
      UnusedWhenPassed(cfg, sys, q);
      assert sys.activations.used - {q.authority.value.authorityId} == sys.activations.used;
    }
  }

  lemma UnusedWhenPassed(cfg: Config, sys: System, q: Presentation)
    requires Ladder(cfg, sys, q).None?
    ensures q.authority.Some? && CanConsume(sys.activations, q.authority.value.authorityId)
  {
    hide CheckEnvelope, CheckEvidence, CheckActivation, CheckSink, CheckState, CheckScope;
  }

  lemma ReadyToCommit(cfg: Config, m: Machine, n: Machine, tid: nat)
    requires OnlyMoved(m, n, tid) && n.sys == m.sys && n.sinkLocks == m.sinkLocks && n.netLocks == m.netLocks
    requires m.threads[tid].sinkLock !in m.sinkLocks && m.threads[tid].netLock !in m.netLocks
    requires n.threads[tid].sinkPc == AtSinkLock && Ladder(cfg, m.sys, m.threads[tid].q).None?
    ensures Clear(n, n.threads[tid])
  {
    UnusedWhenPassed(cfg, m.sys, m.threads[tid].q);
  }

  // ---- the protected domain ----

  /** The final state and the result from each place on, last place first. */
  function Install(cfg: Config, sys: System, t: Thread, d: Decision, record: EvidenceRecord,
                   reference: string): (System, PedResult)
    requires t.PedThread?
  {
    var net := NetState(sys.net.epochs, reference, 0, {}, {}, {}, false);
    var a := Signed(cfg.p, DraftAuthority(cfg, net, t.candidate, record, t.now, t.ids));
    if t.ids.authorityId in sys.activations.records then (sys, Raised)
    else
      (sys.(activations := sys.activations.(
         records := sys.activations.records[t.ids.authorityId := ActivationOf(cfg, t.candidate, a)])),
       Issued(d, a))
  }

  function FromCommit(cfg: Config, sys: System, t: Thread, d: Decision, entry: Entry): (System, PedResult)
    requires t.PedThread?
  {
    var committed := sys.(evidence := Commit(cfg.p, sys.evidence, entry));
    var recorded := d.(evidenceId := Some(entry.evidenceId));
    if !d.allow then (committed, Denied(recorded))
    else Install(cfg, committed, t, recorded, NewRecord(cfg.p, sys.evidence.tail, entry),
                 sys.net.protectedStateReference)
  }

  function FromEvidenceReference(cfg: Config, sys: System, t: Thread, d: Decision): (System, PedResult)
    requires t.PedThread?
  {
    FromCommit(cfg, sys, t, d, EntryFor(t, d, sys.net.protectedStateReference))
  }

  function FromCounterReturn(cfg: Config, sys: System, t: Thread, d: Decision): (System, PedResult)
    requires t.PedThread?
  {
    FromEvidenceReference(cfg, sys, t, d.(monotonicCounter := sys.net.monotonicCounter))
  }

  function FromCounterWrite(cfg: Config, sys: System, t: Thread, d: Decision, counter: int): (System, PedResult)
    requires t.PedThread?
  {
    FromCounterReturn(cfg, sys.(net := sys.net.(monotonicCounter := counter + 1)), t, d)
  }

  function FromTopology(cfg: Config, sys: System, t: Thread, d: Decision): (System, PedResult)
    requires t.PedThread?
  {
    FromConfiguration(cfg, sys, t, d.(topologyEpoch := sys.net.epochs.topology))
  }

  function FromConfiguration(cfg: Config, sys: System, t: Thread, d: Decision): (System, PedResult)
    requires t.PedThread?
  {
    FromStateReference(cfg, sys, t, d.(configurationEpoch := sys.net.epochs.configuration))
  }

  function FromStateReference(cfg: Config, sys: System, t: Thread, d: Decision): (System, PedResult)
    requires t.PedThread?
  {
    FromCounterWrite(cfg, sys, t, d.(stateReference := sys.net.protectedStateReference), sys.net.monotonicCounter)
  }

  function FromReserve(cfg: Config, sys: System, t: Thread): (System, PedResult)
    requires t.PedThread?
  {
    var nonce := t.candidate.freshness.nonce;
    FromTopology(cfg, sys.(nonces := sys.nonces + {nonce}), t,
                 Opened(t, if nonce in sys.nonces then Some(REPLAY_DETECTED) else None))
  }

  function FromValidate(cfg: Config, sys: System, t: Thread): (System, PedResult)
    requires t.PedThread?
  {
    var denial := Validate(cfg.policy, sys.net, t.candidate, t.now);
    if denial.Some? then FromTopology(cfg, sys, t, Opened(t, denial)) else FromReserve(cfg, sys, t)
  }

  function DomainRest(cfg: Config, sys: System, t: Thread): (System, PedResult)
    requires t.PedThread?
  {
    match t.pedPc
    case AtValidate => FromValidate(cfg, sys, t)
    case AtReserve => FromReserve(cfg, sys, t)
    case AtTopology(d) => FromTopology(cfg, sys, t, d)
    case AtConfiguration(d) => FromConfiguration(cfg, sys, t, d)
    case AtStateReference(d) => FromStateReference(cfg, sys, t, d)
    case AtCounter(d) => FromCounterWrite(cfg, sys, t, d, sys.net.monotonicCounter)
    case AtCounterWrite(d, counter) => FromCounterWrite(cfg, sys, t, d, counter)
    case AtCounterReturn(d) => FromCounterReturn(cfg, sys, t, d)
    case AtEvidenceReference(d) => FromEvidenceReference(cfg, sys, t, d)
    case AtCommit(d, entry) => FromCommit(cfg, sys, t, d, entry)
    case AtReadReference(d, record) => Install(cfg, sys, t, d, record, sys.net.protectedStateReference)
    case AtReadEpochs(d, record, reference) => Install(cfg, sys, t, d, record, reference)
    case Ended(result) => (sys, result)
  }

  /** What the call has read so far for what it is doing is current: policy's view while it validates,
      the epochs while it binds them. */
  predicate Reading(sys: System, t: Thread) {
    && t.PedThread? && |t.viewAt| <= 9
    && (t.pedPc.AtValidate? ==> forall k :: 0 <= k < |t.viewAt| ==> Saw(t.view, sys.net, k))
    && |t.seen| <= 5 && (forall k :: 0 <= k < |t.seen| ==> t.seen[k] == At(sys.net.epochs, k))
    && (!t.pedPc.AtReadEpochs? && !t.pedPc.Ended? ==> t.seen == [])
  }

  lemma BuiltWhenRead(cfg: Config, sys: System, t: Thread)
    requires Reading(sys, t) && t.pedPc.AtReadEpochs? && |t.seen| == 5
    ensures var net := NetState(sys.net.epochs, t.pedPc.reference, 0, {}, {}, {}, false);
            BuiltAuthority(cfg, t) == Signed(cfg.p, DraftAuthority(cfg, net, t.candidate, t.pedPc.record, t.now, t.ids))
  {
    hide Signed, DraftAuthority, Saw;
    assert EpochsOf(t.seen) == sys.net.epochs;
  }

  lemma ViewWhenLooked(view: PolicyView, net: NetState)
    requires forall k :: 0 <= k < 9 ==> Saw(view, net, k)
    ensures view == ViewOf(net)
  {
    assert Saw(view, net, 0) && Saw(view, net, 1) && Saw(view, net, 2) && Saw(view, net, 3) && Saw(view, net, 4);
    assert Saw(view, net, 5) && Saw(view, net, 6) && Saw(view, net, 7) && Saw(view, net, 8);
  }

  predicate SameCall(t: Thread, t': Thread) {
    t.PedThread? && t'.PedThread? && t'.candidate == t.candidate && t'.now == t.now && t'.ids == t.ids
  }

  /** Installing looks at the call, not at its place or its reads. */
  lemma SameInstall(cfg: Config, sys: System, t: Thread, t': Thread, d: Decision, record: EvidenceRecord,
                    reference: string)
    requires SameCall(t, t')
    ensures Install(cfg, sys, t', d, record, reference) == Install(cfg, sys, t, d, record, reference)
  {
    hide Signed, DraftAuthority, ActivationOf;
  }

  lemma SameCommit(cfg: Config, sys: System, t: Thread, t': Thread, d: Decision, entry: Entry)
    requires SameCall(t, t')
    ensures FromCommit(cfg, sys, t', d, entry) == FromCommit(cfg, sys, t, d, entry)
  {
    hide Install, Commit, NewRecord;
    forall s: System, e: Decision, record: EvidenceRecord, reference: string
      ensures Install(cfg, s, t', e, record, reference) == Install(cfg, s, t, e, record, reference)
    {
      SameInstall(cfg, s, t, t', e, record, reference);
    }
  }

  lemma SameTopology(cfg: Config, sys: System, t: Thread, t': Thread, d: Decision)
    requires SameCall(t, t')
    ensures FromEvidenceReference(cfg, sys, t', d) == FromEvidenceReference(cfg, sys, t, d)
    ensures FromCounterReturn(cfg, sys, t', d) == FromCounterReturn(cfg, sys, t, d)
    ensures forall counter :: FromCounterWrite(cfg, sys, t', d, counter) == FromCounterWrite(cfg, sys, t, d, counter)
    ensures FromStateReference(cfg, sys, t', d) == FromStateReference(cfg, sys, t, d)
    ensures FromConfiguration(cfg, sys, t', d) == FromConfiguration(cfg, sys, t, d)
    ensures FromTopology(cfg, sys, t', d) == FromTopology(cfg, sys, t, d)
  {
    hide FromCommit;
    forall s: System, e: Decision, entry: Entry
      ensures FromCommit(cfg, s, t', e, entry) == FromCommit(cfg, s, t, e, entry) {
      SameCommit(cfg, s, t, t', e, entry);
    }
  }

  lemma SameReserve(cfg: Config, sys: System, t: Thread, t': Thread)
    requires SameCall(t, t')
    ensures FromReserve(cfg, sys, t') == FromReserve(cfg, sys, t)
    ensures FromValidate(cfg, sys, t') == FromValidate(cfg, sys, t)
  {
    hide FromTopology, Validate;
    forall s: System, d: Decision ensures FromTopology(cfg, s, t', d) == FromTopology(cfg, s, t, d) {
      SameTopology(cfg, s, t, t', d);
    }
  }

  lemma StillReading(cfg: Config, m: Machine, t: Thread)
    requires Reading(m.sys, t)
    ensures Reading(PedWrites(cfg, m, t), PedMove(cfg, m, t))
    ensures SameCall(t, PedMove(cfg, m, t)) && (Rank(t) > 0 ==> Rank(PedMove(cfg, m, t)) < Rank(t))
  {
    hide BuiltAuthority, ActivationOf, Commit, NewRecord, ValidateView, At, Look, Saw;
    var net' := PedWrites(cfg, m, t).net;
    if t.pedPc.AtValidate? {
      forall k | 0 <= k < |t.viewAt| ensures Saw(t.view, net', k) {
        SawWithoutCounter(t.view, m.sys.net, net', k);
      }
    }
    if t.pedPc.AtValidate? && |t.viewAt| < 9 {
      LookSees(t.view, m.sys.net, |t.viewAt|);
      forall k | 0 <= k < |t.viewAt| ensures Saw(Look(t.view, ViewOf(m.sys.net), |t.viewAt|), m.sys.net, k) {
        LookKeeps(t.view, m.sys.net, k, m.sys.net, |t.viewAt|);
      }
    }
  }

  /** Policy does not look at the counter. */
  lemma SawWithoutCounter(view: PolicyView, net: NetState, net': NetState, k: nat)
    requires Saw(view, net, k) && net' == net.(monotonicCounter := net'.monotonicCounter)
    ensures Saw(view, net', k)
  {
  }

  predicate Steady(cfg: Config, m: Machine, t: Thread)
    requires t.PedThread?
  {
    DomainRest(cfg, PedWrites(cfg, m, t), PedMove(cfg, m, t)) == DomainRest(cfg, m.sys, t)
  }

  lemma ValidateStep(cfg: Config, m: Machine, t: Thread)
    requires Reading(m.sys, t) && t.pedPc.AtValidate?
    ensures Steady(cfg, m, t)
  {
    hide FromReserve, FromTopology, ValidateView, Look, Saw, Opened, ViewOf;
    var t' := PedMove(cfg, m, t);
    SameReserve(cfg, m.sys, t, t');
    if |t.viewAt| == 9 {
      ViewWhenLooked(t.view, m.sys.net);
      SameTopology(cfg, m.sys, t, t', Opened(t, ValidateView(cfg.policy, t.view, t.candidate, t.now)));
    }
  }

  lemma ReserveStep(cfg: Config, m: Machine, t: Thread)
    requires Reading(m.sys, t) && t.pedPc.AtReserve?
    ensures Steady(cfg, m, t)
  {
    hide FromTopology, Opened, Saw;
    var t' := PedMove(cfg, m, t);
    SameTopology(cfg, PedWrites(cfg, m, t), t, t', t'.pedPc.decision);
  }

  /** From the decision to the evidence. */
  lemma DecideStep(cfg: Config, m: Machine, t: Thread)
    requires Reading(m.sys, t)
    requires t.pedPc.AtTopology? || t.pedPc.AtConfiguration? || t.pedPc.AtStateReference? || t.pedPc.AtCounter?
             || t.pedPc.AtCounterWrite? || t.pedPc.AtCounterReturn?
    ensures Steady(cfg, m, t)
  {
    hide FromEvidenceReference, Saw;
    var t' := PedMove(cfg, m, t);
    SameTopology(cfg, PedWrites(cfg, m, t), t, t', t'.pedPc.decision);
  }

  lemma RecordStep(cfg: Config, m: Machine, t: Thread)
    requires Reading(m.sys, t) && (t.pedPc.AtEvidenceReference? || t.pedPc.AtCommit? || t.pedPc.AtReadReference?)
    ensures Steady(cfg, m, t)
  {
    hide Install, Commit, NewRecord, Saw;
    var t', sys' := PedMove(cfg, m, t), PedWrites(cfg, m, t);
    if t.pedPc.AtEvidenceReference? {
      SameCommit(cfg, sys', t, t', t'.pedPc.decision, t'.pedPc.entry);
    } else if t'.pedPc.AtReadReference? {
      SameInstall(cfg, sys', t, t', t'.pedPc.decision, t'.pedPc.record, sys'.net.protectedStateReference);
    } else if t'.pedPc.AtReadEpochs? {
      SameInstall(cfg, sys', t, t', t'.pedPc.decision, t'.pedPc.record, t'.pedPc.reference);
    }
  }

  lemma BindStep(cfg: Config, m: Machine, t: Thread)
    requires Reading(m.sys, t) && (t.pedPc.AtReadEpochs? || t.pedPc.Ended?)
    ensures Steady(cfg, m, t)
  {
    hide BuiltAuthority, ActivationOf, Signed, DraftAuthority, At, Saw;
    if t.pedPc.AtReadEpochs? {
      if |t.seen| == 5 {
        BuiltWhenRead(cfg, m.sys, t);
      } else {
        SameInstall(cfg, m.sys, t, PedMove(cfg, m, t), t.pedPc.decision, t.pedPc.record, t.pedPc.reference);
      }
    }
  }

  /** Each step of the domain leaves what is to come as it was. */
  lemma DomainStep(cfg: Config, m: Machine, t: Thread)
    requires Reading(m.sys, t)
    ensures Steady(cfg, m, t)
  {
    hide Steady, Saw;
    if t.pedPc.AtValidate? {
      ValidateStep(cfg, m, t);
    } else if t.pedPc.AtReserve? {
      ReserveStep(cfg, m, t);
    } else if t.pedPc.AtEvidenceReference? || t.pedPc.AtCommit? || t.pedPc.AtReadReference? {
      RecordStep(cfg, m, t);
    } else if t.pedPc.AtReadEpochs? || t.pedPc.Ended? {
      BindStep(cfg, m, t);
    } else {
      DecideStep(cfg, m, t);
    }
  }

  lemma {:induction false} DomainAlone(cfg: Config, m: Machine, tid: nat) returns (acts: seq<Action>)
    requires tid in m.threads && Reading(m.sys, m.threads[tid])
    ensures var n, rest := Exec(cfg, m, acts), DomainRest(cfg, m.sys, m.threads[tid]);
            && (forall i :: 0 <= i < |acts| ==> acts[i] == PedAct(tid))
            && tid in n.threads && n.threads == m.threads[tid := n.threads[tid]] && n.threads[tid].PedThread?
            && n.sys == rest.0 && n.threads[tid].pedPc == Ended(rest.1)
            && n.sinkLocks == m.sinkLocks && n.netLocks == m.netLocks
    decreases Rank(m.threads[tid])
  {
    hide PedMove, PedWrites, DomainRest, Reading, Rank, GrantBy;
    var t := m.threads[tid];
    ReadingIsDomain(m.sys, t);
    if Rank(t) == 0 {
      acts := [];
      EndOfDomain(cfg, m.sys, t);
    } else {
      var next := Next(cfg, m, PedAct(tid));
      DomainStep(cfg, m, t);
      StillReading(cfg, m, t);
      var rest := DomainAlone(cfg, next, tid);
      acts := [PedAct(tid)] + rest;
      assert acts[1..] == rest;
    }
  }

  lemma ReadingIsDomain(sys: System, t: Thread)
    requires Reading(sys, t)
    ensures t.PedThread?
  {
    hide Saw;
  }

  lemma EndOfDomain(cfg: Config, sys: System, t: Thread)
    requires t.PedThread? && Rank(t) == 0
    ensures t.pedPc == Ended(DomainRest(cfg, sys, t).1) && DomainRest(cfg, sys, t).0 == sys
  {
  }

  /** The whole of what is to come is the one-step call. */
  lemma DomainWhole(cfg: Config, sys: System, t: Thread)
    requires t.PedThread? && t.pedPc.AtValidate?
    ensures DomainRest(cfg, sys, t) == PedStep(cfg, sys, t.candidate, t.now, t.ids)
  {
    hide Validate, ActivationOf, Commit, NewRecord, Signed, CandidateDigest, Commitment, BoundaryId, ExpiryOf;
    SameDraft(cfg, sys.net, t);
    IssuedId(cfg, sys, t);
    ActivationId(cfg, t.candidate, IssuedAuthority(cfg, sys, t.candidate, t.now, t.ids));
  }

  lemma IssuedId(cfg: Config, sys: System, t: Thread)
    requires t.PedThread?
    ensures IssuedAuthority(cfg, sys, t.candidate, t.now, t.ids).authorityId == t.ids.authorityId
  {
    hide Sign, UnsignedPayload, CandidateDigest, Commitment, BoundaryId, ExpiryOf, NewRecord, EntryOf;
  }

  lemma ActivationId(cfg: Config, c: Candidate, a: Authority)
    ensures ActivationOf(cfg, c, a).authorityId == a.authorityId
  {
    hide AuthorityDigest, CandidateDigest;
  }

  /** Of the state, the authority holds the reference and the epochs only. */
  lemma SameDraft(cfg: Config, net: NetState, t: Thread)
    requires t.PedThread?
    ensures forall record :: DraftAuthority(cfg, net, t.candidate, record, t.now, t.ids)
              == DraftAuthority(cfg, NetState(net.epochs, net.protectedStateReference, 0, {}, {}, {}, false),
                                t.candidate, record, t.now, t.ids)
  {
    hide CandidateDigest, Commitment, BoundaryId, ExpiryOf;
  }

  /** A domain thread that runs alone ends with the state and the result of the one-step call, its
      decision and its authority included, and leaves the other threads alone. */
  lemma PedCallAlone(cfg: Config, m: Machine, tid: nat) returns (acts: seq<Action>)
    requires tid in m.threads && m.threads[tid].PedThread? && Unstarted(m.threads[tid])
    ensures var n, t := Exec(cfg, m, acts), m.threads[tid]; var step := PedStep(cfg, m.sys, t.candidate, t.now, t.ids);
            && (forall i :: 0 <= i < |acts| ==> acts[i] == PedAct(tid))
            && tid in n.threads && n.threads == m.threads[tid := n.threads[tid]] && n.threads[tid].PedThread?
            && n.sys == step.0 && n.threads[tid].pedPc == Ended(step.1)
  {
    hide Exec, PedStep, DomainRest;
    acts := DomainAlone(cfg, m, tid);
    DomainWhole(cfg, m.sys, m.threads[tid]);
  }
}
