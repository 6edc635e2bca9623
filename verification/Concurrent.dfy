/** Any number of threads inside the two boundaries at once, one shared read or write at a time.
    The sink's checks run without a lock; then come the two locks, the second look at the used set,
    consumption, the effect, and the undoing if the network raises. The protected domain looks at each
    field that policy reads, reserves, raises the unlocked counter by a read and a write, commits, and
    reads the state reference and the five epochs, while the environment may change everything. */
module Concurrent {
  import opened Wrappers
  import opened Models
  import opened Evidence
  import opened State
  import opened Policy
  import opened SystemState
  import opened Ped
  import opened Sink

  datatype SinkPc =
    | AtEnvelope | AtEvidence | AtActivation
    | AtUsed(record: ActivationRecord) | AtReference(record: ActivationRecord) | AtEpochs(record: ActivationRecord)
    | AtScope(record: ActivationRecord)
    | AtSinkLock | AtNetLock | AtRecheck | AtConsume | AtApply | AtUnconsume
    | AtRelease(outcome: Outcome) | AtSinkRelease(outcome: Outcome) | Finished(outcome: Outcome)

  datatype PedPc =
    | AtValidate | AtReserve
    | AtTopology(decision: Decision) | AtConfiguration(decision: Decision) | AtStateReference(decision: Decision)
    | AtCounter(decision: Decision) | AtCounterWrite(decision: Decision, counter: int)
    | AtCounterReturn(decision: Decision)
    | AtEvidenceReference(decision: Decision) | AtCommit(decision: Decision, entry: Entry)
    | AtReadReference(decision: Decision, record: EvidenceRecord)
    | AtReadEpochs(decision: Decision, record: EvidenceRecord, reference: string)
    | Ended(result: PedResult)

  /** A call in progress. `sinkLock` and `netLock` name the sink object's own lock and its network's;
      `sinkReads` holds the times at which the sink read the epochs. For the domain, `view` is what
      policy read, at the times `viewAt`, and `seen` are the epochs it bound, at the times `pedReads`. */
  datatype Thread =
    | SinkThread(q: Presentation, sinkLock: nat, netLock: nat, sinkPc: SinkPc, sinkReads: seq<nat>)
    | PedThread(candidate: Candidate, now: int, ids: Ids, pedPc: PedPc, view: PolicyView, viewAt: seq<nat>,
                seen: seq<int>, pedReads: seq<nat>)

  /** An installed authority, with what policy read, when, and when the domain read its five epochs. */
  datatype Grant = Grant(candidate: Candidate, authority: Authority, view: PolicyView, viewAt: seq<nat>,
                         readAt: seq<nat>)

  /** An effect, with the times at which the sink read the five epochs. */
  datatype Applied = Applied(q: Presentation, effectId: string, readAt: seq<nat>, appliedAt: nat)

  /** `log[t]` is the protected state at time `t`; its last element is the state now. `committed` are
      the entries committed to the evidence store, in order. */
  datatype Machine = Machine(
    sys: System, threads: map<nat, Thread>, sinkLocks: map<nat, nat>, netLocks: map<nat, nat>,
    log: seq<NetState>, committed: seq<Entry>, grants: map<string, Grant>, applied: seq<Applied>)

  /** One step of the schedule. A thread waiting for a lock, or finished, does nothing when chosen.
      `effectId` is the id drawn by the network, `None` when it raises. The environment may change
      anything in the protected state but the counter. */
  datatype Action =
    | SinkAct(tid: nat, effectId: Option<string>)
    | PedAct(tid: nat)
    | EnvAct(net: NetState)

  /** The five epochs in the order both boundaries read them. */
  function At(e: Epochs, k: nat): int {
    if k == 0 then e.topology else if k == 1 then e.configuration else if k == 2 then e.policy
    else if k == 3 then e.authority else e.revocation
  }

  function EpochRung(k: nat): Rung {
    if k == 0 then TopologyChanged else if k == 1 then ConfigurationChanged else if k == 2 then PolicyEpochChanged
    else if k == 3 then AuthorityEpochChanged else RevocationEpochChanged
  }

  function Now(m: Machine): nat { if m.log == [] then 0 else |m.log| - 1 }

  function IdOf(q: Presentation): Option<string> {
    if q.authority.Some? then Some(q.authority.value.authorityId) else None
  }

  function DeniedBy(q: Presentation, rung: Rung): Outcome {
    Answered(Denial(q.requestId, rung, IdOf(q)))
  }

  function Done(q: Presentation, rung: Rung): SinkPc {
    Finished(DeniedBy(q, rung))
  }

  /** Before the locks: the thread only reads. */
  predicate Checking(pc: SinkPc) {
    pc.AtEnvelope? || pc.AtEvidence? || pc.AtActivation? || pc.AtUsed? || pc.AtReference? || pc.AtEpochs? || pc.AtScope?
  }

  function CheckedBy(t: Thread, r: Option<Rung>, pc: SinkPc): Thread
    requires t.SinkThread?
  {
    t.(sinkPc := if r.Some? then Done(t.q, r.value) else pc)
  }

  /** One checking step: what the thread becomes after its next read. */
  function SinkCheck(cfg: Config, m: Machine, t: Thread): (t': Thread)
    requires t.SinkThread? && Checking(t.sinkPc)
    ensures t'.SinkThread? && t'.q == t.q && t'.sinkLock == t.sinkLock && t'.netLock == t.netLock
  {
    var q := t.q;
    if q.authority.None? then t.(sinkPc := Done(q, NoAuthority))
    else
      var a, c := q.authority.value, q.candidate;
      match t.sinkPc
      case AtEnvelope => CheckedBy(t, CheckEnvelope(cfg, c, a, q.now), AtEvidence)
      case AtEvidence =>
        CheckedBy(t, CheckEvidence(c, a, Evidence.Get(m.sys.evidence, a.binding.evidenceId)), AtActivation)
      case AtActivation =>
        var record := RecordOf(m.sys.activations, a.authorityId);
        var r := CheckActivation(cfg, q.sink.sinkId, c, a, q.now, record);
        CheckedBy(t, r, if r.Some? then AtActivation else AtUsed(record.value))
      case AtUsed(record) =>
        var used := if a.authorityId in m.sys.activations.used then Some(AlreadyUsed) else None;
        CheckedBy(t, First(used, CheckSink(q.sink, c, a)), AtReference(record))
      case AtReference(record) =>
        var same := a.binding.protectedStateReference == m.sys.net.protectedStateReference;
        CheckedBy(t, if !same then Some(StateReferenceMismatch) else None, AtEpochs(record))
      case AtEpochs(record) =>
        var k := |t.sinkReads|;
        if k >= 5 then t.(sinkPc := AtScope(record))
        else if At(a.binding.epochs, k) != At(m.sys.net.epochs, k) then t.(sinkPc := Done(q, EpochRung(k)))
        else t.(sinkReads := t.sinkReads + [Now(m)])
      case AtScope(record) => CheckedBy(t, CheckScope(cfg, c, a, record, q.effect), AtSinkLock)
  }

  /** From the locks on, where the thread is after its next step. */
  function CommitMove(m: Machine, t: Thread, effectId: Option<string>): SinkPc
    requires t.SinkThread? && !Checking(t.sinkPc) && t.q.authority.Some?
  {
    var id := t.q.authority.value.authorityId;
    match t.sinkPc
    case AtSinkLock => if t.sinkLock in m.sinkLocks then AtSinkLock else AtNetLock
    case AtNetLock => if t.netLock in m.netLocks then AtNetLock else AtRecheck
    case AtRecheck => if id in m.sys.activations.used then AtRelease(DeniedBy(t.q, UsedUnderLock)) else AtConsume
    case AtConsume => if CanConsume(m.sys.activations, id) then AtApply else AtRelease(DeniedBy(t.q, NotConsumed))
    case AtApply =>
      if effectId.None? then AtUnconsume else AtRelease(Answered(Allowed(t.q.requestId, id, effectId.value)))
    case AtUnconsume => AtRelease(NetworkRaised)
    case AtRelease(outcome) => AtSinkRelease(outcome)
    case AtSinkRelease(outcome) => Finished(outcome)
    case Finished(outcome) => Finished(outcome)
  }

  predicate CanConsume(activations: Activations, id: string) {
    id in activations.records && id !in activations.used
  }

  /** The used set after the step. */
  function CommitUsed(m: Machine, t: Thread): set<string>
    requires t.SinkThread? && t.q.authority.Some?
  {
    var id, used := t.q.authority.value.authorityId, m.sys.activations.used;
    if t.sinkPc.AtConsume? && CanConsume(m.sys.activations, id) then used + {id}
    else if t.sinkPc.AtUnconsume? then used - {id}
    else used
  }

  predicate Applying(t: Thread, effectId: Option<string>) {
    t.SinkThread? && t.sinkPc.AtApply? && effectId.Some? && t.q.authority.Some?
  }

  /** Taking a free lock, and giving a lock back; the two locks are taken and given back in opposite order. */
  function SinkLocksAfter(m: Machine, tid: nat, t: Thread): map<nat, nat>
    requires t.SinkThread?
  {
    if t.sinkPc.AtSinkLock? && t.sinkLock !in m.sinkLocks then m.sinkLocks[t.sinkLock := tid]
    else if t.sinkPc.AtSinkRelease? then m.sinkLocks - {t.sinkLock}
    else m.sinkLocks
  }

  function NetLocksAfter(m: Machine, tid: nat, t: Thread): map<nat, nat>
    requires t.SinkThread?
  {
    if t.sinkPc.AtNetLock? && t.netLock !in m.netLocks then m.netLocks[t.netLock := tid]
    else if t.sinkPc.AtRelease? then m.netLocks - {t.netLock}
    else m.netLocks
  }

  /** One step from the locks on: the thread moves, and only what its place names is written. */
  function SinkCommit(m: Machine, tid: nat, t: Thread, effectId: Option<string>): Machine
    requires t.SinkThread? && !Checking(t.sinkPc) && t.q.authority.Some?
  {
    m.(threads := m.threads[tid := t.(sinkPc := CommitMove(m, t, effectId))],
       sinkLocks := SinkLocksAfter(m, tid, t), netLocks := NetLocksAfter(m, tid, t),
       sys := m.sys.(
         activations := m.sys.activations.(used := CommitUsed(m, t)),
         effects := if Applying(t, effectId) then
             m.sys.effects[effectId.value := EffectOf(t.q.candidate, t.q.authority.value, t.q.effect)]
           else m.sys.effects),
       applied := if Applying(t, effectId) then m.applied + [Applied(t.q, effectId.value, t.sinkReads, Now(m))]
                  else m.applied)
  }

  /** The sink thread's next step. */
  function SinkNext(cfg: Config, m: Machine, tid: nat, t: Thread, effectId: Option<string>): Machine
    requires t.SinkThread?
  {
    if Checking(t.sinkPc) then m.(threads := m.threads[tid := SinkCheck(cfg, m, t)])
    else if t.q.authority.None? then m
    else SinkCommit(m, tid, t, effectId)
  }

  function EpochsOf(seen: seq<int>): Epochs
    requires |seen| == 5
  {
    Epochs(seen[0], seen[1], seen[2], seen[3], seen[4])
  }

  /** The state as the domain put it together from its separate reads. */
  function NetSeen(reference: string, seen: seq<int>): NetState
    requires |seen| == 5
  {
    NetState(EpochsOf(seen), reference, 0, {}, {}, {}, false)
  }

  /** The policy view with one more field read from the state. */
  function Look(view: PolicyView, current: PolicyView, k: nat): PolicyView {
    PolicyView(
      if k == 0 then current.policyEpoch else view.policyEpoch,
      if k == 1 then current.authorityEpoch else view.authorityEpoch,
      if k == 2 then current.revocationEpoch else view.revocationEpoch,
      if k == 3 then current.sinkIds else view.sinkIds,
      if k == 4 then current.jurisdictionsRestrict else view.jurisdictionsRestrict,
      if k == 5 then current.jurisdictions else view.jurisdictions,
      if k == 6 then current.purposesRestrict else view.purposesRestrict,
      if k == 7 then current.purposes else view.purposes,
      if k == 8 then current.requireAttestation else view.requireAttestation)
  }

  /** The decision before the state is read into it. */
  function Opened(t: Thread, denial: Option<Reason>): Decision
    requires t.PedThread?
  {
    Decision(t.ids.decisionId, t.candidate.candidateActId, denial.None?, 0, 0, "", 0, None,
             if denial.None? then None else Some(Code(denial.value)))
  }

  function EntryFor(t: Thread, decision: Decision, reference: string): Entry
    requires t.PedThread?
  {
    Entry(t.ids.evidenceId, t.candidate.candidateActId, t.ids.decisionId, DecisionText(decision.allow), reference,
          decision.monotonicCounter, t.now)
  }

  /** The authority a domain thread signs once it has read all five epochs. */
  function BuiltAuthority(cfg: Config, t: Thread): Authority
    requires t.PedThread? && t.pedPc.AtReadEpochs? && |t.seen| == 5
  {
    Signed(cfg.p, DraftAuthority(cfg, NetSeen(t.pedPc.reference, t.seen), t.candidate, t.pedPc.record, t.now, t.ids))
  }

  /** Ready to install, with an id that is not taken. */
  predicate Installs(m: Machine, t: Thread) {
    t.PedThread? && t.pedPc.AtReadEpochs? && |t.seen| == 5 && t.ids.authorityId !in m.sys.activations.records
  }

  function Validated(cfg: Config, t: Thread): PedPc
    requires t.PedThread?
  {
    var denial := ValidateView(cfg.policy, t.view, t.candidate, t.now);
    if denial.Some? then AtTopology(Opened(t, denial)) else AtReserve
  }

  function AfterCommit(cfg: Config, m: Machine, t: Thread): PedPc
    requires t.PedThread? && t.pedPc.AtCommit?
  {
    var decision := t.pedPc.decision.(evidenceId := Some(t.pedPc.entry.evidenceId));
    if decision.allow then AtReadReference(decision, NewRecord(cfg.p, m.sys.evidence.tail, t.pedPc.entry))
    else Ended(Denied(decision))
  }

  /** What a domain thread becomes after its next step. */
  function PedMove(cfg: Config, m: Machine, t: Thread): (t': Thread)
    requires t.PedThread?
    ensures t'.PedThread? && t'.candidate == t.candidate && t'.now == t.now && t'.ids == t.ids
  {
    var net := m.sys.net;
    match t.pedPc
    case AtValidate =>
      if |t.viewAt| < 9 then t.(view := Look(t.view, ViewOf(net), |t.viewAt|), viewAt := t.viewAt + [Now(m)])
      else t.(pedPc := Validated(cfg, t))
    case AtReserve =>
      var seen := t.candidate.freshness.nonce in m.sys.nonces;
      t.(pedPc := AtTopology(Opened(t, if seen then Some(REPLAY_DETECTED) else None)))
    case AtTopology(d) => t.(pedPc := AtConfiguration(d.(topologyEpoch := net.epochs.topology)))
    case AtConfiguration(d) => t.(pedPc := AtStateReference(d.(configurationEpoch := net.epochs.configuration)))
    case AtStateReference(d) => t.(pedPc := AtCounter(d.(stateReference := net.protectedStateReference)))
    case AtCounter(d) => t.(pedPc := AtCounterWrite(d, net.monotonicCounter))
    case AtCounterWrite(d, _) => t.(pedPc := AtCounterReturn(d))
    case AtCounterReturn(d) => t.(pedPc := AtEvidenceReference(d.(monotonicCounter := net.monotonicCounter)))
    case AtEvidenceReference(d) => t.(pedPc := AtCommit(d, EntryFor(t, d, net.protectedStateReference)))
    case AtCommit(_, _) => t.(pedPc := AfterCommit(cfg, m, t))
    case AtReadReference(d, record) => t.(pedPc := AtReadEpochs(d, record, net.protectedStateReference))
    case AtReadEpochs(d, _, _) =>
      if |t.seen| < 5 then t.(seen := t.seen + [At(net.epochs, |t.seen|)], pedReads := t.pedReads + [Now(m)])
      else t.(pedPc := Ended(if Installs(m, t) then Issued(d, BuiltAuthority(cfg, t)) else Raised))
    case Ended(_) => t
  }

  /** What the step does to the shared state. */
  function PedWrites(cfg: Config, m: Machine, t: Thread): System
    requires t.PedThread?
  {
    if t.pedPc.AtReserve? then m.sys.(nonces := m.sys.nonces + {t.candidate.freshness.nonce})
    else if t.pedPc.AtCounterWrite? then m.sys.(net := m.sys.net.(monotonicCounter := t.pedPc.counter + 1))
    else if t.pedPc.AtCommit? then m.sys.(evidence := Commit(cfg.p, m.sys.evidence, t.pedPc.entry))
    else if Installs(m, t) then
      m.sys.(activations := m.sys.activations.(records :=
        m.sys.activations.records[t.ids.authorityId := ActivationOf(cfg, t.candidate, BuiltAuthority(cfg, t))]))
    else m.sys
  }

  function GrantBy(cfg: Config, t: Thread): Grant
    requires t.PedThread? && t.pedPc.AtReadEpochs? && |t.seen| == 5
  {
    Grant(t.candidate, BuiltAuthority(cfg, t), t.view, t.viewAt, t.pedReads)
  }

  /** The protected domain's next step. */
  function PedNext(cfg: Config, m: Machine, tid: nat, t: Thread): Machine
    requires t.PedThread?
  {
    m.(threads := m.threads[tid := PedMove(cfg, m, t)], sys := PedWrites(cfg, m, t),
       committed := if t.pedPc.AtCommit? then m.committed + [t.pedPc.entry] else m.committed,
       grants := if Installs(m, t) then m.grants[t.ids.authorityId := GrantBy(cfg, t)] else m.grants)
  }

  /** One step, before time moves on. */
  function Act(cfg: Config, m: Machine, act: Action): Machine {
    match act
    case SinkAct(tid, effectId) =>
      if tid in m.threads && m.threads[tid].SinkThread? then SinkNext(cfg, m, tid, m.threads[tid], effectId) else m
    case PedAct(tid) =>
      if tid in m.threads && m.threads[tid].PedThread? then PedNext(cfg, m, tid, m.threads[tid]) else m
    case EnvAct(net) => m.(sys := m.sys.(net := net.(monotonicCounter := m.sys.net.monotonicCounter)))
  }

  function Next(cfg: Config, m: Machine, act: Action): Machine {
    var n := Act(cfg, m, act);
    n.(log := n.log + [n.sys.net])
  }

  function Exec(cfg: Config, m: Machine, acts: seq<Action>): Machine
    decreases acts
  {
    if acts == [] then m else Exec(cfg, Next(cfg, m, acts[0]), acts[1..])
  }

  /** A thread before its first step. */
  predicate Unstarted(t: Thread) {
    if t.SinkThread? then t.sinkPc.AtEnvelope? && t.sinkReads == []
    else t.pedPc.AtValidate? && t.viewAt == [] && t.seen == [] && t.pedReads == []
  }

  /** A fresh system with any threads about to start: no locks, nothing installed, nothing applied. */
  predicate Initial(m: Machine) {
    && m.sys.activations == NO_ACTIVATIONS && m.sys.effects == map[] && m.sinkLocks == map[] && m.netLocks == map[]
    && m.log == [m.sys.net] && m.grants == map[] && m.applied == []
    && forall tid :: tid in m.threads ==> Unstarted(m.threads[tid])
  }
}
