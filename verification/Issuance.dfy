/** What stands behind an authority in any interleaving: policy passed on values that were each current
    when read, an ALLOW record for it is in the evidence chain, and its nonce was reserved for it alone. */
module Issuance {
  import opened Wrappers
  import opened Crypto
  import opened Models
  import opened Evidence
  import opened State
  import opened Policy
  import opened SystemState
  import opened Ped
  import opened Sink
  import opened Concurrent

  // ---- what policy read ----

  /** The k-th field of the view is as it is in this state. */
  predicate Saw(view: PolicyView, net: NetState, k: nat) {
    Look(view, ViewOf(net), k) == view
  }

  lemma LookTwice(view: PolicyView, current: PolicyView, j: nat)
    ensures Look(Look(view, current, j), current, j) == Look(view, current, j)
  {
  }

  /** Reading different fields commutes. */
  lemma LooksCommute(view: PolicyView, u: PolicyView, k: nat, v: PolicyView, j: nat)
    requires k < j < 9
    ensures Look(Look(view, v, j), u, k) == Look(Look(view, u, k), v, j)
  {
  }

  lemma LookSees(view: PolicyView, net: NetState, j: nat)
    ensures Saw(Look(view, ViewOf(net), j), net, j)
  {
    hide Look, ViewOf;
    LookTwice(view, ViewOf(net), j);
  }

  lemma LookKeeps(view: PolicyView, net: NetState, k: nat, current: NetState, j: nat)
    requires k < j < 9 && Saw(view, net, k)
    ensures Saw(Look(view, ViewOf(current), j), net, k)
  {
    hide Look, ViewOf;
    LooksCommute(view, ViewOf(net), k, ViewOf(current), j);
  }

  /** The fields read so far were each current when read, in order, the last before now. */
  predicate Looked(log: seq<NetState>, view: PolicyView, times: seq<nat>) {
    && |times| <= 9
    && (forall k :: 0 <= k < |times| ==> times[k] + 1 < |log| && Saw(view, log[times[k]], k))
    && (forall j, k :: 0 <= j < k < |times| ==> times[j] <= times[k])
  }

  lemma LookedLater(log: seq<NetState>, e: NetState, view: PolicyView, times: seq<nat>)
    requires Looked(log, view, times)
    ensures Looked(log + [e], view, times)
  {
    hide Saw;
  }

  lemma LookedOnce(log: seq<NetState>, e: NetState, view: PolicyView, times: seq<nat>)
    requires log != [] && Looked(log, view, times) && |times| < 9
    ensures Looked(log + [e], Look(view, ViewOf(log[|log| - 1]), |times|), times + [|log| - 1])
  {
    hide Saw, Look;
    var current := log[|log| - 1];
    LookSees(view, current, |times|);
    forall k | 0 <= k < |times| ensures Saw(Look(view, ViewOf(current), |times|), log[times[k]], k) {
      LookKeeps(view, log[times[k]], k, current, |times|);
    }
  }

  // ---- what a domain thread knows on its way ----

  /** The call has passed policy and, from the decision on, has reserved its nonce. */
  predicate Allowing(pc: PedPc) {
    match pc
    case AtValidate => false
    case AtReserve => true
    case AtTopology(d) => d.allow
    case AtConfiguration(d) => d.allow
    case AtStateReference(d) => d.allow
    case AtCounter(d) => d.allow
    case AtCounterWrite(d, _) => d.allow
    case AtCounterReturn(d) => d.allow
    case AtEvidenceReference(d) => d.allow
    case AtCommit(d, _) => d.allow
    case AtReadReference(_, _) => true
    case AtReadEpochs(_, _, _) => true
    case Ended(_) => false
  }

  /** The entry is this call's own, with this decision. */
  predicate EntryOfCall(t: Thread, entry: Entry, allow: bool)
    requires t.PedThread?
  {
    && entry.evidenceId == t.ids.evidenceId && entry.candidateActId == t.candidate.candidateActId
    && entry.decisionId == t.ids.decisionId && entry.decision == DecisionText(allow) && entry.committedAt == t.now
  }

  predicate Holds(t: Thread, record: EvidenceRecord, log: seq<EvidenceRecord>)
    requires t.PedThread?
  {
    record in log && EntryOfCall(t, record.entry, true)
  }

  predicate Recording(t: Thread, chain: seq<EvidenceRecord>)
    requires t.PedThread?
  {
    && (t.pedPc.AtCommit? ==> EntryOfCall(t, t.pedPc.entry, t.pedPc.decision.allow))
    && (t.pedPc.AtReadReference? || t.pedPc.AtReadEpochs? ==> Holds(t, t.pedPc.record, chain))
  }

  predicate Reads(t: Thread)
    requires t.PedThread?
  {
    && (!t.pedPc.AtValidate? ==> |t.viewAt| == 9)
    && (t.pedReads == [] || (|t.viewAt| == 9 && t.viewAt[8] < t.pedReads[0]))
    && (t.pedPc.AtReadEpochs? || t.pedPc.Ended? || t.pedReads == []) && |t.pedReads| == |t.seen|
  }

  predicate Passing(cfg: Config, t: Thread)
    requires t.PedThread?
  {
    Allowing(t.pedPc) ==> ValidateView(cfg.policy, t.view, t.candidate, t.now).None?
  }

  predicate Issuing(cfg: Config, log: seq<NetState>, chain: seq<EvidenceRecord>, t: Thread) {
    t.PedThread? ==> Looked(log, t.view, t.viewAt) && Reads(t) && Passing(cfg, t) && Recording(t, chain)
  }

  /** The record is the ALLOW record that the authority names, for this candidate. */
  predicate Names(cfg: Config, c: Candidate, a: Authority, record: EvidenceRecord) {
    && record.entry.decision == "ALLOW" && record.entry.candidateActId == c.candidateActId
    && record.entry.decisionId == a.decisionId && record.entry.committedAt == a.lifetime.issuedAt
    && a.binding.evidenceId == record.entry.evidenceId && a.binding.evidenceDigest.value == record.digest
    && a.binding.candidateActDigest.value == CandidateDigest(cfg.p, c) && a.binding.nonce == c.freshness.nonce
    && a.lifetime.expiresAt == ExpiryOf(cfg.policy, c, a.lifetime.issuedAt)
  }

  predicate Evidenced(cfg: Config, chain: seq<EvidenceRecord>, g: Grant) {
    exists k :: 0 <= k < |chain| && Names(cfg, g.candidate, g.authority, chain[k])
  }

  /** Policy passed on what it read, each value current when read, before the epochs were read to bind. */
  predicate Vetted(cfg: Config, log: seq<NetState>, g: Grant) {
    && |g.viewAt| == 9 && Looked(log, g.view, g.viewAt) && g.readAt != [] && g.viewAt[8] < g.readAt[0]
    && ValidateView(cfg.policy, g.view, g.candidate, g.authority.lifetime.issuedAt).None?
  }

  ghost predicate IssuanceInv(cfg: Config, m: Machine) {
    && m.log != [] && m.log[|m.log| - 1] == m.sys.net
    && m.sys.evidence == CommitAll(cfg.p, m.committed)
    && (forall tid :: tid in m.threads ==> Issuing(cfg, m.log, History(cfg.p, m.committed), m.threads[tid]))
    && (forall id :: id in m.grants ==>
          Vetted(cfg, m.log, m.grants[id]) && Evidenced(cfg, History(cfg.p, m.committed), m.grants[id]))
  }

  // ---- time passing and the chain growing ----

  lemma IssuingLater(cfg: Config, log: seq<NetState>, e: NetState, chain: seq<EvidenceRecord>,
                     chain': seq<EvidenceRecord>, t: Thread)
    requires Issuing(cfg, log, chain, t) && chain <= chain'
    ensures Issuing(cfg, log + [e], chain', t)
  {
    hide Looked, Reads, Passing, EntryOfCall;
    if t.PedThread? { LookedLater(log, e, t.view, t.viewAt); }
  }

  lemma GrantLater(cfg: Config, log: seq<NetState>, e: NetState, chain: seq<EvidenceRecord>,
                   chain': seq<EvidenceRecord>, g: Grant)
    requires Vetted(cfg, log, g) && Evidenced(cfg, chain, g) && chain <= chain'
    ensures Vetted(cfg, log + [e], g) && Evidenced(cfg, chain', g)
  {
    hide Looked, ValidateView, Names;
    LookedLater(log, e, g.view, g.viewAt);
    var k :| 0 <= k < |chain| && Names(cfg, g.candidate, g.authority, chain[k]);
    assert Names(cfg, g.candidate, g.authority, chain'[k]);
  }

  // ---- one step of the thread itself ----

  lemma MovesLooking(cfg: Config, m: Machine, t: Thread, e: NetState)
    requires m.log != [] && m.log[|m.log| - 1] == m.sys.net && t.PedThread? && Looked(m.log, t.view, t.viewAt)
    ensures var t' := PedMove(cfg, m, t); Looked(m.log + [e], t'.view, t'.viewAt)
  {
    hide Saw, Look, BuiltAuthority, NewRecord, ValidateView, At;
    LookedLater(m.log, e, t.view, t.viewAt);
    if t.pedPc.AtValidate? && |t.viewAt| < 9 { LookedOnce(m.log, e, t.view, t.viewAt); }
  }

  lemma LookedBefore(log: seq<NetState>, view: PolicyView, times: seq<nat>)
    requires Looked(log, view, times)
    ensures |times| <= 9 && (|times| == 9 ==> times[8] + 1 < |log|)
  {
    hide Saw;
  }

  lemma MovesReading(cfg: Config, m: Machine, t: Thread)
    requires t.PedThread? && Reads(t) && Looked(m.log, t.view, t.viewAt)
    ensures Reads(PedMove(cfg, m, t))
  {
    hide Looked, Look, BuiltAuthority, NewRecord, ValidateView, At;
    LookedBefore(m.log, t.view, t.viewAt);
  }

  lemma MovesPassing(cfg: Config, m: Machine, t: Thread)
    requires t.PedThread? && Passing(cfg, t)
    ensures Passing(cfg, PedMove(cfg, m, t))
  {
    hide Look, BuiltAuthority, NewRecord, ValidateView, At;
  }

  lemma MovesRecording(cfg: Config, m: Machine, t: Thread, chain: seq<EvidenceRecord>, chain': seq<EvidenceRecord>)
    requires t.PedThread? && Recording(t, chain) && chain <= chain'
    requires t.pedPc.AtCommit? ==> NewRecord(cfg.p, m.sys.evidence.tail, t.pedPc.entry) in chain'
    ensures Recording(PedMove(cfg, m, t), chain')
  {
    hide Look, BuiltAuthority, EntryDigest, ValidateView, At;
  }

  /** The chain after the step: one more record when an entry is committed. */
  lemma ChainAfter(cfg: Config, m: Machine, t: Thread)
    requires t.PedThread? && m.sys.evidence == CommitAll(cfg.p, m.committed)
    ensures var n := PedNext(cfg, m, 0, t);
            var chain, chain' := History(cfg.p, m.committed), History(cfg.p, n.committed);
            && n.sys.evidence == CommitAll(cfg.p, n.committed) && chain <= chain'
            && (t.pedPc.AtCommit? ==> NewRecord(cfg.p, m.sys.evidence.tail, t.pedPc.entry) in chain')
  {
    hide PedMove, BuiltAuthority, ActivationOf, History, CommitAll, Commit, NewRecord;
    if t.pedPc.AtCommit? {
      AppendEntry(cfg.p, m.committed, t.pedPc.entry);
      var chain' := History(cfg.p, m.committed + [t.pedPc.entry]);
      assert chain'[|chain'| - 1] == NewRecord(cfg.p, m.sys.evidence.tail, t.pedPc.entry);
    }
  }

  lemma BuiltNames(cfg: Config, t: Thread)
    requires t.PedThread? && t.pedPc.AtReadEpochs? && |t.seen| == 5 && EntryOfCall(t, t.pedPc.record.entry, true)
    ensures Names(cfg, t.candidate, BuiltAuthority(cfg, t), t.pedPc.record)
    ensures BuiltAuthority(cfg, t).lifetime.issuedAt == t.now
  {
    hide Sign, UnsignedPayload, CandidateDigest, Commitment, BoundaryId, ExpiryOf;
  }

  lemma GrantIsIssued(cfg: Config, log: seq<NetState>, chain: seq<EvidenceRecord>, t: Thread)
    requires Issuing(cfg, log, chain, t) && t.PedThread? && t.pedPc.AtReadEpochs? && |t.seen| == 5
    ensures Vetted(cfg, log, GrantBy(cfg, t)) && Evidenced(cfg, chain, GrantBy(cfg, t))
  {
    hide Looked, ValidateView, BuiltAuthority, Names;
    BuiltNames(cfg, t);
    var k :| 0 <= k < |chain| && chain[k] == t.pedPc.record;
    assert Names(cfg, t.candidate, BuiltAuthority(cfg, t), chain[k]);
  }

  // ---- every step keeps it ----

  /** A step changes one thread, extends the chain, adds grants, and moves time on. */
  lemma StepKeeps(cfg: Config, m: Machine, n: Machine, e: NetState)
    requires IssuanceInv(cfg, m) && n.log == m.log + [e] && n.sys.net == e
    requires n.sys.evidence == CommitAll(cfg.p, n.committed)
             && History(cfg.p, m.committed) <= History(cfg.p, n.committed)
    requires forall tid :: tid in n.threads ==>
      (tid in m.threads && n.threads[tid] == m.threads[tid])
        || Issuing(cfg, n.log, History(cfg.p, n.committed), n.threads[tid])
    requires forall id :: id in n.grants ==>
      (id in m.grants && n.grants[id] == m.grants[id])
      || (Vetted(cfg, n.log, n.grants[id]) && Evidenced(cfg, History(cfg.p, n.committed), n.grants[id]))
    ensures IssuanceInv(cfg, n)
  {
    hide Issuing, Vetted, Evidenced, History, CommitAll;
    var chain, chain' := History(cfg.p, m.committed), History(cfg.p, n.committed);
    forall tid | tid in n.threads ensures Issuing(cfg, n.log, chain', n.threads[tid]) {
      if tid in m.threads && n.threads[tid] == m.threads[tid] {
        IssuingLater(cfg, m.log, e, chain, chain', m.threads[tid]);
      }
    }
    forall id | id in n.grants ensures Vetted(cfg, n.log, n.grants[id]) && Evidenced(cfg, chain', n.grants[id]) {
      if id in m.grants && n.grants[id] == m.grants[id] {
        GrantLater(cfg, m.log, e, chain, chain', m.grants[id]);
      }
    }
  }

  lemma MovesIssuing(cfg: Config, m: Machine, t: Thread, e: NetState)
    requires IssuanceInv(cfg, m) && t.PedThread? && Issuing(cfg, m.log, History(cfg.p, m.committed), t)
    ensures Issuing(cfg, m.log + [e], History(cfg.p, PedNext(cfg, m, 0, t).committed), PedMove(cfg, m, t))
  {
    hide PedMove, Looked, Reads, Passing, Recording, History, CommitAll, NewRecord;
    ChainAfter(cfg, m, t);
    MovesLooking(cfg, m, t, e);
    MovesReading(cfg, m, t);
    MovesPassing(cfg, m, t);
    MovesRecording(cfg, m, t, History(cfg.p, m.committed), History(cfg.p, PedNext(cfg, m, 0, t).committed));
  }

  lemma PedKeeps(cfg: Config, m: Machine, tid: nat)
    requires IssuanceInv(cfg, m) && tid in m.threads && m.threads[tid].PedThread?
    ensures IssuanceInv(cfg, Next(cfg, m, PedAct(tid)))
  {
    hide PedMove, PedWrites, Issuing, Vetted, Evidenced, History, CommitAll, NewRecord, GrantBy, IssuanceInv;
    var t, n := m.threads[tid], Next(cfg, m, PedAct(tid));
    var e, chain := n.sys.net, History(cfg.p, m.committed);
    IssuanceParts(cfg, m, tid);
    ChainAfter(cfg, m, t);
    MovesIssuing(cfg, m, t, e);
    if Installs(m, t) {
      GrantIsIssued(cfg, m.log, chain, t);
      GrantLater(cfg, m.log, e, chain, History(cfg.p, n.committed), GrantBy(cfg, t));
    }
    StepKeeps(cfg, m, n, e);
  }

  lemma IssuanceParts(cfg: Config, m: Machine, tid: nat)
    requires IssuanceInv(cfg, m) && tid in m.threads
    ensures m.sys.evidence == CommitAll(cfg.p, m.committed)
    ensures Issuing(cfg, m.log, History(cfg.p, m.committed), m.threads[tid])
  {
    hide Issuing, Vetted, Evidenced, CommitAll, History;
  }

  /** A sink's step does not touch what stands behind authorities. */
  lemma SinkLeaves(cfg: Config, m: Machine, tid: nat, effectId: Option<string>)
    requires tid in m.threads && m.threads[tid].SinkThread?
    ensures var n := SinkNext(cfg, m, tid, m.threads[tid], effectId);
            && tid in n.threads && n.threads[tid].SinkThread? && n.threads == m.threads[tid := n.threads[tid]]
            && n.sys.net == m.sys.net && n.sys.evidence == m.sys.evidence && n.sys.nonces == m.sys.nonces
            && n.sys.activations.records == m.sys.activations.records
            && n.committed == m.committed && n.grants == m.grants && n.log == m.log
  {
    hide SinkCheck, CommitMove, CommitUsed, SinkLocksAfter, NetLocksAfter, EffectOf, Applying, Checking;
  }

  lemma SinkIsNotIssuing(cfg: Config, log: seq<NetState>, chain: seq<EvidenceRecord>, t: Thread)
    requires t.SinkThread?
    ensures Issuing(cfg, log, chain, t)
  {
  }

  lemma NextKeeps(cfg: Config, m: Machine, act: Action)
    requires IssuanceInv(cfg, m)
    ensures IssuanceInv(cfg, Next(cfg, m, act))
  {
    hide SinkNext, PedNext, Issuing, Vetted, Evidenced, History, CommitAll;
    var n := Next(cfg, m, act);
    match act
    case SinkAct(tid, effectId) =>
      if tid in m.threads && m.threads[tid].SinkThread? {
        SinkLeaves(cfg, m, tid, effectId);
        SinkIsNotIssuing(cfg, n.log, History(cfg.p, n.committed), n.threads[tid]);
      }
      StepKeeps(cfg, m, n, n.sys.net);
    case PedAct(tid) =>
      if tid in m.threads && m.threads[tid].PedThread? {
        PedKeeps(cfg, m, tid);
      } else {
        StepKeeps(cfg, m, n, n.sys.net);
      }
    case EnvAct(_) => StepKeeps(cfg, m, n, n.sys.net);
  }

  lemma InitialIssuance(cfg: Config, m: Machine)
    requires Initial(m) && m.sys.evidence == CommitAll(cfg.p, m.committed)
    ensures IssuanceInv(cfg, m)
  {
    hide CommitAll, History;
  }

  // ---- nonces ----

  /** The call holds the nonce it has reserved and has not yet issued under it. */
  predicate Claims(t: Thread, nonce: string) {
    t.PedThread? && Allowing(t.pedPc) && !t.pedPc.AtReserve? && t.candidate.freshness.nonce == nonce
  }

  predicate GrantedFor(grants: map<string, Grant>, id: string, nonce: string) {
    id in grants && grants[id].candidate.freshness.nonce == nonce
  }

  /** A nonce is claimed by at most one call or granted under at most one authority, and then reserved. */
  ghost predicate Reservation(nonces: set<string>, threads: map<nat, Thread>, grants: map<string, Grant>) {
    && (forall tid, n :: tid in threads && Claims(threads[tid], n) ==> n in nonces)
    && (forall id, n :: GrantedFor(grants, id, n) ==> n in nonces)
    && (forall s, t, n :: s in threads && t in threads && Claims(threads[s], n) && Claims(threads[t], n) ==> s == t)
    && (forall tid, id, n :: tid in threads && Claims(threads[tid], n) ==> !GrantedFor(grants, id, n))
    && (forall id, jd, n :: GrantedFor(grants, id, n) && GrantedFor(grants, jd, n) ==> id == jd)
  }

  ghost predicate ReservationInv(m: Machine) {
    Reservation(m.sys.nonces, m.threads, m.grants) && m.sys.activations.records.Keys == m.grants.Keys
  }

  /** A step that claims nothing new. */
  lemma QuietStep(nonces: set<string>, threads: map<nat, Thread>, grants: map<string, Grant>, tid: nat, t': Thread,
                  nonces': set<string>)
    requires Reservation(nonces, threads, grants) && tid in threads && nonces <= nonces'
    requires forall n :: Claims(t', n) ==> Claims(threads[tid], n)
    ensures Reservation(nonces', threads[tid := t'], grants)
  {
    hide Claims, GrantedFor;
  }

  /** Reserving a nonce not seen before. */
  lemma ClaimStep(nonces: set<string>, threads: map<nat, Thread>, grants: map<string, Grant>, tid: nat, t': Thread,
                  nonce: string)
    requires Reservation(nonces, threads, grants) && tid in threads && nonce !in nonces
    requires forall n :: Claims(t', n) ==> n == nonce
    ensures Reservation(nonces + {nonce}, threads[tid := t'], grants)
  {
    hide Claims, GrantedFor;
  }

  /** Issuing: the claim becomes a grant. */
  lemma GrantStep(nonces: set<string>, threads: map<nat, Thread>, grants: map<string, Grant>, tid: nat, t': Thread,
                  id: string, g: Grant)
    requires Reservation(nonces, threads, grants) && tid in threads && id !in grants
    requires Claims(threads[tid], g.candidate.freshness.nonce) && forall n :: !Claims(t', n)
    ensures Reservation(nonces, threads[tid := t'], grants[id := g])
  {
    hide Claims;
    var grants', nonce := grants[id := g], g.candidate.freshness.nonce;
    forall jd, n ensures GrantedFor(grants', jd, n) <==> (if jd == id then n == nonce else GrantedFor(grants, jd, n)) {
    }
  }

  lemma PedReserves(cfg: Config, m: Machine, tid: nat)
    requires ReservationInv(m) && tid in m.threads && m.threads[tid].PedThread?
    ensures ReservationInv(PedNext(cfg, m, tid, m.threads[tid]))
  {
    hide BuiltAuthority, ActivationOf, Commit, Reservation, Look, ValidateView, NewRecord, At;
    var t, n := m.threads[tid], PedNext(cfg, m, tid, m.threads[tid]);
    var nonce, t' := t.candidate.freshness.nonce, n.threads[tid];
    PedClaims(cfg, m, t);
    if t.pedPc.AtReserve? && nonce !in m.sys.nonces {
      ClaimStep(m.sys.nonces, m.threads, m.grants, tid, t', nonce);
    } else if Installs(m, t) {
      BuiltId(cfg, t);
      GrantStep(m.sys.nonces, m.threads, m.grants, tid, t', t.ids.authorityId, GrantBy(cfg, t));
    } else {
      QuietStep(m.sys.nonces, m.threads, m.grants, tid, t', n.sys.nonces);
    }
  }

  lemma BuiltId(cfg: Config, t: Thread)
    requires t.PedThread? && t.pedPc.AtReadEpochs? && |t.seen| == 5
    ensures BuiltAuthority(cfg, t).authorityId == t.ids.authorityId
  {
    hide Sign, UnsignedPayload, CandidateDigest, Commitment, BoundaryId, ExpiryOf;
  }

  /** How a step moves claims: only a successful reservation starts one, and installing ends it. */
  lemma PedClaims(cfg: Config, m: Machine, t: Thread)
    requires t.PedThread?
    ensures var t', nonce := PedMove(cfg, m, t), t.candidate.freshness.nonce;
            && (forall n ::
                Claims(t', n) ==> n == nonce && (Claims(t, n) || (t.pedPc.AtReserve? && nonce !in m.sys.nonces)))
            && (Installs(m, t) ==> Claims(t, nonce) && forall n :: !Claims(t', n))
  {
    hide BuiltAuthority, Look, ValidateView, NewRecord, At;
  }

  lemma NextReserves(cfg: Config, m: Machine, act: Action)
    requires ReservationInv(m)
    ensures ReservationInv(Next(cfg, m, act))
  {
    hide SinkNext, PedNext, Reservation;
    match act
    case SinkAct(tid, effectId) =>
      if tid in m.threads && m.threads[tid].SinkThread? {
        SinkLeaves(cfg, m, tid, effectId);
        var n := SinkNext(cfg, m, tid, m.threads[tid], effectId);
        SinkClaimsNothing(n.threads[tid]);
        QuietStep(m.sys.nonces, m.threads, m.grants, tid, n.threads[tid], n.sys.nonces);
      }
    case PedAct(tid) => if tid in m.threads && m.threads[tid].PedThread? { PedReserves(cfg, m, tid); }
    case EnvAct(_) =>
  }

  lemma SinkClaimsNothing(t: Thread)
    requires t.SinkThread?
    ensures forall n :: !Claims(t, n)
  {
  }

  lemma InitialReservation(m: Machine)
    requires Initial(m)
    ensures ReservationInv(m)
  {
  }
}
