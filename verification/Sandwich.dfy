/** What an effect says about the epochs, when both boundaries read them one by one while they rise:
    they held the authority's values, all five at once, from the domain's last read to the sink's first. */
module Sandwich {
  import opened Wrappers
  import opened Crypto
  import opened Models
  import opened Evidence
  import opened State
  import opened SystemState
  import opened Ped
  import opened Sink
  import opened Concurrent
  import opened Finality
  import opened Ownership

  /** Times in order, inside the log, at which the j-th epoch had the j-th bound value. */
  predicate ReadAt(log: seq<NetState>, times: seq<nat>, bound: seq<int>) {
    && |times| == |bound| <= 5
    && (forall j :: 0 <= j < |times| ==> times[j] < |log| && At(log[times[j]].epochs, j) == bound[j])
    && (forall i, j :: 0 <= i < j < |times| ==> times[i] <= times[j])
  }

  function Listed(e: Epochs): seq<int> {
    [e.topology, e.configuration, e.policy, e.authority, e.revocation]
  }

  /** An installed authority is bound to epochs that the domain read, the last one before now. */
  predicate GrantOk(cfg: Config, records: map<string, ActivationRecord>, log: seq<NetState>, id: string, g: Grant) {
    && g.authority.authorityId == id && |g.readAt| == 5 && ReadAt(log, g.readAt, Listed(g.authority.binding.epochs))
    && g.readAt[4] + 1 < |log|
    && id in records && records[id] == ActivationOf(cfg, g.candidate, g.authority)
  }

  ghost predicate GrantsInv(cfg: Config, records: map<string, ActivationRecord>, grants: map<string, Grant>,
                            log: seq<NetState>) {
    records.Keys == grants.Keys && forall id :: id in grants ==> GrantOk(cfg, records, log, id, grants[id])
  }

  /** The presentation shows an installed authority with its candidate, and every epoch read so far
      agreed with the authority and came after the domain's last read. */
  predicate Follows(grants: map<string, Grant>, log: seq<NetState>, q: Presentation, times: seq<nat>) {
    && q.authority.Some? && q.authority.value.authorityId in grants && |times| <= 5
    && var g := grants[q.authority.value.authorityId];
       && g.authority == q.authority.value && g.candidate == q.candidate && |g.readAt| == 5
       && ReadAt(log, times, Listed(g.authority.binding.epochs)[..|times|])
       && forall j :: 0 <= j < |times| ==> g.readAt[4] < times[j]
  }

  predicate Before(pc: SinkPc) { pc.AtEnvelope? || pc.AtEvidence? || pc.AtActivation? }

  predicate Beyond(pc: SinkPc) {
    pc.AtScope? || pc.AtSinkLock? || pc.AtNetLock? || pc.AtRecheck? || pc.AtConsume? || pc.AtApply? || pc.AtUnconsume?
  }

  predicate Over(pc: SinkPc) { pc.AtRelease? || pc.AtSinkRelease? || pc.Finished? }

  predicate ThreadOk(grants: map<string, Grant>, log: seq<NetState>, t: Thread) {
    match t
    case SinkThread(q, _, _, pc, times) =>
      && (Before(pc) || pc.AtUsed? || pc.AtReference? ==> times == [])
      && (!Before(pc) && !Over(pc) ==> Follows(grants, log, q, times))
      && (Beyond(pc) ==> |times| == 5)
    case PedThread(_, _, _, pc, _, _, seen, times) =>
      |seen| <= 5 && ReadAt(log, times, seen)
      && forall j :: 0 <= j < |times| ==> times[j] + 1 < |log|
  }

  /** The effect came after the reads that it rests on. */
  predicate AppliedOk(grants: map<string, Grant>, log: seq<NetState>, x: Applied) {
    Follows(grants, log, x.q, x.readAt) && |x.readAt| == 5 && x.readAt[4] <= x.appliedAt < |log|
  }

  ghost predicate ReadInv(cfg: Config, m: Machine) {
    && m.log != [] && m.log[|m.log| - 1] == m.sys.net
    && GrantsInv(cfg, m.sys.activations.records, m.grants, m.log)
    && (forall tid :: tid in m.threads ==> ThreadOk(m.grants, m.log, m.threads[tid]))
    && (forall i :: 0 <= i < |m.applied| ==> AppliedOk(m.grants, m.log, m.applied[i]))
  }

  // ---- time passing and new grants keep what is known ----

  lemma ReadAtLater(log: seq<NetState>, e: NetState, times: seq<nat>, bound: seq<int>)
    requires ReadAt(log, times, bound)
    ensures ReadAt(log + [e], times, bound)
  {
    hide At;
  }

  lemma GrantsLater(cfg: Config, records: map<string, ActivationRecord>, grants: map<string, Grant>,
                    log: seq<NetState>, e: NetState)
    requires GrantsInv(cfg, records, grants, log)
    ensures GrantsInv(cfg, records, grants, log + [e])
  {
    hide ReadAt, ActivationOf;
    forall id | id in grants ensures GrantOk(cfg, records, log + [e], id, grants[id]) {
      ReadAtLater(log, e, grants[id].readAt, Listed(grants[id].authority.binding.epochs));
    }
  }

  ghost predicate Extends(grants: map<string, Grant>, grants': map<string, Grant>) {
    forall id :: id in grants ==> id in grants' && grants'[id] == grants[id]
  }

  lemma FollowsLater(grants: map<string, Grant>, grants': map<string, Grant>, log: seq<NetState>, e: NetState,
                     q: Presentation, times: seq<nat>)
    requires Follows(grants, log, q, times) && Extends(grants, grants')
    ensures Follows(grants', log + [e], q, times)
  {
    hide ReadAt;
    ReadAtLater(log, e, times, Listed(grants[q.authority.value.authorityId].authority.binding.epochs)[..|times|]);
  }

  lemma ThreadLater(grants: map<string, Grant>, grants': map<string, Grant>, log: seq<NetState>, e: NetState, t: Thread)
    requires ThreadOk(grants, log, t) && Extends(grants, grants')
    ensures ThreadOk(grants', log + [e], t)
  {
    hide ReadAt, Follows;
    match t
    case SinkThread(q, _, _, pc, times) =>
      if !Before(pc) && !Over(pc) {
        FollowsLater(grants, grants', log, e, q, times);
      }
    case PedThread(_, _, _, pc, _, _, seen, times) => ReadAtLater(log, e, times, seen);
  }

  // ---- one step of the thread itself ----

  lemma AppendRead(log: seq<NetState>, times: seq<nat>, bound: seq<int>, e: NetState)
    requires log != [] && ReadAt(log, times, bound) && |times| < 5
    ensures ReadAt(log + [e], times + [|log| - 1], bound + [At(log[|log| - 1].epochs, |times|)])
  {
    hide At;
  }

  lemma ListedAt(e: Epochs, k: nat)
    requires k < 5
    ensures Listed(e)[k] == At(e, k) && Listed(e)[..k + 1] == Listed(e)[..k] + [At(e, k)]
  {
  }

  lemma PassesActivation(cfg: Config, activations: Activations, grants: map<string, Grant>, log: seq<NetState>,
                         q: Presentation)
    requires Ideal(cfg.p) && GrantsInv(cfg, activations.records, grants, log) && q.authority.Some?
    requires CheckActivation(cfg, q.sink.sinkId, q.candidate, q.authority.value, q.now,
                             RecordOf(activations, q.authority.value.authorityId)).None?
    ensures Follows(grants, log, q, [])
  {
    hide AuthorityDigest, CandidateDigest, Ideal;
    var a := q.authority.value;
    var g := grants[a.authorityId];
    assert GrantOk(cfg, activations.records, log, a.authorityId, g);
    AuthorityDigestBinds(cfg.p, a, g.authority);
    CandidateDigestBinds(cfg.p, q.candidate, g.candidate);
  }

  lemma EpochRead(grants: map<string, Grant>, log: seq<NetState>, q: Presentation, times: seq<nat>, e: NetState)
    requires log != [] && Follows(grants, log, q, times) && |times| < 5
    requires At(q.authority.value.binding.epochs, |times|) == At(log[|log| - 1].epochs, |times|)
    requires grants[q.authority.value.authorityId].readAt[4] + 1 < |log|
    ensures Follows(grants, log + [e], q, times + [|log| - 1])
  {
    hide At, ReadAt;
    var bound := q.authority.value.binding.epochs;
    ListedAt(bound, |times|);
    AppendRead(log, times, Listed(bound)[..|times|], e);
  }

  lemma EpochKeeps(cfg: Config, m: Machine, t: Thread, e: NetState)
    requires ReadInv(cfg, m) && ThreadOk(m.grants, m.log, t) && t.SinkThread? && t.sinkPc.AtEpochs?
    ensures ThreadOk(m.grants, m.log + [e], SinkCheck(cfg, m, t))
  {
    hide CheckEnvelope, CheckEvidence, CheckActivation, CheckSink, CheckScope, GrantsInv, Follows, ReadAt, DeniedBy,
         EpochRung;
    var t', q := SinkCheck(cfg, m, t), t.q;
    GrantBefore(cfg, m, q, t.sinkReads);
    if t'.sinkPc.AtEpochs? {
      EpochRead(m.grants, m.log, q, t.sinkReads, e);
    } else if t'.sinkPc.AtScope? {
      FollowsLater(m.grants, m.grants, m.log, e, q, t.sinkReads);
      FollowsLength(m.grants, m.log, q, t.sinkReads);
    }
  }

  lemma ActivationKeeps(cfg: Config, m: Machine, t: Thread, e: NetState)
    requires Ideal(cfg.p) && ReadInv(cfg, m) && ThreadOk(m.grants, m.log, t) && t.SinkThread? && t.sinkPc.AtActivation?
    ensures ThreadOk(m.grants, m.log + [e], SinkCheck(cfg, m, t))
  {
    hide CheckEnvelope, CheckEvidence, CheckActivation, CheckSink, CheckScope, GrantsInv, Follows, DeniedBy,
         EpochRung, At, Ideal;
    var t', q := SinkCheck(cfg, m, t), t.q;
    if t'.sinkPc.AtUsed? {
      PassesActivation(cfg, m.sys.activations, m.grants, m.log, q);
      FollowsLater(m.grants, m.grants, m.log, e, q, []);
    }
  }

  lemma CheckKeeps(cfg: Config, m: Machine, t: Thread, e: NetState)
    requires Ideal(cfg.p) && ReadInv(cfg, m) && ThreadOk(m.grants, m.log, t) && t.SinkThread? && Checking(t.sinkPc)
    ensures ThreadOk(m.grants, m.log + [e], SinkCheck(cfg, m, t))
  {
    hide CheckEnvelope, CheckEvidence, CheckActivation, CheckSink, CheckScope, GrantsInv, Follows, At, DeniedBy,
         EpochRung, Ideal;
    if t.sinkPc.AtActivation? {
      ActivationKeeps(cfg, m, t, e);
    } else if t.sinkPc.AtEpochs? {
      EpochKeeps(cfg, m, t, e);
    } else if !Before(t.sinkPc) {
      FollowsLater(m.grants, m.grants, m.log, e, t.q, t.sinkReads);
    }
  }

  lemma FollowsLength(grants: map<string, Grant>, log: seq<NetState>, q: Presentation, times: seq<nat>)
    requires Follows(grants, log, q, times)
    ensures |times| <= 5
  {
  }

  lemma GrantBefore(cfg: Config, m: Machine, q: Presentation, times: seq<nat>)
    requires ReadInv(cfg, m) && Follows(m.grants, m.log, q, times)
    ensures q.authority.Some? && q.authority.value.authorityId in m.grants
    ensures |m.grants[q.authority.value.authorityId].readAt| == 5
    ensures m.grants[q.authority.value.authorityId].readAt[4] + 1 < |m.log|
  {
    hide ReadAt, ThreadOk;
    assert GrantOk(cfg, m.sys.activations.records, m.log, q.authority.value.authorityId,
                   m.grants[q.authority.value.authorityId]);
  }

  /** From the locks on, a sink thread keeps its reads and either stays past the checks or ends. */
  lemma CommitKeeps(m: Machine, tid: nat, effectId: Option<string>, log: seq<NetState>)
    requires Committing(m, tid) && ThreadOk(m.grants, log, m.threads[tid])
    ensures var n := SinkCommit(m, tid, m.threads[tid], effectId);
            tid in n.threads && ThreadOk(m.grants, log, n.threads[tid]) && n.threads == m.threads[tid := n.threads[tid]]
  {
    hide Follows, DeniedBy, Allowed, EffectOf, SinkCommit;
    CommitMoves(m, tid, effectId);
  }

  lemma CommitMoves(m: Machine, tid: nat, effectId: Option<string>)
    requires Committing(m, tid)
    ensures var n, t := SinkCommit(m, tid, m.threads[tid], effectId), m.threads[tid];
            && tid in n.threads && n.threads == m.threads[tid := t.(sinkPc := n.threads[tid].sinkPc)]
            && (Over(n.threads[tid].sinkPc) || (Beyond(t.sinkPc) && Beyond(n.threads[tid].sinkPc)))
  {
    hide DeniedBy, Allowed, EffectOf, CommitUsed, SinkLocksAfter, NetLocksAfter, CanConsume;
  }

  lemma CommitWrites(m: Machine, tid: nat, effectId: Option<string>, e: NetState)
    requires Committing(m, tid) && m.log != [] && ThreadOk(m.grants, m.log, m.threads[tid])
    ensures var n := SinkCommit(m, tid, m.threads[tid], effectId);
            && (n.applied == m.applied
                || exists x :: n.applied == m.applied + [x] && AppliedOk(m.grants, m.log + [e], x))
            && n.sys.activations.records == m.sys.activations.records && n.sys.net == m.sys.net
            && n.grants == m.grants && n.log == m.log
  {
    hide Follows, EffectOf, CommitMove, CommitUsed, SinkLocksAfter, NetLocksAfter;
    var t, n := m.threads[tid], SinkCommit(m, tid, m.threads[tid], effectId);
    if t.sinkPc.AtApply? && effectId.Some? {
      FollowsPast(m.grants, m.log, t.q, t.sinkReads);
      FollowsLater(m.grants, m.grants, m.log, e, t.q, t.sinkReads);
      assert n.applied == m.applied + [Applied(t.q, effectId.value, t.sinkReads, Now(m))];
    }
  }

  lemma FollowsPast(grants: map<string, Grant>, log: seq<NetState>, q: Presentation, times: seq<nat>)
    requires Follows(grants, log, q, times)
    ensures forall j :: 0 <= j < |times| ==> times[j] < |log|
  {
    hide At;
  }

  /** One step of the protected domain keeps what its thread knows. */
  lemma PedThreadKeeps(cfg: Config, m: Machine, grants': map<string, Grant>, t: Thread, e: NetState)
    requires ReadInv(cfg, m) && ThreadOk(m.grants, m.log, t) && t.PedThread?
    ensures ThreadOk(grants', m.log + [e], PedMove(cfg, m, t))
  {
    hide At, ReadAt, Follows, BuiltAuthority, NewRecord, GrantsInv;
    ReadAtLater(m.log, e, t.pedReads, t.seen);
    if t.pedPc.AtReadEpochs? && |t.seen| < 5 {
      ReadLength(m.log, t.pedReads, t.seen);
      AppendRead(m.log, t.pedReads, t.seen, e);
    }
  }

  lemma ReadLength(log: seq<NetState>, times: seq<nat>, bound: seq<int>)
    requires ReadAt(log, times, bound)
    ensures |times| == |bound|
  {
  }

  lemma BuiltListed(cfg: Config, t: Thread)
    requires t.PedThread? && t.pedPc.AtReadEpochs? && |t.seen| == 5
    ensures Listed(BuiltAuthority(cfg, t).binding.epochs) == t.seen
            && BuiltAuthority(cfg, t).authorityId == t.ids.authorityId
  {
    hide Sign, UnsignedPayload, CandidateDigest, Commitment, BoundaryId, ExpiryOf;
  }

  /** What the domain installs is bound to what it read. */
  lemma InstallKeeps(cfg: Config, m: Machine, t: Thread, e: NetState)
    requires ReadInv(cfg, m) && ThreadOk(m.grants, m.log, t) && Installs(m, t)
    ensures var a := BuiltAuthority(cfg, t);
            GrantsInv(cfg, m.sys.activations.records[a.authorityId := ActivationOf(cfg, t.candidate, a)],
                      m.grants[a.authorityId := GrantBy(cfg, t)], m.log + [e])
  {
    hide BuiltAuthority, ActivationOf, ReadAt, Follows;
    var a, records := BuiltAuthority(cfg, t), m.sys.activations.records;
    BuiltListed(cfg, t);
    ReadLength(m.log, t.pedReads, t.seen);
    ReadAtLater(m.log, e, t.pedReads, t.seen);
    GrantsLater(cfg, records, m.grants, m.log, e);
    var records', grants' :=
        records[a.authorityId := ActivationOf(cfg, t.candidate, a)], m.grants[a.authorityId := GrantBy(cfg, t)];
    forall id | id in grants' ensures GrantOk(cfg, records', m.log + [e], id, grants'[id]) {
      if id != a.authorityId {
        assert GrantOk(cfg, records, m.log + [e], id, m.grants[id]);
      }
    }
  }

  // ---- every step keeps the invariant ----

  /** A step changes one thread, adds grants and at most one effect, and moves time on. */
  lemma StepKeeps(cfg: Config, m: Machine, n: Machine, e: NetState)
    requires ReadInv(cfg, m) && n.log == m.log + [e] && n.sys.net == e
    requires Extends(m.grants, n.grants) && GrantsInv(cfg, n.sys.activations.records, n.grants, n.log)
    requires forall tid :: tid in n.threads ==>
      (tid in m.threads && n.threads[tid] == m.threads[tid]) || ThreadOk(n.grants, n.log, n.threads[tid])
    requires n.applied == m.applied
             || exists x :: n.applied == m.applied + [x] && AppliedOk(n.grants, n.log, x)
    ensures ReadInv(cfg, n)
  {
    hide GrantsInv, Follows, ThreadOk, Extends;
    forall tid | tid in n.threads ensures ThreadOk(n.grants, n.log, n.threads[tid]) {
      if tid in m.threads && n.threads[tid] == m.threads[tid] {
        ThreadLater(m.grants, n.grants, m.log, e, m.threads[tid]);
      }
    }
    forall i | 0 <= i < |m.applied| ensures AppliedOk(n.grants, n.log, m.applied[i]) {
      FollowsLater(m.grants, n.grants, m.log, e, m.applied[i].q, m.applied[i].readAt);
    }
  }

  lemma SinkKeeps(cfg: Config, m: Machine, tid: nat, effectId: Option<string>)
    requires Ideal(cfg.p) && ReadInv(cfg, m) && tid in m.threads && m.threads[tid].SinkThread?
    ensures ReadInv(cfg, Next(cfg, m, SinkAct(tid, effectId)))
  {
    hide SinkCheck, SinkCommit, ThreadOk, GrantsInv, Follows, Ideal;
    var t, e, n := m.threads[tid], m.sys.net, Next(cfg, m, SinkAct(tid, effectId));
    GrantsLater(cfg, m.sys.activations.records, m.grants, m.log, e);
    if Checking(t.sinkPc) {
      CheckKeeps(cfg, m, t, e);
      StepKeeps(cfg, m, n, e);
    } else if t.q.authority.None? {
      StepKeeps(cfg, m, n, e);
    } else {
      ThreadLater(m.grants, m.grants, m.log, e, t);
      CommitKeeps(m, tid, effectId, m.log + [e]);
      CommitWrites(m, tid, effectId, e);
      StepKeeps(cfg, m, n, e);
    }
  }

  lemma PedKeeps(cfg: Config, m: Machine, tid: nat)
    requires ReadInv(cfg, m) && tid in m.threads && m.threads[tid].PedThread?
    ensures ReadInv(cfg, Next(cfg, m, PedAct(tid)))
  {
    hide PedMove, ThreadOk, GrantsInv, Follows, BuiltAuthority, ActivationOf, Commit;
    var t, n := m.threads[tid], Next(cfg, m, PedAct(tid));
    var e := n.sys.net;
    GrantsLater(cfg, m.sys.activations.records, m.grants, m.log, e);
    PedThreadKeeps(cfg, m, n.grants, t, e);
    if Installs(m, t) {
      BuiltListed(cfg, t);
      InstallKeeps(cfg, m, t, e);
      SameKeys(cfg, m);
    }
    StepKeeps(cfg, m, n, e);
  }

  lemma SameKeys(cfg: Config, m: Machine)
    requires ReadInv(cfg, m)
    ensures m.sys.activations.records.Keys == m.grants.Keys
  {
    hide GrantOk, ThreadOk, Follows;
  }

  lemma NextKeeps(cfg: Config, m: Machine, act: Action)
    requires Ideal(cfg.p) && ReadInv(cfg, m)
    ensures ReadInv(cfg, Next(cfg, m, act))
  {
    hide SinkNext, PedNext, ReadInv, Ideal;
    match act
    case SinkAct(tid, effectId) =>
      if tid in m.threads && m.threads[tid].SinkThread? {
        SinkKeeps(cfg, m, tid, effectId);
      } else {
        IdleKeeps(cfg, m, m.sys.net);
      }
    case PedAct(tid) =>
      if tid in m.threads && m.threads[tid].PedThread? { PedKeeps(cfg, m, tid); } else { IdleKeeps(cfg, m, m.sys.net); }
    case EnvAct(net) => IdleKeeps(cfg, m, net.(monotonicCounter := m.sys.net.monotonicCounter));
  }

  /** The environment moves, or nobody does. */
  lemma IdleKeeps(cfg: Config, m: Machine, net: NetState)
    requires ReadInv(cfg, m)
    ensures ReadInv(cfg, m.(sys := m.sys.(net := net), log := m.log + [net]))
  {
    hide GrantsInv, ThreadOk, Follows;
    GrantsLater(cfg, m.sys.activations.records, m.grants, m.log, net);
    StepKeeps(cfg, m, m.(sys := m.sys.(net := net), log := m.log + [net]), net);
  }

  lemma InitialReads(cfg: Config, m: Machine)
    requires Initial(m)
    ensures ReadInv(cfg, m) && Rising(m.log)
  {
  }

  // ---- rising epochs ----

  predicate Raises(m: Machine, act: Action) {
    act.EnvAct? ==> NotBelow(act.net.epochs, m.sys.net.epochs)
  }

  /** Throughout the schedule the environment only raises epochs. */
  predicate AllRaise(cfg: Config, m: Machine, acts: seq<Action>)
    decreases acts
  {
    acts == [] || (Raises(m, acts[0]) && AllRaise(cfg, Next(cfg, m, acts[0]), acts[1..]))
  }

  ghost predicate Rising(log: seq<NetState>) {
    forall i, j :: 0 <= i <= j < |log| ==> NotBelow(log[j].epochs, log[i].epochs)
  }

  lemma ActEpochs(cfg: Config, m: Machine, act: Action)
    ensures Act(cfg, m, act).sys.net.epochs == if act.EnvAct? then act.net.epochs else m.sys.net.epochs
    ensures Next(cfg, m, act).log == m.log + [Act(cfg, m, act).sys.net]
  {
    hide SinkCheck, PedMove, BuiltAuthority, ActivationOf, Commit, EffectOf, DeniedBy, Allowed;
  }

  lemma {:induction false} ExecKeeps(cfg: Config, m: Machine, acts: seq<Action>)
    requires Ideal(cfg.p) && ReadInv(cfg, m) && Rising(m.log) && AllRaise(cfg, m, acts)
    ensures ReadInv(cfg, Exec(cfg, m, acts)) && Rising(Exec(cfg, m, acts).log)
    decreases |acts|
  {
    hide Act, GrantsInv, ThreadOk, Follows, Ideal;
    if acts != [] {
      var n := Next(cfg, m, acts[0]);
      NextKeeps(cfg, m, acts[0]);
      ActEpochs(cfg, m, acts[0]);
      assert NotBelow(n.sys.net.epochs, m.log[|m.log| - 1].epochs);
      assert Rising(n.log);
      ExecKeeps(cfg, n, acts[1..]);
    }
  }

  /** Between two times at which each epoch had the same value, it had it all the while. */
  lemma Squeezed(log: seq<NetState>, first: seq<nat>, second: seq<nat>, bound: Epochs, t: nat)
    requires Rising(log) && |first| == |second| == 5
    requires ReadAt(log, first, Listed(bound)) && ReadAt(log, second, Listed(bound))
    requires first[4] <= t <= second[0]
    ensures log[t].epochs == bound
  {
    hide At;
    forall k | 0 <= k < 5 ensures At(log[t].epochs, k) == At(bound, k) {
      ListedAt(bound, k);
      Between(log[first[k]].epochs, log[t].epochs, log[second[k]].epochs, k);
    }
    SameEpochs(log[t].epochs, bound);
  }

  lemma Between(e: Epochs, f: Epochs, g: Epochs, k: nat)
    requires k < 5 && NotBelow(f, e) && NotBelow(g, f) && At(e, k) == At(g, k)
    ensures At(f, k) == At(e, k)
  {
  }

  lemma SameEpochs(e: Epochs, f: Epochs)
    requires forall k :: 0 <= k < 5 ==> At(e, k) == At(f, k)
    ensures e == f
  {
    assert At(e, 0) == At(f, 0) && At(e, 1) == At(f, 1) && At(e, 2) == At(f, 2) && At(e, 3) == At(f, 3)
           && At(e, 4) == At(f, 4);
  }

  /** The effect was presented with an installed authority and the candidate it was installed for,
      and both sides read each of the bound epochs, the domain before the sink. */
  predicate Bracketed(grants: map<string, Grant>, log: seq<NetState>, x: Applied) {
    && x.q.authority.Some? && x.q.authority.value.authorityId in grants
    && var a, g := x.q.authority.value, grants[x.q.authority.value.authorityId];
       && g.authority == a && g.candidate == x.q.candidate
       && |g.readAt| == 5 && |x.readAt| == 5 && g.readAt[4] < x.readAt[0] < |log| && x.readAt[4] <= x.appliedAt < |log|
       && ReadAt(log, g.readAt, Listed(a.binding.epochs)) && ReadAt(log, x.readAt, Listed(a.binding.epochs))
  }

  /** All five epochs, at once, had the bound values from the domain's last read to the sink's first. */
  ghost predicate Sandwiched(grants: map<string, Grant>, log: seq<NetState>, x: Applied)
    requires Bracketed(grants, log, x)
  {
    forall t :: grants[x.q.authority.value.authorityId].readAt[4] <= t <= x.readAt[0] ==>
      log[t].epochs == x.q.authority.value.binding.epochs
  }

  /** Whatever the interleaving: an effect was presented with an authority that the domain installed
      and the candidate it was installed for. If epochs only rise, all five held the values bound in
      that authority at every moment from the domain's last read to the sink's first, although both
      sides read them one by one. */
  lemma EpochSandwich(cfg: Config, m: Machine, acts: seq<Action>, i: nat)
    requires Ideal(cfg.p) && Initial(m) && AllRaise(cfg, m, acts) && i < |Exec(cfg, m, acts).applied|
    ensures var n := Exec(cfg, m, acts);
            Bracketed(n.grants, n.log, n.applied[i]) && Sandwiched(n.grants, n.log, n.applied[i])
  {
    hide Exec, GrantsInv, ThreadOk, ReadAt, AllRaise, Rising, Ideal;
    var n := Exec(cfg, m, acts);
    InitialReads(cfg, m);
    ExecKeeps(cfg, m, acts);
    AppliedBounds(cfg, n.sys.activations.records, n.grants, n.log, n.applied[i]);
    var x := n.applied[i];
    var g := n.grants[x.q.authority.value.authorityId];
    forall t | g.readAt[4] <= t <= x.readAt[0] ensures n.log[t].epochs == x.q.authority.value.binding.epochs {
      Squeezed(n.log, g.readAt, x.readAt, x.q.authority.value.binding.epochs, t);
    }
  }

  predicate Held(log: seq<NetState>, first: nat, last: nat, k: nat, value: int)
    requires last < |log|
  {
    forall t :: first <= t <= last ==> At(log[t].epochs, k) == value
  }

  lemma RisesBetween(log: seq<NetState>, first: nat, last: nat, k: nat)
    requires Rising(log) && first <= last < |log| && k < 5
    ensures At(log[first].epochs, k) <= At(log[last].epochs, k)
    ensures At(log[first].epochs, k) == At(log[last].epochs, k) <==> Held(log, first, last, k, At(log[first].epochs, k))
  {
    assert NotBelow(log[last].epochs, log[first].epochs);
    forall t | first <= t <= last ensures At(log[first].epochs, k) <= At(log[t].epochs, k) <= At(log[last].epochs, k) {
      assert NotBelow(log[t].epochs, log[first].epochs) && NotBelow(log[last].epochs, log[t].epochs);
    }
  }

  /** What the epochs are at the effect: none is below its bound value, and each still has it if and only
      if it has not moved since the sink read it. So all five are current at the effect exactly when none
      has moved since its own read. */
  lemma CurrentIffUnmoved(cfg: Config, m: Machine, acts: seq<Action>, i: nat, k: nat)
    requires Ideal(cfg.p) && Initial(m) && AllRaise(cfg, m, acts) && i < |Exec(cfg, m, acts).applied| && k < 5
    ensures var n := Exec(cfg, m, acts); var x := n.applied[i];
            && Bracketed(n.grants, n.log, x) && x.readAt[k] <= x.appliedAt < |n.log|
            && var bound, now := At(x.q.authority.value.binding.epochs, k), At(n.log[x.appliedAt].epochs, k);
               bound <= now && (now == bound <==> Held(n.log, x.readAt[k], x.appliedAt, k, bound))
  {
    hide Exec, GrantsInv, ThreadOk, AllRaise, Rising, NotBelow, At, Ideal;
    var n := Exec(cfg, m, acts);
    EpochSandwich(cfg, m, acts, i);
    InitialReads(cfg, m);
    ExecKeeps(cfg, m, acts);
    var x := n.applied[i];
    ListedAt(x.q.authority.value.binding.epochs, k);
    RisesBetween(n.log, x.readAt[k], x.appliedAt, k);
  }

  /** Revocation in the interleaved machine: once an epoch has passed the value bound in an authority,
      no effect under it comes from a presentation that read this epoch later, let alone from one whose
      reads began later. */
  lemma RevokedNeverApplied(cfg: Config, m: Machine, acts: seq<Action>, i: nat, t: nat, k: nat)
    requires Ideal(cfg.p) && Initial(m) && AllRaise(cfg, m, acts) && i < |Exec(cfg, m, acts).applied| && k < 5
    requires var n := Exec(cfg, m, acts);
             t < |n.log| && n.applied[i].q.authority.Some?
             && At(n.log[t].epochs, k) > At(n.applied[i].q.authority.value.binding.epochs, k)
    ensures var x := Exec(cfg, m, acts).applied[i]; |x.readAt| == 5 && x.readAt[0] <= x.readAt[k] < t
  {
    hide Exec, GrantsInv, ThreadOk, AllRaise, Ideal;
    var n := Exec(cfg, m, acts);
    EpochSandwich(cfg, m, acts, i);
    InitialReads(cfg, m);
    ExecKeeps(cfg, m, acts);
    ReadBefore(n.log, n.applied[i].readAt, n.applied[i].q.authority.value.binding.epochs, t, k);
  }

  lemma ReadBefore(log: seq<NetState>, times: seq<nat>, bound: Epochs, t: nat, k: nat)
    requires Rising(log) && |times| == 5 && ReadAt(log, times, Listed(bound)) && k < 5 && t < |log|
    requires At(log[t].epochs, k) > At(bound, k)
    ensures times[0] <= times[k] < t
  {
    ListedAt(bound, k);
    assert At(log[times[k]].epochs, k) == At(bound, k);
  }

  lemma AppliedBounds(cfg: Config, records: map<string, ActivationRecord>, grants: map<string, Grant>,
                      log: seq<NetState>, x: Applied)
    requires GrantsInv(cfg, records, grants, log) && AppliedOk(grants, log, x)
    ensures Bracketed(grants, log, x)
  {
    hide At, ActivationOf;
    var id := x.q.authority.value.authorityId;
    assert GrantOk(cfg, records, log, id, grants[id]);
    assert Listed(x.q.authority.value.binding.epochs)[..5] == Listed(x.q.authority.value.binding.epochs);
  }
}
