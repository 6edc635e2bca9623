/** The two locks of the sink's last section: who holds them, that nobody waits forever in a circle,
    and that with one network the answer of `consume` is already known. */
module Locks {
  import opened Wrappers
  import opened Models
  import opened Evidence
  import opened State
  import opened SystemState
  import opened Ped
  import opened Sink
  import opened Concurrent
  import opened Winner

  /** Between taking the network's lock and giving it back. */
  predicate InNetwork(pc: SinkPc) {
    pc.AtRecheck? || pc.AtConsume? || pc.AtApply? || pc.AtUnconsume? || pc.AtRelease?
  }

  /** Between taking the sink's lock and giving it back. */
  predicate InSink(pc: SinkPc) {
    pc.AtNetLock? || InNetwork(pc) || pc.AtSinkRelease?
  }

  predicate Held(locks: map<nat, nat>, lock: nat, tid: nat) {
    lock in locks && locks[lock] == tid
  }

  predicate ThreadLocks(sinkLocks: map<nat, nat>, netLocks: map<nat, nat>, tid: nat, t: Thread) {
    t.SinkThread? ==>
      && (Held(sinkLocks, t.sinkLock, tid) <==> InSink(t.sinkPc))
      && (Held(netLocks, t.netLock, tid) <==> InNetwork(t.sinkPc))
      && (Checking(t.sinkPc) || t.sinkPc.Finished? || t.q.authority.Some?)
  }

  predicate HeldBySink(threads: map<nat, Thread>, lock: nat, tid: nat) {
    tid in threads && threads[tid].SinkThread? && threads[tid].sinkLock == lock
  }

  predicate HeldByNet(threads: map<nat, Thread>, lock: nat, tid: nat) {
    tid in threads && threads[tid].SinkThread? && threads[tid].netLock == lock
  }

  /** Every lock is held exactly by the thread inside its section. */
  ghost predicate LockInv(m: Machine) {
    && (forall tid :: tid in m.threads ==> ThreadLocks(m.sinkLocks, m.netLocks, tid, m.threads[tid]))
    && (forall l :: l in m.sinkLocks ==> HeldBySink(m.threads, l, m.sinkLocks[l]))
    && (forall l :: l in m.netLocks ==> HeldByNet(m.threads, l, m.netLocks[l]))
  }

  lemma CheckLocks(cfg: Config, m: Machine, t: Thread)
    requires t.SinkThread? && Checking(t.sinkPc)
    ensures var pc := SinkCheck(cfg, m, t).sinkPc;
            !InSink(pc) && (Checking(pc) || pc.Finished? || t.q.authority.Some?)
  {
    hide CheckEnvelope, CheckEvidence, CheckActivation, CheckSink, CheckScope, DeniedBy, At, EpochRung;
  }

  lemma CommitLocks(m: Machine, tid: nat, t: Thread, effectId: Option<string>)
    requires t.SinkThread? && !Checking(t.sinkPc) && t.q.authority.Some? && ThreadLocks(m.sinkLocks, m.netLocks, tid, t)
    ensures ThreadLocks(SinkLocksAfter(m, tid, t), NetLocksAfter(m, tid, t), tid,
                        t.(sinkPc := CommitMove(m, t, effectId)))
  {
    hide DeniedBy, Allowed, CanConsume;
  }

  /** Another thread's locks are untouched: it can hold neither a lock being taken nor one being given back. */
  lemma OtherLocks(m: Machine, tid: nat, t: Thread, other: nat, o: Thread)
    requires t.SinkThread? && other != tid
    requires ThreadLocks(m.sinkLocks, m.netLocks, tid, t) && ThreadLocks(m.sinkLocks, m.netLocks, other, o)
    ensures ThreadLocks(SinkLocksAfter(m, tid, t), NetLocksAfter(m, tid, t), other, o)
  {
  }

  lemma CommitHolders(m: Machine, tid: nat, t': Thread)
    requires LockInv(m) && tid in m.threads && m.threads[tid].SinkThread?
    requires t'.SinkThread? && t'.sinkLock == m.threads[tid].sinkLock && t'.netLock == m.threads[tid].netLock
    ensures var threads', t := m.threads[tid := t'], m.threads[tid];
            && (forall l :: l in SinkLocksAfter(m, tid, t) ==> HeldBySink(threads', l, SinkLocksAfter(m, tid, t)[l]))
            && (forall l :: l in NetLocksAfter(m, tid, t) ==> HeldByNet(threads', l, NetLocksAfter(m, tid, t)[l]))
  {
    hide ThreadLocks;
  }

  /** A thread that touches no lock and stays what it is. */
  lemma SameLocks(m: Machine, n: Machine, tid: nat)
    requires LockInv(m) && n.sinkLocks == m.sinkLocks && n.netLocks == m.netLocks && tid in m.threads
             && tid in n.threads
    requires n.threads == m.threads[tid := n.threads[tid]] && n.threads[tid].SinkThread? == m.threads[tid].SinkThread?
    requires n.threads[tid].SinkThread? ==>
      n.threads[tid].sinkLock == m.threads[tid].sinkLock && n.threads[tid].netLock == m.threads[tid].netLock
    requires ThreadLocks(m.sinkLocks, m.netLocks, tid, n.threads[tid])
    ensures LockInv(n)
  {
    hide ThreadLocks;
  }

  lemma SinkKeepsLocks(cfg: Config, m: Machine, tid: nat, effectId: Option<string>)
    requires LockInv(m) && tid in m.threads && m.threads[tid].SinkThread?
    ensures LockInv(SinkNext(cfg, m, tid, m.threads[tid], effectId))
  {
    hide SinkCheck, CommitMove, CommitUsed, EffectOf, SinkLocksAfter, NetLocksAfter, InSink, InNetwork, Applying;
    var t, n := m.threads[tid], SinkNext(cfg, m, tid, m.threads[tid], effectId);
    if Checking(t.sinkPc) {
      CheckLocks(cfg, m, t);
      OutsideBoth(t.sinkPc);
      OutsideBoth(n.threads[tid].sinkPc);
      SameLocks(m, n, tid);
    } else if t.q.authority.Some? {
      hide ThreadLocks;
      CommitLocks(m, tid, t, effectId);
      CommitHolders(m, tid, n.threads[tid]);
      forall other | other in m.threads && other != tid
        ensures ThreadLocks(n.sinkLocks, n.netLocks, other, n.threads[other])
      {
        OtherLocks(m, tid, t, other, m.threads[other]);
      }
    }
  }

  lemma OutsideBoth(pc: SinkPc)
    ensures Checking(pc) ==> !InSink(pc)
    ensures !InSink(pc) ==> !InNetwork(pc)
  {
  }

  lemma ActKeepsLocks(cfg: Config, m: Machine, act: Action)
    requires LockInv(m)
    ensures LockInv(Act(cfg, m, act))
  {
    hide SinkNext, PedMove, PedWrites, BuiltAuthority, ThreadLocks, HeldBySink, HeldByNet, LockInv;
    match act
    case SinkAct(tid, effectId) =>
      if tid in m.threads && m.threads[tid].SinkThread? {
        SinkKeepsLocks(cfg, m, tid, effectId);
      }
    case PedAct(tid) =>
      if tid in m.threads && m.threads[tid].PedThread? {
        var n := PedNext(cfg, m, tid, m.threads[tid]);
        DomainHasNoLocks(m, tid, n.threads[tid]);
        SameLocks(m, n, tid);
      }
    case EnvAct(_) => StateHasNoLocks(m, Act(cfg, m, act));
  }

  lemma DomainHasNoLocks(m: Machine, tid: nat, t: Thread)
    requires t.PedThread?
    ensures ThreadLocks(m.sinkLocks, m.netLocks, tid, t)
  {
  }

  lemma StateHasNoLocks(m: Machine, n: Machine)
    requires LockInv(m) && n.threads == m.threads && n.sinkLocks == m.sinkLocks && n.netLocks == m.netLocks
    ensures LockInv(n)
  {
    hide ThreadLocks, HeldBySink, HeldByNet;
  }

  lemma UnstartedLocks(m: Machine)
    requires m.sinkLocks == map[] && m.netLocks == map[] && forall tid :: tid in m.threads ==> Unstarted(m.threads[tid])
    ensures LockInv(m)
  {
  }

  lemma {:induction false} LocksAlways(cfg: Config, m: Machine, acts: seq<Action>)
    requires LockInv(m)
    ensures LockInv(Exec(cfg, m, acts))
    decreases |acts|
  {
    hide Act, LockInv;
    if acts != [] {
      var n := Act(cfg, m, acts[0]);
      ActKeepsLocks(cfg, m, acts[0]);
      StateHasNoLocks(n, Next(cfg, m, acts[0]));
      LocksAlways(cfg, Next(cfg, m, acts[0]), acts[1..]);
    }
  }

  /** At most one thread at a time is between a network's locking and unlocking, in every schedule. */
  lemma MutualExclusion(cfg: Config, m: Machine, acts: seq<Action>, s: nat, t: nat)
    requires Initial(m)
    ensures var n := Exec(cfg, m, acts);
            s in n.threads && t in n.threads && n.threads[s].SinkThread? && n.threads[t].SinkThread?
            && n.threads[s].netLock == n.threads[t].netLock && InNetwork(n.threads[s].sinkPc)
               && InNetwork(n.threads[t].sinkPc)
            ==> s == t
  {
    hide Exec, InNetwork, InSink;
    UnstartedLocks(m);
    LocksAlways(cfg, m, acts);
    var n := Exec(cfg, m, acts);
    if s in n.threads && t in n.threads {
      assert ThreadLocks(n.sinkLocks, n.netLocks, s, n.threads[s])
             && ThreadLocks(n.sinkLocks, n.netLocks, t, n.threads[t]);
    }
  }

  // ---- progress ----

  /** A bound on the steps a thread still has to make. */
  function Rank(t: Thread): nat {
    match t
    case SinkThread(_, _, _, pc, sinkReads) =>
      (match pc
       case AtEnvelope => 20
       case AtEvidence => 19
       case AtActivation => 18
       case AtUsed(_) => 17
       case AtReference(_) => 16
       case AtEpochs(_) => if |sinkReads| >= 5 then 10 else 15 - |sinkReads|
       case AtScope(_) => 9
       case AtSinkLock => 8
       case AtNetLock => 7
       case AtRecheck => 6
       case AtConsume => 5
       case AtApply => 4
       case AtUnconsume => 3
       case AtRelease(_) => 2
       case AtSinkRelease(_) => 1
       case Finished(_) => 0)
    case PedThread(_, _, _, pc, _, viewAt, seen, _) =>
      (match pc
       case AtValidate => if |viewAt| >= 9 then 17 else 26 - |viewAt|
       case AtReserve => 16
       case AtTopology(_) => 15
       case AtConfiguration(_) => 14
       case AtStateReference(_) => 13
       case AtCounter(_) => 12
       case AtCounterWrite(_, _) => 11
       case AtCounterReturn(_) => 10
       case AtEvidenceReference(_) => 9
       case AtCommit(_, _) => 8
       case AtReadReference(_, _) => 7
       case AtReadEpochs(_, _, _) => if |seen| >= 5 then 1 else 6 - |seen|
       case Ended(_) => 0)
  }

  /** Not finished, and not waiting for a lock. */
  predicate Able(m: Machine, tid: nat) {
    && tid in m.threads && Rank(m.threads[tid]) > 0
    && (m.threads[tid].SinkThread? ==>
          && (m.threads[tid].sinkPc.AtSinkLock? ==> m.threads[tid].sinkLock !in m.sinkLocks)
          && (m.threads[tid].sinkPc.AtNetLock? ==> m.threads[tid].netLock !in m.netLocks))
  }

  /** The thread that may move for `tid` to get on: itself, the holder of the lock it waits for, or
      the holder of the lock that one waits for. */
  function Mover(m: Machine, tid: nat): nat
    requires tid in m.threads
  {
    var t := m.threads[tid];
    if Able(m, tid) || !t.SinkThread? then tid
    else if t.netLock in m.netLocks && t.sinkPc.AtNetLock? then m.netLocks[t.netLock]
    else if t.sinkLock in m.sinkLocks && m.sinkLocks[t.sinkLock] in m.threads then
      var s := m.sinkLocks[t.sinkLock];
      var h := m.threads[s];
      if h.SinkThread? && h.sinkPc.AtNetLock? && h.netLock in m.netLocks then m.netLocks[h.netLock] else s
    else tid
  }

  /** No deadlock: while some thread is unfinished, some thread can move. */
  lemma NoDeadlock(m: Machine, tid: nat)
    requires LockInv(m) && tid in m.threads && Rank(m.threads[tid]) > 0
    ensures Able(m, Mover(m, tid))
  {
    hide Rank, Held;
    var t := m.threads[tid];
    if t.SinkThread? && !Able(m, tid) {
      if t.sinkPc.AtNetLock? {
        HolderAble(m, t.netLock);
      } else {
        var s := m.sinkLocks[t.sinkLock];
        HolderInside(m, t.sinkLock);
        if m.threads[s].sinkPc.AtNetLock? && m.threads[s].netLock in m.netLocks { HolderAble(m, m.threads[s].netLock); }
      }
    }
  }

  lemma HolderAble(m: Machine, lock: nat)
    requires LockInv(m) && lock in m.netLocks
    ensures Able(m, m.netLocks[lock])
  {
    hide InSink;
    var s := m.netLocks[lock];
    assert HeldByNet(m.threads, lock, s) && ThreadLocks(m.sinkLocks, m.netLocks, s, m.threads[s]);
  }

  lemma HolderInside(m: Machine, lock: nat)
    requires LockInv(m) && lock in m.sinkLocks
    ensures var s := m.sinkLocks[lock];
            s in m.threads && m.threads[s].SinkThread? && Rank(m.threads[s]) > 0 && InSink(m.threads[s].sinkPc)
  {
    var s := m.sinkLocks[lock];
    assert HeldBySink(m.threads, lock, s) && ThreadLocks(m.sinkLocks, m.netLocks, s, m.threads[s]);
  }

  lemma CheckAdvances(cfg: Config, m: Machine, t: Thread)
    requires t.SinkThread? && Checking(t.sinkPc)
    ensures Rank(SinkCheck(cfg, m, t)) < Rank(t)
  {
    hide CheckEnvelope, CheckEvidence, CheckActivation, CheckSink, CheckScope, DeniedBy, At, EpochRung;
  }

  lemma CommitAdvances(m: Machine, tid: nat, effectId: Option<string>)
    requires Able(m, tid) && m.threads[tid].SinkThread? && !Checking(m.threads[tid].sinkPc)
             && m.threads[tid].q.authority.Some?
    ensures Rank(m.threads[tid].(sinkPc := CommitMove(m, m.threads[tid], effectId))) < Rank(m.threads[tid])
  {
    hide DeniedBy, Allowed, CanConsume;
  }

  /** A sink thread that is not waiting gets nearer to its end, whatever the network does, and leaves
      the other threads alone. */
  lemma SinkAdvances(cfg: Config, m: Machine, tid: nat, effectId: Option<string>)
    requires LockInv(m) && Able(m, tid) && m.threads[tid].SinkThread?
    ensures var n := Next(cfg, m, SinkAct(tid, effectId));
            && tid in n.threads && n.threads[tid].SinkThread? && n.threads == m.threads[tid := n.threads[tid]]
            && Rank(n.threads[tid]) < Rank(m.threads[tid])
  {
    hide SinkCheck, CommitMove, CommitUsed, EffectOf, SinkLocksAfter, NetLocksAfter, Applying, HeldBySink, HeldByNet,
         Held, Able, PedNext;
    AbleIsThread(m, tid);
    var t := m.threads[tid];
    if Checking(t.sinkPc) {
      CheckAdvances(cfg, m, t);
    } else {
      NotFinished(m, tid);
      assert ThreadLocks(m.sinkLocks, m.netLocks, tid, t);
      CommitAdvances(m, tid, effectId);
    }
  }

  lemma NotFinished(m: Machine, tid: nat)
    requires Able(m, tid) && m.threads[tid].SinkThread?
    ensures !m.threads[tid].sinkPc.Finished?
  {
  }

  function Total(threads: map<nat, Thread>, n: nat): nat {
    if n == 0 then 0 else Total(threads, n - 1) + (if n - 1 in threads then Rank(threads[n - 1]) else 0)
  }

  lemma {:induction false} TotalFalls(threads: map<nat, Thread>, tid: nat, t: Thread, n: nat)
    requires tid in threads && Rank(t) < Rank(threads[tid])
    ensures Total(threads[tid := t], n) + (if tid < n then Rank(threads[tid]) - Rank(t) else 0) == Total(threads, n)
  {
    hide Rank;
    if n > 0 { TotalFalls(threads, tid, t, n - 1); }
  }

  /** From wherever sink threads stand, a schedule brings all of them to their end. */
  lemma {:induction false} AllCanFinish(cfg: Config, m: Machine, n: nat, effectId: string) returns (acts: seq<Action>)
    requires LockInv(m) && forall tid :: tid in m.threads ==> tid < n && m.threads[tid].SinkThread?
    ensures SinksOnly(acts) && AllFinished(Exec(cfg, m, acts))
    decreases Total(m.threads, n)
  {
    hide Act, LockInv, Able, Mover, Rank;
    if tid :| tid in m.threads && Rank(m.threads[tid]) > 0 {
      var s := Mover(m, tid);
      NoDeadlock(m, tid);
      AbleIsThread(m, s);
      var act := SinkAct(s, Some(effectId));
      var next := Next(cfg, m, act);
      SinkAdvances(cfg, m, s, Some(effectId));
      TotalFalls(m.threads, s, next.threads[s], n);
      ActKeepsLocks(cfg, m, act);
      StateHasNoLocks(Act(cfg, m, act), next);
      var rest := AllCanFinish(cfg, next, n, effectId);
      acts := [act] + rest;
      assert acts[1..] == rest;
    } else {
      acts := [];
      forall tid | tid in m.threads ensures m.threads[tid].sinkPc.Finished? {
        RankZero(m.threads[tid]);
      }
    }
  }

  lemma AbleIsThread(m: Machine, tid: nat)
    requires Able(m, tid)
    ensures tid in m.threads
  {
  }

  lemma RankZero(t: Thread)
    requires t.SinkThread? && Rank(t) == 0
    ensures t.sinkPc.Finished?
  {
  }

  // ---- one network ----

  /** All sinks lead into the same network. */
  predicate OneNetwork(m: Machine, lock: nat) {
    forall tid :: tid in m.threads && m.threads[tid].SinkThread? ==> m.threads[tid].netLock == lock
  }

  /** Past the activation check and not yet answered. */
  predicate Registering(pc: SinkPc) {
    pc.AtUsed? || pc.AtReference? || pc.AtEpochs? || pc.AtScope? || pc.AtSinkLock? || pc.AtNetLock? || pc.AtRecheck?
      || pc.AtConsume?
  }

  /** Such a thread's authority is registered; and unused once it is about to consume it. */
  predicate Ready(activations: Activations, t: Thread) {
    t.SinkThread? && Registering(t.sinkPc) ==>
      && t.q.authority.Some? && t.q.authority.value.authorityId in activations.records
      && (t.sinkPc.AtConsume? ==> t.q.authority.value.authorityId !in activations.used)
  }

  ghost predicate ReadyInv(m: Machine) {
    forall tid :: tid in m.threads ==> Ready(m.sys.activations, m.threads[tid])
  }

  lemma CheckReady(cfg: Config, m: Machine, t: Thread)
    requires Ready(m.sys.activations, t) && t.SinkThread? && Checking(t.sinkPc)
    ensures Ready(m.sys.activations, SinkCheck(cfg, m, t)) && !SinkCheck(cfg, m, t).sinkPc.AtConsume?
  {
    hide CheckEnvelope, CheckEvidence, AuthorityDigest, CandidateDigest, CheckSink, CheckScope, DeniedBy, At, EpochRung;
  }

  lemma CommitReady(m: Machine, t: Thread, effectId: Option<string>)
    requires Ready(m.sys.activations, t) && t.SinkThread? && !Checking(t.sinkPc) && t.q.authority.Some?
    ensures Ready(m.sys.activations.(used := CommitUsed(m, t)), t.(sinkPc := CommitMove(m, t, effectId)))
  {
    hide DeniedBy, Allowed;
  }

  /** What one thread does to the used set does not disturb another, unless both are inside the network. */
  lemma OtherReady(m: Machine, t: Thread, o: Thread)
    requires t.SinkThread? && t.q.authority.Some? && Ready(m.sys.activations, o)
    requires t.sinkPc.AtConsume? && o.SinkThread? ==> !o.sinkPc.AtConsume?
    ensures Ready(m.sys.activations.(used := CommitUsed(m, t)), o)
  {
  }

  lemma SinkKeepsReady(cfg: Config, m: Machine, tid: nat, effectId: Option<string>, lock: nat)
    requires LockInv(m) && ReadyInv(m) && OneNetwork(m, lock) && tid in m.threads && m.threads[tid].SinkThread?
    ensures var n := SinkNext(cfg, m, tid, m.threads[tid], effectId);
            ReadyInv(n) && OneNetwork(n, lock)
  {
    hide SinkCheck, CommitMove, CommitUsed, EffectOf, SinkLocksAfter, NetLocksAfter, Applying, Ready, HeldBySink,
         HeldByNet;
    var t, n := m.threads[tid], SinkNext(cfg, m, tid, m.threads[tid], effectId);
    assert Ready(m.sys.activations, t);
    if Checking(t.sinkPc) {
      CheckReady(cfg, m, t);
    } else if t.q.authority.Some? {
      CommitReady(m, t, effectId);
      forall other | other in m.threads && other != tid ensures Ready(n.sys.activations, n.threads[other]) {
        assert ThreadLocks(m.sinkLocks, m.netLocks, tid, t)
               && ThreadLocks(m.sinkLocks, m.netLocks, other, m.threads[other]);
        OtherReady(m, t, m.threads[other]);
      }
    }
  }

  lemma PedKeepsReady(cfg: Config, m: Machine, tid: nat, lock: nat)
    requires ReadyInv(m) && OneNetwork(m, lock) && tid in m.threads && m.threads[tid].PedThread?
    ensures var n := PedNext(cfg, m, tid, m.threads[tid]);
            ReadyInv(n) && OneNetwork(n, lock)
  {
    hide PedMove, BuiltAuthority, ActivationOf, Commit, Registering;
  }

  lemma ActKeepsReady(cfg: Config, m: Machine, act: Action, lock: nat)
    requires LockInv(m) && ReadyInv(m) && OneNetwork(m, lock)
    ensures ReadyInv(Act(cfg, m, act)) && OneNetwork(Act(cfg, m, act), lock)
  {
    hide SinkNext, PedNext, LockInv, Ready;
    match act
    case SinkAct(tid, effectId) =>
      if tid in m.threads && m.threads[tid].SinkThread? {
        SinkKeepsReady(cfg, m, tid, effectId, lock);
      }
    case PedAct(tid) =>
      if tid in m.threads && m.threads[tid].PedThread? { PedKeepsReady(cfg, m, tid, lock); }
    case EnvAct(_) =>
  }

  lemma {:induction false} ReadyAlways(cfg: Config, m: Machine, acts: seq<Action>, lock: nat)
    requires LockInv(m) && ReadyInv(m) && OneNetwork(m, lock)
    ensures ReadyInv(Exec(cfg, m, acts))
    decreases |acts|
  {
    hide Act, LockInv, Ready;
    if acts != [] {
      var n := Act(cfg, m, acts[0]);
      ActKeepsLocks(cfg, m, acts[0]);
      ActKeepsReady(cfg, m, acts[0], lock);
      StateHasNoLocks(n, Next(cfg, m, acts[0]));
      ReadyAlways(cfg, Next(cfg, m, acts[0]), acts[1..], lock);
    }
  }

  /** With one network the second look at the used set settles the matter: no thread that gets past
      it is ever refused by the store. */
  lemma ConsumeNeverFails(cfg: Config, m: Machine, acts: seq<Action>, lock: nat, tid: nat)
    requires Initial(m) && OneNetwork(m, lock)
    ensures var n := Exec(cfg, m, acts);
            tid in n.threads && n.threads[tid].SinkThread? && n.threads[tid].sinkPc.AtConsume? ==>
              n.threads[tid].q.authority.Some?
              && CanConsume(n.sys.activations, n.threads[tid].q.authority.value.authorityId)
  {
    hide Exec, LockInv;
    UnstartedLocks(m);
    ReadyAlways(cfg, m, acts, lock);
    var n := Exec(cfg, m, acts);
    if tid in n.threads {
      assert Ready(n.sys.activations, n.threads[tid]);
    }
  }
}
