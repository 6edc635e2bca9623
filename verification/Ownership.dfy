/** Under every interleaving, the used authorities are the applied ones together with those that one
    thread holds between consuming and applying or giving back. */
module Ownership {
  import opened Wrappers
  import opened Evidence
  import opened Ped
  import opened SystemState
  import opened Sink
  import opened Concurrent

  /** The thread consumed this authority and has neither applied nor given it back yet. */
  predicate Owns(t: Thread, id: string) {
    t.SinkThread? && (t.sinkPc.AtApply? || t.sinkPc.AtUnconsume?) && IdOf(t.q) == Some(id)
  }

  predicate HasEffect(applied: seq<Applied>, id: string) {
    exists i :: 0 <= i < |applied| && IdOf(applied[i].q) == Some(id)
  }

  ghost predicate Owned(threads: map<nat, Thread>, id: string) {
    exists tid :: tid in threads && Owns(threads[tid], id)
  }

  /** Used is the disjoint union of applied and owned; every used authority has one owner or one effect. */
  ghost predicate Ownership(used: set<string>, threads: map<nat, Thread>, applied: seq<Applied>) {
    && (forall id :: id in used <==> HasEffect(applied, id) || Owned(threads, id))
    && (forall tid, id :: tid in threads && Owns(threads[tid], id) ==> !HasEffect(applied, id))
    && (forall s, t, id :: s in threads && t in threads && Owns(threads[s], id) && Owns(threads[t], id) ==> s == t)
    && (forall i, j :: 0 <= i < j < |applied| ==> IdOf(applied[i].q) != IdOf(applied[j].q))
  }

  ghost predicate OwnershipInv(m: Machine) {
    Ownership(m.sys.activations.used, m.threads, m.applied)
  }

  // ---- how one step of one thread moves ownership ----

  /** A step that neither starts nor ends ownership. */
  lemma QuietStep(used: set<string>, threads: map<nat, Thread>, applied: seq<Applied>, tid: nat, t': Thread)
    requires Ownership(used, threads, applied) && tid in threads
    requires forall id :: Owns(threads[tid], id) <==> Owns(t', id)
    ensures Ownership(used, threads[tid := t'], applied)
  {
    hide Owns;
    var threads' := threads[tid := t'];
    forall id ensures Owned(threads', id) <==> Owned(threads, id) {
      if Owned(threads, id) {
        var s :| s in threads && Owns(threads[s], id);
        assert Owns(threads'[s], id);
      }
      if Owned(threads', id) {
        var s :| s in threads' && Owns(threads'[s], id);
        assert Owns(threads[s], id);
      }
    }
  }

  /** Consuming: an unused authority becomes owned by this thread alone. */
  lemma ConsumeStep(used: set<string>, threads: map<nat, Thread>, applied: seq<Applied>, tid: nat, t': Thread,
                    id: string)
    requires Ownership(used, threads, applied) && tid in threads && id !in used
    requires forall x :: !Owns(threads[tid], x)
    requires forall x :: Owns(t', x) <==> x == id
    ensures Ownership(used + {id}, threads[tid := t'], applied)
  {
    hide Owns;
    var threads' := threads[tid := t'];
    forall x ensures Owned(threads', x) <==> x == id || Owned(threads, x) {
      if x == id { assert Owns(threads'[tid], x); }
      if Owned(threads, x) {
        var s :| s in threads && Owns(threads[s], x);
        assert Owns(threads'[s], x);
      }
      if Owned(threads', x) && x != id {
        var s :| s in threads' && Owns(threads'[s], x);
        assert Owns(threads[s], x);
      }
    }
    forall s, x | s in threads && Owns(threads[s], x) ensures x != id {
      assert Owned(threads, x);
    }
  }

  /** Ownership ends: this thread owned `id` and owns nothing now, all other threads unchanged. */
  lemma OwnedAfter(threads: map<nat, Thread>, tid: nat, t': Thread, id: string)
    requires tid in threads && (forall x :: Owns(threads[tid], x) <==> x == id) && forall x :: !Owns(t', x)
    requires forall s, t, x :: s in threads && t in threads && Owns(threads[s], x) && Owns(threads[t], x) ==> s == t
    ensures forall x :: Owned(threads[tid := t'], x) <==> x != id && Owned(threads, x)
  {
    hide Owns;
    var threads' := threads[tid := t'];
    forall x ensures Owned(threads', x) <==> x != id && Owned(threads, x) {
      if Owned(threads', x) {
        var s :| s in threads' && Owns(threads'[s], x);
        assert Owns(threads[s], x) && Owns(threads[tid], id);
      }
      if x != id && Owned(threads, x) {
        var s :| s in threads && Owns(threads[s], x);
        assert Owns(threads'[s], x);
      }
    }
  }

  /** Applying: the owned authority gets its one effect. */
  lemma ApplyStep(used: set<string>, threads: map<nat, Thread>, applied: seq<Applied>, tid: nat, t': Thread,
                  id: string, x: Applied)
    requires Ownership(used, threads, applied) && tid in threads && IdOf(x.q) == Some(id)
    requires (forall y :: Owns(threads[tid], y) <==> y == id) && forall y :: !Owns(t', y)
    ensures Ownership(used, threads[tid := t'], applied + [x])
  {
    hide Owns, IdOf;
    OwnedAfter(threads, tid, t', id);
    var applied' := applied + [x];
    forall y ensures HasEffect(applied', y) <==> y == id || HasEffect(applied, y) {
      if y == id { assert IdOf(applied'[|applied|].q) == Some(y); }
      if HasEffect(applied, y) {
        var i :| 0 <= i < |applied| && IdOf(applied[i].q) == Some(y);
        assert IdOf(applied'[i].q) == Some(y);
      }
    }
    assert Owns(threads[tid], id);
    assert !HasEffect(applied, id);
  }

  /** Giving back: the owned authority is unused again, and it had no effect. */
  lemma UnconsumeStep(used: set<string>, threads: map<nat, Thread>, applied: seq<Applied>, tid: nat, t': Thread,
                      id: string)
    requires Ownership(used, threads, applied) && tid in threads
    requires (forall y :: Owns(threads[tid], y) <==> y == id) && forall y :: !Owns(t', y)
    ensures Ownership(used - {id}, threads[tid := t'], applied) && !HasEffect(applied, id)
  {
    hide Owns, HasEffect;
    OwnedAfter(threads, tid, t', id);
    assert Owns(threads[tid], id);
  }

  // ---- every step keeps ownership ----

  lemma CheckOwnsNothing(cfg: Config, m: Machine, t: Thread)
    requires t.SinkThread? && Checking(t.sinkPc)
    ensures forall id :: !Owns(t, id) && !Owns(SinkCheck(cfg, m, t), id)
  {
    hide CheckEnvelope, CheckEvidence, CheckActivation, CheckSink, CheckScope, DeniedBy;
  }

  predicate Committing(m: Machine, tid: nat) {
    tid in m.threads && m.threads[tid].SinkThread? && !Checking(m.threads[tid].sinkPc)
      && m.threads[tid].q.authority.Some?
  }

  lemma CommitQuiet(m: Machine, tid: nat, effectId: Option<string>)
    requires OwnershipInv(m) && Committing(m, tid)
    requires !m.threads[tid].sinkPc.AtConsume? && !m.threads[tid].sinkPc.AtApply? && !m.threads[tid].sinkPc.AtUnconsume?
    ensures OwnershipInv(SinkCommit(m, tid, m.threads[tid], effectId))
  {
    hide Ownership, DeniedBy;
    var t, n := m.threads[tid], SinkCommit(m, tid, m.threads[tid], effectId);
    if n.threads != m.threads {
      QuietStep(m.sys.activations.used, m.threads, m.applied, tid, n.threads[tid]);
    }
  }

  lemma CommitKeeps(m: Machine, tid: nat, effectId: Option<string>)
    requires OwnershipInv(m) && Committing(m, tid)
    ensures OwnershipInv(SinkCommit(m, tid, m.threads[tid], effectId))
  {
    hide Ownership, EffectOf, DeniedBy, Allowed, Owns;
    var t, n := m.threads[tid], SinkCommit(m, tid, m.threads[tid], effectId);
    var used, id := m.sys.activations.used, t.q.authority.value.authorityId;
    OwnersOf(t, id);
    if t.sinkPc.AtConsume? {
      OwnersOf(n.threads[tid], id);
      if n.threads[tid].sinkPc.AtApply? {
        ConsumeStep(used, m.threads, m.applied, tid, n.threads[tid], id);
      } else {
        QuietStep(used, m.threads, m.applied, tid, n.threads[tid]);
      }
    } else if t.sinkPc.AtApply? {
      OwnersOf(n.threads[tid], id);
      if effectId.Some? {
        ApplyStep(used, m.threads, m.applied, tid, n.threads[tid], id, 
                  Applied(t.q, effectId.value, t.sinkReads, Now(m)));
      } else {
        QuietStep(used, m.threads, m.applied, tid, n.threads[tid]);
      }
    } else if t.sinkPc.AtUnconsume? {
      OwnersOf(n.threads[tid], id);
      UnconsumeStep(used, m.threads, m.applied, tid, n.threads[tid], id);
    } else {
      CommitQuiet(m, tid, effectId);
    }
  }

  lemma OwnersOf(t: Thread, id: string)
    requires t.SinkThread? && t.q.authority.Some? && t.q.authority.value.authorityId == id
    ensures forall x :: Owns(t, x) <==> x == id && (t.sinkPc.AtApply? || t.sinkPc.AtUnconsume?)
  {
  }

  lemma ActKeeps(cfg: Config, m: Machine, act: Action)
    requires OwnershipInv(m)
    ensures OwnershipInv(Act(cfg, m, act))
  {
    hide SinkCheck, SinkCommit, Ownership, PedNext;
    match act
    case SinkAct(tid, effectId) =>
      if tid in m.threads && m.threads[tid].SinkThread? {
        var t := m.threads[tid];
        if Checking(t.sinkPc) {
          CheckOwnsNothing(cfg, m, t);
          QuietStep(m.sys.activations.used, m.threads, m.applied, tid, SinkCheck(cfg, m, t));
        } else if t.q.authority.Some? {
          CommitKeeps(m, tid, effectId);
        }
      }
    case PedAct(tid) =>
      if tid in m.threads && m.threads[tid].PedThread? {
        PedIsQuiet(cfg, m, tid);
        QuietStep(m.sys.activations.used, m.threads, m.applied, tid, PedNext(cfg, m, tid, m.threads[tid]).threads[tid]);
      }
    case EnvAct(_) =>
  }

  lemma PedIsQuiet(cfg: Config, m: Machine, tid: nat)
    requires tid in m.threads && m.threads[tid].PedThread?
    ensures var n := PedNext(cfg, m, tid, m.threads[tid]);
            && tid in n.threads && n.threads[tid].PedThread? && n.threads == m.threads[tid := n.threads[tid]]
            && n.sys.activations.used == m.sys.activations.used && n.applied == m.applied
  {
    hide BuiltAuthority, ActivationOf, Commit, PedMove;
  }

  lemma InitialOwnership(m: Machine)
    requires Initial(m)
    ensures OwnershipInv(m)
  {
  }

  /** In every state of every schedule, for any number of threads, sink objects and networks over one
      activation store: used is the disjoint union of applied and owned. So an authority has at most
      one effect, and giving one back never frees an authority that has an effect. */
  lemma {:induction false} OwnershipAlways(cfg: Config, m: Machine, acts: seq<Action>)
    requires OwnershipInv(m)
    ensures OwnershipInv(Exec(cfg, m, acts))
    decreases |acts|
  {
    hide Act, Ownership;
    if acts != [] {
      ActKeeps(cfg, m, acts[0]);
      OwnershipAlways(cfg, Next(cfg, m, acts[0]), acts[1..]);
    }
  }

  /** The step that gives an authority back frees one that has no effect and no other owner. */
  lemma UnconsumeIsSafe(m: Machine, tid: nat)
    requires OwnershipInv(m) && tid in m.threads && m.threads[tid].SinkThread? && m.threads[tid].sinkPc.AtUnconsume?
    requires m.threads[tid].q.authority.Some?
    ensures var id := m.threads[tid].q.authority.value.authorityId;
            && id in m.sys.activations.used && !HasEffect(m.applied, id)
            && forall s :: s in m.threads && Owns(m.threads[s], id) ==> s == tid
  {
    hide HasEffect;
    assert Owns(m.threads[tid], m.threads[tid].q.authority.value.authorityId);
  }
}
