/** What the network holds in every interleaving: each effect carries, field by field, what one admitted
    presentation showed, and is what the candidate of its authority asks for. */
module Effects {
  import opened Wrappers
  import opened Crypto
  import opened Models
  import opened SystemState
  import opened Sink
  import opened Finality
  import opened Concurrent
  import Passage

  /** The i-th application put this effect on the network. */
  predicate PutBy(effects: map<string, NetEffect>, applied: seq<Applied>, i: nat, e: string) {
    i < |applied| && e in effects && applied[i].effectId == e && Carries(effects[e], applied[i].q)
  }

  ghost predicate EffectsInv(effects: map<string, NetEffect>, applied: seq<Applied>) {
    forall e :: e in effects ==> exists i :: PutBy(effects, applied, i, e)
  }

  lemma PutOneMore(effects: map<string, NetEffect>, applied: seq<Applied>, x: Applied, effect: NetEffect)
    requires EffectsInv(effects, applied) && Carries(effect, x.q)
    ensures EffectsInv(effects[x.effectId := effect], applied + [x])
  {
    hide Carries;
    var effects', applied' := effects[x.effectId := effect], applied + [x];
    forall e | e in effects' ensures exists i :: PutBy(effects', applied', i, e) {
      if e == x.effectId {
        assert PutBy(effects', applied', |applied|, e);
      } else {
        var i :| PutBy(effects, applied, i, e);
        assert PutBy(effects', applied', i, e);
      }
    }
  }

  /** The step that makes an effect puts exactly it on the network, and records the application. */
  lemma ApplyPuts(m: Machine, tid: nat, t: Thread, effectId: Option<string>)
    requires t.SinkThread? && !Checking(t.sinkPc) && t.q.authority.Some?
    ensures var n := SinkCommit(m, tid, t, effectId);
            if t.sinkPc.AtApply? && effectId.Some? then
              && n.applied == m.applied + [Applied(t.q, effectId.value, t.sinkReads, Now(m))]
              && effectId.value in n.sys.effects && Carries(n.sys.effects[effectId.value], t.q)
              && n.sys.effects == m.sys.effects[effectId.value := n.sys.effects[effectId.value]]
            else n.applied == m.applied && n.sys.effects == m.sys.effects
  {
    hide CommitMove, CommitUsed, SinkLocksAfter, NetLocksAfter, EffectOf;
    EffectCarries(t.q);
  }

  lemma ActPuts(cfg: Config, m: Machine, act: Action)
    requires EffectsInv(m.sys.effects, m.applied)
    ensures EffectsInv(Act(cfg, m, act).sys.effects, Act(cfg, m, act).applied)
  {
    hide SinkCheck, SinkCommit, PedMove, GrantBy, BuiltAuthority, Carries, EffectsInv;
    if act.SinkAct? && act.tid in m.threads && m.threads[act.tid].SinkThread? {
      var t := m.threads[act.tid];
      if !Checking(t.sinkPc) && t.q.authority.Some? {
        ApplyPuts(m, act.tid, t, act.effectId);
        var n := SinkCommit(m, act.tid, t, act.effectId);
        if t.sinkPc.AtApply? && act.effectId.Some? {
          PutOneMore(m.sys.effects, m.applied, Applied(t.q, act.effectId.value, t.sinkReads, Now(m)),
                     n.sys.effects[act.effectId.value]);
        }
      }
    }
  }

  lemma {:induction false} ExecPuts(cfg: Config, m: Machine, acts: seq<Action>)
    requires EffectsInv(m.sys.effects, m.applied)
    ensures EffectsInv(Exec(cfg, m, acts).sys.effects, Exec(cfg, m, acts).applied)
    decreases |acts|
  {
    hide Act, EffectsInv;
    if acts != [] {
      ActPuts(cfg, m, acts[0]);
      ExecPuts(cfg, Next(cfg, m, acts[0]), acts[1..]);
    }
  }

  /** Put by this application, and asked for by the candidate that its authority was installed for. */
  predicate MadeAsAsked(cfg: Config, n: Machine, i: nat, e: string) {
    && PutBy(n.sys.effects, n.applied, i, e) && Passage.WasIssued(cfg, n.grants, n.applied[i].q)
    && AsAsked(cfg.p, n.sys.effects[e], n.grants[n.applied[i].q.authority.value.authorityId].candidate)
  }

  lemma AskedForIssued(cfg: Config, n: Machine, i: nat, e: string)
    requires PutBy(n.sys.effects, n.applied, i, e) && Passage.WasIssued(cfg, n.grants, n.applied[i].q)
    ensures MadeAsAsked(cfg, n, i, e)
  {
    hide Carries, AsAsked;
    CarriedIsAsked(cfg.p, n.sys.effects[e], n.applied[i].q);
  }

  /** Under every schedule, every effect on the network carries what one admitted presentation showed,
      field by field, and is of the type, on the resources and with the parameters that the candidate of its
      authority asks for. */
  lemma ConcurrentEffects(cfg: Config, m: Machine, acts: seq<Action>, e: string)
    requires Ideal(cfg.p) && Initial(m) && e in Exec(cfg, m, acts).sys.effects
    ensures exists i :: MadeAsAsked(cfg, Exec(cfg, m, acts), i, e)
  {
    hide Exec, MadeAsAsked, Carries, Passage.WasIssued, Ideal;
    ExecPuts(cfg, m, acts);
    var n := Exec(cfg, m, acts);
    var i :| PutBy(n.sys.effects, n.applied, i, e);
    Passage.ConcurrentFinality(cfg, m, acts, i);
    AskedForIssued(cfg, n, i, e);
  }
}
