/** Many presentations of one valid authority at once, on any number of sink objects: exactly one is
    allowed, and the outcome is that of presenting them one after the other. */
module Winner {
  import opened Wrappers
  import opened Crypto
  import opened Models
  import opened Evidence
  import opened State
  import opened SystemState
  import opened Ped
  import opened Sink
  import opened Protocol
  import opened Concurrent
  import opened Finality

  /** Presented alone, this would be allowed; it shows the authority with this id. */
  predicate Entrant(cfg: Config, sys: System, id: string, q: Presentation) {
    IdOf(q) == Some(id) && Ladder(cfg, sys, q).None?
  }

  /** All threads are about to present the authority, and no lock matters yet. */
  predicate Contest(cfg: Config, m: Machine, id: string) {
    && id in m.sys.activations.records && id !in m.sys.activations.used
    && forall tid :: tid in m.threads ==>
         Unstarted(m.threads[tid]) && m.threads[tid].SinkThread? && Entrant(cfg, m.sys, id, m.threads[tid].q)
  }

  /** The schedule only runs sinks, and the network never raises. */
  predicate SinksOnly(acts: seq<Action>) {
    forall i :: 0 <= i < |acts| ==> acts[i].SinkAct? && acts[i].effectId.Some?
  }

  datatype Race = Open | Taken(winner: nat) | Won(winner: nat, effectId: string)

  function Consumed(sys: System, id: string): System {
    sys.(activations := sys.activations.(used := sys.activations.used + {id}))
  }

  function After(sys: System, q: Presentation, effectId: string): System
    requires q.authority.Some?
  {
    var a := q.authority.value;
    Consumed(sys, a.authorityId).(effects := sys.effects[effectId := EffectOf(q.candidate, a, q.effect)])
  }

  // ---- the race, step by step ----

  predicate Ends(pc: SinkPc, outcome: Outcome) {
    pc == AtRelease(outcome) || pc == AtSinkRelease(outcome) || pc == Finished(outcome)
  }

  predicate Lost(q: Presentation, pc: SinkPc) {
    Ends(pc, DeniedBy(q, AlreadyUsed)) || Ends(pc, DeniedBy(q, UsedUnderLock)) || Ends(pc, DeniedBy(q, NotConsumed))
  }

  /** Still on the way, with the record of the authority in hand. */
  predicate OnTheWay(pc: SinkPc, record: ActivationRecord) {
    match pc
    case AtEnvelope => true
    case AtEvidence => true
    case AtActivation => true
    case AtUsed(r) => r == record
    case AtReference(r) => r == record
    case AtEpochs(r) => r == record
    case AtScope(r) => r == record
    case AtSinkLock => true
    case AtNetLock => true
    case AtRecheck => true
    case AtConsume => true
    case _ => false
  }

  /** Where a thread stands: the winner applies and is allowed; any other is on the way, or has lost
      after somebody took the authority. */
  predicate Standing(race: Race, record: ActivationRecord, id: string, tid: nat, q: Presentation, t: Thread) {
    && t.SinkThread? && t.q == q
    && if race.Taken? && race.winner == tid then t.sinkPc == AtApply
       else if race.Won? && race.winner == tid then Ends(t.sinkPc, Answered(Allowed(q.requestId, id, race.effectId)))
       else OnTheWay(t.sinkPc, record) || (!race.Open? && Lost(q, t.sinkPc))
  }

  /** The shared state at each stage of the race. */
  predicate SystemAt(m: Machine, race: Race, id: string, sys: System) {
    match race
    case Open => sys == m.sys
    case Taken(winner) => winner in m.threads && sys == Consumed(m.sys, id)
    case Won(winner, effectId) =>
      winner in m.threads && m.threads[winner].SinkThread? && IdOf(m.threads[winner].q) == Some(id)
      && sys == After(m.sys, m.threads[winner].q, effectId)
  }

  predicate AppliedAt(m: Machine, race: Race, applied: seq<Applied>) {
    if race.Won? then
      && race.winner in m.threads && m.threads[race.winner].SinkThread?
      && |applied| == |m.applied| + 1 && m.applied <= applied
      && applied[|m.applied|].q == m.threads[race.winner].q && applied[|m.applied|].effectId == race.effectId
    else applied == m.applied
  }

  ghost predicate RaceInv(m: Machine, id: string, race: Race, n: Machine)
    requires id in m.sys.activations.records
  {
    && n.threads.Keys == m.threads.Keys
    && SystemAt(m, race, id, n.sys) && AppliedAt(m, race, n.applied)
    && forall tid :: tid in m.threads ==>
         m.threads[tid].SinkThread?
         && Standing(race, m.sys.activations.records[id], id, tid, m.threads[tid].q, n.threads[tid])
  }

  /** What passing the whole ladder says about each check. */
  lemma EntrantParts(cfg: Config, sys: System, id: string, q: Presentation)
    requires Entrant(cfg, sys, id, q)
    ensures q.authority.Some? && q.authority.value.authorityId == id && id in sys.activations.records
    ensures var a, c, r := q.authority.value, q.candidate, sys.activations.records[id];
            && CheckEnvelope(cfg, c, a, q.now).None?
            && CheckEvidence(c, a, Evidence.Get(sys.evidence, a.binding.evidenceId)).None?
            && CheckActivation(cfg, q.sink.sinkId, c, a, q.now, Some(r)).None? && id !in sys.activations.used
            && CheckSink(q.sink, c, a).None? && CheckState(a, sys.net.protectedStateReference, sys.net.epochs).None?
            && CheckScope(cfg, c, a, r, q.effect).None?
  {
    hide CheckEnvelope, CheckEvidence, CheckActivation, CheckSink, CheckState, CheckScope;
  }

  lemma StateAt(a: Authority, reference: string, epochs: Epochs)
    requires CheckState(a, reference, epochs).None?
    ensures a.binding.protectedStateReference == reference
    ensures forall k :: 0 <= k < 5 ==> At(a.binding.epochs, k) == At(epochs, k)
  {
  }

  /** Two states that a sink cannot tell apart when it checks this authority, the used set aside. */
  predicate SameForAuthority(sys: System, sys': System, a: Authority) {
    && sys'.net.epochs == sys.net.epochs && sys'.net.protectedStateReference == sys.net.protectedStateReference
    && Evidence.Get(sys'.evidence, a.binding.evidenceId) == Evidence.Get(sys.evidence, a.binding.evidenceId)
    && RecordOf(sys'.activations, a.authorityId) == RecordOf(sys.activations, a.authorityId)
  }

  /** A check denies nobody, except that a taken authority is found used. */
  lemma CheckRaces(cfg: Config, sys: System, id: string, m: Machine, t: Thread)
    requires t.SinkThread? && Entrant(cfg, sys, id, t.q) && Checking(t.sinkPc)
    requires id in sys.activations.records && OnTheWay(t.sinkPc, sys.activations.records[id])
    requires SameForAuthority(sys, m.sys, t.q.authority.value)
    ensures var t' := SinkCheck(cfg, m, t);
            OnTheWay(t'.sinkPc, sys.activations.records[id])
            || (id in m.sys.activations.used && Ends(t'.sinkPc, DeniedBy(t.q, AlreadyUsed)))
  {
    hide CheckEnvelope, CheckEvidence, CheckActivation, CheckSink, CheckState, CheckScope, DeniedBy, EpochRung,
         Entrant, At;
    EntrantParts(cfg, sys, id, t.q);
    StateAt(t.q.authority.value, sys.net.protectedStateReference, sys.net.epochs);
  }

  /** From the locks on: an unused authority is consumed, a used one is found used. */
  lemma CommitRaces(id: string, record: ActivationRecord, m: Machine, t: Thread, effectId: Option<string>)
    requires t.SinkThread? && IdOf(t.q) == Some(id) && !Checking(t.sinkPc) && OnTheWay(t.sinkPc, record)
    requires id in m.sys.activations.records
    ensures var pc := CommitMove(m, t, effectId);
            if t.sinkPc.AtConsume? && id !in m.sys.activations.used then pc == AtApply
            else OnTheWay(pc, record) || (id in m.sys.activations.used && Lost(t.q, pc))
  {
    hide DeniedBy, Allowed;
  }

  lemma EndsStay(m: Machine, t: Thread, effectId: Option<string>, outcome: Outcome)
    requires t.SinkThread? && t.q.authority.Some? && Ends(t.sinkPc, outcome)
    ensures !Checking(t.sinkPc) && Ends(CommitMove(m, t, effectId), outcome)
  {
    hide DeniedBy, Allowed;
  }

  /** The stage after thread `tid`, standing as `t`, takes its step. */
  function RaceNext(race: Race, tid: nat, t: Thread, effectId: string): Race {
    if race.Open? && t.SinkThread? && t.sinkPc.AtConsume? then Taken(tid)
    else if race.Taken? && race.winner == tid then Won(tid, effectId)
    else race
  }

  /** The shared facts a thread on the way needs, at any stage of the race. */
  lemma SystemFacts(m: Machine, id: string, race: Race, sys: System)
    requires SystemAt(m, race, id, sys)
    ensures sys.net == m.sys.net && sys.evidence == m.sys.evidence
            && sys.activations.records == m.sys.activations.records
    ensures sys.activations.used == if race.Open? then m.sys.activations.used else m.sys.activations.used + {id}
  {
    hide EffectOf;
  }

  lemma CheckStanding(cfg: Config, m: Machine, id: string, race: Race, n: Machine, tid: nat, effectId: string)
    requires Contest(cfg, m, id) && RaceInv(m, id, race, n) && tid in m.threads && Checking(n.threads[tid].sinkPc)
    ensures var t, n' := n.threads[tid], SinkNext(cfg, n, tid, n.threads[tid], Some(effectId));
            && n' == n.(threads := n.threads[tid := n'.threads[tid]])
            && RaceNext(race, tid, t, effectId) == race
            && Standing(race, m.sys.activations.records[id], id, tid, m.threads[tid].q, n'.threads[tid])
  {
    hide SinkCheck, SinkCommit, Entrant, SystemAt, AppliedAt, SameForAuthority, Standing, OnTheWay, Ends;
    var t, record := n.threads[tid], m.sys.activations.records[id];
    SystemFacts(m, id, race, n.sys);
    CheckingStands(race, record, id, tid, m.threads[tid].q, t);
    EntrantParts(cfg, m.sys, id, t.q);
    SameStage(cfg, m, id, n.sys, t.q);
    CheckRaces(cfg, m.sys, id, n, t);
    StandsOn(race, record, id, tid, m.threads[tid].q, t, SinkCheck(cfg, n, t));
  }

  lemma CheckingStands(race: Race, record: ActivationRecord, id: string, tid: nat, q: Presentation, t: Thread)
    requires Standing(race, record, id, tid, q, t) && Checking(t.sinkPc)
    ensures t.SinkThread? && t.q == q && OnTheWay(t.sinkPc, record) && !t.sinkPc.AtConsume?
    ensures race.Taken? || race.Won? ==> race.winner != tid
  {
    hide Allowed, DeniedBy;
  }

  lemma StandsOn(race: Race, record: ActivationRecord, id: string, tid: nat, q: Presentation, t: Thread, t': Thread)
    requires t.SinkThread? && t'.SinkThread? && t.q == q && t'.q == q
             && (race.Taken? || race.Won? ==> race.winner != tid)
    requires OnTheWay(t'.sinkPc, record) || (!race.Open? && Ends(t'.sinkPc, DeniedBy(q, AlreadyUsed)))
    ensures Standing(race, record, id, tid, q, t')
  {
    hide OnTheWay, Ends, Allowed, DeniedBy;
  }

  lemma SameStage(cfg: Config, m: Machine, id: string, sys: System, q: Presentation)
    requires q.authority.Some? && sys.net == m.sys.net && sys.evidence == m.sys.evidence
    requires sys.activations.records == m.sys.activations.records
    ensures SameForAuthority(m.sys, sys, q.authority.value)
  {
  }

  lemma CommitStanding(cfg: Config, m: Machine, id: string, race: Race, n: Machine, tid: nat, effectId: string)
    requires Contest(cfg, m, id) && RaceInv(m, id, race, n) && tid in m.threads && !Checking(n.threads[tid].sinkPc)
    ensures var t := n.threads[tid];
            && t.q == m.threads[tid].q && IdOf(t.q) == Some(id)
            && Standing(RaceNext(race, tid, t, effectId), m.sys.activations.records[id], id, tid, m.threads[tid].q,
                        t.(sinkPc := CommitMove(n, t, Some(effectId))))
  {
    hide CommitMove, OnTheWay, Ends, SystemAt, AppliedAt, Allowed, DeniedBy, Ladder;
    var t := n.threads[tid];
    var record := m.sys.activations.records[id];
    assert Standing(race, record, id, tid, m.threads[tid].q, t);
    assert Entrant(cfg, m.sys, id, m.threads[tid].q);
    SystemFacts(m, id, race, n.sys);
    if race.Taken? && race.winner == tid {
      Applies(n, t, effectId);
    } else if race.Won? && race.winner == tid {
      EndsStay(n, t, Some(effectId), Answered(Allowed(t.q.requestId, id, race.effectId)));
    } else if OnTheWay(t.sinkPc, record) {
      CommitRaces(id, record, n, t, Some(effectId));
    } else {
      LostStays(n, t, Some(effectId));
    }
  }

  lemma Applies(m: Machine, t: Thread, effectId: string)
    requires t.SinkThread? && t.q.authority.Some? && t.sinkPc == AtApply
    ensures Ends(CommitMove(m, t, Some(effectId)),
                 Answered(Allowed(t.q.requestId, t.q.authority.value.authorityId, effectId)))
  {
    hide Allowed;
  }

  lemma LostStays(m: Machine, t: Thread, effectId: Option<string>)
    requires t.SinkThread? && t.q.authority.Some? && Lost(t.q, t.sinkPc)
    ensures !t.sinkPc.AtConsume? && !Checking(t.sinkPc) && Lost(t.q, CommitMove(m, t, effectId))
  {
    hide CommitMove, DeniedBy;
    forall outcome | Ends(t.sinkPc, outcome) ensures !Checking(t.sinkPc) && Ends(CommitMove(m, t, effectId), outcome) {
      EndsStay(m, t, effectId, outcome);
    }
  }

  /** What the moving thread writes takes the shared state to the next stage. */
  lemma CommitSystem(cfg: Config, m: Machine, id: string, race: Race, n: Machine, tid: nat, effectId: string)
    requires Contest(cfg, m, id) && RaceInv(m, id, race, n) && tid in m.threads && !Checking(n.threads[tid].sinkPc)
    ensures var t := n.threads[tid];
            && t.q == m.threads[tid].q && IdOf(t.q) == Some(id)
            && var n', race' := SinkCommit(n, tid, t, Some(effectId)), RaceNext(race, tid, t, effectId);
               SystemAt(m, race', id, n'.sys) && AppliedAt(m, race', n'.applied)
  {
    hide CommitMove, SinkLocksAfter, NetLocksAfter, EffectOf, Allowed, DeniedBy, Ladder;
    var t := n.threads[tid];
    assert Standing(race, m.sys.activations.records[id], id, tid, m.threads[tid].q, t);
    assert Entrant(cfg, m.sys, id, m.threads[tid].q);
    SystemFacts(m, id, race, n.sys);
  }

  lemma OthersStand(m: Machine, id: string, race: Race, n: Machine, tid: nat, effectId: string, other: nat)
    requires id in m.sys.activations.records && RaceInv(m, id, race, n)
    requires tid in m.threads && other in m.threads && other != tid
    ensures Standing(RaceNext(race, tid, n.threads[tid], effectId), m.sys.activations.records[id], id, other,
                     m.threads[other].q, n.threads[other])
  {
    hide OnTheWay, Lost, Ends, SystemAt, AppliedAt, Allowed;
    assert Standing(race, m.sys.activations.records[id], id, tid, m.threads[tid].q, n.threads[tid]);
    assert Standing(race, m.sys.activations.records[id], id, other, m.threads[other].q, n.threads[other]);
  }

  lemma SinkMoves(cfg: Config, n: Machine, tid: nat, effectId: string)
    requires tid in n.threads && n.threads[tid].SinkThread?
    ensures var n' := SinkNext(cfg, n, tid, n.threads[tid], Some(effectId));
            && Next(cfg, n, SinkAct(tid, Some(effectId))) == n'.(log := n'.log + [n'.sys.net])
            && tid in n'.threads && n'.threads == n.threads[tid := n'.threads[tid]]
  {
    hide SinkCheck, CommitMove, CommitUsed, SinkLocksAfter, NetLocksAfter, Checking, EffectOf, Applying, PedNext;
  }

  lemma RaceStep(cfg: Config, m: Machine, id: string, race: Race, n: Machine, tid: nat, effectId: string)
    requires Contest(cfg, m, id) && RaceInv(m, id, race, n) && tid in m.threads
    ensures RaceInv(m, id, RaceNext(race, tid, n.threads[tid], effectId), Next(cfg, n, SinkAct(tid, Some(effectId))))
  {
    hide SinkCheck, CommitMove, CommitUsed, SinkLocksAfter, NetLocksAfter, Standing, SystemAt, AppliedAt, Checking,
         EffectOf, RaceNext, Applying, Next, Entrant;
    StandingIsSink(m, id, race, n, tid);
    SinkMoves(cfg, n, tid, effectId);
    if Checking(n.threads[tid].sinkPc) {
      CheckStanding(cfg, m, id, race, n, tid, effectId);
    } else {
      CommitStanding(cfg, m, id, race, n, tid, effectId);
      CommitSystem(cfg, m, id, race, n, tid, effectId);
    }
    forall other | other in m.threads && other != tid
      ensures Standing(RaceNext(race, tid, n.threads[tid], effectId), m.sys.activations.records[id], id, other,
                       m.threads[other].q, n.threads[other])
    {
      OthersStand(m, id, race, n, tid, effectId, other);
    }
  }

  lemma StandingIsSink(m: Machine, id: string, race: Race, n: Machine, tid: nat)
    requires id in m.sys.activations.records && RaceInv(m, id, race, n) && tid in m.threads
    ensures n.threads[tid].SinkThread?
  {
    hide OnTheWay, Lost, Ends, SystemAt, AppliedAt, Allowed;
  }

  lemma {:induction false} RaceRun(cfg: Config, m: Machine, id: string, race: Race, n: Machine,
                                   acts: seq<Action>) returns (last: Race)
    requires Contest(cfg, m, id) && RaceInv(m, id, race, n) && SinksOnly(acts)
    ensures RaceInv(m, id, last, Exec(cfg, n, acts))
    decreases |acts|
  {
    hide Act, Standing, SystemAt, AppliedAt, Entrant;
    if acts == [] {
      last := race;
    } else {
      var n', tid := Next(cfg, n, acts[0]), acts[0].tid;
      var race' := race;
      if tid in m.threads {
        race' := RaceNext(race, tid, n.threads[tid], acts[0].effectId.value);
        RaceStep(cfg, m, id, race, n, tid, acts[0].effectId.value);
      } else {
        NobodyActs(cfg, n, acts[0]);
      }
      last := RaceRun(cfg, m, id, race', n', acts[1..]);
    }
  }

  lemma NobodyActs(cfg: Config, m: Machine, act: Action)
    requires act.SinkAct? && act.tid !in m.threads
    ensures Next(cfg, m, act) == m.(log := m.log + [m.sys.net])
  {
  }

  // ---- the outcome ----

  predicate AllFinished(m: Machine) {
    forall tid :: tid in m.threads ==> m.threads[tid].SinkThread? && m.threads[tid].sinkPc.Finished?
  }

  /** Denied because the authority was already used. */
  predicate Beaten(q: Presentation, outcome: Outcome) {
    outcome == DeniedBy(q, AlreadyUsed) || outcome == DeniedBy(q, UsedUnderLock) || outcome == DeniedBy(q, NotConsumed)
  }

  predicate Replied(n: Machine, tid: nat, q: Presentation, outcome: Outcome) {
    tid in n.threads && n.threads[tid].SinkThread? && n.threads[tid].q == q
      && n.threads[tid].sinkPc == Finished(outcome)
  }

  ghost predicate BeatenAt(n: Machine, tid: nat, q: Presentation) {
    exists outcome :: Replied(n, tid, q, outcome) && Beaten(q, outcome)
  }

  /** One thread was allowed and made the one effect, all others found the authority used, and
      nothing else changed. */
  ghost predicate WonBy(m: Machine, n: Machine, id: string, winner: nat, effectId: string) {
    && winner in m.threads && m.threads[winner].SinkThread? && IdOf(m.threads[winner].q) == Some(id)
    && Replied(n, winner, m.threads[winner].q, Answered(Allowed(m.threads[winner].q.requestId, id, effectId)))
    && n.sys == After(m.sys, m.threads[winner].q, effectId)
    && |n.applied| == |m.applied| + 1 && m.applied <= n.applied
    && n.applied[|m.applied|].q == m.threads[winner].q && n.applied[|m.applied|].effectId == effectId
    && forall tid ::
         tid in m.threads && tid != winner ==> m.threads[tid].SinkThread? && BeatenAt(n, tid, m.threads[tid].q)
  }

  /** In the end the one who took the authority was allowed, and any other thread has lost. */
  lemma FinalStanding(race: Race, record: ActivationRecord, id: string, tid: nat, q: Presentation, t: Thread)
    requires Standing(race, record, id, tid, q, t) && t.sinkPc.Finished?
    ensures !race.Open? && (race.winner == tid ==> race.Won?)
    ensures race.Won? && race.winner == tid ==>
      t.q == q && t.sinkPc == Finished(Answered(Allowed(q.requestId, id, race.effectId)))
    ensures race.winner != tid ==> t.q == q && Beaten(q, t.sinkPc.outcome)
  {
    hide Allowed, DeniedBy;
  }

  lemma FinishedStanding(m: Machine, id: string, race: Race, n: Machine, tid: nat)
    requires id in m.sys.activations.records && RaceInv(m, id, race, n) && AllFinished(n) && tid in m.threads
    ensures !race.Open? && (race.winner == tid ==> race.Won?)
    ensures race.Won? && race.winner == tid ==>
      Replied(n, tid, m.threads[tid].q, Answered(Allowed(m.threads[tid].q.requestId, id, race.effectId)))
    ensures race.winner != tid ==> m.threads[tid].SinkThread? && BeatenAt(n, tid, m.threads[tid].q)
  {
    hide Allowed, Standing, SystemAt, AppliedAt, Beaten;
    var q, t := m.threads[tid].q, n.threads[tid];
    FinalStanding(race, m.sys.activations.records[id], id, tid, q, t);
    assert Replied(n, tid, q, t.sinkPc.outcome);
  }

  lemma Settled(m: Machine, id: string, race: Race, n: Machine)
    requires id in m.sys.activations.records && RaceInv(m, id, race, n) && AllFinished(n) && m.threads != map[]
    ensures race.Won? && WonBy(m, n, id, race.winner, race.effectId)
  {
    hide Allowed, Standing, Replied, BeatenAt, EffectOf, AllFinished;
    var tid :| tid in m.threads;
    FinishedStanding(m, id, race, n, tid);
    FinishedStanding(m, id, race, n, race.winner);
    forall other | other in m.threads && other != race.winner
      ensures m.threads[other].SinkThread? && BeatenAt(n, other, m.threads[other].q)
    {
      FinishedStanding(m, id, race, n, other);
    }
  }

  /** N presentations at once, none of which would be denied alone, with no environment change and
      no network failure: whatever the interleaving, when all have finished exactly one was allowed,
      the others found the authority used, and there is one effect. */
  lemma OneWinner(cfg: Config, m: Machine, id: string, acts: seq<Action>)
    requires Contest(cfg, m, id) && m.threads != map[] && SinksOnly(acts) && AllFinished(Exec(cfg, m, acts))
    ensures exists winner, effectId :: WonBy(m, Exec(cfg, m, acts), id, winner, effectId)
  {
    hide Exec, Standing, Entrant, WonBy;
    ContestOpens(cfg, m, id);
    var last := RaceRun(cfg, m, id, Open, m, acts);
    Settled(m, id, last, Exec(cfg, m, acts));
  }

  lemma ContestOpens(cfg: Config, m: Machine, id: string)
    requires Contest(cfg, m, id)
    ensures RaceInv(m, id, Open, m)
  {
    hide Entrant;
  }

  /** Every loser is told the code of a used authority, and nothing else about its reply varies but
      the part of the report it had reached. */
  lemma BeatenCode(q: Presentation, outcome: Outcome)
    requires Beaten(q, outcome)
    ensures outcome.Answered? && !outcome.response.allow && outcome.response.code == "EF-005"
    ensures outcome == Answered(outcome.response)
    ensures outcome.response.(verification := map[])
            == Denial(q.requestId, AlreadyUsed, IdOf(q)).(verification := map[])
  {
    hide Report, Passed;
  }

  // ---- such contests come about ----

  /** These presentations show the authority just issued, with its candidate, in time and in scope. */
  predicate Presenting(cfg: Config, c: Candidate, a: Authority, q: Presentation) {
    && q.authority == Some(a) && q.candidate == c && q.now < a.lifetime.expiresAt
    && q.sink == SinkIdentity(c.finalitySink.sinkId, c.finalitySink.sinkType) && InScope(cfg.p, c, q.effect)
  }

  lemma AllowedHadPassed(cfg: Config, sys: System, q: Presentation, effectId: string, id: string)
    requires SinkStep(cfg, sys, q, Some(effectId)).1 == Answered(Allowed(q.requestId, id, effectId))
    ensures Entrant(cfg, sys, id, q) && CanConsume(sys.activations, id)
  {
    hide CheckEnvelope, CheckEvidence, CheckActivation, CheckSink, CheckState, CheckScope, Report, Passed, EffectOf;
  }

  /** In any reachable state, any number of threads presenting an authority that the domain has just
      issued are a contest. */
  lemma IssuedOpensContest(cfg: Config, start: int, w: World, c: Candidate, now: int, ids: Ids, m: Machine)
    requires Ideal(cfg.p) && Inv(cfg, start, w) && PedStep(cfg, w.sys, c, now, ids).1.Issued?
    requires m.sys == PedStep(cfg, w.sys, c, now, ids).0 && m.threads != map[]
    requires forall tid :: tid in m.threads ==>
      Unstarted(m.threads[tid]) && m.threads[tid].SinkThread?
      && Presenting(cfg, c, PedStep(cfg, w.sys, c, now, ids).1.authority, m.threads[tid].q)
    ensures Contest(cfg, m, ids.authorityId)
  {
    hide PedStep, SinkStep, Inv, Ideal, InScope, Entrant, Allowed, CanConsume;
    forall tid | tid in m.threads
      ensures Entrant(cfg, m.sys, ids.authorityId, m.threads[tid].q) && CanConsume(m.sys.activations, ids.authorityId)
    {
      IssuedIsAdmitted(cfg, start, w, c, now, ids, m.threads[tid].q, "");
      AllowedHadPassed(cfg, m.sys, m.threads[tid].q, "", ids.authorityId);
    }
    var tid :| tid in m.threads;
    assert CanConsume(m.sys.activations, ids.authorityId);
    ConsumableIsUnused(m.sys.activations, ids.authorityId);
  }

  lemma ConsumableIsUnused(activations: Activations, id: string)
    requires CanConsume(activations, id)
    ensures id in activations.records && id !in activations.used
  {
  }

  // ---- the same, one after the other ----

  predicate SameReply(x: Outcome, y: Outcome) {
    x == y || (x.Answered? && y.Answered? && x.response.(verification := map[]) == y.response.(verification := map[]))
  }

  /** The presentations of these threads, one after the other. */
  function InOrder(m: Machine, order: seq<nat>, effectIds: seq<string>): (evs: seq<Event>)
    requires |order| == |effectIds|
    requires forall i :: 0 <= i < |order| ==> order[i] in m.threads && m.threads[order[i]].SinkThread?
    ensures |evs| == |order|
  {
    seq(|order|, i requires 0 <= i < |order| => SinkCall(m.threads[order[i]].q, Some(effectIds[i])))
  }

  lemma UsedIsDenied(cfg: Config, sys: System, id: string, q: Presentation, sys': System)
    requires Entrant(cfg, sys, id, q) && sys'.net == sys.net && sys'.evidence == sys.evidence
    requires sys'.activations == Activations(sys.activations.records, sys.activations.used + {id})
    ensures Ladder(cfg, sys', q) == Some(AlreadyUsed)
  {
    hide CheckEnvelope, CheckEvidence, CheckActivation, CheckSink, CheckState, CheckScope, Entrant;
    EntrantParts(cfg, sys, id, q);
  }

  predicate LateCalls(cfg: Config, sys: System, id: string, evs: seq<Event>) {
    forall i :: 0 <= i < |evs| ==> evs[i].SinkCall? && Entrant(cfg, sys, id, evs[i].q)
  }

  /** After the winner, every other presentation is denied and changes nothing. */
  lemma {:induction false} LateRun(cfg: Config, sys: System, id: string, sys': System, evs: seq<Event>)
    requires LateCalls(cfg, sys, id, evs) && sys'.net == sys.net && sys'.evidence == sys.evidence
    requires sys'.activations == Activations(sys.activations.records, sys.activations.used + {id})
    ensures Final(cfg, sys', evs) == sys' && |Replies(cfg, sys', evs)| == |evs|
    ensures forall i :: 0 <= i < |evs| ==> Replies(cfg, sys', evs)[i] == FromSink(DeniedBy(evs[i].q, AlreadyUsed))
    decreases |evs|
  {
    hide Ladder, Denial;
    if evs != [] {
      assert Entrant(cfg, sys, id, evs[0].q);
      UsedIsDenied(cfg, sys, id, evs[0].q, sys');
      LateRun(cfg, sys, id, sys', evs[1..]);
    }
  }

  lemma FirstCall(cfg: Config, sys: System, id: string, q: Presentation, effectId: string)
    requires Entrant(cfg, sys, id, q)
    ensures Step(cfg, sys, SinkCall(q, Some(effectId))) ==
            (After(sys, q, effectId), FromSink(Answered(Allowed(q.requestId, id, effectId))))
  {
    hide Ladder, Allowed, EffectOf;
  }

  predicate Lists(m: Machine, order: seq<nat>) {
    && (forall i :: 0 <= i < |order| ==> order[i] in m.threads)
    && (forall i, j :: 0 <= i < j < |order| ==> order[i] != order[j])
    && forall tid :: tid in m.threads ==> tid in order
  }

  /** The thread's reply in the interleaving, against the reply to the same call in sequence. */
  predicate Matches(reply: Reply, n: Machine, tid: nat) {
    && reply.FromSink? && tid in n.threads && n.threads[tid].SinkThread? && n.threads[tid].sinkPc.Finished?
    && SameReply(reply.outcome, n.threads[tid].sinkPc.outcome)
  }

  /** The interleaving matches every sequential order in which its winner comes first: same final
      state, and the same reply to each presentation, the report's progress aside. */
  lemma MatchesSequential(cfg: Config, m: Machine, n: Machine, id: string, winner: nat, effectId: string,
                          order: seq<nat>, effectIds: seq<string>)
    requires Contest(cfg, m, id) && WonBy(m, n, id, winner, effectId)
    requires Lists(m, order) && |order| == |effectIds| && order != [] && order[0] == winner && effectIds[0] == effectId
    ensures var evs := InOrder(m, order, effectIds);
            && Final(cfg, m.sys, evs) == n.sys && |Replies(cfg, m.sys, evs)| == |order|
            && forall i :: 0 <= i < |order| ==> Matches(Replies(cfg, m.sys, evs)[i], n, order[i])
  {
    hide Entrant, Step, After, Allowed, SameReply, BeatenAt, EffectOf, Denial;
    var evs := InOrder(m, order, effectIds);
    FirstCall(cfg, m.sys, id, evs[0].q, effectId);
    var rest, sys' := evs[1..], After(m.sys, m.threads[winner].q, effectId);
    AfterShape(m.sys, id, m.threads[winner].q, effectId);
    LateRun(cfg, m.sys, id, sys', rest);
    forall i | 0 <= i < |order| ensures Matches(Replies(cfg, m.sys, evs)[i], n, order[i]) {
      if i == 0 {
        SameIsSame(n.threads[winner].sinkPc.outcome);
      } else {
        assert order[0] != order[i];
        assert Replies(cfg, m.sys, evs)[i] == Replies(cfg, sys', rest)[i - 1];
        BeatenMatches(n, order[i], m.threads[order[i]].q);
      }
    }
  }

  lemma SameIsSame(outcome: Outcome)
    ensures SameReply(outcome, outcome)
  {
  }

  lemma BeatenMatches(n: Machine, tid: nat, q: Presentation)
    requires BeatenAt(n, tid, q)
    ensures Matches(FromSink(DeniedBy(q, AlreadyUsed)), n, tid)
  {
    hide Beaten, SameReply, DeniedBy;
    BeatenIsSame(q, n.threads[tid].sinkPc.outcome);
  }

  lemma BeatenIsSame(q: Presentation, outcome: Outcome)
    requires Beaten(q, outcome)
    ensures SameReply(DeniedBy(q, AlreadyUsed), outcome)
  {
    hide Beaten;
    BeatenCode(q, outcome);
  }

  lemma AfterShape(sys: System, id: string, q: Presentation, effectId: string)
    requires IdOf(q) == Some(id)
    ensures var sys' := After(sys, q, effectId);
            && sys'.net == sys.net && sys'.evidence == sys.evidence
            && sys'.activations == Activations(sys.activations.records, sys.activations.used + {id})
  {
    hide EffectOf;
  }
}
