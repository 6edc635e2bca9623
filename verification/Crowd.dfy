/** The race for one authority in a crowd: other threads of both boundaries run in between, and the
    network may raise. At most one presentation is allowed, and exactly one unless every thread that took
    the authority gave it back. */
module Crowd {
  import opened Wrappers
  import opened Evidence
  import opened State
  import opened Policy
  import opened SystemState
  import opened Ped
  import opened Sink
  import opened Concurrent
  import opened Winner

  /** The thread presents the authority with this id. */
  predicate Presents(t: Thread, id: string) {
    t.SinkThread? && IdOf(t.q) == Some(id)
  }

  /** A domain call that does not write under an evidence id that matters here. */
  predicate Harmless(t: Thread, evidenceIds: set<string>) {
    t.PedThread? ==>
      t.ids.evidenceId !in evidenceIds && (t.pedPc.AtCommit? ==> t.pedPc.entry.evidenceId !in evidenceIds)
  }

  /** Each thread presenting the authority is about to start and would be allowed alone; any others, of
      either boundary, may be anywhere. */
  ghost predicate Gathering(cfg: Config, m: Machine, id: string, evidenceIds: set<string>) {
    && id in m.sys.activations.records && id !in m.sys.activations.used
    && forall tid :: tid in m.threads ==>
         Harmless(m.threads[tid], evidenceIds)
         && (Presents(m.threads[tid], id) ==>
               Unstarted(m.threads[tid]) && Entrant(cfg, m.sys, id, m.threads[tid].q)
               && m.threads[tid].q.authority.value.binding.evidenceId in evidenceIds)
  }

  /** The environment stands still; with `fails` false the network never raises either. */
  predicate Calm(act: Action, fails: bool) {
    !act.EnvAct? && (act.SinkAct? && !fails ==> act.effectId.Some?)
  }

  datatype Stage = Free | Held(holder: nat) | Spent(holder: nat, effectId: string, place: nat)

  /** `back` names a thread that gave the authority back, once there is one. */
  datatype Course = Course(stage: Stage, back: Option<nat>)

  predicate GivenBack(pc: SinkPc) {
    Ends(pc, NetworkRaised)
  }

  /** Where a thread that presents the authority stands. */
  predicate Place(course: Course, fails: bool, record: ActivationRecord, id: string, tid: nat, q: Presentation,
                  t: Thread) {
    && t.SinkThread? && t.q == q
    && (course.back == Some(tid) ==> GivenBack(t.sinkPc))
    && if course.stage.Held? && course.stage.holder == tid then
         t.sinkPc == AtApply || (fails && t.sinkPc == AtUnconsume)
       else if course.stage.Spent? && course.stage.holder == tid then
         Ends(t.sinkPc, Answered(Allowed(q.requestId, id, course.stage.effectId)))
       else
         OnTheWay(t.sinkPc, record) || (course.back.Some? && GivenBack(t.sinkPc))
         || ((!course.stage.Free? || course.back.Some?) && Lost(q, t.sinkPc))
  }

  /** The effects made under the authority since the start: none before it is spent, then exactly one. */
  predicate Effects(m: Machine, id: string, stage: Stage, applied: seq<Applied>) {
    && m.applied <= applied
    && (stage.Spent? ==>
          |m.applied| <= stage.place < |applied| && stage.holder in m.threads && m.threads[stage.holder].SinkThread?
          && applied[stage.place].q == m.threads[stage.holder].q && applied[stage.place].effectId == stage.effectId)
    && forall i :: |m.applied| <= i < |applied| && IdOf(applied[i].q) == Some(id) ==> stage.Spent? && i == stage.place
  }

  /** What the checks of this authority read has not changed. */
  predicate Kept(m: Machine, sys: System, id: string, evidenceIds: set<string>) {
    && sys.net.epochs == m.sys.net.epochs && sys.net.protectedStateReference == m.sys.net.protectedStateReference
    && RecordOf(sys.activations, id) == RecordOf(m.sys.activations, id)
    && forall e :: e in evidenceIds ==> Evidence.Get(sys.evidence, e) == Evidence.Get(m.sys.evidence, e)
  }

  predicate Roles(m: Machine, id: string, course: Course, fails: bool) {
    && (!course.stage.Free? ==> course.stage.holder in m.threads && Presents(m.threads[course.stage.holder], id))
    && (course.back.Some? ==> fails && course.back.value in m.threads && Presents(m.threads[course.back.value], id))
  }

  ghost predicate CrowdInv(m: Machine, id: string, evidenceIds: set<string>, fails: bool, course: Course, n: Machine)
    requires id in m.sys.activations.records
  {
    && n.threads.Keys == m.threads.Keys && Roles(m, id, course, fails)
    && Kept(m, n.sys, id, evidenceIds) && (id in n.sys.activations.used <==> !course.stage.Free?)
    && Effects(m, id, course.stage, n.applied)
    && forall tid :: tid in m.threads ==>
         Harmless(n.threads[tid], evidenceIds)
         && if Presents(m.threads[tid], id) then
              Place(course, fails, m.sys.activations.records[id], id, tid, m.threads[tid].q, n.threads[tid])
            else !Presents(n.threads[tid], id)
  }

  // ---- one step of a thread that presents the authority ----

  /** The course after the thread takes this step from the locks on. */
  function CourseNext(course: Course, tid: nat, t: Thread, effectId: Option<string>, place: nat): Course {
    if t.SinkThread? && t.sinkPc.AtConsume? && course.stage.Free? then course.(stage := Held(tid))
    else if t.SinkThread? && t.sinkPc.AtApply? && effectId.Some? then
        course.(stage := Spent(tid, effectId.value, place))
    else if t.SinkThread? && t.sinkPc.AtUnconsume? then Course(Free, Some(tid))
    else course
  }

  lemma GivenBackStays(m: Machine, t: Thread, effectId: Option<string>)
    requires t.SinkThread? && t.q.authority.Some? && GivenBack(t.sinkPc)
    ensures !Checking(t.sinkPc) && GivenBack(CommitMove(m, t, effectId))
    ensures !t.sinkPc.AtConsume? && !t.sinkPc.AtApply? && !t.sinkPc.AtUnconsume?
  {
    EndsStay(m, t, effectId, NetworkRaised);
  }

  lemma ApplyMoves(m: Machine, t: Thread, effectId: Option<string>)
    requires t.SinkThread? && t.q.authority.Some?
    ensures t.sinkPc == AtApply && effectId.None? ==> CommitMove(m, t, effectId) == AtUnconsume
    ensures t.sinkPc == AtApply && effectId.Some? ==>
      Ends(CommitMove(m, t, effectId),
           Answered(Allowed(t.q.requestId, t.q.authority.value.authorityId, effectId.value)))
    ensures t.sinkPc == AtUnconsume ==> GivenBack(CommitMove(m, t, effectId))
  {
    hide Allowed, DeniedBy;
  }

  lemma EndedKinds(q: Presentation, pc: SinkPc, outcome: Outcome)
    requires Ends(pc, outcome)
    ensures !pc.AtConsume? && !pc.AtApply? && !pc.AtUnconsume? && !Checking(pc)
  {
  }

  /** The thread's own place after a step from the locks on. */
  lemma CommitPlace(course: Course, fails: bool, record: ActivationRecord, id: string, tid: nat, n: Machine, t: Thread,
                    effectId: Option<string>, place: nat)
    requires t.SinkThread? && IdOf(t.q) == Some(id) && !Checking(t.sinkPc)
    requires Place(course, fails, record, id, tid, t.q, t) && (fails || effectId.Some?)
    requires id in n.sys.activations.records && (id in n.sys.activations.used <==> !course.stage.Free?)
    ensures Place(CourseNext(course, tid, t, effectId, place), fails, record, id, tid, t.q,
                  t.(sinkPc := CommitMove(n, t, effectId)))
  {
    hide CommitMove, OnTheWay, Lost, Ends, Allowed, DeniedBy, Checking;
    if GivenBack(t.sinkPc) { GivenBackStays(n, t, effectId); }
    if course.stage.Held? && course.stage.holder == tid {
      ApplyMoves(n, t, effectId);
    } else if course.stage.Spent? && course.stage.holder == tid {
      EndsStay(n, t, effectId, Answered(Allowed(t.q.requestId, id, course.stage.effectId)));
      EndedKinds(t.q, t.sinkPc, Answered(Allowed(t.q.requestId, id, course.stage.effectId)));
    } else if OnTheWay(t.sinkPc, record) {
      CommitRaces(id, record, n, t, effectId);
      WayKinds(t.sinkPc, record);
    } else if course.back.None? || !GivenBack(t.sinkPc) {
      LostStays(n, t, effectId);
      LostKinds(t.q, t.sinkPc);
    }
  }

  lemma WayKinds(pc: SinkPc, record: ActivationRecord)
    requires OnTheWay(pc, record)
    ensures !pc.AtApply? && !pc.AtUnconsume? && forall outcome :: !Ends(pc, outcome)
  {
  }

  lemma LostKinds(q: Presentation, pc: SinkPc)
    requires Lost(q, pc)
    ensures !pc.AtConsume? && !pc.AtApply? && !pc.AtUnconsume? && !Checking(pc)
  {
    hide DeniedBy;
  }

  // ---- one step, seen by the others ----

  /** Who acts, by what the step does to the shared state. */
  predicate Acts(act: Action, tid: nat) {
    (act.SinkAct? && act.tid == tid) || (act.PedAct? && act.tid == tid)
  }

  lemma OtherThreads(cfg: Config, n: Machine, act: Action)
    ensures var n' := Next(cfg, n, act);
            && n'.threads.Keys == n.threads.Keys
            && forall tid :: tid in n.threads && !Acts(act, tid) ==> n'.threads[tid] == n.threads[tid]
  {
    hide SinkCheck, CommitMove, CommitUsed, SinkLocksAfter, NetLocksAfter, EffectOf, Applying, Checking, PedMove,
         PedWrites, GrantBy;
  }

  /** A step of a thread that does not present the authority leaves it alone. */
  predicate LeavesAlone(n: Machine, n': Machine, id: string, evidenceIds: set<string>) {
    && n'.sys.net.epochs == n.sys.net.epochs && n'.sys.net.protectedStateReference == n.sys.net.protectedStateReference
    && RecordOf(n'.sys.activations, id) == RecordOf(n.sys.activations, id)
    && (id in n'.sys.activations.used <==> id in n.sys.activations.used)
    && (forall e :: e in evidenceIds ==> Evidence.Get(n'.sys.evidence, e) == Evidence.Get(n.sys.evidence, e))
    && n.applied <= n'.applied && |n'.applied| <= |n.applied| + 1
    && (n'.applied != n.applied ==> IdOf(n'.applied[|n.applied|].q) != Some(id))
  }

  lemma DomainLeaves(cfg: Config, n: Machine, tid: nat, id: string, evidenceIds: set<string>)
    requires tid in n.threads && n.threads[tid].PedThread? && Harmless(n.threads[tid], evidenceIds)
    requires id in n.sys.activations.records
    ensures var n' := Next(cfg, n, PedAct(tid));
            && LeavesAlone(n, n', id, evidenceIds) && tid in n'.threads && n'.threads[tid].PedThread?
            && Harmless(n'.threads[tid], evidenceIds)
  {
    hide SinkNext, BuiltAuthority, ActivationOf, EntryDigest, ValidateView, Look;
  }

  lemma BystanderCommits(n: Machine, tid: nat, t: Thread, effectId: Option<string>, id: string,
                         evidenceIds: set<string>)
    requires t.SinkThread? && !Checking(t.sinkPc) && t.q.authority.Some? && IdOf(t.q) != Some(id)
    ensures LeavesAlone(n, SinkCommit(n, tid, t, effectId), id, evidenceIds)
  {
    hide CommitMove, SinkLocksAfter, NetLocksAfter, EffectOf;
  }

  lemma SinkLeaves(cfg: Config, n: Machine, tid: nat, effectId: Option<string>, id: string, evidenceIds: set<string>)
    requires tid in n.threads && n.threads[tid].SinkThread? && IdOf(n.threads[tid].q) != Some(id)
    ensures var n' := Next(cfg, n, SinkAct(tid, effectId));
            && LeavesAlone(n, n', id, evidenceIds) && tid in n'.threads && n'.threads[tid].SinkThread?
            && n'.threads[tid].q == n.threads[tid].q
  {
    hide SinkCheck, CommitMove, CommitUsed, SinkLocksAfter, NetLocksAfter, EffectOf, Applying, Checking, PedNext;
    var t := n.threads[tid];
    if !Checking(t.sinkPc) && t.q.authority.Some? { BystanderCommits(n, tid, t, effectId, id, evidenceIds); }
  }

  // ---- every step keeps the invariant ----

  lemma LeftAlone(m: Machine, id: string, evidenceIds: set<string>, fails: bool, course: Course, n: Machine,
                  n': Machine, tid: nat)
    requires id in m.sys.activations.records && CrowdInv(m, id, evidenceIds, fails, course, n)
    requires LeavesAlone(n, n', id, evidenceIds) && n'.threads.Keys == n.threads.Keys
    requires forall other :: other in n.threads && other != tid ==> n'.threads[other] == n.threads[other]
    requires tid in m.threads ==>
      !Presents(m.threads[tid], id) && !Presents(n'.threads[tid], id) && Harmless(n'.threads[tid], evidenceIds)
    ensures CrowdInv(m, id, evidenceIds, fails, course, n')
  {
    hide Place, Harmless, Presents, IdOf;
  }

  /** A bystander's step. */
  lemma BystanderStep(cfg: Config, m: Machine, id: string, evidenceIds: set<string>, fails: bool, course: Course,
                      n: Machine, act: Action)
    requires id in m.sys.activations.records && CrowdInv(m, id, evidenceIds, fails, course, n) && Calm(act, fails)
    requires act.tid in m.threads ==> !Presents(m.threads[act.tid], id)
    ensures CrowdInv(m, id, evidenceIds, fails, course, Next(cfg, n, act))
  {
    hide Next, Place, LeavesAlone, Effects, Kept;
    OtherThreads(cfg, n, act);
    var tid := act.tid;
    if tid in n.threads && (act.PedAct? <==> n.threads[tid].PedThread?) {
      if act.PedAct? {
        RegisteredStill(m, id, evidenceIds, fails, course, n);
        DomainLeaves(cfg, n, tid, id, evidenceIds);
      } else {
        SinkLeaves(cfg, n, tid, act.effectId, id, evidenceIds);
      }
      LeftAlone(m, id, evidenceIds, fails, course, n, Next(cfg, n, act), tid);
    } else {
      NobodyMoves(cfg, n, act, id, evidenceIds);
      LeftAlone(m, id, evidenceIds, fails, course, n, Next(cfg, n, act), tid);
    }
  }

  lemma RegisteredStill(m: Machine, id: string, evidenceIds: set<string>, fails: bool, course: Course, n: Machine)
    requires id in m.sys.activations.records && CrowdInv(m, id, evidenceIds, fails, course, n)
    ensures id in n.sys.activations.records && n.sys.activations.records[id] == m.sys.activations.records[id]
  {
    hide Place, Effects, Roles;
  }

  lemma NobodyMoves(cfg: Config, n: Machine, act: Action, id: string, evidenceIds: set<string>)
    requires !act.EnvAct? && (act.tid !in n.threads || act.PedAct? != n.threads[act.tid].PedThread?)
    ensures LeavesAlone(n, Next(cfg, n, act), id, evidenceIds) && Next(cfg, n, act).threads == n.threads
  {
  }

  /** A check of a thread that presents the authority. */
  lemma CheckPlace(cfg: Config, m: Machine, id: string, evidenceIds: set<string>, fails: bool, course: Course,
                   n: Machine, tid: nat)
    requires Gathering(cfg, m, id, evidenceIds) && CrowdInv(m, id, evidenceIds, fails, course, n)
    requires tid in m.threads && Presents(m.threads[tid], id) && Checking(n.threads[tid].sinkPc)
    ensures Place(course, fails, m.sys.activations.records[id], id, tid, m.threads[tid].q,
                  SinkCheck(cfg, n, n.threads[tid]))
  {
    hide SinkCheck, OnTheWay, Ends, Entrant, Effects, Roles, Allowed, DeniedBy, Checking;
    var t, record := n.threads[tid], m.sys.activations.records[id];
    CheckingIsOnTheWay(course, fails, record, id, tid, m.threads[tid].q, t);
    KeptForAuthority(m, n.sys, id, evidenceIds, t.q);
    CheckRaces(cfg, m.sys, id, n, t);
    if OnTheWay(t.sinkPc, record) { WayKinds(t.sinkPc, record); }
  }

  lemma CheckingIsOnTheWay(course: Course, fails: bool, record: ActivationRecord, id: string, tid: nat,
                           q: Presentation, t: Thread)
    requires Place(course, fails, record, id, tid, q, t) && Checking(t.sinkPc)
    ensures OnTheWay(t.sinkPc, record) && course.back != Some(tid)
    ensures !(course.stage.Held? && course.stage.holder == tid) && !(course.stage.Spent? && course.stage.holder == tid)
  {
    hide Allowed, DeniedBy;
  }

  lemma KeptForAuthority(m: Machine, sys: System, id: string, evidenceIds: set<string>, q: Presentation)
    requires Kept(m, sys, id, evidenceIds) && IdOf(q) == Some(id) && q.authority.value.binding.evidenceId in evidenceIds
    ensures SameForAuthority(m.sys, sys, q.authority.value)
  {
  }

  /** Where the thread stands tells which of the three writing steps it can take. */
  lemma WritingSteps(course: Course, fails: bool, record: ActivationRecord, id: string, tid: nat, q: Presentation,
                     t: Thread)
    requires Place(course, fails, record, id, tid, q, t)
    ensures t.sinkPc.AtApply? || t.sinkPc.AtUnconsume? ==> course.stage.Held? && course.stage.holder == tid
    ensures t.sinkPc.AtUnconsume? ==> fails
  {
    hide Allowed, DeniedBy;
  }

  /** The shared state after a step from the locks on of a thread that presents the authority. */
  lemma CommitShared(cfg: Config, m: Machine, id: string, evidenceIds: set<string>, fails: bool, course: Course,
                     n: Machine,
                     tid: nat, effectId: Option<string>)
    requires Gathering(cfg, m, id, evidenceIds) && CrowdInv(m, id, evidenceIds, fails, course, n)
    requires tid in m.threads && Presents(m.threads[tid], id) && !Checking(n.threads[tid].sinkPc)
    ensures var t := n.threads[tid]; var n' := SinkCommit(n, tid, t, effectId);
            var course' := CourseNext(course, tid, t, effectId, |n.applied|);
            && Kept(m, n'.sys, id, evidenceIds) && (id in n'.sys.activations.used <==> !course'.stage.Free?)
            && Effects(m, id, course'.stage, n'.applied) && Roles(m, id, course', fails)
  {
    hide CommitMove, SinkLocksAfter, NetLocksAfter, EffectOf, Entrant, OnTheWay, Ends, Lost, GivenBack, Harmless;
    var t := n.threads[tid];
    WritingSteps(course, fails, m.sys.activations.records[id], id, tid, m.threads[tid].q, t);
    RegisteredStill(m, id, evidenceIds, fails, course, n);
    CommitEffects(m, id, course, n.applied, tid, t, effectId, Now(n));
  }

  lemma CommitEffects(m: Machine, id: string, course: Course, applied: seq<Applied>, tid: nat, t: Thread,
                      effectId: Option<string>, at: nat)
    requires t.SinkThread? && IdOf(t.q) == Some(id) && Effects(m, id, course.stage, applied)
    requires tid in m.threads && m.threads[tid].SinkThread? && m.threads[tid].q == t.q
    requires t.sinkPc.AtApply? || t.sinkPc.AtUnconsume? ==> course.stage.Held?
    ensures var applied' := if Applying(t, effectId) then applied + [Applied(t.q, effectId.value, t.sinkReads, at)]
            else applied;
            Effects(m, id, CourseNext(course, tid, t, effectId, |applied|).stage, applied')
  {
  }

  lemma OthersKeepPlace(course: Course, fails: bool, record: ActivationRecord, id: string, tid: nat, q: Presentation,
                        t: Thread,
                        effectId: Option<string>, place: nat, other: nat, r: Presentation, o: Thread)
    requires Place(course, fails, record, id, tid, q, t) && Place(course, fails, record, id, other, r, o)
             && other != tid
    ensures Place(CourseNext(course, tid, t, effectId, place), fails, record, id, other, r, o)
  {
    hide OnTheWay, Lost, GivenBack, Ends, Allowed;
    WritingSteps(course, fails, record, id, tid, q, t);
  }

  lemma EntrantStep(cfg: Config, m: Machine, id: string, evidenceIds: set<string>, fails: bool, course: Course,
                    n: Machine,
                    tid: nat, effectId: Option<string>) returns (course': Course)
    requires Gathering(cfg, m, id, evidenceIds) && CrowdInv(m, id, evidenceIds, fails, course, n)
             && (fails || effectId.Some?)
    requires tid in m.threads && Presents(m.threads[tid], id)
    ensures CrowdInv(m, id, evidenceIds, fails, course', Next(cfg, n, SinkAct(tid, effectId)))
  {
    hide SinkCheck, CommitMove, CommitUsed, SinkLocksAfter, NetLocksAfter, Place, Kept, Effects, Roles, Checking,
         EffectOf,
         Applying, Next, Entrant, CourseNext, Harmless;
    var t, record := n.threads[tid], m.sys.activations.records[id];
    PlaceIsSink(course, fails, record, id, tid, m.threads[tid].q, t);
    SinkMovesOn(cfg, n, tid, effectId);
    if Checking(t.sinkPc) {
      course' := course;
      CheckPlace(cfg, m, id, evidenceIds, fails, course, n, tid);
    } else {
      course' := CourseNext(course, tid, t, effectId, |n.applied|);
      RegisteredStill(m, id, evidenceIds, fails, course, n);
      CommitPlace(course, fails, record, id, tid, n, t, effectId, |n.applied|);
      CommitShared(cfg, m, id, evidenceIds, fails, course, n, tid, effectId);
      forall other | other in m.threads && other != tid && Presents(m.threads[other], id)
        ensures Place(course', fails, record, id, other, m.threads[other].q, n.threads[other])
      {
        OthersKeepPlace(course, fails, record, id, tid, m.threads[tid].q, t, effectId, |n.applied|, other,
                        m.threads[other].q,
                        n.threads[other]);
      }
    }
    SinkIsHarmless(Next(cfg, n, SinkAct(tid, effectId)).threads[tid], evidenceIds);
  }

  lemma PlaceIsSink(course: Course, fails: bool, record: ActivationRecord, id: string, tid: nat, q: Presentation,
                    t: Thread)
    requires Place(course, fails, record, id, tid, q, t)
    ensures t.SinkThread? && t.q == q
  {
    hide OnTheWay, Lost, GivenBack, Ends, Allowed;
  }

  lemma SinkIsHarmless(t: Thread, evidenceIds: set<string>)
    requires t.SinkThread?
    ensures Harmless(t, evidenceIds)
  {
  }

  lemma SinkMovesOn(cfg: Config, n: Machine, tid: nat, effectId: Option<string>)
    requires tid in n.threads && n.threads[tid].SinkThread? && n.threads[tid].q.authority.Some?
    ensures var t, n' := n.threads[tid], Next(cfg, n, SinkAct(tid, effectId));
            && (if Checking(t.sinkPc) then
                  n'.threads == n.threads[tid := SinkCheck(cfg, n, t)] && n'.sys == n.sys && n'.applied == n.applied
                else
                  n'.threads == n.threads[tid := t.(sinkPc := CommitMove(n, t, effectId))]
                  && n'.sys == SinkCommit(n, tid, t, effectId).sys
                     && n'.applied == SinkCommit(n, tid, t, effectId).applied)
            && n'.threads[tid].SinkThread?
  {
    hide SinkCheck, CommitMove, CommitUsed, SinkLocksAfter, NetLocksAfter, Checking, EffectOf, Applying, PedNext;
  }

  lemma {:induction false} CrowdRun(cfg: Config, m: Machine, id: string, evidenceIds: set<string>, fails: bool,
                                    course: Course,
                                    n: Machine, acts: seq<Action>) returns (last: Course)
    requires Gathering(cfg, m, id, evidenceIds) && CrowdInv(m, id, evidenceIds, fails, course, n)
    requires forall i :: 0 <= i < |acts| ==> Calm(acts[i], fails)
    ensures CrowdInv(m, id, evidenceIds, fails, last, Exec(cfg, n, acts))
    decreases |acts|
  {
    hide Next, CrowdInv, Entrant, Harmless, Presents;
    if acts == [] {
      last := course;
    } else {
      var act, course' := acts[0], course;
      if act.tid in m.threads && Presents(m.threads[act.tid], id) {
        if act.SinkAct? {
          course' := EntrantStep(cfg, m, id, evidenceIds, fails, course, n, act.tid, act.effectId);
        } else {
          IdleStep(cfg, m, id, evidenceIds, fails, course, n, act);
        }
      } else {
        BystanderStep(cfg, m, id, evidenceIds, fails, course, n, act);
      }
      last := CrowdRun(cfg, m, id, evidenceIds, fails, course', Next(cfg, n, act), acts[1..]);
    }
  }

  /** The domain's action chosen for a sink thread does nothing. */
  lemma IdleStep(cfg: Config, m: Machine, id: string, evidenceIds: set<string>, fails: bool, course: Course,
                 n: Machine, act: Action)
    requires id in m.sys.activations.records && CrowdInv(m, id, evidenceIds, fails, course, n) && act.PedAct?
    requires act.tid in m.threads && Presents(m.threads[act.tid], id)
    ensures CrowdInv(m, id, evidenceIds, fails, course, Next(cfg, n, act))
  {
    hide Place, Kept, Effects, Roles, Harmless;
    PlaceIsSink(course, fails, m.sys.activations.records[id], id, act.tid, m.threads[act.tid].q, n.threads[act.tid]);
  }

  // ---- the outcome ----

  predicate EntrantsFinished(m: Machine, n: Machine, id: string) {
    forall tid :: tid in m.threads && Presents(m.threads[tid], id) ==>
      tid in n.threads && n.threads[tid].SinkThread? && n.threads[tid].sinkPc.Finished?
  }

  /** Denied for use, or undone by the network. */
  predicate NotAllowed(n: Machine, tid: nat, q: Presentation) {
    && tid in n.threads && n.threads[tid].SinkThread? && n.threads[tid].q == q && n.threads[tid].sinkPc.Finished?
    && (Beaten(q, n.threads[tid].sinkPc.outcome) || n.threads[tid].sinkPc.outcome == NetworkRaised)
  }

  /** Exactly one of the threads was allowed, and made the one new effect under the authority. */
  ghost predicate OneAllowed(m: Machine, n: Machine, id: string, winner: nat, effectId: string, place: nat) {
    && winner in m.threads && Presents(m.threads[winner], id)
    && Replied(n, winner, m.threads[winner].q, Answered(Allowed(m.threads[winner].q.requestId, id, effectId)))
    && id in n.sys.activations.used && Effects(m, id, Spent(winner, effectId, place), n.applied)
    && forall tid ::
         tid in m.threads && Presents(m.threads[tid], id) && tid != winner ==> NotAllowed(n, tid, m.threads[tid].q)
  }

  /** None was allowed, some thread that had taken the authority gave it back, and it is free again. */
  ghost predicate NoneAllowed(m: Machine, n: Machine, id: string, back: nat) {
    && back in m.threads && Presents(m.threads[back], id) && Replied(n, back, m.threads[back].q, NetworkRaised)
    && id !in n.sys.activations.used && Effects(m, id, Free, n.applied)
    && forall tid :: tid in m.threads && Presents(m.threads[tid], id) ==> NotAllowed(n, tid, m.threads[tid].q)
  }

  lemma FinalPlace(course: Course, fails: bool, record: ActivationRecord, id: string, tid: nat, q: Presentation,
                   t: Thread)
    requires Place(course, fails, record, id, tid, q, t) && t.sinkPc.Finished?
    ensures !course.stage.Free? || course.back.Some?
    ensures !(course.stage.Held? && course.stage.holder == tid)
    ensures course.stage.Spent? && course.stage.holder == tid ==>
      t.sinkPc.outcome == Answered(Allowed(q.requestId, id, course.stage.effectId))
    ensures course.back == Some(tid) ==> t.sinkPc.outcome == NetworkRaised
    ensures !(course.stage.Spent? && course.stage.holder == tid) ==>
      Beaten(q, t.sinkPc.outcome) || t.sinkPc.outcome == NetworkRaised
  {
    hide Allowed, DeniedBy;
  }

  lemma EntrantFinal(m: Machine, id: string, evidenceIds: set<string>, fails: bool, course: Course, n: Machine,
                     tid: nat)
    requires id in m.sys.activations.records && CrowdInv(m, id, evidenceIds, fails, course, n)
             && EntrantsFinished(m, n, id)
    requires tid in m.threads && Presents(m.threads[tid], id)
    ensures (!course.stage.Free? || course.back.Some?) && !(course.stage.Held? && course.stage.holder == tid)
    ensures course.stage.Spent? && course.stage.holder == tid ==>
      Replied(n, tid, m.threads[tid].q, Answered(Allowed(m.threads[tid].q.requestId, id, course.stage.effectId)))
    ensures course.back == Some(tid) ==> Replied(n, tid, m.threads[tid].q, NetworkRaised)
    ensures !(course.stage.Spent? && course.stage.holder == tid) ==> NotAllowed(n, tid, m.threads[tid].q)
  {
    hide Place, Kept, Effects, Roles, Harmless, Allowed, Beaten;
    FinalPlace(course, fails, m.sys.activations.records[id], id, tid, m.threads[tid].q, n.threads[tid]);
    PlaceIsSink(course, fails, m.sys.activations.records[id], id, tid, m.threads[tid].q, n.threads[tid]);
  }

  /** What the last course says once all who present the authority have finished. */
  lemma CrowdSettled(m: Machine, id: string, evidenceIds: set<string>, fails: bool, course: Course, n: Machine)
    requires id in m.sys.activations.records && CrowdInv(m, id, evidenceIds, fails, course, n)
             && EntrantsFinished(m, n, id)
    requires exists tid :: tid in m.threads && Presents(m.threads[tid], id)
    ensures course.stage.Spent? ==> OneAllowed(m, n, id, course.stage.holder, course.stage.effectId, course.stage.place)
    ensures !course.stage.Spent? ==> fails && course.back.Some? && NoneAllowed(m, n, id, course.back.value)
  {
    hide Place, Kept, Effects, Harmless, NotAllowed, Replied, EntrantsFinished;
    var tid :| tid in m.threads && Presents(m.threads[tid], id);
    EntrantFinal(m, id, evidenceIds, fails, course, n, tid);
    if !course.stage.Free? { EntrantFinal(m, id, evidenceIds, fails, course, n, course.stage.holder); }
    if course.back.Some? { EntrantFinal(m, id, evidenceIds, fails, course, n, course.back.value); }
    forall other | other in m.threads && Presents(m.threads[other], id)
      && !(course.stage.Spent? && other == course.stage.holder)
      ensures NotAllowed(n, other, m.threads[other].q)
    {
      EntrantFinal(m, id, evidenceIds, fails, course, n, other);
    }
  }

  lemma CrowdOpens(cfg: Config, m: Machine, id: string, evidenceIds: set<string>, fails: bool)
    requires Gathering(cfg, m, id, evidenceIds)
    ensures CrowdInv(m, id, evidenceIds, fails, Course(Free, None), m)
  {
    hide Entrant;
  }

  /** Any presentations of one valid authority, among any other threads, with a network that may raise:
      when they have finished, exactly one was allowed and made the one effect, or none was, the authority
      is free again, and one that had taken it gave it back. Without failures it is exactly one. */
  lemma OneOrGivenBack(cfg: Config, m: Machine, id: string, evidenceIds: set<string>, fails: bool, acts: seq<Action>)
    requires Gathering(cfg, m, id, evidenceIds) && forall i :: 0 <= i < |acts| ==> Calm(acts[i], fails)
    requires exists tid :: tid in m.threads && Presents(m.threads[tid], id)
    requires EntrantsFinished(m, Exec(cfg, m, acts), id)
    ensures var n := Exec(cfg, m, acts);
            && ((exists winner, effectId, place :: OneAllowed(m, n, id, winner, effectId, place))
                || (fails && exists back :: NoneAllowed(m, n, id, back)))
  {
    hide Exec, Entrant, OneAllowed, NoneAllowed, EntrantsFinished, Presents, CrowdInv, Calm;
    CrowdOpens(cfg, m, id, evidenceIds, fails);
    var last := CrowdRun(cfg, m, id, evidenceIds, fails, Course(Free, None), m, acts);
    CrowdSettled(m, id, evidenceIds, fails, last, Exec(cfg, m, acts));
  }
}
