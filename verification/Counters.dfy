/** The counter that the domain raises without a lock: when two calls, and the records they commit, are
    given different values, whatever else runs in between. */
module Counters {
  import opened Evidence
  import opened SystemState
  import opened Ped
  import opened Sink
  import opened Concurrent
  import opened Locks
  import opened Uninterrupted

  /** When a call that is about to count makes its next five steps: reading the counter, writing it,
      reading it back, reading the state reference, committing. */
  datatype Turns = Turns(read: nat, write: nat, given: nat, reference: nat, commit: nat)

  predicate InOrder(s: Turns, n: nat) {
    s.read < s.write < s.given < s.reference < s.commit < n
  }

  predicate Among(s: Turns, p: nat) {
    p == s.read || p == s.write || p == s.given || p == s.reference || p == s.commit
  }

  /** These are the first five steps of the call in the schedule. */
  predicate TakenBy(acts: seq<Action>, tid: nat, s: Turns) {
    InOrder(s, |acts|) && forall p :: 0 <= p <= s.commit ==> (acts[p] == PedAct(tid) <==> Among(s, p))
  }

  predicate AboutToCount(m: Machine, tid: nat) {
    tid in m.threads && m.threads[tid].PedThread? && m.threads[tid].pedPc.AtCounter?
  }

  predicate AboutToWrite(m: Machine, tid: nat) {
    tid in m.threads && m.threads[tid].PedThread? && m.threads[tid].pedPc.AtCounterWrite?
  }

  /** The machine before the p-th step. */
  function Before(cfg: Config, m: Machine, acts: seq<Action>, p: nat): Machine
    requires p <= |acts|
  {
    Exec(cfg, m, acts[..p])
  }

  /** No third call writes the counter. Any other step may come anywhere. */
  ghost predicate NoThirdWrite(cfg: Config, m: Machine, acts: seq<Action>, a: nat, b: nat) {
    forall p :: 0 <= p < |acts| && acts[p].PedAct? && acts[p].tid != a && acts[p].tid != b ==>
      !AboutToWrite(Before(cfg, m, acts, p), acts[p].tid)
  }

  // ---- what each call reads and is given ----

  /** The value a call reads, if the other call's write makes the only difference. */
  function ReadBy(c: int, s: Turns, other: Turns): int {
    if other.write < s.read then c + 1 else c
  }

  /** The value a call is given: its own write, unless the other's came between that and reading back. */
  function GivenTo(c: int, s: Turns, other: Turns): int {
    if s.write < other.write < s.given then ReadBy(c, other, s) + 1 else ReadBy(c, s, other) + 1
  }

  /** The counter before the p-th step. */
  function CounterAt(c: int, s: Turns, other: Turns, p: nat): int {
    if s.write < p && (other.write < s.write || p <= other.write) then ReadBy(c, s, other) + 1
    else if other.write < p then ReadBy(c, other, s) + 1
    else c
  }

  predicate EntryWith(t: Thread, entry: Entry, counter: int)
    requires t.PedThread?
  {
    entry.monotonicCounter == counter && entry.evidenceId == t.ids.evidenceId && entry.decisionId == t.ids.decisionId
  }

  /** Where the call stands before the p-th step, and what it holds; its record goes to `slot`. */
  predicate Stands(committed: seq<Entry>, t: Thread, s: Turns, p: nat, value: int, counter: int, slot: nat) {
    && t.PedThread?
    && (p <= s.read ==> t.pedPc.AtCounter?)
    && (s.read < p <= s.write ==> t.pedPc.AtCounterWrite? && t.pedPc.counter == value)
    && (s.write < p <= s.given ==> t.pedPc.AtCounterReturn?)
    && (s.given < p <= s.reference ==> t.pedPc.AtEvidenceReference? && t.pedPc.decision.monotonicCounter == counter)
    && (s.reference < p <= s.commit ==> t.pedPc.AtCommit? && EntryWith(t, t.pedPc.entry, counter))
    && (s.commit < p ==>
          (t.pedPc.AtReadReference? || t.pedPc.AtReadEpochs? || t.pedPc.Ended?)
          && slot < |committed| && EntryWith(t, committed[slot], counter))
  }

  function Slot(cfg: Config, m: Machine, acts: seq<Action>, s: Turns): nat
    requires InOrder(s, |acts|)
  {
    |Before(cfg, m, acts, s.commit).committed|
  }

  predicate SameIds(m: Machine, n: Machine, tid: nat) {
    && tid in m.threads && tid in n.threads && m.threads[tid].PedThread? && n.threads[tid].PedThread?
    && m.threads[tid].ids == n.threads[tid].ids
  }

  ghost predicate CountInv(cfg: Config, m: Machine, acts: seq<Action>, a: nat, s: Turns, b: nat, u: Turns, p: nat)
    requires InOrder(s, |acts|) && InOrder(u, |acts|) && p <= |acts|
  {
    var n, c := Before(cfg, m, acts, p), m.sys.net.monotonicCounter;
    && a in n.threads && b in n.threads && n.sys.net.monotonicCounter == CounterAt(c, s, u, p)
    && SameIds(m, n, a) && SameIds(m, n, b)
    && Stands(n.committed, n.threads[a], s, p, ReadBy(c, s, u), GivenTo(c, s, u), Slot(cfg, m, acts, s))
    && Stands(n.committed, n.threads[b], u, p, ReadBy(c, u, s), GivenTo(c, u, s), Slot(cfg, m, acts, u))
  }

  lemma BeforeNext(cfg: Config, m: Machine, acts: seq<Action>, p: nat)
    requires p < |acts|
    ensures Before(cfg, m, acts, p + 1) == Next(cfg, Before(cfg, m, acts, p), acts[p])
  {
    hide Exec, Next;
    assert acts[..p + 1] == acts[..p] + [acts[p]];
    ExecAppends(cfg, m, acts[..p], [acts[p]]);
    OneStep(cfg, Before(cfg, m, acts, p), acts[p]);
  }

  lemma BeforeFirst(cfg: Config, m: Machine, acts: seq<Action>)
    ensures Before(cfg, m, acts, 0) == m
  {
  }

  // ---- one step ----

  /** What a step does to the counter and to the committed entries, and which thread it changes. */
  lemma StepEffect(cfg: Config, n: Machine, act: Action)
    ensures var n' := Next(cfg, n, act);
            && n'.threads.Keys == n.threads.Keys
            && (forall tid :: tid in n.threads && act != PedAct(tid) && n.threads[tid].PedThread? ==>
                  n'.threads[tid] == n.threads[tid])
            && n.committed <= n'.committed
            && (!(act.PedAct? && AboutToWrite(n, act.tid)) ==>
                n'.sys.net.monotonicCounter == n.sys.net.monotonicCounter)
  {
    hide SinkCheck, CommitMove, CommitUsed, SinkLocksAfter, NetLocksAfter, EffectOf, Applying, Checking, PedMove,
         GrantBy,
         BuiltAuthority, ActivationOf, Commit;
  }

  /** What the call's own step does, while it counts and records. */
  lemma OwnStep(cfg: Config, n: Machine, tid: nat)
    requires tid in n.threads && n.threads[tid].PedThread?
    ensures var n', t := Next(cfg, n, PedAct(tid)), n.threads[tid]; var c := n.sys.net.monotonicCounter;
            && tid in n'.threads && n'.threads[tid].PedThread? && n'.threads[tid].ids == t.ids
            && (t.pedPc.AtCounter? ==> n'.threads[tid].pedPc == AtCounterWrite(t.pedPc.decision, c))
            && (t.pedPc.AtCounterWrite? ==>
                  n'.threads[tid].pedPc == AtCounterReturn(t.pedPc.decision)
                  && n'.sys.net.monotonicCounter == t.pedPc.counter + 1)
            && (t.pedPc.AtCounterReturn? ==>
                  n'.threads[tid].pedPc == AtEvidenceReference(t.pedPc.decision.(monotonicCounter := c)))
            && (t.pedPc.AtEvidenceReference? ==>
                  n'.threads[tid].pedPc.AtCommit?
                  && EntryWith(t, n'.threads[tid].pedPc.entry, t.pedPc.decision.monotonicCounter))
            && n'.committed == if t.pedPc.AtCommit? then n.committed + [t.pedPc.entry] else n.committed
  {
    hide SinkNext, BuiltAuthority, ActivationOf, Commit, NewRecord, Look;
  }

  /** Past the commit a call never counts again. */
  lemma OwnLater(cfg: Config, n: Machine, tid: nat)
    requires tid in n.threads && n.threads[tid].PedThread?
    ensures var pc, pc' := n.threads[tid].pedPc, Next(cfg, n, PedAct(tid)).threads[tid].pedPc;
            pc.AtCommit? || pc.AtReadReference? || pc.AtReadEpochs? || pc.Ended? ==>
              pc'.AtReadReference? || pc'.AtReadEpochs? || pc'.Ended?
  {
    hide SinkNext, BuiltAuthority, ActivationOf, Commit, NewRecord, Look;
  }

  /** The call itself moves: it passes from one place to the next. */
  lemma OwnStands(cfg: Config, n: Machine, tid: nat, s: Turns, p: nat, value: int, counter: int, slot: nat)
    requires tid in n.threads && Stands(n.committed, n.threads[tid], s, p, value, counter, slot)
             && InOrder(s, s.commit + 1)
    requires p <= s.commit ==> Among(s, p)
    requires p == s.read ==> value == n.sys.net.monotonicCounter
    requires p == s.given ==> counter == n.sys.net.monotonicCounter
    requires p == s.commit ==> slot == |n.committed|
    ensures var n' := Next(cfg, n, PedAct(tid));
            && tid in n'.threads && Stands(n'.committed, n'.threads[tid], s, p + 1, value, counter, slot)
            && (p == s.write ==> n'.sys.net.monotonicCounter == value + 1)
  {
    hide Next;
    OwnStep(cfg, n, tid);
    OwnLater(cfg, n, tid);
    StepEffect(cfg, n, PedAct(tid));
  }

  /** The call does not move: what it holds stays. */
  lemma OtherStands(committed: seq<Entry>, committed': seq<Entry>, t: Thread, s: Turns, p: nat, value: int,
                    counter: int, slot: nat)
    requires Stands(committed, t, s, p, value, counter, slot) && committed <= committed' && InOrder(s, s.commit + 1)
    requires p <= s.commit ==> !Among(s, p)
    ensures Stands(committed', t, s, p + 1, value, counter, slot)
  {
  }

  // ---- any schedule ----

  lemma TurnsApart(acts: seq<Action>, a: nat, s: Turns, b: nat, u: Turns)
    requires a != b && TakenBy(acts, a, s) && TakenBy(acts, b, u)
    ensures forall p: nat :: !(Among(s, p) && Among(u, p))
    ensures s.read != u.write && s.given != u.write && s.write != u.write && u.read != s.write && u.given != s.write
  {
    assert forall p: nat :: Among(s, p) ==> p < |acts| && acts[p] == PedAct(a);
    assert forall p: nat :: Among(u, p) ==> p < |acts| && acts[p] == PedAct(b);
    assert Among(s, s.read) && Among(s, s.write) && Among(s, s.given) && Among(u, u.read) && Among(u, u.write)
           && Among(u, u.given);
  }

  /** The counter before a call's read, and before its reading back, is what the formulas say. */
  lemma CounterSeen(c: int, s: Turns, u: Turns, n: nat)
    requires InOrder(s, n) && InOrder(u, n) && s.read != u.write && s.given != u.write && s.write != u.write
    ensures CounterAt(c, s, u, s.read) == ReadBy(c, s, u)
    ensures CounterAt(c, s, u, s.given) == GivenTo(c, s, u)
    ensures forall p: nat :: CounterAt(c, u, s, p) == CounterAt(c, s, u, p)
    ensures forall p: nat :: p != s.write && p != u.write ==> CounterAt(c, s, u, p + 1) == CounterAt(c, s, u, p)
    ensures CounterAt(c, s, u, s.write + 1) == ReadBy(c, s, u) + 1
  {
  }

  /** One call's standing after the p-th step, whoever takes it. */
  lemma TakesTurn(cfg: Config, m: Machine, acts: seq<Action>, a: nat, s: Turns, b: nat, u: Turns, p: nat)
    requires a != b && TakenBy(acts, a, s) && TakenBy(acts, b, u) && p < |acts|
    requires CountInv(cfg, m, acts, a, s, b, u, p) || CountInv(cfg, m, acts, b, u, a, s, p)
    ensures var n', c := Before(cfg, m, acts, p + 1), m.sys.net.monotonicCounter;
            && a in n'.threads
            && Stands(n'.committed, n'.threads[a], s, p + 1, ReadBy(c, s, u), GivenTo(c, s, u), Slot(cfg, m, acts, s))
            && (p == s.write ==> n'.sys.net.monotonicCounter == ReadBy(c, s, u) + 1)
            && SameIds(m, n', a)
  {
    hide Next, Before, Stands, CounterAt, ReadBy, GivenTo;
    var n, c := Before(cfg, m, acts, p), m.sys.net.monotonicCounter;
    var value, counter, slot := ReadBy(c, s, u), GivenTo(c, s, u), Slot(cfg, m, acts, s);
    TurnsApart(acts, a, s, b, u);
    CounterSeen(c, s, u, |acts|);
    CounterSeen(c, u, s, |acts|);
    BeforeNext(cfg, m, acts, p);
    if acts[p] == PedAct(a) {
      StandsIsDomain(n.committed, n.threads[a], s, p, value, counter, slot);
      OwnStep(cfg, n, a);
      OwnStands(cfg, n, a, s, p, value, counter, slot);
    } else {
      StepEffect(cfg, n, acts[p]);
      StandsIsDomain(n.committed, n.threads[a], s, p, value, counter, slot);
      OtherStands(n.committed, Next(cfg, n, acts[p]).committed, n.threads[a], s, p, value, counter, slot);
    }
  }

  lemma StandsIsDomain(committed: seq<Entry>, t: Thread, s: Turns, p: nat, value: int, counter: int, slot: nat)
    requires Stands(committed, t, s, p, value, counter, slot)
    ensures t.PedThread?
            && ((p <= s.commit ==> Among(s, p)) && p != s.write && InOrder(s, s.commit + 1) ==>
                !t.pedPc.AtCounterWrite?)
  {
  }

  lemma StepCounts(cfg: Config, m: Machine, acts: seq<Action>, a: nat, s: Turns, b: nat, u: Turns, p: nat)
    requires a != b && TakenBy(acts, a, s) && TakenBy(acts, b, u) && NoThirdWrite(cfg, m, acts, a, b)
    requires p < |acts| && CountInv(cfg, m, acts, a, s, b, u, p)
    ensures CountInv(cfg, m, acts, a, s, b, u, p + 1)
  {
    hide Next, Before, Stands, CounterAt, ReadBy, GivenTo;
    var n, c := Before(cfg, m, acts, p), m.sys.net.monotonicCounter;
    BeforeNext(cfg, m, acts, p);
    StepEffect(cfg, n, acts[p]);
    TurnsApart(acts, a, s, b, u);
    CounterSeen(c, s, u, |acts|);
    CounterSeen(c, u, s, |acts|);
    TakesTurn(cfg, m, acts, a, s, b, u, p);
    TakesTurn(cfg, m, acts, b, u, a, s, p);
    StandsIsDomain(n.committed, n.threads[a], s, p, ReadBy(c, s, u), GivenTo(c, s, u), Slot(cfg, m, acts, s));
    StandsIsDomain(n.committed, n.threads[b], u, p, ReadBy(c, u, s), GivenTo(c, u, s), Slot(cfg, m, acts, u));
  }

  lemma {:induction false} CountsUpTo(cfg: Config, m: Machine, acts: seq<Action>, a: nat, s: Turns, b: nat, u: Turns,
                                      p: nat)
    requires a != b && TakenBy(acts, a, s) && TakenBy(acts, b, u) && NoThirdWrite(cfg, m, acts, a, b)
    requires AboutToCount(m, a) && AboutToCount(m, b) && p <= |acts|
    ensures CountInv(cfg, m, acts, a, s, b, u, p)
  {
    hide NoThirdWrite, Before;
    if p == 0 {
      BeforeFirst(cfg, m, acts);
    } else {
      hide CountInv;
      CountsUpTo(cfg, m, acts, a, s, b, u, p - 1);
      StepCounts(cfg, m, acts, a, s, b, u, p - 1);
    }
  }

  lemma {:induction false} CommitsGrow(cfg: Config, m: Machine, acts: seq<Action>, p: nat, q: nat)
    requires p <= q <= |acts|
    ensures Before(cfg, m, acts, p).committed <= Before(cfg, m, acts, q).committed
  {
    hide Before, Next;
    if p < q {
      CommitsGrow(cfg, m, acts, p, q - 1);
      BeforeNext(cfg, m, acts, q - 1);
      StepEffect(cfg, Before(cfg, m, acts, q - 1), acts[q - 1]);
    }
  }

  /** Two commits, two places in the chain. */
  lemma SlotsDiffer(cfg: Config, m: Machine, acts: seq<Action>, a: nat, s: Turns, b: nat, u: Turns)
    requires a != b && TakenBy(acts, a, s) && TakenBy(acts, b, u) && NoThirdWrite(cfg, m, acts, a, b)
    requires AboutToCount(m, a) && AboutToCount(m, b) && s.commit < u.commit
    ensures Slot(cfg, m, acts, s) < Slot(cfg, m, acts, u)
  {
    hide Before, NoThirdWrite, ReadBy, GivenTo, CounterAt;
    CountsUpTo(cfg, m, acts, a, s, b, u, s.commit + 1);
    CommitsGrow(cfg, m, acts, s.commit + 1, u.commit);
  }

  /** The record of this call, with this counter. */
  predicate RecordAt(m: Machine, n: Machine, tid: nat, slot: nat, counter: int) {
    && tid in m.threads && m.threads[tid].PedThread? && slot < |n.committed|
    && EntryWith(m.threads[tid], n.committed[slot], counter)
  }

  /** One call has read back its value before the other wrote, and written before the other read. */
  predicate Precedes(s: Turns, u: Turns) {
    s.write < u.read && s.given < u.write
  }

  /** Two calls about to count, in any schedule in which no third call writes the counter: the records
      they commit carry the values of `GivenTo`, and these differ if and only if one call precedes the
      other. It is not enough that one writes before the other reads: reading back is a third access. */
  lemma CountersDifferIff(cfg: Config, m: Machine, acts: seq<Action>, a: nat, s: Turns, b: nat, u: Turns)
    requires a != b && AboutToCount(m, a) && AboutToCount(m, b)
    requires TakenBy(acts, a, s) && TakenBy(acts, b, u) && NoThirdWrite(cfg, m, acts, a, b)
    ensures var n, c := Exec(cfg, m, acts), m.sys.net.monotonicCounter;
            var x, y, k, l := GivenTo(c, s, u), GivenTo(c, u, s), Slot(cfg, m, acts, s), Slot(cfg, m, acts, u);
            && RecordAt(m, n, a, k, x) && RecordAt(m, n, b, l, y) && k != l
            && (x != y <==> Precedes(s, u) || Precedes(u, s))
  {
    hide Exec, NoThirdWrite, CounterAt;
    assert acts[..|acts|] == acts;
    CountsUpTo(cfg, m, acts, a, s, b, u, |acts|);
    TurnsApart(acts, a, s, b, u);
    CommitsApart(acts, a, s, b, u);
    if s.commit < u.commit {
      SlotsDiffer(cfg, m, acts, a, s, b, u);
    } else {
      NoThirdEither(cfg, m, acts, a, b);
      SlotsDiffer(cfg, m, acts, b, u, a, s);
    }
  }

  lemma CommitsApart(acts: seq<Action>, a: nat, s: Turns, b: nat, u: Turns)
    requires a != b && TakenBy(acts, a, s) && TakenBy(acts, b, u)
    ensures s.commit != u.commit
  {
    assert Among(s, s.commit) && Among(u, u.commit);
  }

  lemma NoThirdEither(cfg: Config, m: Machine, acts: seq<Action>, a: nat, b: nat)
    requires NoThirdWrite(cfg, m, acts, a, b)
    ensures NoThirdWrite(cfg, m, acts, b, a)
  {
    hide Before, AboutToWrite;
  }

  // ---- both cases come about ----

  function Calls(tids: seq<nat>): seq<Action> {
    seq(|tids|, i requires 0 <= i < |tids| => PedAct(tids[i]))
  }

  lemma OnlyTwoCalls(cfg: Config, m: Machine, tids: seq<nat>, a: nat, b: nat)
    requires forall i :: 0 <= i < |tids| ==> tids[i] == a || tids[i] == b
    ensures NoThirdWrite(cfg, m, Calls(tids), a, b)
  {
    hide Before, AboutToWrite;
  }

  /** The call is on its way to the counter. */
  predicate Approaching(t: Thread) {
    && t.PedThread?
    && (t.pedPc.AtValidate? || t.pedPc.AtReserve? || t.pedPc.AtTopology? || t.pedPc.AtConfiguration?
        || t.pedPc.AtStateReference? || t.pedPc.AtCounter?)
  }

  lemma ApproachStep(cfg: Config, m: Machine, tid: nat)
    requires tid in m.threads && Approaching(m.threads[tid]) && !m.threads[tid].pedPc.AtCounter?
    ensures var n := Next(cfg, m, PedAct(tid));
            && tid in n.threads && Approaching(n.threads[tid]) && Rank(n.threads[tid]) < Rank(m.threads[tid])
            && n.threads == m.threads[tid := n.threads[tid]] && n.threads[tid].ids == m.threads[tid].ids
            && n.committed == m.committed && n.sys.net == m.sys.net
  {
    hide SinkNext, BuiltAuthority, ActivationOf, Commit, NewRecord, Look;
  }

  /** Alone, a call gets to the counter, whether or not policy denies. */
  lemma {:induction false} ReachesCounter(cfg: Config, m: Machine, tid: nat) returns (acts: seq<Action>)
    requires tid in m.threads && Approaching(m.threads[tid])
    ensures var n := Exec(cfg, m, acts);
            && AboutToCount(n, tid) && n.threads == m.threads[tid := n.threads[tid]]
            && n.threads[tid].ids == m.threads[tid].ids && n.committed == m.committed && n.sys.net == m.sys.net
    decreases Rank(m.threads[tid])
  {
    hide Next, Rank;
    if m.threads[tid].pedPc.AtCounter? {
      acts := [];
    } else {
      ApproachStep(cfg, m, tid);
      var rest := ReachesCounter(cfg, Next(cfg, m, PedAct(tid)), tid);
      acts := [PedAct(tid)] + rest;
      assert acts[1..] == rest;
    }
  }

  lemma BothReachCounter(cfg: Config, m: Machine, a: nat, b: nat) returns (acts: seq<Action>)
    requires a != b && a in m.threads && b in m.threads && Approaching(m.threads[a]) && Approaching(m.threads[b])
    ensures var n := Exec(cfg, m, acts);
            && AboutToCount(n, a) && AboutToCount(n, b) && SameIds(m, n, a) && SameIds(m, n, b)
            && n.committed == m.committed && n.sys.net == m.sys.net
  {
    hide Exec;
    var first := ReachesCounter(cfg, m, a);
    var second := ReachesCounter(cfg, Exec(cfg, m, first), b);
    acts := first + second;
    ExecAppends(cfg, m, first, second);
  }

  const IN_TURN := (Turns(0, 1, 2, 3, 4), Turns(5, 6, 7, 8, 9))

  const OVERLAPPING := (Turns(0, 2, 4, 6, 7), Turns(1, 3, 5, 8, 9))

  predicate TwoRecords(m: Machine, n: Machine, a: nat, k: nat, x: int, b: nat, l: nat, y: int) {
    k != l && RecordAt(m, n, a, k, x) && RecordAt(m, n, b, l, y)
  }

  /** Two different records, one of each call, carry these counters. */
  ghost predicate TwoCarry(m: Machine, n: Machine, a: nat, x: int, b: nat, y: int) {
    exists k: nat, l: nat :: TwoRecords(m, n, a, k, x, b, l, y)
  }

  /** From any machine in which two calls have not yet counted, an initial one among them: a schedule
      whose two records carry different counters, and one whose two records carry the same. */
  lemma CountersMayRepeat(cfg: Config, m: Machine, a: nat, b: nat) returns (turn: seq<Action>, overlap: seq<Action>)
    requires a != b && a in m.threads && b in m.threads && Approaching(m.threads[a]) && Approaching(m.threads[b])
    ensures var n, c := Exec(cfg, m, turn), m.sys.net.monotonicCounter;
            TwoCarry(m, n, a, c + 1, b, c + 2)
    ensures var n, c := Exec(cfg, m, overlap), m.sys.net.monotonicCounter;
            TwoCarry(m, n, a, c + 1, b, c + 1)
  {
    hide Exec, NoThirdWrite;
    var reach := BothReachCounter(cfg, m, a, b);
    var n := Exec(cfg, m, reach);
    var inTurn, overlapping := [a, a, a, a, a, b, b, b, b, b], [a, b, a, b, a, b, a, a, b, b];
    OnlyTwoCalls(cfg, n, inTurn, a, b);
    OnlyTwoCalls(cfg, n, overlapping, a, b);
    CountersDifferIff(cfg, n, Calls(inTurn), a, IN_TURN.0, b, IN_TURN.1);
    CountersDifferIff(cfg, n, Calls(overlapping), a, OVERLAPPING.0, b, OVERLAPPING.1);
    turn, overlap := reach + Calls(inTurn), reach + Calls(overlapping);
    ExecAppends(cfg, m, reach, Calls(inTurn));
    ExecAppends(cfg, m, reach, Calls(overlapping));
    var k, l := Slot(cfg, n, Calls(inTurn), IN_TURN.0), Slot(cfg, n, Calls(inTurn), IN_TURN.1);
    var c := m.sys.net.monotonicCounter;
    assert TwoRecords(m, Exec(cfg, m, turn), a, k, c + 1, b, l, c + 2);
    var i, j := Slot(cfg, n, Calls(overlapping), OVERLAPPING.0), Slot(cfg, n, Calls(overlapping), OVERLAPPING.1);
    assert TwoRecords(m, Exec(cfg, m, overlap), a, i, c + 1, b, j, c + 1);
  }
}
