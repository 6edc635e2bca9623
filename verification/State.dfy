/** Protected state: epochs, allowlists and the counter, the nonce registry, and the two
    activation stores, of which the durable one is shown to answer like the in-memory one. */
module State {
  import opened Wrappers
  import opened Models

  /** A reading of the protected network state. */
  datatype NetState = NetState(
    epochs: Epochs, protectedStateReference: string, monotonicCounter: int,
    allowedSinkIds: set<string>, allowedJurisdictions: set<string>, allowedPurposes: set<string>,
    requireAttestation: bool)

  class ProtectedNetworkState {
    var epochs: Epochs
    var protectedStateReference: string
    var monotonicCounter: int
    var allowedSinkIds: set<string>
    var allowedJurisdictions: set<string>
    var allowedPurposes: set<string>
    var requireAttestation: bool

    constructor (s: NetState)
      ensures Reading() == s
    {
      epochs := s.epochs;
      protectedStateReference := s.protectedStateReference;
      monotonicCounter := s.monotonicCounter;
      allowedSinkIds := s.allowedSinkIds;
      allowedJurisdictions := s.allowedJurisdictions;
      allowedPurposes := s.allowedPurposes;
      requireAttestation := s.requireAttestation;
    }

    function Reading(): NetState
      reads this
    {
      NetState(epochs, protectedStateReference, monotonicCounter, allowedSinkIds, allowedJurisdictions,
               allowedPurposes, requireAttestation)
    }

    method AdvanceCounter() returns (counter: int)
      modifies this`monotonicCounter
      ensures monotonicCounter == old(monotonicCounter) + 1 && counter == monotonicCounter
    {
      monotonicCounter := monotonicCounter + 1;
      counter := monotonicCounter;
    }
  }

  class NonceRegistry {
    var seen: set<string>

    constructor ()
      ensures seen == {}
    {
      seen := {};
    }

    method Reserve(nonce: string) returns (ok: bool)
      modifies this
      ensures ok <==> nonce !in old(seen)
      ensures seen == old(seen) + {nonce}
    {
      if nonce in seen {
        return false;
      }
      seen := seen + {nonce};
      ok := true;
    }

    method Contains(nonce: string) returns (present: bool)
      ensures present <==> nonce in seen
    {
      present := nonce in seen;
    }
  }

  datatype ActivationRecord = ActivationRecord(
    authorityId: string, authorityDigest: string, candidateDigest: string, sinkId: string, nonce: string,
    activationCommitment: string, expiresAt: int, used: bool)

  // ---- the in-memory activation store ----

  datatype Activations = Activations(records: map<string, ActivationRecord>, used: set<string>)

  const NO_ACTIVATIONS := Activations(map[], {})

  class InMemoryActivationStore {
    var records: map<string, ActivationRecord>
    var used: set<string>

    constructor ()
      ensures State() == NO_ACTIVATIONS
    {
      records := map[];
      used := {};
    }

    function State(): Activations
      reads this
    {
      Activations(records, used)
    }

    /** `false` stands for the `ValueError` raised on a repeated id. */
    method Put(record: ActivationRecord) returns (ok: bool)
      modifies this
      ensures (State(), Stored(ok)) == MemStep(old(State()), Op.Put(record))
    {
      if record.authorityId in records {
        return false;
      }
      records := records[record.authorityId := record];
      ok := true;
    }

    method Get(authorityId: string) returns (record: Option<ActivationRecord>)
      ensures (State(), Found(record)) == MemStep(State(), Op.Get(authorityId))
    {
      record := if authorityId in records then Some(records[authorityId]) else None;
    }

    method Consume(authorityId: string) returns (ok: bool)
      modifies this
      ensures (State(), Truth(ok)) == MemStep(old(State()), Op.Consume(authorityId))
    {
      if authorityId !in records || authorityId in used {
        return false;
      }
      used := used + {authorityId};
      ok := true;
    }

    method Unconsume(authorityId: string)
      modifies this
      ensures (State(), Nothing) == MemStep(old(State()), Op.Unconsume(authorityId))
    {
      used := used - {authorityId};
    }

    method IsUsed(authorityId: string) returns (b: bool)
      ensures (State(), Truth(b)) == MemStep(State(), Op.IsUsed(authorityId))
    {
      b := authorityId in used;
    }
  }

  // ---- the durable activation store ----

  /** The table of `activation.sqlite3`; it outlives the store objects opened over it. */
  class ActivationTable {
    var rows: map<string, ActivationRecord>

    constructor ()
      ensures rows == map[]
    {
      rows := map[];
    }
  }

  class SQLiteActivationStore {
    const table: ActivationTable

    /** Opening creates the table only if it is missing, so reopening changes no row. */
    constructor (table: ActivationTable)
      ensures this.table == table
    {
      this.table := table;
    }

    /** `false` stands for the integrity error raised on a repeated primary key. */
    method Put(record: ActivationRecord) returns (ok: bool)
      modifies table
      ensures (table.rows, Stored(ok)) == SqlStep(old(table.rows), Op.Put(record))
    {
      if record.authorityId in table.rows {
        return false;
      }
      table.rows := table.rows[record.authorityId := record.(used := false)];
      ok := true;
    }

    method Get(authorityId: string) returns (record: Option<ActivationRecord>)
      ensures (table.rows, Found(record)) == SqlStep(table.rows, Op.Get(authorityId))
    {
      record := if authorityId in table.rows then Some(table.rows[authorityId]) else None;
    }

    method Consume(authorityId: string) returns (ok: bool)
      modifies table
      ensures (table.rows, Truth(ok)) == SqlStep(old(table.rows), Op.Consume(authorityId))
    {
      if authorityId !in table.rows || table.rows[authorityId].used {
        return false;
      }
      table.rows := table.rows[authorityId := table.rows[authorityId].(used := true)];
      ok := true;
    }

    method Unconsume(authorityId: string)
      modifies table
      ensures (table.rows, Nothing) == SqlStep(old(table.rows), Op.Unconsume(authorityId))
    {
      if authorityId in table.rows {
        table.rows := table.rows[authorityId := table.rows[authorityId].(used := false)];
      }
    }

    method IsUsed(authorityId: string) returns (b: bool)
      ensures (table.rows, Truth(b)) == SqlStep(table.rows, Op.IsUsed(authorityId))
    {
      var r := Get(authorityId);
      b := r.Some? && r.value.used;
    }
  }

  // ---- both stores as step functions ----

  datatype Op =
    | Put(record: ActivationRecord)
    | Get(authorityId: string)
    | Consume(authorityId: string)
    | Unconsume(authorityId: string)
    | IsUsed(authorityId: string)
    | Reopen

  datatype Answer = Stored(ok: bool) | Found(record: Option<ActivationRecord>) | Truth(b: bool) | Nothing

  function MemStep(s: Activations, op: Op): (Activations, Answer) {
    match op
    case Put(r) =>
      if r.authorityId in s.records then (s, Stored(false))
      else (s.(records := s.records[r.authorityId := r]), Stored(true))
    case Get(id) => (s, Found(if id in s.records then Some(s.records[id]) else None))
    case Consume(id) =>
      if id !in s.records || id in s.used then (s, Truth(false)) else (s.(used := s.used + {id}), Truth(true))
    case Unconsume(id) => (s.(used := s.used - {id}), Nothing)
    case IsUsed(id) => (s, Truth(id in s.used))
    case Reopen => (s, Nothing)
  }

  function SqlStep(rows: map<string, ActivationRecord>, op: Op): (map<string, ActivationRecord>, Answer) {
    match op
    case Put(r) =>
      if r.authorityId in rows then (rows, Stored(false))
      else (rows[r.authorityId := r.(used := false)], Stored(true))
    case Get(id) => (rows, Found(if id in rows then Some(rows[id]) else None))
    case Consume(id) =>
      if id in rows && !rows[id].used then (rows[id := rows[id].(used := true)], Truth(true)) else (rows, Truth(false))
    case Unconsume(id) => (if id in rows then rows[id := rows[id].(used := false)] else rows, Nothing)
    case IsUsed(id) => (rows, Truth(id in rows && rows[id].used))
    case Reopen => (rows, Nothing)
  }

  function MemRun(ops: seq<Op>): (Activations, seq<Answer>) {
    if ops == [] then (NO_ACTIVATIONS, [])
    else
      var n := |ops| - 1;
      var (s, answers) := MemRun(ops[..n]);
      var (s', answer) := MemStep(s, ops[n]);
      (s', answers + [answer])
  }

  function SqlRun(ops: seq<Op>): (map<string, ActivationRecord>, seq<Answer>) {
    if ops == [] then (map[], [])
    else
      var n := |ops| - 1;
      var (rows, answers) := SqlRun(ops[..n]);
      var (rows', answer) := SqlStep(rows, ops[n]);
      (rows', answers + [answer])
  }

  /** The table is the records with the used set written into the flag, and only registered ids are used. */
  ghost predicate Represents(rows: map<string, ActivationRecord>, s: Activations) {
    && s.used <= s.records.Keys == rows.Keys
    && forall id :: id in rows ==> rows[id] == s.records[id].(used := id in s.used)
  }

  /** Equal but for the used flag of a fetched record. */
  predicate SameAnswer(a: Answer, b: Answer) {
    match (a, b)
    case (Found(Some(r)), Found(Some(q))) => r.(used := false) == q.(used := false)
    case _ => a == b
  }

  lemma StepsAgree(rows: map<string, ActivationRecord>, s: Activations, op: Op)
    requires Represents(rows, s)
    ensures Represents(SqlStep(rows, op).0, MemStep(s, op).0)
    ensures SameAnswer(MemStep(s, op).1, SqlStep(rows, op).1)
    ensures MemStep(s, op).1 == SqlStep(rows, op).1 <==>
            (op.Get? && op.authorityId in s.records ==> s.records[op.authorityId].used == (op.authorityId in s.used))
  {
  }

  /** For every sequence of operations, with the durable store reopened anywhere, both stores give
      the same answers up to the used flag of a fetched record, and used ids are registered ids. */
  lemma {:induction false} StoresAgree(ops: seq<Op>)
    ensures Represents(SqlRun(ops).0, MemRun(ops).0)
    ensures |SqlRun(ops).1| == |MemRun(ops).1| == |ops|
    ensures forall i :: 0 <= i < |ops| ==> SameAnswer(MemRun(ops).1[i], SqlRun(ops).1[i])
  {
    hide MemStep, SqlStep, SameAnswer;
    if ops != [] {
      var n := |ops| - 1;
      StoresAgree(ops[..n]);
      StepsAgree(SqlRun(ops[..n]).0, MemRun(ops[..n]).0, ops[n]);
    }
  }

  /** The one difference is the flag: a fetched record is the same in both stores exactly when the
      record was put with the flag its id has now, which for a fresh record means not yet used. */
  lemma FetchedFlag(ops: seq<Op>, id: string)
    requires id in MemRun(ops).0.records
    ensures id in SqlRun(ops).0 && (SqlRun(ops).0[id].used <==> id in MemRun(ops).0.used)
    ensures MemStep(MemRun(ops).0, Op.Get(id)).1 == SqlStep(SqlRun(ops).0, Op.Get(id)).1
            <==> MemRun(ops).0.records[id].used == (id in MemRun(ops).0.used)
  {
    StoresAgree(ops);
    StepsAgree(SqlRun(ops).0, MemRun(ops).0, Get(id));
  }
}
