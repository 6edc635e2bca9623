/** The evidence stores: every decision is committed to a hash chain seeded with "GENESIS". */
module Evidence {
  import opened Wrappers
  import opened Canonical
  import opened Crypto
  import opened Models

  /** What a caller commits. */
  datatype Entry = Entry(
    evidenceId: string, candidateActId: string, decisionId: string, decision: string,
    protectedStateReference: string, monotonicCounter: int, committedAt: int)

  datatype EvidenceRecord = EvidenceRecord(entry: Entry, previousDigest: string, digest: string)

  function EntryKeys(): (keys: FieldNames)
    ensures |keys| == 8
  {
    var keys := [
      "evidence_id", "candidate_act_id", "decision_id", "decision", "protected_state_reference",
      "monotonic_counter", "committed_at", "previous_digest"];
    CompareSameLengths(keys);
    keys
  }

  function EntryValues(e: Entry, previous: string): (vals: seq<PyData>)
    ensures |vals| == 8
  {
    hide WellFormed;
    [Text(e.evidenceId), Text(e.candidateActId), Text(e.decisionId), Text(e.decision),
     Text(e.protectedStateReference), Whole(e.monotonicCounter), Instant(e.committedAt), Text(previous)]
  }

  function EntryDigest(p: Primitives, e: Entry, previous: string): string {
    DigestOf(p, Record(EntryKeys(), EntryValues(e, previous)))
  }

  lemma SameEntry(stamp: Stamp, a: Entry, x: string, b: Entry, y: string)
    requires InjectiveStamp(stamp)
    requires SameData(stamp, Record(EntryKeys(), EntryValues(a, x)), Record(EntryKeys(), EntryValues(b, y)))
    ensures a == b && x == y
  {
    hide SameData, WellFormed, EntryKeys;
    var xs, ys := EntryValues(a, x), EntryValues(b, y);
    SameFields(stamp, EntryKeys(), xs, ys);
    assert SameData(stamp, xs[0], ys[0]);
    SameText(stamp, a.evidenceId, b.evidenceId);
    assert SameData(stamp, xs[1], ys[1]);
    SameText(stamp, a.candidateActId, b.candidateActId);
    assert SameData(stamp, xs[2], ys[2]);
    SameText(stamp, a.decisionId, b.decisionId);
    assert SameData(stamp, xs[3], ys[3]);
    SameText(stamp, a.decision, b.decision);
    assert SameData(stamp, xs[4], ys[4]);
    SameText(stamp, a.protectedStateReference, b.protectedStateReference);
    assert SameData(stamp, xs[5], ys[5]);
    SameInt(stamp, a.monotonicCounter, b.monotonicCounter);
    assert SameData(stamp, xs[6], ys[6]);
    SameTime(stamp, a.committedAt, b.committedAt);
    assert SameData(stamp, xs[7], ys[7]);
    SameText(stamp, x, y);
  }

  /** A record's digest names its entry and the record before it. */
  lemma EntryDigestBinds(p: Primitives, a: Entry, x: string, b: Entry, y: string)
    requires Ideal(p)
    ensures EntryDigest(p, a, x) == EntryDigest(p, b, y) <==> a == b && x == y
    ensures EntryDigest(p, a, x) != GENESIS
  {
    hide SameData, WellFormed, EntryKeys, EntryValues, DigestOf;
    var v, w := Record(EntryKeys(), EntryValues(a, x)), Record(EntryKeys(), EntryValues(b, y));
    DigestMeaning(p, v, SHA256, w, SHA256);
    DigestIsNotGenesis(p, v, SHA256);
    if SameData(p.stamp, v, w) {
      SameEntry(p.stamp, a, x, b, y);
    }
  }

  // ---- the in-memory store ----

  datatype EvidenceState = EvidenceState(records: map<string, EvidenceRecord>, tail: string)

  const EMPTY := EvidenceState(map[], GENESIS)

  function NewRecord(p: Primitives, tail: string, e: Entry): EvidenceRecord {
    EvidenceRecord(e, tail, EntryDigest(p, e, tail))
  }

  /** A commit under an id already present replaces the record found under it. */
  function Commit(p: Primitives, s: EvidenceState, e: Entry): EvidenceState {
    var r := NewRecord(p, s.tail, e);
    EvidenceState(s.records[e.evidenceId := r], r.digest)
  }

  function Get(s: EvidenceState, evidenceId: string): Option<EvidenceRecord> {
    if evidenceId in s.records then Some(s.records[evidenceId]) else None
  }

  class InMemoryEvidenceStore {
    const p: Primitives
    var records: map<string, EvidenceRecord>
    var tail: string

    constructor (p: Primitives)
      ensures this.p == p && State() == EMPTY
    {
      this.p := p;
      records := map[];
      tail := GENESIS;
    }

    function State(): EvidenceState
      reads this
    {
      EvidenceState(records, tail)
    }

    method CommitEntry(e: Entry) returns (rec: EvidenceRecord)
      modifies this
      ensures rec == NewRecord(p, old(tail), e) && State() == Commit(p, old(State()), e)
    {
      var digest := EntryDigest(p, e, tail);
      rec := EvidenceRecord(e, tail, digest);
      records := records[e.evidenceId := rec];
      tail := digest;
    }

    method Find(evidenceId: string) returns (rec: Option<EvidenceRecord>)
      ensures rec == Get(State(), evidenceId)
    {
      if evidenceId in records {
        rec := Some(records[evidenceId]);
      } else {
        rec := None;
      }
    }
  }

  // ---- histories ----

  function Tail(log: seq<EvidenceRecord>): string {
    if log == [] then GENESIS else log[|log| - 1].digest
  }

  /** The records of a sequence of commits, in order. */
  function History(p: Primitives, entries: seq<Entry>): (log: seq<EvidenceRecord>)
    ensures |log| == |entries|
  {
    if entries == [] then []
    else
      var earlier := History(p, entries[..|entries| - 1]);
      earlier + [NewRecord(p, Tail(earlier), entries[|entries| - 1])]
  }

  function CommitAll(p: Primitives, entries: seq<Entry>): EvidenceState {
    if entries == [] then EMPTY else Commit(p, CommitAll(p, entries[..|entries| - 1]), entries[|entries| - 1])
  }

  /** Each record is digested over its entry and the digest of the one before it. */
  predicate Chained(p: Primitives, log: seq<EvidenceRecord>) {
    forall i :: 0 <= i < |log| ==> log[i] == NewRecord(p, Tail(log[..i]), log[i].entry)
  }

  lemma {:induction false} HistoryIsChained(p: Primitives, entries: seq<Entry>)
    ensures Chained(p, History(p, entries))
    ensures forall i :: 0 <= i < |entries| ==> History(p, entries)[i].entry == entries[i]
  {
    hide EntryDigest;
    if entries != [] {
      var n := |entries| - 1;
      HistoryIsChained(p, entries[..n]);
      ChainedAppend(p, History(p, entries[..n]), entries[n]);
    }
  }

  /** The first record of any history points to "GENESIS", and every later one to the digest before it. */
  lemma PointsBack(p: Primitives, entries: seq<Entry>, i: nat)
    requires i < |entries|
    ensures History(p, entries)[i].previousDigest == if i == 0 then "GENESIS" else History(p, entries)[i - 1].digest
    ensures History(p, entries)[i].digest == EntryDigest(p, entries[i], History(p, entries)[i].previousDigest)
  {
    hide EntryDigest, History;
    HistoryIsChained(p, entries);
    var log := History(p, entries);
    assert log[i] == NewRecord(p, Tail(log[..i]), log[i].entry);
  }

  lemma ChainedAppend(p: Primitives, log: seq<EvidenceRecord>, e: Entry)
    requires Chained(p, log)
    ensures Chained(p, log + [NewRecord(p, Tail(log), e)])
  {
    hide EntryDigest;
    var longer := log + [NewRecord(p, Tail(log), e)];
    forall i | 0 <= i < |longer| ensures longer[i] == NewRecord(p, Tail(longer[..i]), longer[i].entry) {
      assert longer[..i] == log[..i];
      assert log[..|log|] == log;
    }
  }

  lemma ChainedPrefix(p: Primitives, log: seq<EvidenceRecord>, n: nat)
    requires Chained(p, log) && n <= |log|
    ensures Chained(p, log[..n])
  {
    hide NewRecord;
    forall i | 0 <= i < n ensures log[..n][i] == NewRecord(p, Tail(log[..n][..i]), log[..n][i].entry) {
      assert log[..n][..i] == log[..i];
    }
  }

  /** What a link of a chain says about the record at position `i`. */
  lemma Link(p: Primitives, log: seq<EvidenceRecord>, i: nat)
    requires Ideal(p) && Chained(p, log) && i < |log|
    ensures log[i].digest == EntryDigest(p, log[i].entry, log[i].previousDigest) != GENESIS
    ensures log[i].previousDigest == if i == 0 then GENESIS else log[i - 1].digest
  {
    hide EntryDigest, Ideal;
    var previous := Tail(log[..i]);
    assert log[i] == NewRecord(p, previous, log[i].entry);
    EntryDigestBinds(p, log[i].entry, previous, log[i].entry, previous);
  }

  /** A digest fixes the record that carries it and every record before that one. */
  lemma {:induction false} DigestFixesPrefix(p: Primitives, a: seq<EvidenceRecord>, i: nat, b: seq<EvidenceRecord>,
                                             j: nat)
    requires Ideal(p) && Chained(p, a) && Chained(p, b) && i < |a| && j < |b| && a[i].digest == b[j].digest
    ensures i == j && a[..i + 1] == b[..j + 1]
  {
    hide EntryDigest, Ideal, Chained;
    Link(p, a, i);
    Link(p, b, j);
    EntryDigestBinds(p, a[i].entry, a[i].previousDigest, b[j].entry, b[j].previousDigest);
    if i > 0 { Link(p, a, i - 1); }
    if j > 0 { Link(p, b, j - 1); }
    if i > 0 && j > 0 {
      DigestFixesPrefix(p, a, i - 1, b, j - 1);
    }
    assert a[..i + 1] == a[..i] + [a[i]] && b[..j + 1] == b[..j] + [b[j]];
  }

  /** Equal tails mean equal histories. */
  lemma TailFixesHistory(p: Primitives, a: seq<EvidenceRecord>, b: seq<EvidenceRecord>)
    requires Ideal(p) && Chained(p, a) && Chained(p, b)
    ensures Tail(a) == Tail(b) <==> a == b
  {
    hide EntryDigest, Ideal, Chained;
    if a != [] { Link(p, a, |a| - 1); }
    if b != [] { Link(p, b, |b| - 1); }
    if a != [] && b != [] && Tail(a) == Tail(b) {
      DigestFixesPrefix(p, a, |a| - 1, b, |b| - 1);
      assert a[..|a|] == a && b[..|b|] == b;
    }
  }

  /** No two records of a chain share a digest, even when the same entry is committed twice. */
  lemma DigestsDistinct(p: Primitives, log: seq<EvidenceRecord>, i: nat, j: nat)
    requires Ideal(p) && Chained(p, log) && i < |log| && j < |log|
    ensures log[i].digest == log[j].digest <==> i == j
  {
    hide Ideal, Chained;
    if log[i].digest == log[j].digest {
      DigestFixesPrefix(p, log, i, log, j);
    }
  }

  /** Appending one entry to a history commits one more record. */
  lemma AppendEntry(p: Primitives, entries: seq<Entry>, e: Entry)
    ensures CommitAll(p, entries + [e]) == Commit(p, CommitAll(p, entries), e)
    ensures History(p, entries + [e]) == History(p, entries) + [NewRecord(p, CommitAll(p, entries).tail, e)]
  {
    assert (entries + [e])[..|entries|] == entries;
    StoredAreCommitted(p, entries);
  }

  // ---- walking the chain ----

  /** `path` follows previous digests from `digest` through stored records down to the seed. */
  ghost predicate Walk(stored: set<EvidenceRecord>, digest: string, path: seq<EvidenceRecord>)
    decreases path
  {
    if path == [] then digest == GENESIS
    else path[0] in stored && path[0].digest == digest && Walk(stored, path[0].previousDigest, path[1..])
  }

  function Reversed(log: seq<EvidenceRecord>): seq<EvidenceRecord> {
    if log == [] then [] else [log[|log| - 1]] + Reversed(log[..|log| - 1])
  }

  lemma {:induction false} ReversedHas(log: seq<EvidenceRecord>, r: EvidenceRecord)
    ensures r in Reversed(log) <==> r in log
    ensures |Reversed(log)| == |log|
  {
    if log != [] {
      var n := |log| - 1;
      ReversedHas(log[..n], r);
      assert log == log[..n] + [log[n]];
    }
  }

  lemma {:induction false} WalkMonotone(few: set<EvidenceRecord>, many: set<EvidenceRecord>, digest: string,
                                        path: seq<EvidenceRecord>)
    requires few <= many && Walk(few, digest, path)
    ensures Walk(many, digest, path)
    decreases path
  {
    if path != [] {
      WalkMonotone(few, many, path[0].previousDigest, path[1..]);
    }
  }

  lemma {:induction false} WalkIsReversed(p: Primitives, log: seq<EvidenceRecord>, stored: set<EvidenceRecord>)
    requires Chained(p, log) && forall r :: r in log ==> r in stored
    ensures Walk(stored, Tail(log), Reversed(log))
  {
    hide EntryDigest;
    if log != [] {
      var n := |log| - 1;
      ChainedPrefix(p, log, n);
      WalkIsReversed(p, log[..n], stored);
      assert ([log[n]] + Reversed(log[..n]))[1..] == Reversed(log[..n]);
    }
  }

  lemma {:induction false} WalkUnique(p: Primitives, log: seq<EvidenceRecord>, n: nat,
                                      stored: set<EvidenceRecord>, path: seq<EvidenceRecord>)
    requires Ideal(p) && Chained(p, log) && n <= |log| && (forall r :: r in stored ==> r in log)
    requires Walk(stored, Tail(log[..n]), path)
    ensures path == Reversed(log[..n])
    decreases n
  {
    hide EntryDigest, Ideal, Chained;
    if path != [] {
      var i :| 0 <= i < |log| && log[i] == path[0];
      Link(p, log, i);
      if n > 0 { DigestsDistinct(p, log, i, n - 1); }
    }
    if n > 0 {
      Link(p, log, n - 1);
      assert log[..n][..n - 1] == log[..n - 1];
      WalkUnique(p, log, n - 1, stored, path[1..]);
      assert path == [path[0]] + path[1..];
    }
  }

  predicate IdsDistinct(entries: seq<Entry>) {
    forall i, j :: 0 <= i < j < |entries| ==> entries[i].evidenceId != entries[j].evidenceId
  }

  /** The records a store holds after some commits are records of the history, each under its own id. */
  lemma {:induction false} StoredAreCommitted(p: Primitives, entries: seq<Entry>)
    ensures CommitAll(p, entries).tail == Tail(History(p, entries))
    ensures forall id :: id in CommitAll(p, entries).records ==>
      CommitAll(p, entries).records[id] in History(p, entries)
      && CommitAll(p, entries).records[id].entry.evidenceId == id
  {
    hide EntryDigest;
    if entries != [] {
      StoredAreCommitted(p, entries[..|entries| - 1]);
    }
  }

  lemma {:induction false} DistinctAreKept(p: Primitives, entries: seq<Entry>, i: nat)
    requires IdsDistinct(entries) && i < |entries|
    ensures entries[i].evidenceId in CommitAll(p, entries).records
    ensures CommitAll(p, entries).records[entries[i].evidenceId] == History(p, entries)[i]
  {
    hide EntryDigest;
    var n := |entries| - 1;
    StoredAreCommitted(p, entries[..n]);
    if i < n {
      DistinctAreKept(p, entries[..n], i);
    }
  }

  /** What is found under an id is the last record committed under it. */
  lemma {:induction false} LastUseIsFound(p: Primitives, entries: seq<Entry>, k: nat)
    requires k < |entries| && forall j :: k < j < |entries| ==> entries[j].evidenceId != entries[k].evidenceId
    ensures Get(CommitAll(p, entries), entries[k].evidenceId) == Some(History(p, entries)[k])
  {
    hide EntryDigest;
    var n := |entries| - 1;
    StoredAreCommitted(p, entries[..n]);
    if k < n {
      LastUseIsFound(p, entries[..n], k);
    }
  }

  /** The last of the uses of an id from position `k` on. */
  lemma {:induction false} LastUse(entries: seq<Entry>, k: nat) returns (l: nat)
    requires k < |entries|
    ensures k <= l < |entries| && entries[l].evidenceId == entries[k].evidenceId
    ensures forall j :: l < j < |entries| ==> entries[j].evidenceId != entries[l].evidenceId
    decreases |entries| - k
  {
    if j :| k < j < |entries| && entries[j].evidenceId == entries[k].evidenceId {
      l := LastUse(entries, j);
    } else {
      l := k;
    }
  }

  /** A committed record is still found under its id exactly when the id was not used again. */
  lemma FoundIffLastUse(p: Primitives, entries: seq<Entry>, k: nat)
    requires Ideal(p) && k < |entries|
    ensures Get(CommitAll(p, entries), entries[k].evidenceId) == Some(History(p, entries)[k])
            <==> forall j :: k < j < |entries| ==> entries[j].evidenceId != entries[k].evidenceId
  {
    hide CommitAll, History, Chained, Ideal, Get;
    var l := LastUse(entries, k);
    LastUseIsFound(p, entries, l);
    HistoryIsChained(p, entries);
    DigestsDistinct(p, History(p, entries), k, l);
  }

  /** Walking the in-memory store from its tail: there is a way down to GENESIS exactly when no
      evidence id was used twice, and then it is the whole history, newest record first. */
  lemma WalkIffIdsDistinct(p: Primitives, entries: seq<Entry>)
    requires Ideal(p)
    ensures var s := CommitAll(p, entries);
            (exists path :: Walk(s.records.Values, s.tail, path)) <==> IdsDistinct(entries)
    ensures var s := CommitAll(p, entries);
            forall path :: Walk(s.records.Values, s.tail, path) ==> path == Reversed(History(p, entries))
  {
    hide CommitAll, History, Walk, Ideal, Chained, Reversed;
    var s := CommitAll(p, entries);
    HistoryIsChained(p, entries);
    if IdsDistinct(entries) {
      WalkExists(p, entries);
    }
    forall path | Walk(s.records.Values, s.tail, path)
      ensures path == Reversed(History(p, entries)) && IdsDistinct(entries)
    {
      WalkIsWhole(p, entries, path);
    }
  }

  lemma WalkExists(p: Primitives, entries: seq<Entry>)
    requires IdsDistinct(entries)
    ensures var s := CommitAll(p, entries); Walk(s.records.Values, s.tail, Reversed(History(p, entries)))
  {
    hide CommitAll, History, Chained;
    var s, log := CommitAll(p, entries), History(p, entries);
    HistoryIsChained(p, entries);
    StoredAreCommitted(p, entries);
    forall r | r in log ensures r in s.records.Values {
      var i :| 0 <= i < |log| && log[i] == r;
      DistinctAreKept(p, entries, i);
    }
    WalkIsReversed(p, log, s.records.Values);
  }

  lemma WalkIsWhole(p: Primitives, entries: seq<Entry>, path: seq<EvidenceRecord>)
    requires Ideal(p)
    requires var s := CommitAll(p, entries); Walk(s.records.Values, s.tail, path)
    ensures path == Reversed(History(p, entries)) && IdsDistinct(entries)
  {
    hide CommitAll, History, Chained, Ideal;
    var s, log := CommitAll(p, entries), History(p, entries);
    HistoryIsChained(p, entries);
    StoredAreCommitted(p, entries);
    assert log[..|log|] == log;
    WalkUnique(p, log, |log|, s.records.Values, path);
    forall i, j | 0 <= i < j < |entries| ensures entries[i].evidenceId != entries[j].evidenceId {
      BothStored(p, log, s, path, i, j);
    }
  }

  lemma BothStored(p: Primitives, log: seq<EvidenceRecord>, s: EvidenceState, path: seq<EvidenceRecord>, i: nat, j: nat)
    requires Ideal(p) && Chained(p, log) && i < j < |log| && path == Reversed(log)
    requires Walk(s.records.Values, s.tail, path)
    requires forall id :: id in s.records ==> s.records[id].entry.evidenceId == id
    ensures log[i].entry.evidenceId != log[j].entry.evidenceId
  {
    hide EntryDigest, NewRecord, Ideal;
    ReversedHas(log, log[i]);
    ReversedHas(log, log[j]);
    WalkStays(s.records.Values, s.tail, path, log[i]);
    WalkStays(s.records.Values, s.tail, path, log[j]);
    DigestsDistinct(p, log, i, j);
  }

  lemma {:induction false} WalkStays(stored: set<EvidenceRecord>, digest: string, path: seq<EvidenceRecord>,
                                     r: EvidenceRecord)
    requires Walk(stored, digest, path) && r in path
    ensures r in stored
    decreases path
  {
    if path[0] != r {
      WalkStays(stored, path[0].previousDigest, path[1..], r);
    }
  }

  // ---- the durable store ----

  /** The table of `evidence.sqlite3`, in insertion order. It outlives the store objects over it. */
  class EvidenceTable {
    var rows: seq<EvidenceRecord>

    constructor ()
      ensures rows == []
    {
      rows := [];
    }
  }

  predicate UsesId(rows: seq<EvidenceRecord>, evidenceId: string) {
    exists i :: 0 <= i < |rows| && rows[i].entry.evidenceId == evidenceId
  }

  /** One transaction: a repeated evidence id violates the UNIQUE column and is rolled back. */
  function Insert(p: Primitives, rows: seq<EvidenceRecord>, e: Entry): seq<EvidenceRecord> {
    if UsesId(rows, e.evidenceId) then rows else rows + [NewRecord(p, Tail(rows), e)]
  }

  function InsertAll(p: Primitives, entries: seq<Entry>): seq<EvidenceRecord> {
    if entries == [] then [] else Insert(p, InsertAll(p, entries[..|entries| - 1]), entries[|entries| - 1])
  }

  class SQLiteEvidenceStore {
    const p: Primitives
    const table: EvidenceTable

    constructor (p: Primitives, table: EvidenceTable)
      ensures this.p == p && this.table == table
    {
      this.p := p;
      this.table := table;
    }

    /** `None` stands for the integrity error. */
    method CommitEntry(e: Entry) returns (rec: Option<EvidenceRecord>)
      modifies table
      ensures table.rows == Insert(p, old(table.rows), e)
      ensures rec ==
              if UsesId(old(table.rows), e.evidenceId) then None else Some(NewRecord(p, Tail(old(table.rows)), e))
    {
      var previous := if table.rows == [] then GENESIS else table.rows[|table.rows| - 1].digest;
      var r := EvidenceRecord(e, previous, EntryDigest(p, e, previous));
      if UsesId(table.rows, e.evidenceId) {
        return None;
      }
      table.rows := table.rows + [r];
      rec := Some(r);
    }

    method Find(evidenceId: string) returns (rec: Option<EvidenceRecord>)
      ensures rec == SelectById(table.rows, evidenceId)
    {
      rec := SelectById(table.rows, evidenceId);
    }
  }

  /** The one row with the given id. */
  function SelectById(rows: seq<EvidenceRecord>, evidenceId: string): (rec: Option<EvidenceRecord>)
    ensures rec.Some? ==> rec.value in rows && rec.value.entry.evidenceId == evidenceId
    ensures rec.None? ==> !UsesId(rows, evidenceId)
  {
    if rows == [] then None
    else if rows[|rows| - 1].entry.evidenceId == evidenceId then Some(rows[|rows| - 1])
    else
      var rec := SelectById(rows[..|rows| - 1], evidenceId);
      assert rec.None? ==> !UsesId(rows, evidenceId) by {
        assert forall i :: 0 <= i < |rows| - 1 ==> rows[..|rows| - 1][i] == rows[i];
      }
      rec
  }

  predicate Used(entries: seq<Entry>, evidenceId: string) {
    exists i :: 0 <= i < |entries| && entries[i].evidenceId == evidenceId
  }

  /** The entries whose id had not been used before them. */
  function FirstUses(entries: seq<Entry>): seq<Entry> {
    if entries == [] then []
    else
      var n := |entries| - 1;
      var earlier := FirstUses(entries[..n]);
      if Used(earlier, entries[n].evidenceId) then earlier else earlier + [entries[n]]
  }

  lemma SameIds(p: Primitives, entries: seq<Entry>, evidenceId: string)
    ensures UsesId(History(p, entries), evidenceId) <==> Used(entries, evidenceId)
  {
    hide NewRecord, History;
    HistoryIsChained(p, entries);
    var rows := History(p, entries);
    if Used(entries, evidenceId) {
      var i :| 0 <= i < |entries| && entries[i].evidenceId == evidenceId;
      assert rows[i].entry == entries[i];
    }
    if UsesId(rows, evidenceId) {
      var i :| 0 <= i < |rows| && rows[i].entry.evidenceId == evidenceId;
      assert rows[i].entry == entries[i];
    }
  }

  /** The durable store holds the history of the first uses of each id, whatever it was asked to commit. */
  lemma {:induction false} DurableHistory(p: Primitives, entries: seq<Entry>)
    ensures InsertAll(p, entries) == History(p, FirstUses(entries))
    ensures IdsDistinct(FirstUses(entries))
  {
    hide NewRecord;
    if entries != [] {
      var n := |entries| - 1;
      var earlier := FirstUses(entries[..n]);
      DurableHistory(p, entries[..n]);
      SameIds(p, earlier, entries[n].evidenceId);
      if !Used(earlier, entries[n].evidenceId) {
        assert (earlier + [entries[n]])[..|earlier|] == earlier;
      }
    }
  }

  /** So its chain always walks down to GENESIS through every row exactly once, and in no other way. */
  lemma DurableWalk(p: Primitives, entries: seq<Entry>, path: seq<EvidenceRecord>)
    requires Ideal(p)
    ensures var rows := InsertAll(p, entries);
            Walk((set r | r in rows), Tail(rows), path) <==> path == Reversed(rows)
  {
    hide NewRecord, History, InsertAll, Ideal, Chained, Walk;
    var rows := InsertAll(p, entries);
    DurableHistory(p, entries);
    HistoryIsChained(p, FirstUses(entries));
    WalkIsReversed(p, rows, (set r | r in rows));
    assert rows[..|rows|] == rows;
    if Walk((set r | r in rows), Tail(rows), path) {
      WalkUnique(p, rows, |rows|, (set r | r in rows), path);
    }
  }
}
