/** The canonical text itself, character by character: what each kind of value is written as, and the exact
    text of every record that is hashed or signed. */
module Spelling {
  import opened Wrappers
  import opened Dicts
  import opened Canonical
  import opened Crypto
  import opened Models
  import Evidence
  import J = Json
  import Utf8
  import Base64Url

  /** Texts separated by commas. */
  function Joined(parts: seq<string>): string {
    if parts == [] then ""
    else if |parts| == 1 then parts[0]
    else parts[0] + "," + Joined(parts[1..])
  }

  function Quoted(s: string): string { J.PrintStr(s) }

  function Number(n: int): string { J.PrintInt(n) }

  function Field(key: string, text: string): string { Quoted(key) + ":" + text }

  function Object(fields: seq<string>): string { "{" + Joined(fields) + "}" }

  function Listing(items: seq<string>): string { "[" + Joined(items) + "]" }

  // ---- each kind of value ----

  lemma TextIsPrinted(stamp: Stamp, v: PyValue)
    requires WellFormed(v)
    ensures CanonicalText(stamp, v) == J.Print(Normalize(stamp, v))
  {
    NormalFormIsStable(stamp, v);
  }

  lemma TextOfLeaf(stamp: Stamp, b: bool, n: int, s: string, t: int)
    ensures CanonicalText(stamp, PyNone) == "null"
    ensures CanonicalText(stamp, PyBool(b)) == if b then "true" else "false"
    ensures CanonicalText(stamp, PyInt(n)) == Number(n)
    ensures CanonicalText(stamp, PyStr(s)) == CanonicalText(stamp, PyEnum(s)) == Quoted(s)
    ensures CanonicalText(stamp, PyTime(t)) == Quoted(stamp(t))
  {
  }

  lemma {:induction false} ItemsAreJoined(stamp: Stamp, xs: seq<PyValue>)
    requires forall i :: 0 <= i < |xs| ==> WellFormed(xs[i])
    ensures J.PrintItems(seq(|xs|, i requires 0 <= i < |xs| => Normalize(stamp, xs[i])))
            == Joined(seq(|xs|, i requires 0 <= i < |xs| => CanonicalText(stamp, xs[i])))
  {
    hide Normalize, CanonicalText, J.Print, WellFormed;
    var items := seq(|xs|, i requires 0 <= i < |xs| => Normalize(stamp, xs[i]));
    var texts := seq(|xs|, i requires 0 <= i < |xs| => CanonicalText(stamp, xs[i]));
    if xs != [] {
      TextIsPrinted(stamp, xs[0]);
      ItemsAreJoined(stamp, xs[1..]);
      assert items[1..] == seq(|xs[1..]|, i requires 0 <= i < |xs[1..]| => Normalize(stamp, xs[1..][i]));
      assert texts[1..] == seq(|xs[1..]|, i requires 0 <= i < |xs[1..]| => CanonicalText(stamp, xs[1..][i]));
    }
  }

  lemma TextOfList(stamp: Stamp, xs: seq<PyValue>)
    requires WellFormed(PyList(xs))
    ensures CanonicalText(stamp, PyList(xs))
            == Listing(seq(|xs|, i requires 0 <= i < |xs| => CanonicalText(stamp, xs[i])))
  {
    hide CanonicalText;
    TextIsPrinted(stamp, PyList(xs));
    ItemsAreJoined(stamp, xs);
  }

  function FieldTexts(stamp: Stamp, es: Entries<PyValue>): seq<string> {
    seq(|es|, i requires 0 <= i < |es| => Field(es[i].key, CanonicalText(stamp, es[i].val)))
  }

  lemma {:induction false} MembersAreJoined(stamp: Stamp, es: Entries<PyValue>)
    requires forall i :: 0 <= i < |es| ==> WellFormed(es[i].val)
    ensures J.PrintMembers(NormalizeEntries(stamp, es)) == Joined(FieldTexts(stamp, es))
  {
    hide Normalize, CanonicalText, J.Print, WellFormed;
    if es != [] {
      TextIsPrinted(stamp, es[0].val);
      MembersAreJoined(stamp, es[1..]);
      assert NormalizeEntries(stamp, es)[1..] == NormalizeEntries(stamp, es[1..]);
      assert FieldTexts(stamp, es)[1..] == FieldTexts(stamp, es[1..]);
    }
  }

  lemma {:induction false} SortedValue(es: Entries<PyValue>, sorted: Entries<PyValue>, i: nat)
    requires Distinct(es) && Distinct(sorted) && AsMap(sorted) == AsMap(es) && i < |sorted|
    requires forall j :: 0 <= j < |es| ==> WellFormed(es[j].val)
    ensures WellFormed(sorted[i].val)
  {
    AsMapAt(sorted, i);
    var j := ValueAt(es, sorted[i].key);
  }

  lemma ValueAt(es: Entries<PyValue>, k: string) returns (j: nat)
    requires Distinct(es) && k in AsMap(es)
    ensures j < |es| && AsMap(es)[k] == es[j].val
  {
    j := KeyIndex(es, k);
    AsMapAt(es, j);
  }

  /** A dictionary is written in ascending order of its keys. */
  lemma TextOfDict(stamp: Stamp, es: Entries<PyValue>, sorted: Entries<PyValue>)
    requires WellFormed(PyDict(es)) && Ascending(sorted) && AsMap(sorted) == AsMap(es)
    ensures CanonicalText(stamp, PyDict(es)) == Object(FieldTexts(stamp, sorted))
  {
    hide CanonicalText, AsMap, Ascending;
    TextIsPrinted(stamp, PyDict(es));
    AscendingIsDistinct(sorted);
    SourceOrder(stamp, es, sorted);
    forall i | 0 <= i < |sorted| ensures WellFormed(sorted[i].val) {
      SortedValue(es, sorted, i);
    }
    MembersAreJoined(stamp, sorted);
  }

  // ---- records ----

  /** The field names in ascending order, each position once. */
  predicate Orders(keys: seq<string>, order: seq<nat>) {
    && |order| == |keys| && (forall i :: 0 <= i < |order| ==> order[i] < |keys|)
    && forall i :: 0 <= i < |order| - 1 ==> Less(keys[order[i]], keys[order[i + 1]])
  }

  function Ordered(keys: seq<string>, vals: seq<PyValue>, order: seq<nat>): Entries<PyValue>
    requires |keys| == |vals| && forall i :: 0 <= i < |order| ==> order[i] < |keys|
  {
    seq(|order|, i requires 0 <= i < |order| => Entry(keys[order[i]], vals[order[i]]))
  }

  lemma {:induction false} ChainAscends(es: Entries<PyValue>)
    requires forall i :: 0 <= i < |es| - 1 ==> Less(es[i].key, es[i + 1].key)
    ensures Ascending(es)
  {
    if es != [] {
      var rest := es[1..];
      assert forall i :: 0 <= i < |rest| ==> rest[i] == es[i + 1];
      ChainAscends(rest);
      if |es| > 1 { BelowNext(es[0].key, es[1..]); }
    }
  }

  lemma BelowNext(k: string, es: Entries<PyValue>)
    requires es != [] && Less(k, es[0].key) && Ascending(es)
    ensures Below(k, Keys(es))
  {
    forall l | l in Keys(es) ensures Less(k, l) {
      if l != es[0].key { LessTransitive(k, es[0].key, l); }
    }
  }

  lemma {:induction false} KeyCount(es: Entries<PyValue>)
    requires Distinct(es)
    ensures |Keys(es)| == |es|
  {
    if es != [] {
      DistinctTail(es);
      KeyCount(es[1..]);
    }
  }

  lemma SameSet(a: set<string>, b: set<string>)
    requires a <= b && |a| == |b|
    ensures a == b
  {
    assert |b - a| == |b| - |a|;
  }

  lemma {:induction false} KeyOf(es: Entries<PyValue>, i: nat)
    requires i < |es|
    ensures es[i].key in Keys(es)
  {
    if i > 0 {
      assert es[1..][i - 1] == es[i];
      KeyOf(es[1..], i - 1);
    }
  }

  /** Two listings without repeated keys, one made of members of the other and as long: the same mapping. */
  lemma SameListing(es: Entries<PyValue>, fs: Entries<PyValue>)
    requires Distinct(es) && Distinct(fs) && |es| == |fs| && forall i :: 0 <= i < |fs| ==> fs[i] in es
    ensures AsMap(fs) == AsMap(es)
  {
    hide AsMap, Distinct, Keys;
    KeyCount(es);
    KeyCount(fs);
    forall k | k in Keys(fs) ensures k in Keys(es) && AsMap(fs)[k] == AsMap(es)[k] {
      var i := KeyIndex(fs, k);
      AsMapAt(fs, i);
      var j :| 0 <= j < |es| && es[j] == fs[i];
      KeyOf(es, j);
      AsMapAt(es, j);
    }
    SameSet(Keys(fs), Keys(es));
  }

  /** The text of a record: its fields in ascending order of their names. */
  lemma RecordText(stamp: Stamp, keys: FieldNames, vals: seq<PyData>, order: seq<nat>)
    requires |keys| == |vals| && Orders(keys, order)
    ensures CanonicalText(stamp, Record(keys, vals)) == Object(FieldTexts(stamp, Ordered(keys, vals, order)))
  {
    hide CanonicalText, AsMap, Less, Ascending;
    var es, fs := Record(keys, vals).entries, Ordered(keys, vals, order);
    ChainAscends(fs);
    AscendingIsDistinct(fs);
    forall i | 0 <= i < |fs| ensures fs[i] in es {
      assert es[order[i]] == fs[i];
    }
    SameListing(es, fs);
    TextOfDict(stamp, es, fs);
  }

  // ---- the fields ----

  function QuotedOr(o: Option<string>): string { if o.Some? then Quoted(o.value) else "null" }

  function NumberOr(o: Option<int>): string { if o.Some? then Number(o.value) else "null" }

  function Truth(b: bool): string { if b then "true" else "false" }

  function Strings(xs: seq<string>): string {
    Listing(seq(|xs|, i requires 0 <= i < |xs| => Quoted(xs[i])))
  }

  lemma TextOfString(stamp: Stamp, s: string)
    ensures CanonicalText(stamp, Text(s)) == CanonicalText(stamp, Enum(s)) == Quoted(s)
  {
    TextOfLeaf(stamp, true, 0, s, 0);
  }

  lemma TextOfOption(stamp: Stamp, o: Option<string>)
    ensures CanonicalText(stamp, OptStr(o)) == CanonicalText(stamp, OptEnum(o)) == QuotedOr(o)
  {
    TextOfLeaf(stamp, true, 0, if o.Some? then o.value else "", 0);
  }

  lemma TextOfNumberOption(stamp: Stamp, o: Option<int>)
    ensures CanonicalText(stamp, OptInt(o)) == NumberOr(o)
  {
    TextOfLeaf(stamp, true, if o.Some? then o.value else 0, "", 0);
  }

  lemma TextOfNumber(stamp: Stamp, n: int)
    ensures CanonicalText(stamp, Whole(n)) == Number(n)
  {
    TextOfLeaf(stamp, true, n, "", 0);
  }

  lemma TextOfInstant(stamp: Stamp, t: int)
    ensures CanonicalText(stamp, Instant(t)) == Quoted(stamp(t))
  {
    TextOfLeaf(stamp, true, 0, "", t);
  }

  lemma TextOfFlag(stamp: Stamp, b: bool)
    ensures CanonicalText(stamp, Flag(b)) == Truth(b)
  {
    TextOfLeaf(stamp, b, 0, "", 0);
  }

  lemma TextOfStrings(stamp: Stamp, xs: seq<string>)
    ensures CanonicalText(stamp, StrList(xs)) == Strings(xs)
  {
    hide CanonicalText, Quoted, Listing;
    var items := StrList(xs).items;
    TextOfList(stamp, items);
    forall i | 0 <= i < |xs| ensures CanonicalText(stamp, items[i]) == Quoted(xs[i]) {
      TextOfString(stamp, xs[i]);
    }
    assert seq(|items|, i requires 0 <= i < |items| => CanonicalText(stamp, items[i]))
        == seq(|xs|, i requires 0 <= i < |xs| => Quoted(xs[i]));
  }

  /** Two strings compare by the first place in which they differ. */
  lemma {:induction false} LessAt(a: string, b: string, k: nat)
    requires k < |a| && k < |b| && a[..k] == b[..k] && a[k] < b[k]
    ensures Less(a, b)
  {
    if k > 0 {
      assert a[0] == a[..k][0] == b[..k][0] == b[0];
      assert a[1..][..k - 1] == a[..k][1..] && b[1..][..k - 1] == b[..k][1..];
      LessAt(a[1..], b[1..], k - 1);
    }
  }

  /** A string comes before its continuations. */
  lemma {:induction false} LessPrefix(a: string, more: string)
    requires more != []
    ensures Less(a, a + more)
  {
    if a != [] {
      assert (a + more)[1..] == a[1..] + more;
      LessPrefix(a[1..], more);
    }
  }

  lemma OrdersInside(keys: seq<string>, order: seq<nat>)
    requires Orders(keys, order)
    ensures |order| == |keys| && forall i :: 0 <= i < |order| ==> order[i] < |keys|
  {
    hide Less;
  }

  // ---- the records ----

  function DigestSpelling(stamp: Stamp, d: Digest): string {
    Object([
      Field("algorithm",
            Quoted(if d.algorithm == SHA256 then "SHA-256" else if d.algorithm == SHA384 then "SHA-384"
                   else "SHA-512")),
      Field("value", Quoted(d.value))])
  }

  lemma DigestOrder()
    ensures Orders(DigestKeys(), [0, 1])
  {
    hide Less;
    LessAt("algorithm", "value", 0);
  }

  /** The exact text of every Digest. */
  lemma DigestText(stamp: Stamp, d: Digest)
    ensures CanonicalText(stamp, DigestValue(d)) == DigestSpelling(stamp, d)
  {
    hide CanonicalText, Field, Object, Quoted, Number, QuotedOr, NumberOr, Truth, Strings, Orders;
    var keys, vals, order := DigestKeys(), DigestValues(d), [0, 1];
    DigestOrder();
    RecordText(stamp, keys, vals, order);
    TextOfString(stamp, AlgorithmName(d.algorithm));
    TextOfString(stamp, d.value);
    OrdersInside(keys, order);
    assert FieldTexts(stamp, Ordered(keys, vals, order)) == [
      Field("algorithm",
            Quoted(if d.algorithm == SHA256 then "SHA-256" else if d.algorithm == SHA384 then "SHA-384"
                   else "SHA-512")),
      Field("value", Quoted(d.value))];
  }

  function InitiatorSpelling(stamp: Stamp, i: Initiator): string {
    Object([
      Field("agent_id", QuotedOr(i.agentId)),
      Field("function_type", Quoted(i.functionType)),
      Field("model_id", QuotedOr(i.modelId)),
      Field("network_function_id", Quoted(i.networkFunctionId)),
      Field("runtime_attestation_digest", QuotedOr(i.runtimeAttestationDigest))])
  }

  lemma InitiatorOrder()
    ensures Orders(InitiatorKeys(), [2, 1, 3, 0, 4])
  {
    hide Less;
    LessAt("agent_id", "function_type", 0);
    LessAt("function_type", "model_id", 0);
    LessAt("model_id", "network_function_id", 0);
    LessAt("network_function_id", "runtime_attestation_digest", 0);
  }

  /** The exact text of every Initiator. */
  lemma InitiatorText(stamp: Stamp, i: Initiator)
    ensures CanonicalText(stamp, InitiatorValue(i)) == InitiatorSpelling(stamp, i)
  {
    hide CanonicalText, Field, Object, Quoted, Number, QuotedOr, NumberOr, Truth, Strings, Orders;
    var keys, vals, order := InitiatorKeys(), InitiatorValues(i), [2, 1, 3, 0, 4];
    InitiatorOrder();
    RecordText(stamp, keys, vals, order);
    TextOfString(stamp, i.networkFunctionId);
    TextOfString(stamp, i.functionType);
    TextOfOption(stamp, i.agentId);
    TextOfOption(stamp, i.modelId);
    TextOfOption(stamp, i.runtimeAttestationDigest);
    OrdersInside(keys, order);
    assert FieldTexts(stamp, Ordered(keys, vals, order)) == [
      Field("agent_id", QuotedOr(i.agentId)),
      Field("function_type", Quoted(i.functionType)),
      Field("model_id", QuotedOr(i.modelId)),
      Field("network_function_id", Quoted(i.networkFunctionId)),
      Field("runtime_attestation_digest", QuotedOr(i.runtimeAttestationDigest))];
  }

  function ContextSpelling(stamp: Stamp, n: NetworkContext): string {
    Object([
      Field("cell_ids", Strings(n.cellIds)),
      Field("edge_region", QuotedOr(n.edgeRegion)),
      Field("jurisdiction", QuotedOr(n.jurisdiction)),
      Field("network_domain", QuotedOr(n.networkDomain)),
      Field("plmn_id", QuotedOr(n.plmnId)),
      Field("slice_id", QuotedOr(n.sliceId))])
  }

  lemma ContextOrder()
    ensures Orders(ContextKeys(), [3, 4, 5, 1, 0, 2])
  {
    hide Less;
    LessAt("cell_ids", "edge_region", 0);
    LessAt("edge_region", "jurisdiction", 0);
    LessAt("jurisdiction", "network_domain", 0);
    LessAt("network_domain", "plmn_id", 0);
    LessAt("plmn_id", "slice_id", 0);
  }

  /** The exact text of every NetworkContext. */
  lemma ContextText(stamp: Stamp, n: NetworkContext)
    ensures CanonicalText(stamp, ContextValue(n)) == ContextSpelling(stamp, n)
  {
    hide CanonicalText, Field, Object, Quoted, Number, QuotedOr, NumberOr, Truth, Strings, Orders;
    var keys, vals, order := ContextKeys(), ContextValues(n), [3, 4, 5, 1, 0, 2];
    ContextOrder();
    RecordText(stamp, keys, vals, order);
    TextOfOption(stamp, n.plmnId);
    TextOfOption(stamp, n.networkDomain);
    TextOfOption(stamp, n.sliceId);
    TextOfStrings(stamp, n.cellIds);
    TextOfOption(stamp, n.edgeRegion);
    TextOfOption(stamp, n.jurisdiction);
    OrdersInside(keys, order);
    assert FieldTexts(stamp, Ordered(keys, vals, order)) == [
      Field("cell_ids", Strings(n.cellIds)),
      Field("edge_region", QuotedOr(n.edgeRegion)),
      Field("jurisdiction", QuotedOr(n.jurisdiction)),
      Field("network_domain", QuotedOr(n.networkDomain)),
      Field("plmn_id", QuotedOr(n.plmnId)),
      Field("slice_id", QuotedOr(n.sliceId))];
  }

  function SubscriberSpelling(stamp: Stamp, s: SubscriberScope): string {
    Object([
      Field("scope_reference", QuotedOr(s.scopeReference)),
      Field("scope_type", Quoted(s.scopeType))])
  }

  lemma SubscriberOrder()
    ensures Orders(SubscriberKeys(), [1, 0])
  {
    hide Less;
    LessAt("scope_reference", "scope_type", 6);
  }

  /** The exact text of every SubscriberScope. */
  lemma SubscriberText(stamp: Stamp, s: SubscriberScope)
    ensures CanonicalText(stamp, SubscriberValue(s)) == SubscriberSpelling(stamp, s)
  {
    hide CanonicalText, Field, Object, Quoted, Number, QuotedOr, NumberOr, Truth, Strings, Orders;
    var keys, vals, order := SubscriberKeys(), SubscriberValues(s), [1, 0];
    SubscriberOrder();
    RecordText(stamp, keys, vals, order);
    TextOfString(stamp, s.scopeType);
    TextOfOption(stamp, s.scopeReference);
    OrdersInside(keys, order);
    assert FieldTexts(stamp, Ordered(keys, vals, order)) == [
      Field("scope_reference", QuotedOr(s.scopeReference)),
      Field("scope_type", Quoted(s.scopeType))];
  }

  function ResourceSpelling(stamp: Stamp, r: ResourceScope): string {
    Object([
      Field("resource_ids", Strings(r.resourceIds)),
      Field("resource_type", Quoted(r.resourceType)),
      Field("subscriber_scope", SubscriberSpelling(stamp, r.subscriberScope))])
  }

  lemma ResourceOrder()
    ensures Orders(ResourceKeys(), [1, 0, 2])
  {
    hide Less;
    LessAt("resource_ids", "resource_type", 9);
    LessAt("resource_type", "subscriber_scope", 0);
  }

  /** The exact text of every ResourceScope. */
  lemma ResourceText(stamp: Stamp, r: ResourceScope)
    ensures CanonicalText(stamp, ResourceValue(r)) == ResourceSpelling(stamp, r)
  {
    hide CanonicalText, Field, Object, Quoted, Number, QuotedOr, NumberOr, Truth, Strings, Orders;
    var keys, vals, order := ResourceKeys(), ResourceValues(r), [1, 0, 2];
    ResourceOrder();
    RecordText(stamp, keys, vals, order);
    TextOfString(stamp, r.resourceType);
    TextOfStrings(stamp, r.resourceIds);
    SubscriberText(stamp, r.subscriberScope);
    OrdersInside(keys, order);
    assert FieldTexts(stamp, Ordered(keys, vals, order)) == [
      Field("resource_ids", Strings(r.resourceIds)),
      Field("resource_type", Quoted(r.resourceType)),
      Field("subscriber_scope", SubscriberSpelling(stamp, r.subscriberScope))];
  }

  function PurposeSpelling(stamp: Stamp, p: Purpose): string {
    Object([
      Field("declared_purpose", Quoted(p.declaredPurpose)),
      Field("purpose_epoch", NumberOr(p.purposeEpoch)),
      Field("purpose_id", Quoted(p.purposeId)),
      Field("service_intent_reference", QuotedOr(p.serviceIntentReference))])
  }

  lemma PurposeOrder()
    ensures Orders(PurposeKeys(), [1, 3, 0, 2])
  {
    hide Less;
    LessAt("declared_purpose", "purpose_epoch", 0);
    LessAt("purpose_epoch", "purpose_id", 8);
    LessAt("purpose_id", "service_intent_reference", 0);
  }

  /** The exact text of every Purpose. */
  lemma PurposeText(stamp: Stamp, p: Purpose)
    ensures CanonicalText(stamp, PurposeValue(p)) == PurposeSpelling(stamp, p)
  {
    hide CanonicalText, Field, Object, Quoted, Number, QuotedOr, NumberOr, Truth, Strings, Orders;
    var keys, vals, order := PurposeKeys(), PurposeValues(p), [1, 3, 0, 2];
    PurposeOrder();
    RecordText(stamp, keys, vals, order);
    TextOfString(stamp, p.purposeId);
    TextOfString(stamp, p.declaredPurpose);
    TextOfOption(stamp, p.serviceIntentReference);
    TextOfNumberOption(stamp, p.purposeEpoch);
    OrdersInside(keys, order);
    assert FieldTexts(stamp, Ordered(keys, vals, order)) == [
      Field("declared_purpose", Quoted(p.declaredPurpose)),
      Field("purpose_epoch", NumberOr(p.purposeEpoch)),
      Field("purpose_id", Quoted(p.purposeId)),
      Field("service_intent_reference", QuotedOr(p.serviceIntentReference))];
  }

  function RequestedSpelling(stamp: Stamp, r: RequestedEffect): string {
    Object([
      Field("duration_seconds", NumberOr(r.durationSeconds)),
      Field("effect_type", Quoted(r.effectType)),
      Field("parameters_digest", DigestSpelling(stamp, r.parametersDigest)),
      Field("reversibility", QuotedOr(r.reversibility))])
  }

  lemma RequestedOrder()
    ensures Orders(RequestedKeys(), [2, 0, 1, 3])
  {
    hide Less;
    LessAt("duration_seconds", "effect_type", 0);
    LessAt("effect_type", "parameters_digest", 0);
    LessAt("parameters_digest", "reversibility", 0);
  }

  /** The exact text of every RequestedEffect. */
  lemma RequestedText(stamp: Stamp, r: RequestedEffect)
    ensures CanonicalText(stamp, RequestedValue(r)) == RequestedSpelling(stamp, r)
  {
    hide CanonicalText, Field, Object, Quoted, Number, QuotedOr, NumberOr, Truth, Strings, Orders;
    var keys, vals, order := RequestedKeys(), RequestedValues(r), [2, 0, 1, 3];
    RequestedOrder();
    RecordText(stamp, keys, vals, order);
    TextOfString(stamp, r.effectType);
    DigestText(stamp, r.parametersDigest);
    TextOfNumberOption(stamp, r.durationSeconds);
    TextOfOption(stamp, r.reversibility);
    OrdersInside(keys, order);
    assert FieldTexts(stamp, Ordered(keys, vals, order)) == [
      Field("duration_seconds", NumberOr(r.durationSeconds)),
      Field("effect_type", Quoted(r.effectType)),
      Field("parameters_digest", DigestSpelling(stamp, r.parametersDigest)),
      Field("reversibility", QuotedOr(r.reversibility))];
  }

  function PolicySpelling(stamp: Stamp, p: PolicyState): string {
    Object([
      Field("authority_epoch", Number(p.authorityEpoch)),
      Field("operator_policy_profile", QuotedOr(p.operatorPolicyProfile)),
      Field("policy_epoch", Number(p.policyEpoch)),
      Field("regulatory_profile", QuotedOr(p.regulatoryProfile)),
      Field("revocation_epoch", Number(p.revocationEpoch))])
  }

  lemma PolicyOrder()
    ensures Orders(PolicyKeys(), [1, 3, 0, 4, 2])
  {
    hide Less;
    LessAt("authority_epoch", "operator_policy_profile", 0);
    LessAt("operator_policy_profile", "policy_epoch", 0);
    LessAt("policy_epoch", "regulatory_profile", 0);
    LessAt("regulatory_profile", "revocation_epoch", 2);
  }

  /** The exact text of every PolicyState. */
  lemma PolicyText(stamp: Stamp, p: PolicyState)
    ensures CanonicalText(stamp, PolicyValue(p)) == PolicySpelling(stamp, p)
  {
    hide CanonicalText, Field, Object, Quoted, Number, QuotedOr, NumberOr, Truth, Strings, Orders;
    var keys, vals, order := PolicyKeys(), PolicyValues(p), [1, 3, 0, 4, 2];
    PolicyOrder();
    RecordText(stamp, keys, vals, order);
    TextOfNumber(stamp, p.policyEpoch);
    TextOfNumber(stamp, p.authorityEpoch);
    TextOfNumber(stamp, p.revocationEpoch);
    TextOfOption(stamp, p.operatorPolicyProfile);
    TextOfOption(stamp, p.regulatoryProfile);
    OrdersInside(keys, order);
    assert FieldTexts(stamp, Ordered(keys, vals, order)) == [
      Field("authority_epoch", Number(p.authorityEpoch)),
      Field("operator_policy_profile", QuotedOr(p.operatorPolicyProfile)),
      Field("policy_epoch", Number(p.policyEpoch)),
      Field("regulatory_profile", QuotedOr(p.regulatoryProfile)),
      Field("revocation_epoch", Number(p.revocationEpoch))];
  }

  function FreshnessSpelling(stamp: Stamp, f: Freshness): string {
    Object([
      Field("nonce", Quoted(f.nonce)),
      Field("sequence", NumberOr(f.sequence)),
      Field("session_id", QuotedOr(f.sessionId))])
  }

  lemma FreshnessOrder()
    ensures Orders(FreshnessKeys(), [0, 1, 2])
  {
    hide Less;
    LessAt("nonce", "sequence", 0);
    LessAt("sequence", "session_id", 2);
  }

  /** The exact text of every Freshness. */
  lemma FreshnessText(stamp: Stamp, f: Freshness)
    ensures CanonicalText(stamp, FreshnessValue(f)) == FreshnessSpelling(stamp, f)
  {
    hide CanonicalText, Field, Object, Quoted, Number, QuotedOr, NumberOr, Truth, Strings, Orders;
    var keys, vals, order := FreshnessKeys(), FreshnessValues(f), [0, 1, 2];
    FreshnessOrder();
    RecordText(stamp, keys, vals, order);
    TextOfString(stamp, f.nonce);
    TextOfNumberOption(stamp, f.sequence);
    TextOfOption(stamp, f.sessionId);
    OrdersInside(keys, order);
    assert FieldTexts(stamp, Ordered(keys, vals, order)) == [
      Field("nonce", Quoted(f.nonce)),
      Field("sequence", NumberOr(f.sequence)),
      Field("session_id", QuotedOr(f.sessionId))];
  }

  function SinkSpelling(stamp: Stamp, s: SinkDescriptor): string {
    Object([
      Field("sink_id", Quoted(s.sinkId)),
      Field("sink_type", Quoted(s.sinkType))])
  }

  lemma SinkOrder()
    ensures Orders(SinkKeys(), [0, 1])
  {
    hide Less;
    LessAt("sink_id", "sink_type", 5);
  }

  /** The exact text of every SinkDescriptor. */
  lemma SinkText(stamp: Stamp, s: SinkDescriptor)
    ensures CanonicalText(stamp, SinkValue(s)) == SinkSpelling(stamp, s)
  {
    hide CanonicalText, Field, Object, Quoted, Number, QuotedOr, NumberOr, Truth, Strings, Orders;
    var keys, vals, order := SinkKeys(), SinkValues(s), [0, 1];
    SinkOrder();
    RecordText(stamp, keys, vals, order);
    TextOfString(stamp, s.sinkId);
    TextOfString(stamp, s.sinkType);
    OrdersInside(keys, order);
    assert FieldTexts(stamp, Ordered(keys, vals, order)) == [
      Field("sink_id", Quoted(s.sinkId)),
      Field("sink_type", Quoted(s.sinkType))];
  }

  function CandidateFirst(stamp: Stamp, c: Candidate): seq<string> {
    [Field("act_type", Quoted(c.actType)),
     Field("candidate_act_id", Quoted(c.candidateActId)),
     Field("created_at", Quoted(stamp(c.createdAt))),
     Field("expires_at", Quoted(stamp(c.expiresAt))),
     Field("finality_sink", SinkSpelling(stamp, c.finalitySink))]
  }

  function CandidateSecond(stamp: Stamp, c: Candidate): seq<string> {
    [Field("freshness", FreshnessSpelling(stamp, c.freshness)),
     Field("initiator", InitiatorSpelling(stamp, c.initiator)),
     Field("network_context", ContextSpelling(stamp, c.networkContext)),
     Field("object_type", Quoted("network_candidate_act")),
     Field("policy_state", PolicySpelling(stamp, c.policyState))]
  }

  function CandidateThird(stamp: Stamp, c: Candidate): seq<string> {
    [Field("purpose", PurposeSpelling(stamp, c.purpose)),
     Field("requested_effect", RequestedSpelling(stamp, c.requestedEffect)),
     Field("resource_scope", ResourceSpelling(stamp, c.resourceScope)),
     Field("version", Quoted("1.0"))]
  }

  /** The fields in ascending order of their names. */
  function CandidateSpelling(stamp: Stamp, c: Candidate): string {
    Object(CandidateFirst(stamp, c) + CandidateSecond(stamp, c) + CandidateThird(stamp, c))
  }

  lemma CandidateNames1()
    ensures Less(CandidateKeys()[3], CandidateKeys()[2])
    ensures Less(CandidateKeys()[2], CandidateKeys()[4])
    ensures Less(CandidateKeys()[4], CandidateKeys()[5])
  {
    hide Less;
    LessAt("act_type", "candidate_act_id", 0);
    LessAt("candidate_act_id", "created_at", 1);
    LessAt("created_at", "expires_at", 0);
  }

  lemma CandidateNames2()
    ensures Less(CandidateKeys()[5], CandidateKeys()[13])
    ensures Less(CandidateKeys()[13], CandidateKeys()[12])
    ensures Less(CandidateKeys()[12], CandidateKeys()[6])
  {
    hide Less;
    LessAt("expires_at", "finality_sink", 0);
    LessAt("finality_sink", "freshness", 1);
    LessAt("freshness", "initiator", 0);
  }

  lemma CandidateNames3()
    ensures Less(CandidateKeys()[6], CandidateKeys()[7])
    ensures Less(CandidateKeys()[7], CandidateKeys()[1])
    ensures Less(CandidateKeys()[1], CandidateKeys()[11])
  {
    hide Less;
    LessAt("initiator", "network_context", 0);
    LessAt("network_context", "object_type", 0);
    LessAt("object_type", "policy_state", 0);
  }

  lemma CandidateNames4()
    ensures Less(CandidateKeys()[11], CandidateKeys()[9])
    ensures Less(CandidateKeys()[9], CandidateKeys()[10])
    ensures Less(CandidateKeys()[10], CandidateKeys()[8])
  {
    hide Less;
    LessAt("policy_state", "purpose", 1);
    LessAt("purpose", "requested_effect", 0);
    LessAt("requested_effect", "resource_scope", 2);
  }

  lemma CandidateNames5()
    ensures Less(CandidateKeys()[8], CandidateKeys()[0])
  {
    hide Less;
    LessAt("resource_scope", "version", 0);
  }

  lemma CandidateOrder()
    ensures Orders(CandidateKeys(), [3, 2, 4, 5, 13, 12, 6, 7, 1, 11, 9, 10, 8, 0])
  {
    hide Less, CandidateKeys;
    CandidateNames1();
    CandidateNames2();
    CandidateNames3();
    CandidateNames4();
    CandidateNames5();
  }

  lemma CandidateFirstTexts(stamp: Stamp, c: Candidate)
    ensures [Field(CandidateKeys()[3], CanonicalText(stamp, CandidateValues(c)[3])),
             Field(CandidateKeys()[2], CanonicalText(stamp, CandidateValues(c)[2])),
             Field(CandidateKeys()[4], CanonicalText(stamp, CandidateValues(c)[4])),
             Field(CandidateKeys()[5], CanonicalText(stamp, CandidateValues(c)[5])),
             Field(CandidateKeys()[13], CanonicalText(stamp, CandidateValues(c)[13]))]
            == CandidateFirst(stamp, c)
  {
    hide CanonicalText, Field, Quoted, Number, QuotedOr, NumberOr, Truth, Strings, ContextValue, ContextSpelling,
         FreshnessValue, FreshnessSpelling, InitiatorValue, InitiatorSpelling, PolicyValue, PolicySpelling,
         PurposeValue, PurposeSpelling, RequestedValue, RequestedSpelling, ResourceValue, ResourceSpelling, SinkValue,
         SinkSpelling;
    TextOfString(stamp, c.actType);
    TextOfString(stamp, c.candidateActId);
    TextOfInstant(stamp, c.createdAt);
    TextOfInstant(stamp, c.expiresAt);
    SinkText(stamp, c.finalitySink);
  }

  lemma CandidateSecondTexts(stamp: Stamp, c: Candidate)
    ensures [Field(CandidateKeys()[12], CanonicalText(stamp, CandidateValues(c)[12])),
             Field(CandidateKeys()[6], CanonicalText(stamp, CandidateValues(c)[6])),
             Field(CandidateKeys()[7], CanonicalText(stamp, CandidateValues(c)[7])),
             Field(CandidateKeys()[1], CanonicalText(stamp, CandidateValues(c)[1])),
             Field(CandidateKeys()[11], CanonicalText(stamp, CandidateValues(c)[11]))]
            == CandidateSecond(stamp, c)
  {
    hide CanonicalText, Field, Quoted, Number, QuotedOr, NumberOr, Truth, Strings, ContextValue, ContextSpelling,
         FreshnessValue, FreshnessSpelling, InitiatorValue, InitiatorSpelling, PolicyValue, PolicySpelling,
         PurposeValue, PurposeSpelling, RequestedValue, RequestedSpelling, ResourceValue, ResourceSpelling, SinkValue,
         SinkSpelling;
    FreshnessText(stamp, c.freshness);
    InitiatorText(stamp, c.initiator);
    ContextText(stamp, c.networkContext);
    TextOfString(stamp, "network_candidate_act");
    PolicyText(stamp, c.policyState);
  }

  lemma CandidateThirdTexts(stamp: Stamp, c: Candidate)
    ensures [Field(CandidateKeys()[9], CanonicalText(stamp, CandidateValues(c)[9])),
             Field(CandidateKeys()[10], CanonicalText(stamp, CandidateValues(c)[10])),
             Field(CandidateKeys()[8], CanonicalText(stamp, CandidateValues(c)[8])),
             Field(CandidateKeys()[0], CanonicalText(stamp, CandidateValues(c)[0]))]
            == CandidateThird(stamp, c)
  {
    hide CanonicalText, Field, Quoted, Number, QuotedOr, NumberOr, Truth, Strings, ContextValue, ContextSpelling,
         FreshnessValue, FreshnessSpelling, InitiatorValue, InitiatorSpelling, PolicyValue, PolicySpelling,
         PurposeValue, PurposeSpelling, RequestedValue, RequestedSpelling, ResourceValue, ResourceSpelling, SinkValue,
         SinkSpelling;
    PurposeText(stamp, c.purpose);
    RequestedText(stamp, c.requestedEffect);
    ResourceText(stamp, c.resourceScope);
    TextOfString(stamp, "1.0");
  }

  /** The exact text of every Candidate. */
  lemma CandidateText(stamp: Stamp, c: Candidate)
    ensures CanonicalText(stamp, CandidateValue(c)) == CandidateSpelling(stamp, c)
  {
    hide CanonicalText, Field, Object, Orders, CandidateKeys, CandidateValues, CandidateFirst, CandidateSecond,
         CandidateThird;
    var keys, vals, order := CandidateKeys(), CandidateValues(c), [3, 2, 4, 5, 13, 12, 6, 7, 1, 11, 9, 10, 8, 0];
    CandidateOrder();
    RecordText(stamp, keys, vals, order);
    OrdersInside(keys, order);
    CandidateFirstTexts(stamp, c);
    CandidateSecondTexts(stamp, c);
    CandidateThirdTexts(stamp, c);
    assert FieldTexts(stamp, Ordered(keys, vals, order))
           == CandidateFirst(stamp, c) + CandidateSecond(stamp, c) + CandidateThird(stamp, c);
  }

  function ScopeFirst(stamp: Stamp, s: AuthorityScope): seq<string> {
    [Field("act_type", Quoted(s.actType)),
     Field("duration_seconds_max", NumberOr(s.durationSecondsMax)),
     Field("jurisdiction", QuotedOr(s.jurisdiction)),
     Field("network_domain", QuotedOr(s.networkDomain)),
     Field("parameters_digest", Quoted(s.parametersDigest))]
  }

  function ScopeSecond(stamp: Stamp, s: AuthorityScope): seq<string> {
    [Field("permitted_effect_type", Quoted(s.permittedEffectType)),
     Field("purpose_id", Quoted(s.purposeId)),
     Field("resource_ids", Strings(s.resourceIds)),
     Field("resource_type", Quoted(s.resourceType)),
     Field("subscriber_scope", SubscriberSpelling(stamp, s.subscriberScope))]
  }

  /** The fields in ascending order of their names. */
  function ScopeSpelling(stamp: Stamp, s: AuthorityScope): string {
    Object(ScopeFirst(stamp, s) + ScopeSecond(stamp, s))
  }

  lemma ScopeNames1()
    ensures Less(ScopeKeys()[0], ScopeKeys()[6])
    ensures Less(ScopeKeys()[6], ScopeKeys()[8])
    ensures Less(ScopeKeys()[8], ScopeKeys()[7])
  {
    hide Less;
    LessAt("act_type", "duration_seconds_max", 0);
    LessAt("duration_seconds_max", "jurisdiction", 0);
    LessAt("jurisdiction", "network_domain", 0);
  }

  lemma ScopeNames2()
    ensures Less(ScopeKeys()[7], ScopeKeys()[5])
    ensures Less(ScopeKeys()[5], ScopeKeys()[4])
    ensures Less(ScopeKeys()[4], ScopeKeys()[9])
  {
    hide Less;
    LessAt("network_domain", "parameters_digest", 0);
    LessAt("parameters_digest", "permitted_effect_type", 1);
    LessAt("permitted_effect_type", "purpose_id", 1);
  }

  lemma ScopeNames3()
    ensures Less(ScopeKeys()[9], ScopeKeys()[2])
    ensures Less(ScopeKeys()[2], ScopeKeys()[1])
    ensures Less(ScopeKeys()[1], ScopeKeys()[3])
  {
    hide Less;
    LessAt("purpose_id", "resource_ids", 0);
    LessAt("resource_ids", "resource_type", 9);
    LessAt("resource_type", "subscriber_scope", 0);
  }

  lemma ScopeOrder()
    ensures Orders(ScopeKeys(), [0, 6, 8, 7, 5, 4, 9, 2, 1, 3])
  {
    hide Less, ScopeKeys;
    ScopeNames1();
    ScopeNames2();
    ScopeNames3();
  }

  lemma ScopeFirstTexts(stamp: Stamp, s: AuthorityScope)
    ensures [Field(ScopeKeys()[0], CanonicalText(stamp, ScopeValues(s)[0])),
             Field(ScopeKeys()[6], CanonicalText(stamp, ScopeValues(s)[6])),
             Field(ScopeKeys()[8], CanonicalText(stamp, ScopeValues(s)[8])),
             Field(ScopeKeys()[7], CanonicalText(stamp, ScopeValues(s)[7])),
             Field(ScopeKeys()[5], CanonicalText(stamp, ScopeValues(s)[5]))]
            == ScopeFirst(stamp, s)
  {
    hide CanonicalText, Field, Quoted, Number, QuotedOr, NumberOr, Truth, Strings, SubscriberValue,
         SubscriberSpelling;
    TextOfString(stamp, s.actType);
    TextOfNumberOption(stamp, s.durationSecondsMax);
    TextOfOption(stamp, s.jurisdiction);
    TextOfOption(stamp, s.networkDomain);
    TextOfString(stamp, s.parametersDigest);
  }

  lemma ScopeSecondTexts(stamp: Stamp, s: AuthorityScope)
    ensures [Field(ScopeKeys()[4], CanonicalText(stamp, ScopeValues(s)[4])),
             Field(ScopeKeys()[9], CanonicalText(stamp, ScopeValues(s)[9])),
             Field(ScopeKeys()[2], CanonicalText(stamp, ScopeValues(s)[2])),
             Field(ScopeKeys()[1], CanonicalText(stamp, ScopeValues(s)[1])),
             Field(ScopeKeys()[3], CanonicalText(stamp, ScopeValues(s)[3]))]
            == ScopeSecond(stamp, s)
  {
    hide CanonicalText, Field, Quoted, Number, QuotedOr, NumberOr, Truth, Strings, SubscriberValue,
         SubscriberSpelling;
    TextOfString(stamp, s.permittedEffectType);
    TextOfString(stamp, s.purposeId);
    TextOfStrings(stamp, s.resourceIds);
    TextOfString(stamp, s.resourceType);
    SubscriberText(stamp, s.subscriberScope);
  }

  /** The exact text of every AuthorityScope. */
  lemma ScopeText(stamp: Stamp, s: AuthorityScope)
    ensures CanonicalText(stamp, ScopeValue(s)) == ScopeSpelling(stamp, s)
  {
    hide CanonicalText, Field, Object, Orders, ScopeKeys, ScopeValues, ScopeFirst, ScopeSecond;
    var keys, vals, order := ScopeKeys(), ScopeValues(s), [0, 6, 8, 7, 5, 4, 9, 2, 1, 3];
    ScopeOrder();
    RecordText(stamp, keys, vals, order);
    OrdersInside(keys, order);
    ScopeFirstTexts(stamp, s);
    ScopeSecondTexts(stamp, s);
    assert FieldTexts(stamp, Ordered(keys, vals, order)) == ScopeFirst(stamp, s) + ScopeSecond(stamp, s);
  }

  function BindingFirst(stamp: Stamp, b: AuthorityBinding): seq<string> {
    [Field("activation_commitment", Quoted(b.activationCommitment)),
     Field("authority_epoch", Number(b.epochs.authority)),
     Field("candidate_act_digest", DigestSpelling(stamp, b.candidateActDigest)),
     Field("configuration_epoch", Number(b.epochs.configuration)),
     Field("effectuation_boundary_id", Quoted(b.effectuationBoundaryId))]
  }

  function BindingSecond(stamp: Stamp, b: AuthorityBinding): seq<string> {
    [Field("evidence_digest", DigestSpelling(stamp, b.evidenceDigest)),
     Field("evidence_id", Quoted(b.evidenceId)),
     Field("finality_sink_id", Quoted(b.finalitySinkId)),
     Field("nonce", Quoted(b.nonce)),
     Field("policy_epoch", Number(b.epochs.policy))]
  }

  function BindingThird(stamp: Stamp, b: AuthorityBinding): seq<string> {
    [Field("protected_state_reference", Quoted(b.protectedStateReference)),
     Field("revocation_epoch", Number(b.epochs.revocation)),
     Field("sequence", NumberOr(b.sequence)),
     Field("topology_epoch", Number(b.epochs.topology))]
  }

  /** The fields in ascending order of their names. */
  function BindingSpelling(stamp: Stamp, b: AuthorityBinding): string {
    Object(BindingFirst(stamp, b) + BindingSecond(stamp, b) + BindingThird(stamp, b))
  }

  lemma BindingNames1()
    ensures Less(BindingKeys()[13], BindingKeys()[7])
    ensures Less(BindingKeys()[7], BindingKeys()[0])
    ensures Less(BindingKeys()[0], BindingKeys()[5])
  {
    hide Less;
    LessAt("activation_commitment", "authority_epoch", 1);
    LessAt("authority_epoch", "candidate_act_digest", 0);
    LessAt("candidate_act_digest", "configuration_epoch", 1);
  }

  lemma BindingNames2()
    ensures Less(BindingKeys()[5], BindingKeys()[12])
    ensures Less(BindingKeys()[12], BindingKeys()[2])
    ensures Less(BindingKeys()[2], BindingKeys()[1])
  {
    hide Less;
    LessAt("configuration_epoch", "effectuation_boundary_id", 0);
    LessAt("effectuation_boundary_id", "evidence_digest", 1);
    LessAt("evidence_digest", "evidence_id", 9);
  }

  lemma BindingNames3()
    ensures Less(BindingKeys()[1], BindingKeys()[11])
    ensures Less(BindingKeys()[11], BindingKeys()[9])
    ensures Less(BindingKeys()[9], BindingKeys()[6])
  {
    hide Less;
    LessAt("evidence_id", "finality_sink_id", 0);
    LessAt("finality_sink_id", "nonce", 0);
    LessAt("nonce", "policy_epoch", 0);
  }

  lemma BindingNames4()
    ensures Less(BindingKeys()[6], BindingKeys()[3])
    ensures Less(BindingKeys()[3], BindingKeys()[8])
    ensures Less(BindingKeys()[8], BindingKeys()[10])
  {
    hide Less;
    LessAt("policy_epoch", "protected_state_reference", 1);
    LessAt("protected_state_reference", "revocation_epoch", 0);
    LessAt("revocation_epoch", "sequence", 0);
  }

  lemma BindingNames5()
    ensures Less(BindingKeys()[10], BindingKeys()[4])
  {
    hide Less;
    LessAt("sequence", "topology_epoch", 0);
  }

  lemma BindingOrder()
    ensures Orders(BindingKeys(), [13, 7, 0, 5, 12, 2, 1, 11, 9, 6, 3, 8, 10, 4])
  {
    hide Less, BindingKeys;
    BindingNames1();
    BindingNames2();
    BindingNames3();
    BindingNames4();
    BindingNames5();
  }

  lemma BindingFirstTexts(stamp: Stamp, b: AuthorityBinding)
    ensures [Field(BindingKeys()[13], CanonicalText(stamp, BindingValues(b)[13])),
             Field(BindingKeys()[7], CanonicalText(stamp, BindingValues(b)[7])),
             Field(BindingKeys()[0], CanonicalText(stamp, BindingValues(b)[0])),
             Field(BindingKeys()[5], CanonicalText(stamp, BindingValues(b)[5])),
             Field(BindingKeys()[12], CanonicalText(stamp, BindingValues(b)[12]))]
            == BindingFirst(stamp, b)
  {
    hide CanonicalText, Field, Quoted, Number, QuotedOr, NumberOr, Truth, Strings, DigestValue, DigestSpelling;
    TextOfString(stamp, b.activationCommitment);
    TextOfNumber(stamp, b.epochs.authority);
    DigestText(stamp, b.candidateActDigest);
    TextOfNumber(stamp, b.epochs.configuration);
    TextOfString(stamp, b.effectuationBoundaryId);
  }

  lemma BindingSecondTexts(stamp: Stamp, b: AuthorityBinding)
    ensures [Field(BindingKeys()[2], CanonicalText(stamp, BindingValues(b)[2])),
             Field(BindingKeys()[1], CanonicalText(stamp, BindingValues(b)[1])),
             Field(BindingKeys()[11], CanonicalText(stamp, BindingValues(b)[11])),
             Field(BindingKeys()[9], CanonicalText(stamp, BindingValues(b)[9])),
             Field(BindingKeys()[6], CanonicalText(stamp, BindingValues(b)[6]))]
            == BindingSecond(stamp, b)
  {
    hide CanonicalText, Field, Quoted, Number, QuotedOr, NumberOr, Truth, Strings, DigestValue, DigestSpelling;
    DigestText(stamp, b.evidenceDigest);
    TextOfString(stamp, b.evidenceId);
    TextOfString(stamp, b.finalitySinkId);
    TextOfString(stamp, b.nonce);
    TextOfNumber(stamp, b.epochs.policy);
  }

  lemma BindingThirdTexts(stamp: Stamp, b: AuthorityBinding)
    ensures [Field(BindingKeys()[3], CanonicalText(stamp, BindingValues(b)[3])),
             Field(BindingKeys()[8], CanonicalText(stamp, BindingValues(b)[8])),
             Field(BindingKeys()[10], CanonicalText(stamp, BindingValues(b)[10])),
             Field(BindingKeys()[4], CanonicalText(stamp, BindingValues(b)[4]))]
            == BindingThird(stamp, b)
  {
    hide CanonicalText, Field, Quoted, Number, QuotedOr, NumberOr, Truth, Strings, DigestValue, DigestSpelling;
    TextOfString(stamp, b.protectedStateReference);
    TextOfNumber(stamp, b.epochs.revocation);
    TextOfNumberOption(stamp, b.sequence);
    TextOfNumber(stamp, b.epochs.topology);
  }

  /** The exact text of every AuthorityBinding. */
  lemma BindingText(stamp: Stamp, b: AuthorityBinding)
    ensures CanonicalText(stamp, BindingValue(b)) == BindingSpelling(stamp, b)
  {
    hide CanonicalText, Field, Object, Orders, BindingKeys, BindingValues, BindingFirst, BindingSecond, BindingThird;
    var keys, vals, order := BindingKeys(), BindingValues(b), [13, 7, 0, 5, 12, 2, 1, 11, 9, 6, 3, 8, 10, 4];
    BindingOrder();
    RecordText(stamp, keys, vals, order);
    OrdersInside(keys, order);
    BindingFirstTexts(stamp, b);
    BindingSecondTexts(stamp, b);
    BindingThirdTexts(stamp, b);
    assert FieldTexts(stamp, Ordered(keys, vals, order))
           == BindingFirst(stamp, b) + BindingSecond(stamp, b) + BindingThird(stamp, b);
  }

  function LifetimeSpelling(stamp: Stamp, l: AuthorityLifetime): string {
    Object([
      Field("expires_at", Quoted(stamp(l.expiresAt))),
      Field("issued_at", Quoted(stamp(l.issuedAt))),
      Field("single_use", Truth(l.singleUse))])
  }

  lemma LifetimeOrder()
    ensures Orders(LifetimeKeys(), [1, 0, 2])
  {
    hide Less;
    LessAt("expires_at", "issued_at", 0);
    LessAt("issued_at", "single_use", 0);
  }

  /** The exact text of every AuthorityLifetime. */
  lemma LifetimeText(stamp: Stamp, l: AuthorityLifetime)
    ensures CanonicalText(stamp, LifetimeValue(l)) == LifetimeSpelling(stamp, l)
  {
    hide CanonicalText, Field, Object, Quoted, Number, QuotedOr, NumberOr, Truth, Strings, Orders;
    var keys, vals, order := LifetimeKeys(), LifetimeValues(l), [1, 0, 2];
    LifetimeOrder();
    RecordText(stamp, keys, vals, order);
    TextOfInstant(stamp, l.issuedAt);
    TextOfInstant(stamp, l.expiresAt);
    TextOfFlag(stamp, l.singleUse);
    OrdersInside(keys, order);
    assert FieldTexts(stamp, Ordered(keys, vals, order)) == [
      Field("expires_at", Quoted(stamp(l.expiresAt))),
      Field("issued_at", Quoted(stamp(l.issuedAt))),
      Field("single_use", Truth(l.singleUse))];
  }

  function IssuerSpelling(stamp: Stamp, i: AuthorityIssuer): string {
    Object([
      Field("algorithm", Quoted(i.algorithm)),
      Field("key_id", Quoted(i.keyId)),
      Field("ped_id", Quoted(i.pedId)),
      Field("signature", Quoted(i.signature))])
  }

  lemma IssuerOrder()
    ensures Orders(IssuerKeys(), [2, 1, 0, 3])
  {
    hide Less;
    LessAt("algorithm", "key_id", 0);
    LessAt("key_id", "ped_id", 0);
    LessAt("ped_id", "signature", 0);
  }

  /** The exact text of every AuthorityIssuer. */
  lemma IssuerText(stamp: Stamp, i: AuthorityIssuer)
    ensures CanonicalText(stamp, IssuerValue(i)) == IssuerSpelling(stamp, i)
  {
    hide CanonicalText, Field, Object, Quoted, Number, QuotedOr, NumberOr, Truth, Strings, Orders;
    var keys, vals, order := IssuerKeys(), IssuerValues(i), [2, 1, 0, 3];
    IssuerOrder();
    RecordText(stamp, keys, vals, order);
    TextOfString(stamp, i.pedId);
    TextOfString(stamp, i.keyId);
    TextOfString(stamp, i.algorithm);
    TextOfString(stamp, i.signature);
    OrdersInside(keys, order);
    assert FieldTexts(stamp, Ordered(keys, vals, order)) == [
      Field("algorithm", Quoted(i.algorithm)),
      Field("key_id", Quoted(i.keyId)),
      Field("ped_id", Quoted(i.pedId)),
      Field("signature", Quoted(i.signature))];
  }

  function AuthorityFirst(stamp: Stamp, a: Authority): seq<string> {
    [Field("authority_id", Quoted(a.authorityId)),
     Field("binding", BindingSpelling(stamp, a.binding)),
     Field("candidate_act_id", Quoted(a.candidateActId)),
     Field("decision_id", Quoted(a.decisionId)),
     Field("issuer", IssuerSpelling(stamp, a.issuer))]
  }

  function AuthoritySecond(stamp: Stamp, a: Authority): seq<string> {
    [Field("lifetime", LifetimeSpelling(stamp, a.lifetime)),
     Field("object_type", Quoted("network_finality_authority")),
     Field("scope", ScopeSpelling(stamp, a.scope)),
     Field("version", Quoted("1.0"))]
  }

  /** The fields in ascending order of their names. */
  function AuthoritySpelling(stamp: Stamp, a: Authority): string {
    Object(AuthorityFirst(stamp, a) + AuthoritySecond(stamp, a))
  }

  lemma AuthorityNames1()
    ensures Less(AuthorityKeys()[2], AuthorityKeys()[6])
    ensures Less(AuthorityKeys()[6], AuthorityKeys()[3])
    ensures Less(AuthorityKeys()[3], AuthorityKeys()[4])
  {
    hide Less;
    LessAt("authority_id", "binding", 0);
    LessAt("binding", "candidate_act_id", 0);
    LessAt("candidate_act_id", "decision_id", 0);
  }

  lemma AuthorityNames2()
    ensures Less(AuthorityKeys()[4], AuthorityKeys()[8])
    ensures Less(AuthorityKeys()[8], AuthorityKeys()[7])
    ensures Less(AuthorityKeys()[7], AuthorityKeys()[1])
  {
    hide Less;
    LessAt("decision_id", "issuer", 0);
    LessAt("issuer", "lifetime", 0);
    LessAt("lifetime", "object_type", 0);
  }

  lemma AuthorityNames3()
    ensures Less(AuthorityKeys()[1], AuthorityKeys()[5])
    ensures Less(AuthorityKeys()[5], AuthorityKeys()[0])
  {
    hide Less;
    LessAt("object_type", "scope", 0);
    LessAt("scope", "version", 0);
  }

  lemma AuthorityOrder()
    ensures Orders(AuthorityKeys(), [2, 6, 3, 4, 8, 7, 1, 5, 0])
  {
    hide Less, AuthorityKeys;
    AuthorityNames1();
    AuthorityNames2();
    AuthorityNames3();
  }

  lemma AuthorityFirstTexts(stamp: Stamp, a: Authority)
    ensures [Field(AuthorityKeys()[2], CanonicalText(stamp, AuthorityValues(a)[2])),
             Field(AuthorityKeys()[6], CanonicalText(stamp, AuthorityValues(a)[6])),
             Field(AuthorityKeys()[3], CanonicalText(stamp, AuthorityValues(a)[3])),
             Field(AuthorityKeys()[4], CanonicalText(stamp, AuthorityValues(a)[4])),
             Field(AuthorityKeys()[8], CanonicalText(stamp, AuthorityValues(a)[8]))]
            == AuthorityFirst(stamp, a)
  {
    hide CanonicalText, Field, Quoted, Number, QuotedOr, NumberOr, Truth, Strings, BindingValue, BindingSpelling,
         IssuerValue, IssuerSpelling, LifetimeValue, LifetimeSpelling, ScopeValue, ScopeSpelling;
    TextOfString(stamp, a.authorityId);
    BindingText(stamp, a.binding);
    TextOfString(stamp, a.candidateActId);
    TextOfString(stamp, a.decisionId);
    IssuerText(stamp, a.issuer);
  }

  lemma AuthoritySecondTexts(stamp: Stamp, a: Authority)
    ensures [Field(AuthorityKeys()[7], CanonicalText(stamp, AuthorityValues(a)[7])),
             Field(AuthorityKeys()[1], CanonicalText(stamp, AuthorityValues(a)[1])),
             Field(AuthorityKeys()[5], CanonicalText(stamp, AuthorityValues(a)[5])),
             Field(AuthorityKeys()[0], CanonicalText(stamp, AuthorityValues(a)[0]))]
            == AuthoritySecond(stamp, a)
  {
    hide CanonicalText, Field, Quoted, Number, QuotedOr, NumberOr, Truth, Strings, BindingValue, BindingSpelling,
         IssuerValue, IssuerSpelling, LifetimeValue, LifetimeSpelling, ScopeValue, ScopeSpelling;
    LifetimeText(stamp, a.lifetime);
    TextOfString(stamp, "network_finality_authority");
    ScopeText(stamp, a.scope);
    TextOfString(stamp, "1.0");
  }

  /** The exact text of every Authority. */
  lemma AuthorityText(stamp: Stamp, a: Authority)
    ensures CanonicalText(stamp, AuthorityValue(a)) == AuthoritySpelling(stamp, a)
  {
    hide CanonicalText, Field, Object, Orders, AuthorityKeys, AuthorityValues, AuthorityFirst, AuthoritySecond;
    var keys, vals, order := AuthorityKeys(), AuthorityValues(a), [2, 6, 3, 4, 8, 7, 1, 5, 0];
    AuthorityOrder();
    RecordText(stamp, keys, vals, order);
    OrdersInside(keys, order);
    AuthorityFirstTexts(stamp, a);
    AuthoritySecondTexts(stamp, a);
    assert FieldTexts(stamp, Ordered(keys, vals, order)) == AuthorityFirst(stamp, a) + AuthoritySecond(stamp, a);
  }

  function EntryFirst(stamp: Stamp, e: Evidence.Entry, previous: string): seq<string> {
    [Field("candidate_act_id", Quoted(e.candidateActId)),
     Field("committed_at", Quoted(stamp(e.committedAt))),
     Field("decision", Quoted(e.decision)),
     Field("decision_id", Quoted(e.decisionId))]
  }

  function EntrySecond(stamp: Stamp, e: Evidence.Entry, previous: string): seq<string> {
    [Field("evidence_id", Quoted(e.evidenceId)),
     Field("monotonic_counter", Number(e.monotonicCounter)),
     Field("previous_digest", Quoted(previous)),
     Field("protected_state_reference", Quoted(e.protectedStateReference))]
  }

  /** The fields in ascending order of their names. */
  function EntrySpelling(stamp: Stamp, e: Evidence.Entry, previous: string): string {
    Object(EntryFirst(stamp, e, previous) + EntrySecond(stamp, e, previous))
  }

  lemma EntryNames1()
    ensures Less(Evidence.EntryKeys()[1], Evidence.EntryKeys()[6])
    ensures Less(Evidence.EntryKeys()[6], Evidence.EntryKeys()[3])
    ensures Less(Evidence.EntryKeys()[3], Evidence.EntryKeys()[2])
  {
    hide Less;
    LessAt("candidate_act_id", "committed_at", 1);
    LessAt("committed_at", "decision", 0);
    LessPrefix("decision", "_id");
    assert "decision" + "_id" == "decision_id";
  }

  lemma EntryNames2()
    ensures Less(Evidence.EntryKeys()[2], Evidence.EntryKeys()[0])
    ensures Less(Evidence.EntryKeys()[0], Evidence.EntryKeys()[5])
    ensures Less(Evidence.EntryKeys()[5], Evidence.EntryKeys()[7])
  {
    hide Less;
    LessAt("decision_id", "evidence_id", 0);
    LessAt("evidence_id", "monotonic_counter", 0);
    LessAt("monotonic_counter", "previous_digest", 0);
  }

  lemma EntryNames3()
    ensures Less(Evidence.EntryKeys()[7], Evidence.EntryKeys()[4])
  {
    hide Less;
    LessAt("previous_digest", "protected_state_reference", 2);
  }

  lemma EntryOrder()
    ensures Orders(Evidence.EntryKeys(), [1, 6, 3, 2, 0, 5, 7, 4])
  {
    hide Less, Evidence.EntryKeys;
    EntryNames1();
    EntryNames2();
    EntryNames3();
  }

  lemma EntryFirstTexts(stamp: Stamp, e: Evidence.Entry, previous: string)
    ensures [Field(Evidence.EntryKeys()[1], CanonicalText(stamp, Evidence.EntryValues(e, previous)[1])),
             Field(Evidence.EntryKeys()[6], CanonicalText(stamp, Evidence.EntryValues(e, previous)[6])),
             Field(Evidence.EntryKeys()[3], CanonicalText(stamp, Evidence.EntryValues(e, previous)[3])),
             Field(Evidence.EntryKeys()[2], CanonicalText(stamp, Evidence.EntryValues(e, previous)[2]))]
            == EntryFirst(stamp, e, previous)
  {
    hide CanonicalText, Field, Quoted, Number, QuotedOr, NumberOr, Truth, Strings;
    TextOfString(stamp, e.candidateActId);
    TextOfInstant(stamp, e.committedAt);
    TextOfString(stamp, e.decision);
    TextOfString(stamp, e.decisionId);
  }

  lemma EntrySecondTexts(stamp: Stamp, e: Evidence.Entry, previous: string)
    ensures [Field(Evidence.EntryKeys()[0], CanonicalText(stamp, Evidence.EntryValues(e, previous)[0])),
             Field(Evidence.EntryKeys()[5], CanonicalText(stamp, Evidence.EntryValues(e, previous)[5])),
             Field(Evidence.EntryKeys()[7], CanonicalText(stamp, Evidence.EntryValues(e, previous)[7])),
             Field(Evidence.EntryKeys()[4], CanonicalText(stamp, Evidence.EntryValues(e, previous)[4]))]
            == EntrySecond(stamp, e, previous)
  {
    hide CanonicalText, Field, Quoted, Number, QuotedOr, NumberOr, Truth, Strings;
    TextOfString(stamp, e.evidenceId);
    TextOfNumber(stamp, e.monotonicCounter);
    TextOfString(stamp, previous);
    TextOfString(stamp, e.protectedStateReference);
  }

  /** The exact text over which every evidence record is digested. */
  lemma EntryText(stamp: Stamp, e: Evidence.Entry, previous: string)
    ensures CanonicalText(stamp, Record(Evidence.EntryKeys(), Evidence.EntryValues(e, previous)))
            == EntrySpelling(stamp, e, previous)
  {
    hide CanonicalText, Field, Object, Orders, Evidence.EntryKeys, Evidence.EntryValues, EntryFirst, EntrySecond;
    var keys, vals, order := Evidence.EntryKeys(), Evidence.EntryValues(e, previous), [1, 6, 3, 2, 0, 5, 7, 4];
    EntryOrder();
    RecordText(stamp, keys, vals, order);
    OrdersInside(keys, order);
    EntryFirstTexts(stamp, e, previous);
    EntrySecondTexts(stamp, e, previous);
    assert FieldTexts(stamp, Ordered(keys, vals, order))
           == EntryFirst(stamp, e, previous) + EntrySecond(stamp, e, previous);
  }

  // ---- what is hashed and signed ----

  /** Every digest is the unpadded base64url of the hash of the UTF-8 bytes of the canonical text. */
  lemma DigestIs(p: Primitives, v: PyData, a: Algorithm)
    ensures Base64Url.Decode(DigestOf(p, v, a)) == Some(p.hash(a, Utf8.Encode(CanonicalText(p.stamp, v))))
    ensures Base64Url.CanonicalText(DigestOf(p, v, a))
  {
    hide CanonicalText, Base64Url.CanonicalText, Base64Url.Decode;
    var h := p.hash(a, Utf8.Encode(CanonicalText(p.stamp, v)));
    Base64Url.RoundTrip(h);
    Base64Url.WrittenIffCanonical(Base64Url.Encode(h));
  }

  /** The digests of candidates, authorities and evidence are SHA-256 over the texts spelled out above. */
  lemma RecordDigests(p: Primitives, c: Candidate, a: Authority, e: Evidence.Entry, previous: string)
    ensures Base64Url.Decode(CandidateDigest(p, c)) == Some(p.hash(SHA256, Utf8.Encode(CandidateSpelling(p.stamp, c))))
    ensures Base64Url.Decode(AuthorityDigest(p, a)) == Some(p.hash(SHA256, Utf8.Encode(AuthoritySpelling(p.stamp, a))))
    ensures Base64Url.Decode(Evidence.EntryDigest(p, e, previous))
            == Some(p.hash(SHA256, Utf8.Encode(EntrySpelling(p.stamp, e, previous))))
  {
    hide CanonicalText, CandidateSpelling, AuthoritySpelling, EntrySpelling, CandidateValue, AuthorityValue, Record,
         Evidence.EntryKeys, Evidence.EntryValues, Base64Url.CanonicalText, Base64Url.Decode;
    CandidateText(p.stamp, c);
    AuthorityText(p.stamp, a);
    EntryText(p.stamp, e, previous);
    DigestIs(p, CandidateValue(c), SHA256);
    DigestIs(p, AuthorityValue(a), SHA256);
    DigestIs(p, Record(Evidence.EntryKeys(), Evidence.EntryValues(e, previous)), SHA256);
  }

  /** What is signed is the text of the authority with an empty signature. */
  lemma PayloadIs(p: Primitives, a: Authority)
    ensures UnsignedPayload(p, a)
            == Utf8.Encode(AuthoritySpelling(p.stamp, a.(issuer := a.issuer.(signature := ""))))
    ensures Base64Url.Decode(Sign(p, UnsignedPayload(p, a))) == Some(p.sign(UnsignedPayload(p, a)))
  {
    hide CanonicalText, AuthoritySpelling, AuthorityValue, Base64Url.Decode;
    AuthorityText(p.stamp, a.(issuer := a.issuer.(signature := "")));
    Base64Url.RoundTrip(p.sign(UnsignedPayload(p, a)));
  }
}
