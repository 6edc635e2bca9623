/** The protocol's records and their Python form. String enumerations are their wire values and
    times whole microseconds. */
module Models {
  import opened Wrappers
  import opened Dicts
  import opened Canonical
  import opened Crypto

  datatype Digest = Digest(algorithm: Algorithm, value: string)

  datatype Initiator = Initiator(
    networkFunctionId: string, functionType: string, agentId: Option<string>, modelId: Option<string>,
    runtimeAttestationDigest: Option<string>)

  datatype NetworkContext = NetworkContext(
    plmnId: Option<string>, networkDomain: Option<string>, sliceId: Option<string>, cellIds: seq<string>,
    edgeRegion: Option<string>, jurisdiction: Option<string>)

  datatype SubscriberScope = SubscriberScope(scopeType: string, scopeReference: Option<string>)

  datatype ResourceScope = ResourceScope(resourceType: string, resourceIds: seq<string>,
                                         subscriberScope: SubscriberScope)

  datatype Purpose = Purpose(
    purposeId: string, declaredPurpose: string, serviceIntentReference: Option<string>, purposeEpoch: Option<int>)

  datatype RequestedEffect = RequestedEffect(
    effectType: string, parametersDigest: Digest, durationSeconds: Option<int>, reversibility: Option<string>)

  datatype PolicyState = PolicyState(
    policyEpoch: int, authorityEpoch: int, revocationEpoch: int, operatorPolicyProfile: Option<string>,
    regulatoryProfile: Option<string>)

  datatype Freshness = Freshness(nonce: string, sequence: Option<int>, sessionId: Option<string>)

  datatype SinkDescriptor = SinkDescriptor(sinkId: string, sinkType: string)

  datatype Candidate = Candidate(
    candidateActId: string, actType: string, createdAt: int, expiresAt: int, initiator: Initiator,
    networkContext: NetworkContext, resourceScope: ResourceScope, purpose: Purpose,
    requestedEffect: RequestedEffect, policyState: PolicyState, freshness: Freshness, finalitySink: SinkDescriptor)

  datatype AuthorityScope = AuthorityScope(
    actType: string, resourceType: string, resourceIds: seq<string>, subscriberScope: SubscriberScope,
    permittedEffectType: string, parametersDigest: string, durationSecondsMax: Option<int>,
    networkDomain: Option<string>, jurisdiction: Option<string>, purposeId: string)

  datatype AuthorityBinding = AuthorityBinding(
    candidateActDigest: Digest, evidenceId: string, evidenceDigest: Digest, protectedStateReference: string,
    epochs: Epochs, nonce: string, sequence: Option<int>, finalitySinkId: string,
    effectuationBoundaryId: string, activationCommitment: string)

  /** The five epochs an authority is bound to. */
  datatype Epochs = Epochs(topology: int, configuration: int, policy: int, authority: int, revocation: int)

  datatype AuthorityLifetime = AuthorityLifetime(issuedAt: int, expiresAt: int, singleUse: bool)

  datatype AuthorityIssuer = AuthorityIssuer(pedId: string, keyId: string, algorithm: string, signature: string)

  datatype Authority = Authority(
    authorityId: string, candidateActId: string, decisionId: string, scope: AuthorityScope,
    binding: AuthorityBinding, lifetime: AuthorityLifetime, issuer: AuthorityIssuer)

  /** The free-form parameters of an effect: any Python dictionary. */
  type Parameters = v: PyData | v.PyDict? witness PyDict([])

  datatype ProposedEffect = ProposedEffect(
    effectType: string, resourceType: string, resourceIds: seq<string>, parameters: Parameters,
    parametersDigest: Digest, durationSeconds: Option<int>)

  // ---- Python forms, with the field names of the source ----

  predicate Unrepeated(keys: seq<string>) {
    forall i, j :: 0 <= i < j < |keys| ==> keys[i] != keys[j]
  }

  type FieldNames = keys: seq<string> | Unrepeated(keys) witness []

  lemma CompareSameLengths(keys: seq<string>)
    requires forall i, j :: 0 <= i < j < |keys| && |keys[i]| == |keys[j]| ==> keys[i] != keys[j]
    ensures Unrepeated(keys)
  {
  }

  /** A record in Python form: its field names in declaration order, each with its value. */
  function Record(keys: FieldNames, vals: seq<PyData>): PyData
    requires |keys| == |vals|
  {
    PyDict(seq(|keys|, i requires 0 <= i < |keys| => Entry(keys[i], vals[i])))
  }

  function Text(s: string): PyData { PyStr(s) }

  function Enum(s: string): PyData { PyEnum(s) }

  function Whole(n: int): PyData { PyInt(n) }

  function Instant(t: int): PyData { PyTime(t) }

  function Flag(b: bool): PyData { PyBool(b) }

  function OptStr(o: Option<string>): PyData { if o.Some? then PyStr(o.value) else PyNone }

  function OptEnum(o: Option<string>): PyData { if o.Some? then PyEnum(o.value) else PyNone }

  function OptInt(o: Option<int>): PyData { if o.Some? then PyInt(o.value) else PyNone }

  function StrList(xs: seq<string>): PyData {
    var items := seq(|xs|, i requires 0 <= i < |xs| => PyStr(xs[i]));
    assert WellFormed(PyList(items));
    PyList(items)
  }

  function AlgorithmName(a: Algorithm): string {
    match a case SHA256 => "SHA-256" case SHA384 => "SHA-384" case SHA512 => "SHA-512"
  }

  function DigestKeys(): (keys: FieldNames)
    ensures |keys| == 2
  {
    var keys := [
      "algorithm", "value"];
    CompareSameLengths(keys);
    keys
  }

  function DigestValues(d: Digest): (vals: seq<PyData>)
    ensures |vals| == 2
  {
    hide WellFormed;
    [Text(AlgorithmName(d.algorithm)), Text(d.value)]
  }

  function DigestValue(d: Digest): PyData {
    Record(DigestKeys(), DigestValues(d))
  }

  function InitiatorKeys(): (keys: FieldNames)
    ensures |keys| == 5
  {
    var keys := [
      "network_function_id", "function_type", "agent_id", "model_id", "runtime_attestation_digest"];
    CompareSameLengths(keys);
    keys
  }

  function InitiatorValues(i: Initiator): (vals: seq<PyData>)
    ensures |vals| == 5
  {
    hide WellFormed;
    [Text(i.networkFunctionId), Enum(i.functionType), OptStr(i.agentId), OptStr(i.modelId),
     OptStr(i.runtimeAttestationDigest)]
  }

  function InitiatorValue(i: Initiator): PyData {
    Record(InitiatorKeys(), InitiatorValues(i))
  }

  function ContextKeys(): (keys: FieldNames)
    ensures |keys| == 6
  {
    var keys := [
      "plmn_id", "network_domain", "slice_id", "cell_ids", "edge_region", "jurisdiction"];
    CompareSameLengths(keys);
    keys
  }

  function ContextValues(n: NetworkContext): (vals: seq<PyData>)
    ensures |vals| == 6
  {
    hide WellFormed;
    [OptStr(n.plmnId), OptStr(n.networkDomain), OptStr(n.sliceId), StrList(n.cellIds), OptStr(n.edgeRegion),
     OptStr(n.jurisdiction)]
  }

  function ContextValue(n: NetworkContext): PyData {
    Record(ContextKeys(), ContextValues(n))
  }

  function SubscriberKeys(): (keys: FieldNames)
    ensures |keys| == 2
  {
    var keys := [
      "scope_type", "scope_reference"];
    CompareSameLengths(keys);
    keys
  }

  function SubscriberValues(s: SubscriberScope): (vals: seq<PyData>)
    ensures |vals| == 2
  {
    hide WellFormed;
    [Enum(s.scopeType), OptStr(s.scopeReference)]
  }

  function SubscriberValue(s: SubscriberScope): PyData {
    Record(SubscriberKeys(), SubscriberValues(s))
  }

  function ResourceKeys(): (keys: FieldNames)
    ensures |keys| == 3
  {
    var keys := [
      "resource_type", "resource_ids", "subscriber_scope"];
    CompareSameLengths(keys);
    keys
  }

  function ResourceValues(r: ResourceScope): (vals: seq<PyData>)
    ensures |vals| == 3
  {
    hide WellFormed;
    [Enum(r.resourceType), StrList(r.resourceIds), SubscriberValue(r.subscriberScope)]
  }

  function ResourceValue(r: ResourceScope): PyData {
    Record(ResourceKeys(), ResourceValues(r))
  }

  function PurposeKeys(): (keys: FieldNames)
    ensures |keys| == 4
  {
    var keys := [
      "purpose_id", "declared_purpose", "service_intent_reference", "purpose_epoch"];
    CompareSameLengths(keys);
    keys
  }

  function PurposeValues(p: Purpose): (vals: seq<PyData>)
    ensures |vals| == 4
  {
    hide WellFormed;
    [Text(p.purposeId), Text(p.declaredPurpose), OptStr(p.serviceIntentReference), OptInt(p.purposeEpoch)]
  }

  function PurposeValue(p: Purpose): PyData {
    Record(PurposeKeys(), PurposeValues(p))
  }

  function RequestedKeys(): (keys: FieldNames)
    ensures |keys| == 4
  {
    var keys := [
      "effect_type", "parameters_digest", "duration_seconds", "reversibility"];
    CompareSameLengths(keys);
    keys
  }

  function RequestedValues(r: RequestedEffect): (vals: seq<PyData>)
    ensures |vals| == 4
  {
    hide WellFormed;
    [Text(r.effectType), DigestValue(r.parametersDigest), OptInt(r.durationSeconds), OptEnum(r.reversibility)]
  }

  function RequestedValue(r: RequestedEffect): PyData {
    Record(RequestedKeys(), RequestedValues(r))
  }

  function PolicyKeys(): (keys: FieldNames)
    ensures |keys| == 5
  {
    var keys := [
      "policy_epoch", "authority_epoch", "revocation_epoch", "operator_policy_profile", "regulatory_profile"];
    CompareSameLengths(keys);
    keys
  }

  function PolicyValues(p: PolicyState): (vals: seq<PyData>)
    ensures |vals| == 5
  {
    hide WellFormed;
    [Whole(p.policyEpoch), Whole(p.authorityEpoch), Whole(p.revocationEpoch), OptStr(p.operatorPolicyProfile),
     OptStr(p.regulatoryProfile)]
  }

  function PolicyValue(p: PolicyState): PyData {
    Record(PolicyKeys(), PolicyValues(p))
  }

  function FreshnessKeys(): (keys: FieldNames)
    ensures |keys| == 3
  {
    var keys := [
      "nonce", "sequence", "session_id"];
    CompareSameLengths(keys);
    keys
  }

  function FreshnessValues(f: Freshness): (vals: seq<PyData>)
    ensures |vals| == 3
  {
    hide WellFormed;
    [Text(f.nonce), OptInt(f.sequence), OptStr(f.sessionId)]
  }

  function FreshnessValue(f: Freshness): PyData {
    Record(FreshnessKeys(), FreshnessValues(f))
  }

  function SinkKeys(): (keys: FieldNames)
    ensures |keys| == 2
  {
    var keys := [
      "sink_id", "sink_type"];
    CompareSameLengths(keys);
    keys
  }

  function SinkValues(s: SinkDescriptor): (vals: seq<PyData>)
    ensures |vals| == 2
  {
    hide WellFormed;
    [Text(s.sinkId), Enum(s.sinkType)]
  }

  function SinkValue(s: SinkDescriptor): PyData {
    Record(SinkKeys(), SinkValues(s))
  }

  function CandidateKeys(): (keys: FieldNames)
    ensures |keys| == 14
  {
    var keys := [
      "version", "object_type", "candidate_act_id", "act_type", "created_at", "expires_at", "initiator",
      "network_context", "resource_scope", "purpose", "requested_effect", "policy_state", "freshness",
      "finality_sink"];
    CompareSameLengths(keys);
    keys
  }

  function CandidateValues(c: Candidate): (vals: seq<PyData>)
    ensures |vals| == 14
  {
    hide WellFormed;
    [Text("1.0"), Text("network_candidate_act"), Text(c.candidateActId), Enum(c.actType),
     Instant(c.createdAt), Instant(c.expiresAt), InitiatorValue(c.initiator), ContextValue(c.networkContext),
     ResourceValue(c.resourceScope), PurposeValue(c.purpose), RequestedValue(c.requestedEffect),
     PolicyValue(c.policyState), FreshnessValue(c.freshness), SinkValue(c.finalitySink)]
  }

  function CandidateValue(c: Candidate): PyData {
    Record(CandidateKeys(), CandidateValues(c))
  }

  function ScopeKeys(): (keys: FieldNames)
    ensures |keys| == 10
  {
    var keys := [
      "act_type", "resource_type", "resource_ids", "subscriber_scope", "permitted_effect_type",
      "parameters_digest", "duration_seconds_max", "network_domain", "jurisdiction", "purpose_id"];
    CompareSameLengths(keys);
    keys
  }

  function ScopeValues(s: AuthorityScope): (vals: seq<PyData>)
    ensures |vals| == 10
  {
    hide WellFormed;
    [Enum(s.actType), Enum(s.resourceType), StrList(s.resourceIds), SubscriberValue(s.subscriberScope),
     Text(s.permittedEffectType), Text(s.parametersDigest), OptInt(s.durationSecondsMax),
     OptStr(s.networkDomain), OptStr(s.jurisdiction), Text(s.purposeId)]
  }

  function ScopeValue(s: AuthorityScope): PyData {
    Record(ScopeKeys(), ScopeValues(s))
  }

  function BindingKeys(): (keys: FieldNames)
    ensures |keys| == 14
  {
    var keys := [
      "candidate_act_digest", "evidence_id", "evidence_digest", "protected_state_reference", "topology_epoch",
      "configuration_epoch", "policy_epoch", "authority_epoch", "revocation_epoch", "nonce", "sequence",
      "finality_sink_id", "effectuation_boundary_id", "activation_commitment"];
    CompareSameLengths(keys);
    keys
  }

  function BindingValues(b: AuthorityBinding): (vals: seq<PyData>)
    ensures |vals| == 14
  {
    hide WellFormed;
    [DigestValue(b.candidateActDigest), Text(b.evidenceId), DigestValue(b.evidenceDigest),
     Text(b.protectedStateReference), Whole(b.epochs.topology), Whole(b.epochs.configuration),
     Whole(b.epochs.policy), Whole(b.epochs.authority), Whole(b.epochs.revocation), Text(b.nonce),
     OptInt(b.sequence), Text(b.finalitySinkId), Text(b.effectuationBoundaryId), Text(b.activationCommitment)]
  }

  function BindingValue(b: AuthorityBinding): PyData {
    Record(BindingKeys(), BindingValues(b))
  }

  function LifetimeKeys(): (keys: FieldNames)
    ensures |keys| == 3
  {
    var keys := [
      "issued_at", "expires_at", "single_use"];
    CompareSameLengths(keys);
    keys
  }

  function LifetimeValues(l: AuthorityLifetime): (vals: seq<PyData>)
    ensures |vals| == 3
  {
    hide WellFormed;
    [Instant(l.issuedAt), Instant(l.expiresAt), Flag(l.singleUse)]
  }

  function LifetimeValue(l: AuthorityLifetime): PyData {
    Record(LifetimeKeys(), LifetimeValues(l))
  }

  function IssuerKeys(): (keys: FieldNames)
    ensures |keys| == 4
  {
    var keys := [
      "ped_id", "key_id", "algorithm", "signature"];
    CompareSameLengths(keys);
    keys
  }

  function IssuerValues(i: AuthorityIssuer): (vals: seq<PyData>)
    ensures |vals| == 4
  {
    hide WellFormed;
    [Text(i.pedId), Text(i.keyId), Text(i.algorithm), Text(i.signature)]
  }

  function IssuerValue(i: AuthorityIssuer): PyData {
    Record(IssuerKeys(), IssuerValues(i))
  }

  function AuthorityKeys(): (keys: FieldNames)
    ensures |keys| == 9
  {
    var keys := [
      "version", "object_type", "authority_id", "candidate_act_id", "decision_id", "scope", "binding", "lifetime",
      "issuer"];
    CompareSameLengths(keys);
    keys
  }

  function AuthorityValues(a: Authority): (vals: seq<PyData>)
    ensures |vals| == 9
  {
    hide WellFormed;
    [Text("1.0"), Text("network_finality_authority"), Text(a.authorityId), Text(a.candidateActId),
     Text(a.decisionId), ScopeValue(a.scope), BindingValue(a.binding), LifetimeValue(a.lifetime),
     IssuerValue(a.issuer)]
  }

  function AuthorityValue(a: Authority): PyData {
    Record(AuthorityKeys(), AuthorityValues(a))
  }

  // ---- the same data means the same record ----

  /** Two records with the same field names hold the same data field by field. */
  lemma SameFields(stamp: Stamp, keys: FieldNames, xs: seq<PyData>, ys: seq<PyData>)
    requires |keys| == |xs| == |ys|
    requires SameData(stamp, Record(keys, xs), Record(keys, ys))
    ensures forall i :: 0 <= i < |xs| ==> SameData(stamp, xs[i], ys[i])
  {
    var es, fs := Record(keys, xs).entries, Record(keys, ys).entries;
    forall i | 0 <= i < |xs| ensures SameData(stamp, xs[i], ys[i]) {
      AsMapAt(fs, i);
      assert SameData(stamp, es[i].val, AsMap(fs)[es[i].key]);
    }
  }

  lemma SameStrList(stamp: Stamp, xs: seq<string>, ys: seq<string>)
    requires SameData(stamp, StrList(xs), StrList(ys))
    ensures xs == ys
  {
    assert |xs| == |ys|;
    forall i | 0 <= i < |xs| ensures xs[i] == ys[i] {
      assert SameData(stamp, StrList(xs).items[i], StrList(ys).items[i]);
    }
  }

  lemma SameText(stamp: Stamp, s: string, t: string)
    requires SameData(stamp, PyStr(s), PyStr(t)) || SameData(stamp, PyEnum(s), PyEnum(t))
    ensures s == t
  {
  }

  lemma SameOptText(stamp: Stamp, s: Option<string>, t: Option<string>)
    requires SameData(stamp, OptStr(s), OptStr(t)) || SameData(stamp, OptEnum(s), OptEnum(t))
    ensures s == t
  {
  }

  lemma SameInt(stamp: Stamp, m: int, n: int)
    requires SameData(stamp, PyInt(m), PyInt(n))
    ensures m == n
  {
  }

  lemma SameOptInt(stamp: Stamp, m: Option<int>, n: Option<int>)
    requires SameData(stamp, OptInt(m), OptInt(n))
    ensures m == n
  {
  }

  lemma SameTime(stamp: Stamp, m: int, n: int)
    requires InjectiveStamp(stamp) && SameData(stamp, PyTime(m), PyTime(n))
    ensures m == n
  {
  }

  lemma SameBool(stamp: Stamp, m: bool, n: bool)
    requires SameData(stamp, PyBool(m), PyBool(n))
    ensures m == n
  {
  }

  lemma SameDigest(stamp: Stamp, a: Digest, b: Digest)
    requires SameData(stamp, DigestValue(a), DigestValue(b))
    ensures a == b
  {
    hide SameData, WellFormed, DigestKeys;
    var xs, ys := DigestValues(a), DigestValues(b);
    SameFields(stamp, DigestKeys(), xs, ys);
    assert SameData(stamp, xs[0], ys[0]);
    SameText(stamp, AlgorithmName(a.algorithm), AlgorithmName(b.algorithm));
    assert SameData(stamp, xs[1], ys[1]);
    SameText(stamp, a.value, b.value);
  }

  lemma SameInitiator(stamp: Stamp, a: Initiator, b: Initiator)
    requires SameData(stamp, InitiatorValue(a), InitiatorValue(b))
    ensures a == b
  {
    hide SameData, WellFormed, InitiatorKeys;
    var xs, ys := InitiatorValues(a), InitiatorValues(b);
    SameFields(stamp, InitiatorKeys(), xs, ys);
    assert SameData(stamp, xs[0], ys[0]);
    SameText(stamp, a.networkFunctionId, b.networkFunctionId);
    assert SameData(stamp, xs[1], ys[1]);
    SameText(stamp, a.functionType, b.functionType);
    assert SameData(stamp, xs[2], ys[2]);
    SameOptText(stamp, a.agentId, b.agentId);
    assert SameData(stamp, xs[3], ys[3]);
    SameOptText(stamp, a.modelId, b.modelId);
    assert SameData(stamp, xs[4], ys[4]);
    SameOptText(stamp, a.runtimeAttestationDigest, b.runtimeAttestationDigest);
  }

  lemma SameNetworkContext(stamp: Stamp, a: NetworkContext, b: NetworkContext)
    requires SameData(stamp, ContextValue(a), ContextValue(b))
    ensures a == b
  {
    hide SameData, WellFormed, ContextKeys;
    var xs, ys := ContextValues(a), ContextValues(b);
    SameFields(stamp, ContextKeys(), xs, ys);
    assert SameData(stamp, xs[0], ys[0]);
    SameOptText(stamp, a.plmnId, b.plmnId);
    assert SameData(stamp, xs[1], ys[1]);
    SameOptText(stamp, a.networkDomain, b.networkDomain);
    assert SameData(stamp, xs[2], ys[2]);
    SameOptText(stamp, a.sliceId, b.sliceId);
    assert SameData(stamp, xs[3], ys[3]);
    SameStrList(stamp, a.cellIds, b.cellIds);
    assert SameData(stamp, xs[4], ys[4]);
    SameOptText(stamp, a.edgeRegion, b.edgeRegion);
    assert SameData(stamp, xs[5], ys[5]);
    SameOptText(stamp, a.jurisdiction, b.jurisdiction);
  }

  lemma SameSubscriberScope(stamp: Stamp, a: SubscriberScope, b: SubscriberScope)
    requires SameData(stamp, SubscriberValue(a), SubscriberValue(b))
    ensures a == b
  {
    hide SameData, WellFormed, SubscriberKeys;
    var xs, ys := SubscriberValues(a), SubscriberValues(b);
    SameFields(stamp, SubscriberKeys(), xs, ys);
    assert SameData(stamp, xs[0], ys[0]);
    SameText(stamp, a.scopeType, b.scopeType);
    assert SameData(stamp, xs[1], ys[1]);
    SameOptText(stamp, a.scopeReference, b.scopeReference);
  }

  lemma SameResourceScope(stamp: Stamp, a: ResourceScope, b: ResourceScope)
    requires SameData(stamp, ResourceValue(a), ResourceValue(b))
    ensures a == b
  {
    hide SameData, WellFormed, ResourceKeys, SubscriberValue;
    var xs, ys := ResourceValues(a), ResourceValues(b);
    SameFields(stamp, ResourceKeys(), xs, ys);
    assert SameData(stamp, xs[0], ys[0]);
    SameText(stamp, a.resourceType, b.resourceType);
    assert SameData(stamp, xs[1], ys[1]);
    SameStrList(stamp, a.resourceIds, b.resourceIds);
    assert SameData(stamp, xs[2], ys[2]);
    SameSubscriberScope(stamp, a.subscriberScope, b.subscriberScope);
  }

  lemma SamePurpose(stamp: Stamp, a: Purpose, b: Purpose)
    requires SameData(stamp, PurposeValue(a), PurposeValue(b))
    ensures a == b
  {
    hide SameData, WellFormed, PurposeKeys;
    var xs, ys := PurposeValues(a), PurposeValues(b);
    SameFields(stamp, PurposeKeys(), xs, ys);
    assert SameData(stamp, xs[0], ys[0]);
    SameText(stamp, a.purposeId, b.purposeId);
    assert SameData(stamp, xs[1], ys[1]);
    SameText(stamp, a.declaredPurpose, b.declaredPurpose);
    assert SameData(stamp, xs[2], ys[2]);
    SameOptText(stamp, a.serviceIntentReference, b.serviceIntentReference);
    assert SameData(stamp, xs[3], ys[3]);
    SameOptInt(stamp, a.purposeEpoch, b.purposeEpoch);
  }

  lemma SameRequestedEffect(stamp: Stamp, a: RequestedEffect, b: RequestedEffect)
    requires SameData(stamp, RequestedValue(a), RequestedValue(b))
    ensures a == b
  {
    hide SameData, WellFormed, RequestedKeys, DigestValue;
    var xs, ys := RequestedValues(a), RequestedValues(b);
    SameFields(stamp, RequestedKeys(), xs, ys);
    assert SameData(stamp, xs[0], ys[0]);
    SameText(stamp, a.effectType, b.effectType);
    assert SameData(stamp, xs[1], ys[1]);
    SameDigest(stamp, a.parametersDigest, b.parametersDigest);
    assert SameData(stamp, xs[2], ys[2]);
    SameOptInt(stamp, a.durationSeconds, b.durationSeconds);
    assert SameData(stamp, xs[3], ys[3]);
    SameOptText(stamp, a.reversibility, b.reversibility);
  }

  lemma SamePolicyState(stamp: Stamp, a: PolicyState, b: PolicyState)
    requires SameData(stamp, PolicyValue(a), PolicyValue(b))
    ensures a == b
  {
    hide SameData, WellFormed, PolicyKeys;
    var xs, ys := PolicyValues(a), PolicyValues(b);
    SameFields(stamp, PolicyKeys(), xs, ys);
    assert SameData(stamp, xs[0], ys[0]);
    SameInt(stamp, a.policyEpoch, b.policyEpoch);
    assert SameData(stamp, xs[1], ys[1]);
    SameInt(stamp, a.authorityEpoch, b.authorityEpoch);
    assert SameData(stamp, xs[2], ys[2]);
    SameInt(stamp, a.revocationEpoch, b.revocationEpoch);
    assert SameData(stamp, xs[3], ys[3]);
    SameOptText(stamp, a.operatorPolicyProfile, b.operatorPolicyProfile);
    assert SameData(stamp, xs[4], ys[4]);
    SameOptText(stamp, a.regulatoryProfile, b.regulatoryProfile);
  }

  lemma SameFreshness(stamp: Stamp, a: Freshness, b: Freshness)
    requires SameData(stamp, FreshnessValue(a), FreshnessValue(b))
    ensures a == b
  {
    hide SameData, WellFormed, FreshnessKeys;
    var xs, ys := FreshnessValues(a), FreshnessValues(b);
    SameFields(stamp, FreshnessKeys(), xs, ys);
    assert SameData(stamp, xs[0], ys[0]);
    SameText(stamp, a.nonce, b.nonce);
    assert SameData(stamp, xs[1], ys[1]);
    SameOptInt(stamp, a.sequence, b.sequence);
    assert SameData(stamp, xs[2], ys[2]);
    SameOptText(stamp, a.sessionId, b.sessionId);
  }

  lemma SameSinkDescriptor(stamp: Stamp, a: SinkDescriptor, b: SinkDescriptor)
    requires SameData(stamp, SinkValue(a), SinkValue(b))
    ensures a == b
  {
    hide SameData, WellFormed, SinkKeys;
    var xs, ys := SinkValues(a), SinkValues(b);
    SameFields(stamp, SinkKeys(), xs, ys);
    assert SameData(stamp, xs[0], ys[0]);
    SameText(stamp, a.sinkId, b.sinkId);
    assert SameData(stamp, xs[1], ys[1]);
    SameText(stamp, a.sinkType, b.sinkType);
  }

  lemma SameCandidate(stamp: Stamp, a: Candidate, b: Candidate)
    requires InjectiveStamp(stamp)
    requires SameData(stamp, CandidateValue(a), CandidateValue(b))
    ensures a == b
  {
    hide SameData, WellFormed, CandidateKeys, ContextValue, FreshnessValue, InitiatorValue, PolicyValue, PurposeValue,
         RequestedValue, ResourceValue, SinkValue;
    var xs, ys := CandidateValues(a), CandidateValues(b);
    SameFields(stamp, CandidateKeys(), xs, ys);
    assert SameData(stamp, xs[2], ys[2]);
    SameText(stamp, a.candidateActId, b.candidateActId);
    assert SameData(stamp, xs[3], ys[3]);
    SameText(stamp, a.actType, b.actType);
    assert SameData(stamp, xs[4], ys[4]);
    SameTime(stamp, a.createdAt, b.createdAt);
    assert SameData(stamp, xs[5], ys[5]);
    SameTime(stamp, a.expiresAt, b.expiresAt);
    assert SameData(stamp, xs[6], ys[6]);
    SameInitiator(stamp, a.initiator, b.initiator);
    assert SameData(stamp, xs[7], ys[7]);
    SameNetworkContext(stamp, a.networkContext, b.networkContext);
    assert SameData(stamp, xs[8], ys[8]);
    SameResourceScope(stamp, a.resourceScope, b.resourceScope);
    assert SameData(stamp, xs[9], ys[9]);
    SamePurpose(stamp, a.purpose, b.purpose);
    assert SameData(stamp, xs[10], ys[10]);
    SameRequestedEffect(stamp, a.requestedEffect, b.requestedEffect);
    assert SameData(stamp, xs[11], ys[11]);
    SamePolicyState(stamp, a.policyState, b.policyState);
    assert SameData(stamp, xs[12], ys[12]);
    SameFreshness(stamp, a.freshness, b.freshness);
    assert SameData(stamp, xs[13], ys[13]);
    SameSinkDescriptor(stamp, a.finalitySink, b.finalitySink);
  }

  lemma SameAuthorityScope(stamp: Stamp, a: AuthorityScope, b: AuthorityScope)
    requires SameData(stamp, ScopeValue(a), ScopeValue(b))
    ensures a == b
  {
    hide SameData, WellFormed, ScopeKeys, SubscriberValue;
    var xs, ys := ScopeValues(a), ScopeValues(b);
    SameFields(stamp, ScopeKeys(), xs, ys);
    assert SameData(stamp, xs[0], ys[0]);
    SameText(stamp, a.actType, b.actType);
    assert SameData(stamp, xs[1], ys[1]);
    SameText(stamp, a.resourceType, b.resourceType);
    assert SameData(stamp, xs[2], ys[2]);
    SameStrList(stamp, a.resourceIds, b.resourceIds);
    assert SameData(stamp, xs[3], ys[3]);
    SameSubscriberScope(stamp, a.subscriberScope, b.subscriberScope);
    assert SameData(stamp, xs[4], ys[4]);
    SameText(stamp, a.permittedEffectType, b.permittedEffectType);
    assert SameData(stamp, xs[5], ys[5]);
    SameText(stamp, a.parametersDigest, b.parametersDigest);
    assert SameData(stamp, xs[6], ys[6]);
    SameOptInt(stamp, a.durationSecondsMax, b.durationSecondsMax);
    assert SameData(stamp, xs[7], ys[7]);
    SameOptText(stamp, a.networkDomain, b.networkDomain);
    assert SameData(stamp, xs[8], ys[8]);
    SameOptText(stamp, a.jurisdiction, b.jurisdiction);
    assert SameData(stamp, xs[9], ys[9]);
    SameText(stamp, a.purposeId, b.purposeId);
  }

  lemma SameAuthorityBinding(stamp: Stamp, a: AuthorityBinding, b: AuthorityBinding)
    requires SameData(stamp, BindingValue(a), BindingValue(b))
    ensures a == b
  {
    hide SameData, WellFormed, BindingKeys, DigestValue;
    var xs, ys := BindingValues(a), BindingValues(b);
    SameFields(stamp, BindingKeys(), xs, ys);
    assert SameData(stamp, xs[0], ys[0]);
    SameDigest(stamp, a.candidateActDigest, b.candidateActDigest);
    assert SameData(stamp, xs[1], ys[1]);
    SameText(stamp, a.evidenceId, b.evidenceId);
    assert SameData(stamp, xs[2], ys[2]);
    SameDigest(stamp, a.evidenceDigest, b.evidenceDigest);
    assert SameData(stamp, xs[3], ys[3]);
    SameText(stamp, a.protectedStateReference, b.protectedStateReference);
    assert SameData(stamp, xs[4], ys[4]);
    SameInt(stamp, a.epochs.topology, b.epochs.topology);
    assert SameData(stamp, xs[5], ys[5]);
    SameInt(stamp, a.epochs.configuration, b.epochs.configuration);
    assert SameData(stamp, xs[6], ys[6]);
    SameInt(stamp, a.epochs.policy, b.epochs.policy);
    assert SameData(stamp, xs[7], ys[7]);
    SameInt(stamp, a.epochs.authority, b.epochs.authority);
    assert SameData(stamp, xs[8], ys[8]);
    SameInt(stamp, a.epochs.revocation, b.epochs.revocation);
    assert SameData(stamp, xs[9], ys[9]);
    SameText(stamp, a.nonce, b.nonce);
    assert SameData(stamp, xs[10], ys[10]);
    SameOptInt(stamp, a.sequence, b.sequence);
    assert SameData(stamp, xs[11], ys[11]);
    SameText(stamp, a.finalitySinkId, b.finalitySinkId);
    assert SameData(stamp, xs[12], ys[12]);
    SameText(stamp, a.effectuationBoundaryId, b.effectuationBoundaryId);
    assert SameData(stamp, xs[13], ys[13]);
    SameText(stamp, a.activationCommitment, b.activationCommitment);
  }

  lemma SameAuthorityLifetime(stamp: Stamp, a: AuthorityLifetime, b: AuthorityLifetime)
    requires InjectiveStamp(stamp)
    requires SameData(stamp, LifetimeValue(a), LifetimeValue(b))
    ensures a == b
  {
    hide SameData, WellFormed, LifetimeKeys;
    var xs, ys := LifetimeValues(a), LifetimeValues(b);
    SameFields(stamp, LifetimeKeys(), xs, ys);
    assert SameData(stamp, xs[0], ys[0]);
    SameTime(stamp, a.issuedAt, b.issuedAt);
    assert SameData(stamp, xs[1], ys[1]);
    SameTime(stamp, a.expiresAt, b.expiresAt);
    assert SameData(stamp, xs[2], ys[2]);
    SameBool(stamp, a.singleUse, b.singleUse);
  }

  lemma SameAuthorityIssuer(stamp: Stamp, a: AuthorityIssuer, b: AuthorityIssuer)
    requires SameData(stamp, IssuerValue(a), IssuerValue(b))
    ensures a == b
  {
    hide SameData, WellFormed, IssuerKeys;
    var xs, ys := IssuerValues(a), IssuerValues(b);
    SameFields(stamp, IssuerKeys(), xs, ys);
    assert SameData(stamp, xs[0], ys[0]);
    SameText(stamp, a.pedId, b.pedId);
    assert SameData(stamp, xs[1], ys[1]);
    SameText(stamp, a.keyId, b.keyId);
    assert SameData(stamp, xs[2], ys[2]);
    SameText(stamp, a.algorithm, b.algorithm);
    assert SameData(stamp, xs[3], ys[3]);
    SameText(stamp, a.signature, b.signature);
  }

  lemma SameAuthority(stamp: Stamp, a: Authority, b: Authority)
    requires InjectiveStamp(stamp)
    requires SameData(stamp, AuthorityValue(a), AuthorityValue(b))
    ensures a == b
  {
    hide SameData, WellFormed, AuthorityKeys, BindingValue, IssuerValue, LifetimeValue, ScopeValue;
    var xs, ys := AuthorityValues(a), AuthorityValues(b);
    SameFields(stamp, AuthorityKeys(), xs, ys);
    assert SameData(stamp, xs[2], ys[2]);
    SameText(stamp, a.authorityId, b.authorityId);
    assert SameData(stamp, xs[3], ys[3]);
    SameText(stamp, a.candidateActId, b.candidateActId);
    assert SameData(stamp, xs[4], ys[4]);
    SameText(stamp, a.decisionId, b.decisionId);
    assert SameData(stamp, xs[5], ys[5]);
    SameAuthorityScope(stamp, a.scope, b.scope);
    assert SameData(stamp, xs[6], ys[6]);
    SameAuthorityBinding(stamp, a.binding, b.binding);
    assert SameData(stamp, xs[7], ys[7]);
    SameAuthorityLifetime(stamp, a.lifetime, b.lifetime);
    assert SameData(stamp, xs[8], ys[8]);
    SameAuthorityIssuer(stamp, a.issuer, b.issuer);
  }

  // ---- what the two digests and the signed payload cover ----

  function CandidateDigest(p: Primitives, c: Candidate): string {
    DigestOf(p, CandidateValue(c))
  }

  function AuthorityDigest(p: Primitives, a: Authority): string {
    DigestOf(p, AuthorityValue(a))
  }

  /** The bytes that are signed: the authority with its signature blanked. */
  function UnsignedPayload(p: Primitives, a: Authority): seq<byte> {
    CanonicalBytes(p.stamp, AuthorityValue(WithSignature(a, "")))
  }

  function WithSignature(a: Authority, signature: string): Authority {
    a.(issuer := a.issuer.(signature := signature))
  }

  /** A candidate digest names one candidate. */
  lemma {:induction false} CandidateDigestBinds(p: Primitives, c: Candidate, d: Candidate)
    requires Ideal(p)
    ensures CandidateDigest(p, c) == CandidateDigest(p, d) <==> c == d
  {
    DigestMeaning(p, CandidateValue(c), SHA256, CandidateValue(d), SHA256);
    if SameData(p.stamp, CandidateValue(c), CandidateValue(d)) {
      SameCandidate(p.stamp, c, d);
    }
  }

  /** An authority digest names one authority, its signature text included. */
  lemma {:induction false} AuthorityDigestBinds(p: Primitives, a: Authority, b: Authority)
    requires Ideal(p)
    ensures AuthorityDigest(p, a) == AuthorityDigest(p, b) <==> a == b
  {
    DigestMeaning(p, AuthorityValue(a), SHA256, AuthorityValue(b), SHA256);
    if SameData(p.stamp, AuthorityValue(a), AuthorityValue(b)) {
      SameAuthority(p.stamp, a, b);
    }
  }

  /** The signed payload covers everything but the signature: two authorities share it exactly
      when blanking their signatures makes them equal. */
  lemma {:induction false} PayloadCoverage(p: Primitives, a: Authority, b: Authority)
    requires Ideal(p)
    ensures UnsignedPayload(p, a) == UnsignedPayload(p, b) <==> WithSignature(a, "") == WithSignature(b, "")
  {
    var x, y := WithSignature(a, ""), WithSignature(b, "");
    CanonicalMeaning(p.stamp, AuthorityValue(x), AuthorityValue(y));
    if SameData(p.stamp, AuthorityValue(x), AuthorityValue(y)) {
      SameAuthority(p.stamp, x, y);
    }
  }

  function Signed(p: Primitives, a: Authority): Authority {
    WithSignature(a, Sign(p, UnsignedPayload(p, a)))
  }

  /** Installing the signature leaves the payload as it was signed, so it verifies. */
  lemma SignedAuthorityVerifies(p: Primitives, a: Authority)
    requires Ideal(p)
    ensures UnsignedPayload(p, Signed(p, a)) == UnsignedPayload(p, a)
    ensures Verify(p, UnsignedPayload(p, Signed(p, a)), Signed(p, a).issuer.signature)
  {
    assert WithSignature(Signed(p, a), "") == WithSignature(a, "");
    SignedVerifies(p, UnsignedPayload(p, a));
  }
}
