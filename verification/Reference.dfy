/** The reference wiring and the reference candidate, and a run of them from start to effect. */
module Reference {
  import opened Wrappers
  import opened Dicts
  import opened Canonical
  import opened Crypto
  import opened Models
  import opened State
  import opened Policy
  import opened SystemState
  import opened Ped
  import opened Sink
  import opened Protocol
  import opened Finality
  import opened Spelling
  import J = Json

  const SECOND := 1_000_000

  function ReferenceConfig(p: Primitives): Config {
    Config(p, "operator-ped-1", "ped-ed25519-1", "Ed25519", PolicyConfig(5 * SECOND, 300, 4 * SECOND, false, {}))
  }

  function ReferenceState(): NetState {
    NetState(Epochs(993, 771, 42, 8, 7), "net-ped-state-7801", 184991, {"ran-finality-sink-04"}, {"IN"},
             {"latency-optimization", "congestion-optimization"}, false)
  }

  /** The default parameters repeat the duration. */
  function ReferenceParameters(duration: Option<int>): (parameters: Parameters) {
    var entries := [Entry("additional_prb_percent", PyInt(12)), Entry("duration_seconds", OptInt(duration))];
    CompareSameLengths(["additional_prb_percent", "duration_seconds"]);
    assert Distinct(entries);
    assert WellFormed(PyDict(entries));
    PyDict(entries)
  }

  /** The reference candidate at time 0, naming the given duration, if any. */
  function ReferenceCandidate(p: Primitives, duration: Option<int>): Candidate {
    Candidate("net-39f8820b-reference", "SLICE_RESOURCE_ALLOCATION", 0, 5 * SECOND,
      Initiator("ai-ran-controller-7", "AI_RAN_CONTROLLER", Some("ran-agent-7"), Some("traffic-optimizer-v5"), None),
      NetworkContext(Some("00101"), Some("ran-domain-2"), Some("slice-17"), ["cell-108"], None, Some("IN")),
      Models.ResourceScope("SLICE", ["slice-17"], Models.SubscriberScope("TENANT", Some("tenant-A"))),
      Models.Purpose("latency-optimization", "Maintain bounded network objective", None, None),
      RequestedEffect("ALLOCATE_CAPACITY", Digest(SHA256, DigestOf(p, ReferenceParameters(duration))), duration,
                      Some("REVERSIBLE")),
      PolicyState(42, 8, 7, Some("ran-autonomy-v3"), None),
      Freshness("C3929177AA801C55", Some(8821), None),
      SinkDescriptor("ran-finality-sink-04", "RAN_CONTROL"))
  }

  lemma ReferenceIsPermitted(p: Primitives, duration: Option<int>)
    requires duration.Some? ==> duration.value <= 300
    ensures Permitted(ReferenceConfig(p).policy, ReferenceState(), ReferenceCandidate(p, duration), 0)
    ensures ReferenceCandidate(p, duration).expiresAt == 5_000_000
            && ReferenceConfig(p).policy.authorityTtl == 4_000_000
  {
    hide DigestOf;
  }

  /** The two calls of the run: the candidate to the domain, and the authority it issues to the sink. */
  function ReferenceRun(p: Primitives, duration: Option<int>, d: Option<int>, ids: Ids, effectId: string): seq<Event> {
    var cfg, c := ReferenceConfig(p), ReferenceCandidate(p, duration);
    var a := IssuedAuthority(cfg, Fresh(ReferenceState()).sys, c, 0, ids);
    [PedCall(c, 0, ids), SinkCall(Present(c, a, EffectFor(c, ReferenceParameters(duration), d), 0), Some(effectId))]
  }

  lemma IssuedIs(cfg: Config, sys: System, c: Candidate, now: int, ids: Ids)
    requires PedStep(cfg, sys, c, now, ids).1.Issued?
    ensures PedStep(cfg, sys, c, now, ids).1.authority == IssuedAuthority(cfg, sys, c, now, ids)
  {
    hide DenialOf, AfterEvidence, IssuedAuthority, ActivationOf;
  }

  /** One presentation was admitted, with this duration, and the network holds its effect. */
  predicate AdmittedWith(w: World, d: Option<int>, effectId: string) {
    && |w.applications| == 1 && w.applications[0].q.effect.durationSeconds == d
    && effectId in w.sys.effects && w.sys.effects[effectId].durationSeconds == d
  }

  /** The run ends with one effect. Policy allows 300 seconds at most; the effect is admitted with every
      duration up to the one the candidate names, with any duration if it names none, and with none. */
  lemma ReferenceRunAdmits(p: Primitives, duration: Option<int>, d: Option<int>, ids: Ids, effectId: string)
    requires Ideal(p) && Narrows(duration, d) && (duration.Some? ==> duration.value <= 300)
    ensures var cfg := ReferenceConfig(p);
            && cfg.policy.maxEffectDuration == 300
            && AdmittedWith(Run(cfg, Fresh(ReferenceState()), ReferenceRun(p, duration, d, ids, effectId)), d, effectId)
  {
    hide PedStep, SinkStep, Ladder, ReferenceCandidate, ReferenceState, Fresh, Ideal, Permitted, DigestOf, ExpiryOf,
         AttemptOf, IssuedAuthority, GrantOf, WorldStep;
    var cfg, net, c := ReferenceConfig(p), ReferenceState(), ReferenceCandidate(p, duration);
    var w0 := Fresh(net);
    var evs := ReferenceRun(p, duration, d, ids, effectId);
    ReferenceIsPermitted(p, duration);
    NamedAs(p, duration);
    FirstRun(cfg, net, c, 0, ids, ReferenceParameters(duration), d, 0, effectId);
    IssuedIs(cfg, w0.sys, c, 0, ids);
    FreshHasNone(net);
    TwoSteps(cfg, w0, evs[0], evs[1]);
    CallThenSink(cfg, w0, c, ids, evs[1].q, effectId);
  }

  lemma NamedAs(p: Primitives, duration: Option<int>)
    ensures var r := ReferenceCandidate(p, duration).requestedEffect;
            r.durationSeconds == duration
              && r.parametersDigest == Digest(SHA256, DigestOf(p, ReferenceParameters(duration)))
  {
    hide DigestOf;
  }

  lemma FreshHasNone(net: NetState)
    ensures Fresh(net).applications == []
  {
  }

  lemma TwoSteps(cfg: Config, w: World, e: Event, f: Event)
    ensures Run(cfg, w, [e, f]) == WorldStep(cfg, WorldStep(cfg, w, e), f)
  {
    hide WorldStep;
    assert [e, f][1..] == [f] && [f][1..] == [];
    assert Run(cfg, WorldStep(cfg, w, e), [f]) == WorldStep(cfg, WorldStep(cfg, w, e), f);
  }

  lemma CallThenSink(cfg: Config, w: World, c: Candidate, ids: Ids, q: Presentation, effectId: string)
    requires w.applications == [] && q.authority.Some?
    requires SinkStep(cfg, PedStep(cfg, w.sys, c, 0, ids).0, q, Some(effectId)).1
             == Answered(Allowed("", ids.authorityId, effectId))
    ensures var w' := WorldStep(cfg, WorldStep(cfg, w, PedCall(c, 0, ids)), SinkCall(q, Some(effectId)));
            && |w'.applications| == 1 && w'.applications[0].q == q
            && effectId in w'.sys.effects && w'.sys.effects[effectId].durationSeconds == q.effect.durationSeconds
  {
    hide PedStep, AttemptOf, GrantOf, Ladder, Report, Passed, Code, ReasonOf;
  }

  // ---- the exact text of the reference parameters ----

  lemma NameOf(s: string, text: string)
    requires forall i :: 0 <= i < |s| ==> J.PlainChar(s[i])
    ensures Field(s, text) == "\"" + s + "\":" + text
  {
    J.QuotedIffPlain(s);
    assert "\"" + s + "\":" + text == ("\"" + s + "\"") + ":" + text;
  }

  lemma NumbersAre()
    ensures Number(12) == "12" && Number(120) == "120"
  {
  }

  lemma FirstField()
    ensures Field("additional_prb_percent", "12") == "\"additional_prb_percent\":12"
  {
    hide Field;
    NameOf("additional_prb_percent", "12");
  }

  lemma SecondField()
    ensures Field("duration_seconds", "120") == "\"duration_seconds\":120"
  {
    hide Field;
    NameOf("duration_seconds", "120");
  }

  lemma TwoFields(x: string, y: string)
    ensures Object([x, y]) == "{" + x + "," + y + "}"
  {
    assert [x, y][1..] == [y];
    assert Joined([x, y]) == x + "," + y;
  }

  lemma Beginning(x: string)
    requires x == "\"additional_prb_percent\":12"
    ensures "{" + x == "{\"additional_prb_percent\":12"
  {
    assert x == "\"additional" + "_prb_percent\":12";
    assert "{" + x == ("{" + "\"additional") + "_prb_percent\":12";
    assert "{" + "\"additional" == "{\"additional";
  }

  lemma Ending(y: string)
    requires y == "\"duration_seconds\":120"
    ensures "," + y + "}" == ",\"duration" + "_seconds\":120}"
  {
  }

  lemma Appended(s: string)
    requires s == "{\"additional_prb_percent\":12"
    ensures (s + ",\"duration") + "_seconds\":120}" == "{\"additional_prb_percent\":12,\"duration_seconds\":120}"
  {
    assert s + ",\"duration" == "{\"additional_prb_percent\":12,\"duration";
  }

  lemma ParametersInOrder(stamp: Stamp)
    ensures CanonicalText(stamp, ReferenceParameters(Some(120)))
            == Object([Field("additional_prb_percent", Number(12)), Field("duration_seconds", Number(120))])
  {
    hide CanonicalText, Less, Field, Number, Object;
    var es := ReferenceParameters(Some(120)).entries;
    LessAt("additional_prb_percent", "duration_seconds", 0);
    ChainAscends(es);
    TextOfDict(stamp, es, es);
    TextOfLeaf(stamp, true, 12, "", 0);
    TextOfLeaf(stamp, true, 120, "", 0);
    assert FieldTexts(stamp, es)
           == [Field("additional_prb_percent", Number(12)), Field("duration_seconds", Number(120))];
  }

  /** The canonical text that the reference parameters are hashed as. */
  lemma ParametersText(stamp: Stamp)
    ensures CanonicalText(stamp, ReferenceParameters(Some(120)))
            == "{\"additional_prb_percent\":12,\"duration_seconds\":120}"
  {
    hide CanonicalText, Field, Number, Object, ReferenceParameters;
    ParametersInOrder(stamp);
    NumbersAre();
    FirstField();
    SecondField();
    var x, y := Field("additional_prb_percent", "12"), Field("duration_seconds", "120");
    TwoFields(x, y);
    Beginning(x);
    Ending(y);
    Appended("{" + x);
    Regroup("{" + x, y, ",\"duration", "_seconds\":120}");
  }

  lemma Regroup(s: string, y: string, p: string, q: string)
    requires "," + y + "}" == p + q
    ensures s + "," + y + "}" == (s + p) + q
  {
    assert s + "," + y + "}" == s + ("," + y + "}");
    assert (s + p) + q == s + (p + q);
  }
}
