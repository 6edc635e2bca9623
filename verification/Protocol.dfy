/** Whole runs of the two boundaries: any sequence of calls to the protected domain, presentations
    at any sinks, and changes of the environment, together with a record of what happened. */
module Protocol {
  import opened Wrappers
  import opened Crypto
  import opened Models
  import opened Evidence
  import opened State
  import opened Policy
  import opened SystemState
  import opened Ped
  import opened Sink

  datatype Event =
    | PedCall(candidate: Candidate, now: int, ids: Ids)
    | SinkCall(q: Presentation, applied: Option<string>)
    | Environment(epochs: Epochs, protectedStateReference: string, allowedSinkIds: set<string>,
                  allowedJurisdictions: set<string>, allowedPurposes: set<string>, requireAttestation: bool)

  datatype Reply = FromPed(result: PedResult) | FromSink(outcome: Outcome) | Silent

  function Changed(net: NetState, ev: Event): NetState
    requires ev.Environment?
  {
    NetState(ev.epochs, ev.protectedStateReference, net.monotonicCounter, ev.allowedSinkIds, ev.allowedJurisdictions,
             ev.allowedPurposes, ev.requireAttestation)
  }

  function Step(cfg: Config, sys: System, ev: Event): (System, Reply) {
    match ev
    case PedCall(c, now, ids) => var (s, r) := PedStep(cfg, sys, c, now, ids); (s, FromPed(r))
    case SinkCall(q, applied) => var (s, o) := SinkStep(cfg, sys, q, applied); (s, FromSink(o))
    case Environment(_, _, _, _, _, _) => (sys.(net := Changed(sys.net, ev)), Silent)
  }

  /** The environment may bring about any epochs, state reference, allowlists and attestation requirement in
      one event; only the counter, and everything outside the protected state, is out of its reach. */
  lemma AnyEnvironment(cfg: Config, sys: System, net: NetState)
    ensures var ev := Environment(net.epochs, net.protectedStateReference, net.allowedSinkIds, net.allowedJurisdictions,
                                  net.allowedPurposes, net.requireAttestation);
            Step(cfg, sys, ev).0 == sys.(net := net.(monotonicCounter := sys.net.monotonicCounter))
  {
  }

  // ---- what happened, kept beside the system ----

  /** One call of the protected domain: what it was given, the state it found, the record it
      committed, and the authority if one was installed. */
  datatype Attempt = Attempt(
    candidate: Candidate, net: NetState, now: int, ids: Ids, denial: Option<Reason>, record: EvidenceRecord,
    authority: Option<Authority>)

  /** One admitted presentation: which attempt issued its authority and the state it was admitted in. */
  datatype Application = Application(q: Presentation, grant: nat, effectId: string, net: NetState)

  datatype World = World(sys: System, attempts: seq<Attempt>, applications: seq<Application>)

  function Fresh(net: NetState): World {
    World(System(net, {}, EMPTY, NO_ACTIVATIONS, map[]), [], [])
  }

  function AttemptOf(cfg: Config, sys: System, c: Candidate, now: int, ids: Ids): Attempt {
    var denial := DenialOf(cfg, sys, c, now);
    var record := NewRecord(cfg.p, sys.evidence.tail, EntryOf(sys.net, c, denial.None?, now, ids));
    Attempt(c, sys.net, now, ids, denial, record,
            if PedStep(cfg, sys, c, now, ids).1.Issued? then Some(PedStep(cfg, sys, c, now, ids).1.authority) else None)
  }

  predicate HasId(t: Attempt, authorityId: string) {
    t.authority.Some? && t.authority.value.authorityId == authorityId
  }

  /** The attempt that installed the given authority id, if any; 0 otherwise. */
  function GrantOf(attempts: seq<Attempt>, authorityId: string): (k: nat)
    ensures (exists i :: 0 <= i < |attempts| && HasId(attempts[i], authorityId)) ==>
      k < |attempts| && HasId(attempts[k], authorityId)
  {
    if attempts == [] then 0
    else if HasId(attempts[|attempts| - 1], authorityId) then |attempts| - 1
    else
      var earlier := attempts[..|attempts| - 1];
      assert forall i :: 0 <= i < |earlier| ==> earlier[i] == attempts[i];
      assert forall i :: 0 <= i < |attempts| && HasId(attempts[i], authorityId) ==> i < |earlier|;
      GrantOf(earlier, authorityId)
  }

  function WorldStep(cfg: Config, w: World, ev: Event): World {
    var (sys, reply) := Step(cfg, w.sys, ev);
    match ev
    case PedCall(c, now, ids) => World(sys, w.attempts + [AttemptOf(cfg, w.sys, c, now, ids)], w.applications)
    case SinkCall(q, applied) =>
      if reply.FromSink? && reply.outcome.Answered? && reply.outcome.response.allow && applied.Some?
        && q.authority.Some? then
        World(sys, w.attempts,
              w.applications + [Application(q, GrantOf(w.attempts, q.authority.value.authorityId), applied.value,
                                            w.sys.net)])
      else World(sys, w.attempts, w.applications)
    case Environment(_, _, _, _, _, _) => World(sys, w.attempts, w.applications)
  }

  function Run(cfg: Config, w: World, evs: seq<Event>): World
    decreases evs
  {
    if evs == [] then w else Run(cfg, WorldStep(cfg, w, evs[0]), evs[1..])
  }

  // ---- the invariant ----

  function Entries(attempts: seq<Attempt>): seq<Entry> {
    seq(|attempts|, k requires 0 <= k < |attempts| => attempts[k].record.entry)
  }

  function Records(attempts: seq<Attempt>): seq<EvidenceRecord> {
    seq(|attempts|, k requires 0 <= k < |attempts| => attempts[k].record)
  }

  /** What one call of the protected domain made: its entry, and the authority drafted over it. */
  predicate Built(cfg: Config, t: Attempt) {
    && t.record.entry == EntryOf(t.net, t.candidate, t.denial.None?, t.now, t.ids)
    && (t.authority.Some? ==>
          t.denial.None?
          && t.authority.value == Signed(cfg.p, DraftAuthority(cfg, t.net, t.candidate, t.record, t.now, t.ids)))
  }

  /** What one call of the protected domain did, in itself. */
  predicate Sound(cfg: Config, t: Attempt) {
    Built(cfg, t) && (t.denial.None? ==> Validate(cfg.policy, t.net, t.candidate, t.now).None?)
  }

  /** The evidence store holds exactly the committed records, one per call, with consecutive counters. */
  ghost predicate EvidenceInv(cfg: Config, start: int, w: World) {
    && w.sys.evidence == CommitAll(cfg.p, Entries(w.attempts))
    && Records(w.attempts) == History(cfg.p, Entries(w.attempts))
    && w.sys.net.monotonicCounter == start + |w.attempts|
    && forall k ::
         0 <= k < |w.attempts| ==> w.attempts[k].net.monotonicCounter == start + k && Sound(cfg, w.attempts[k])
  }

  /** The store holds the activation of an installed authority. */
  predicate Registered(cfg: Config, records: map<string, ActivationRecord>, t: Attempt) {
    t.authority.Some? ==>
      t.authority.value.authorityId in records
      && records[t.authority.value.authorityId] == ActivationOf(cfg, t.candidate, t.authority.value)
  }

  /** The activation store holds exactly the installed authorities, no id twice. */
  ghost predicate ActivationInv(cfg: Config, w: World) {
    && (forall k :: 0 <= k < |w.attempts| ==> Registered(cfg, w.sys.activations.records, w.attempts[k]))
    && (forall id :: id in w.sys.activations.records ==> exists k :: 0 <= k < |w.attempts| && HasId(w.attempts[k], id))
    && (forall k, l, id :: 0 <= k < l < |w.attempts| && HasId(w.attempts[k], id) ==> !HasId(w.attempts[l], id))
  }

  predicate Reserves(t: Attempt, nonce: string) {
    t.denial.None? && t.candidate.freshness.nonce == nonce
  }

  /** The reserved nonces are exactly those of the allowed attempts, no nonce twice. */
  ghost predicate NonceInv(w: World) {
    && (forall k, n :: 0 <= k < |w.attempts| && Reserves(w.attempts[k], n) ==> n in w.sys.nonces)
    && (forall n :: n in w.sys.nonces ==> exists k :: 0 <= k < |w.attempts| && Reserves(w.attempts[k], n))
    && (forall k, l, n :: 0 <= k < l < |w.attempts| && Reserves(w.attempts[k], n) ==> !Reserves(w.attempts[l], n))
  }

  /** The effect stays within what the candidate asked for. */
  predicate InScope(p: Primitives, c: Candidate, e: ProposedEffect) {
    && e.effectType == c.requestedEffect.effectType
    && e.resourceType == c.resourceScope.resourceType
    && Elements(e.resourceIds) == Elements(c.resourceScope.resourceIds)
    && DigestOf(p, e.parameters, e.parametersDigest.algorithm) == e.parametersDigest.value
    && e.parametersDigest.value == c.requestedEffect.parametersDigest.value
    && (e.durationSeconds.Some? && c.requestedEffect.durationSeconds.Some? ==>
          e.durationSeconds.value <= c.requestedEffect.durationSeconds.value)
  }

  /** Presentation `q` presents exactly what attempt `t` validated and issued, at the sink it named,
      in time, under the state it was issued in, with an effect in scope. */
  predicate Presents(cfg: Config, t: Attempt, net: NetState, q: Presentation) {
    && t.authority.Some? && q.authority == t.authority
    && q.candidate == t.candidate
    && q.sink == SinkIdentity(t.candidate.finalitySink.sinkId, t.candidate.finalitySink.sinkType)
    && q.now < t.authority.value.lifetime.expiresAt
    && net.protectedStateReference == t.net.protectedStateReference
    && net.epochs == t.net.epochs
    && InScope(cfg.p, t.candidate, q.effect)
  }

  predicate Applies(x: Application, authorityId: string) {
    x.q.authority.Some? && x.q.authority.value.authorityId == authorityId
  }

  /** An application presented what its grant issued, and consumed it. */
  predicate Granted(cfg: Config, attempts: seq<Attempt>, used: set<string>, x: Application) {
    && x.grant < |attempts| && Presents(cfg, attempts[x.grant], x.net, x.q)
    && x.q.authority.Some? && x.q.authority.value.authorityId in used
  }

  predicate Produces(x: Application, effectId: string, effect: NetEffect) {
    x.effectId == effectId && x.q.authority.Some? && effect == EffectOf(x.q.candidate, x.q.authority.value, x.q.effect)
  }

  /** Every used authority was applied. */
  ghost predicate UsedApplied(used: set<string>, xs: seq<Application>) {
    forall id :: id in used ==> exists i :: 0 <= i < |xs| && Applies(xs[i], id)
  }

  /** Every effect on the network was produced by an application. */
  ghost predicate EffectsProduced(effects: map<string, NetEffect>, xs: seq<Application>) {
    forall e :: e in effects ==> exists i :: 0 <= i < |xs| && Produces(xs[i], e, effects[e])
  }

  /** Used authorities are exactly the applied ones, no grant is applied twice, and every effect on
      the network was produced by an application. */
  ghost predicate ApplicationInv(cfg: Config, w: World) {
    && (forall i :: 0 <= i < |w.applications| ==> Granted(cfg, w.attempts, w.sys.activations.used, w.applications[i]))
    && (forall i, j :: 0 <= i < j < |w.applications| ==> w.applications[i].grant != w.applications[j].grant)
    && UsedApplied(w.sys.activations.used, w.applications)
    && EffectsProduced(w.sys.effects, w.applications)
  }

  ghost predicate Inv(cfg: Config, start: int, w: World) {
    EvidenceInv(cfg, start, w) && ActivationInv(cfg, w) && NonceInv(w) && ApplicationInv(cfg, w)
  }
}
