/** What the protocol guarantees over whole runs. */
module Finality {
  import opened Wrappers
  import opened Canonical
  import opened Crypto
  import opened Models
  import opened Evidence
  import opened State
  import opened Policy
  import opened SystemState
  import opened Ped
  import opened Sink
  import opened Protocol
  import opened Invariants
  import Base64Url

  // ---- every effect is backed, and backed once ----

  lemma ApplicationFacts(cfg: Config, start: int, w: World, i: nat)
    requires Inv(cfg, start, w) && i < |w.applications|
    ensures Granted(cfg, w.attempts, w.sys.activations.used, w.applications[i])
    ensures Sound(cfg, w.attempts[w.applications[i].grant])
  {
    hide Presents, Sound, CommitAll, History, ActivationInv, NonceInv, EffectsProduced, UsedApplied;
  }

  /** The attempt behind an application: allowed by policy, with ALLOW evidence for this candidate
      and decision in the chain, named by the authority through its id and digest. */
  predicate Backed(cfg: Config, w: World, k: nat) {
    && k < |w.attempts| && w.attempts[k].authority.Some?
    && var t := w.attempts[k]; var a := t.authority.value;
       && Validate(cfg.policy, t.net, t.candidate, t.now).None?
       && History(cfg.p, Entries(w.attempts))[k] == t.record
       && t.record.entry.decision == "ALLOW" && t.record.entry.candidateActId == t.candidate.candidateActId
       && t.record.entry.decisionId == a.decisionId
       && a.binding.evidenceId == t.record.entry.evidenceId && a.binding.evidenceDigest.value == t.record.digest
       && a.binding.candidateActDigest.value == CandidateDigest(cfg.p, t.candidate)
  }

  /** Each admitted presentation showed an authority that the domain issued, for the candidate it
      validated, over evidence committed in the chain before the authority that names it. */
  lemma EffectsAreBacked(cfg: Config, net: NetState, evs: seq<Event>, i: nat)
    requires Ideal(cfg.p) && i < |Run(cfg, Fresh(net), evs).applications|
    ensures var w := Run(cfg, Fresh(net), evs); var x := w.applications[i];
            Backed(cfg, w, x.grant) && Presents(cfg, w.attempts[x.grant], x.net, x.q)
  {
    hide Run, Inv, Backed, Presents, Sound, Ideal;
    var w := Run(cfg, Fresh(net), evs);
    ReachableInv(cfg, net, evs);
    ApplicationFacts(cfg, net.monotonicCounter, w, i);
    PresentsAuthority(cfg, w, i);
    IssuedIsBacked(cfg, net.monotonicCounter, w, w.applications[i].grant);
  }

  lemma IssuedIsBacked(cfg: Config, start: int, w: World, k: nat)
    requires Inv(cfg, start, w) && k < |w.attempts| && Sound(cfg, w.attempts[k]) && w.attempts[k].authority.Some?
    ensures Backed(cfg, w, k)
  {
    hide Inv, Validate, History, Sign, UnsignedPayload, CandidateDigest, Commitment, BoundaryId, ExpiryOf;
    RecordAt(cfg, start, w, k);
  }

  lemma PresentsAuthority(cfg: Config, w: World, i: nat)
    requires i < |w.applications| && Granted(cfg, w.attempts, w.sys.activations.used, w.applications[i])
    ensures w.attempts[w.applications[i].grant].authority.Some?
  {
    hide InScope;
  }

  lemma RecordAt(cfg: Config, start: int, w: World, k: nat)
    requires Inv(cfg, start, w) && k < |w.attempts|
    ensures History(cfg.p, Entries(w.attempts))[k] == w.attempts[k].record
  {
    hide Sound, CommitAll, History, ActivationInv, NonceInv, ApplicationInv;
    assert Records(w.attempts)[k] == w.attempts[k].record;
  }

  /** Everything on the network was put there by an admitted presentation, and an authority is used
      exactly when one of its presentations was admitted. */
  lemma NetworkIsBacked(cfg: Config, net: NetState, evs: seq<Event>)
    requires Ideal(cfg.p)
    ensures var w := Run(cfg, Fresh(net), evs);
            && EffectsProduced(w.sys.effects, w.applications)
            && UsedApplied(w.sys.activations.used, w.applications)
            && (forall i, id ::
                0 <= i < |w.applications| && Applies(w.applications[i], id) ==> id in w.sys.activations.used)
            && |w.sys.activations.used| == |w.applications|
  {
    hide Run, Inv, EffectsProduced, UsedApplied, Applies, Ideal;
    ReachableInv(cfg, net, evs);
    UsedIsApplied(cfg, net.monotonicCounter, Run(cfg, Fresh(net), evs));
  }

  lemma UsedIsApplied(cfg: Config, start: int, w: World)
    requires Inv(cfg, start, w)
    ensures EffectsProduced(w.sys.effects, w.applications) && UsedApplied(w.sys.activations.used, w.applications)
    ensures forall i, id :: 0 <= i < |w.applications| && Applies(w.applications[i], id) ==> id in w.sys.activations.used
    ensures |w.sys.activations.used| == |w.applications|
  {
    hide Presents, EffectsProduced, UsedApplied, EvidenceInv, ActivationInv, NonceInv;
    forall i | 0 <= i < |w.applications|
      ensures w.applications[i].q.authority.Some?
              && w.applications[i].q.authority.value.authorityId in w.sys.activations.used
    {
      assert Granted(cfg, w.attempts, w.sys.activations.used, w.applications[i]);
    }
    forall i, j | 0 <= i < j < |w.applications|
      ensures w.applications[i].q.authority.value.authorityId != w.applications[j].q.authority.value.authorityId
    {
      DistinctApplications(cfg, start, w, i, j);
    }
    CountUsed(w.applications, w.sys.activations.used);
  }

  lemma DistinctApplications(cfg: Config, start: int, w: World, i: nat, j: nat)
    requires Inv(cfg, start, w) && i < j < |w.applications|
    ensures var x, y := w.applications[i].q, w.applications[j].q;
            && x.authority.Some? && y.authority.Some? && x.authority.value.authorityId != y.authority.value.authorityId
            && x.candidate.freshness.nonce != y.candidate.freshness.nonce
  {
    hide Inv, InScope, Sound;
    ApplicationFacts(cfg, start, w, i);
    ApplicationFacts(cfg, start, w, j);
    GrantsDiffer(cfg, start, w, i, j);
    DistinctGrants(cfg, start, w, w.applications[i].grant, w.applications[j].grant);
  }

  lemma GrantsDiffer(cfg: Config, start: int, w: World, i: nat, j: nat)
    requires Inv(cfg, start, w) && i < j < |w.applications|
    ensures w.applications[i].grant != w.applications[j].grant
  {
    hide EvidenceInv, ActivationInv, NonceInv, Granted, EffectsProduced, UsedApplied;
  }

  /** The effect is of the type, on the resources and with the parameters that the candidate asks for. */
  predicate AsAsked(p: Primitives, effect: NetEffect, c: Candidate) {
    && effect.candidateActId == c.candidateActId
    && effect.effectType == c.requestedEffect.effectType && effect.resourceType == c.resourceScope.resourceType
    && (set r | r in effect.resourceIds) == (set r | r in c.resourceScope.resourceIds)
    && exists a: Algorithm :: DigestOf(p, effect.parameters, a) == c.requestedEffect.parametersDigest.value
  }

  lemma CarriedIsAsked(p: Primitives, effect: NetEffect, q: Presentation)
    requires Carries(effect, q) && InScope(p, q.candidate, q.effect)
    ensures AsAsked(p, effect, q.candidate)
  {
    hide DigestOf;
  }

  /** Every effect on the network carries, field by field, what one admitted presentation showed, and is
      what the candidate validated by the domain asks for. */
  lemma EffectsAreAsAsked(cfg: Config, net: NetState, evs: seq<Event>, e: string)
    requires Ideal(cfg.p) && e in Run(cfg, Fresh(net), evs).sys.effects
    ensures var w := Run(cfg, Fresh(net), evs);
            exists i :: 0 <= i < |w.applications| && MadeBy(cfg, w, i, e)
  {
    hide Run, Inv, Ideal, MadeBy;
    ReachableInv(cfg, net, evs);
    EffectMade(cfg, net.monotonicCounter, Run(cfg, Fresh(net), evs), e);
  }

  predicate MadeBy(cfg: Config, w: World, i: nat, e: string) {
    && i < |w.applications| && e in w.sys.effects && w.applications[i].effectId == e
    && w.applications[i].grant < |w.attempts| && Carries(w.sys.effects[e], w.applications[i].q)
    && AsAsked(cfg.p, w.sys.effects[e], w.attempts[w.applications[i].grant].candidate)
  }

  lemma EffectMade(cfg: Config, start: int, w: World, e: string)
    requires Inv(cfg, start, w) && e in w.sys.effects
    ensures exists i :: 0 <= i < |w.applications| && MadeBy(cfg, w, i, e)
  {
    hide Inv, InScope, Sound, AsAsked, EffectOf, EffectsProduced, UsedApplied;
    UsedIsApplied(cfg, start, w);
    var i := ProducerOf(w.sys.effects, w.applications, e);
    ApplicationFacts(cfg, start, w, i);
    EffectCarries(w.applications[i].q);
    CarriedIsAsked(cfg.p, w.sys.effects[e], w.applications[i].q);
    assert MadeBy(cfg, w, i, e);
  }

  lemma ProducerOf(effects: map<string, NetEffect>, xs: seq<Application>, e: string) returns (i: nat)
    requires EffectsProduced(effects, xs) && e in effects
    ensures i < |xs| && Produces(xs[i], e, effects[e])
  {
    i :| 0 <= i < |xs| && Produces(xs[i], e, effects[e]);
  }

  /** At most one effect per authority, per nonce and per candidate. */
  lemma AtMostOnce(cfg: Config, net: NetState, evs: seq<Event>, i: nat, j: nat)
    requires Ideal(cfg.p) && i < j < |Run(cfg, Fresh(net), evs).applications|
    ensures var w := Run(cfg, Fresh(net), evs); var x, y := w.applications[i].q, w.applications[j].q;
            && x.authority.Some? && y.authority.Some? && x.authority.value.authorityId != y.authority.value.authorityId
            && x.candidate.freshness.nonce != y.candidate.freshness.nonce
            && CandidateDigest(cfg.p, x.candidate) != CandidateDigest(cfg.p, y.candidate)
  {
    hide Run, Inv, Ideal, CandidateDigest;
    var w := Run(cfg, Fresh(net), evs);
    ReachableInv(cfg, net, evs);
    DistinctApplications(cfg, net.monotonicCounter, w, i, j);
    CandidateDigestBinds(cfg.p, w.applications[i].q.candidate, w.applications[j].q.candidate);
  }

  predicate Separate(sys: System, d: string, e: string) {
    d in sys.effects && e in sys.effects && d != e ==>
      sys.effects[d].authorityId != sys.effects[e].authorityId
      && {sys.effects[d].authorityId, sys.effects[e].authorityId} <= sys.activations.used
  }

  /** Effects on the network map injectively to used authorities: no two carry the same one. */
  lemma EffectsAreInjective(cfg: Config, net: NetState, evs: seq<Event>, d: string, e: string)
    requires Ideal(cfg.p)
    ensures Separate(Run(cfg, Fresh(net), evs).sys, d, e)
  {
    hide Run, Inv, Ideal, Separate;
    ReachableInv(cfg, net, evs);
    SeparateEffects(cfg, net.monotonicCounter, Run(cfg, Fresh(net), evs), d, e);
  }

  lemma SeparateEffects(cfg: Config, start: int, w: World, d: string, e: string)
    requires Inv(cfg, start, w)
    ensures Separate(w.sys, d, e)
  {
    hide Inv, EffectsProduced, UsedApplied;
    if d in w.sys.effects && e in w.sys.effects && d != e {
      UsedIsApplied(cfg, start, w);
      var i := Producer(w.sys.effects, w.applications, d);
      var j := Producer(w.sys.effects, w.applications, e);
      if i < j {
        DistinctApplications(cfg, start, w, i, j);
      } else {
        DistinctApplications(cfg, start, w, j, i);
      }
    }
  }

  lemma Producer(effects: map<string, NetEffect>, xs: seq<Application>, e: string) returns (i: nat)
    requires EffectsProduced(effects, xs) && e in effects
    ensures i < |xs| && xs[i].effectId == e && Applies(xs[i], effects[e].authorityId)
  {
    i :| 0 <= i < |xs| && Produces(xs[i], e, effects[e]);
  }

  lemma DistinctGrants(cfg: Config, start: int, w: World, k: nat, l: nat)
    requires Inv(cfg, start, w) && k < |w.attempts| && l < |w.attempts| && k != l
    requires w.attempts[k].authority.Some? && w.attempts[l].authority.Some?
    ensures w.attempts[k].authority.value.authorityId != w.attempts[l].authority.value.authorityId
    ensures w.attempts[k].candidate.freshness.nonce != w.attempts[l].candidate.freshness.nonce
  {
    hide Signed, Validate, EntryOf, DraftAuthority, CommitAll, History, ApplicationInv, Registered;
    var a, b := if k < l then k else l, if k < l then l else k;
    assert Sound(cfg, w.attempts[a]) && Sound(cfg, w.attempts[b]);
    assert HasId(w.attempts[a], w.attempts[a].authority.value.authorityId);
    assert Reserves(w.attempts[a], w.attempts[a].candidate.freshness.nonce);
  }

  lemma {:induction false} CountUsed(xs: seq<Application>, used: set<string>)
    requires forall i :: 0 <= i < |xs| ==> xs[i].q.authority.Some? && xs[i].q.authority.value.authorityId in used
    requires UsedApplied(used, xs)
    requires forall i, j ::
               0 <= i < j < |xs| ==> xs[i].q.authority.value.authorityId != xs[j].q.authority.value.authorityId
    ensures |used| == |xs|
  {
    if xs == [] {
      assert used == {};
    } else {
      var n := |xs| - 1;
      var id := xs[n].q.authority.value.authorityId;
      forall u | u in used - {id} ensures exists i :: 0 <= i < n && Applies(xs[..n][i], u) {
        var i :| 0 <= i < |xs| && Applies(xs[i], u);
        assert Applies(xs[..n][i], u);
      }
      CountUsed(xs[..n], used - {id});
    }
  }

  // ---- evidence accounting ----

  function CountAllowed(ts: seq<Attempt>): nat {
    if ts == [] then 0 else CountAllowed(ts[..|ts| - 1]) + (if ts[|ts| - 1].denial.None? then 1 else 0)
  }

  function CountInstalled(ts: seq<Attempt>): nat {
    if ts == [] then 0 else CountInstalled(ts[..|ts| - 1]) + (if ts[|ts| - 1].authority.Some? then 1 else 0)
  }

  lemma {:induction false} CountNonces(ts: seq<Attempt>, nonces: set<string>)
    requires forall k, n :: 0 <= k < |ts| && Reserves(ts[k], n) ==> n in nonces
    requires forall n :: n in nonces ==> exists k :: 0 <= k < |ts| && Reserves(ts[k], n)
    requires forall k, l, n :: 0 <= k < l < |ts| && Reserves(ts[k], n) ==> !Reserves(ts[l], n)
    ensures |nonces| == CountAllowed(ts)
  {
    if ts == [] {
      assert nonces == {};
    } else {
      var n, last := |ts| - 1, ts[|ts| - 1];
      var earlier := if last.denial.None? then nonces - {last.candidate.freshness.nonce} else nonces;
      if last.denial.None? { assert Reserves(last, last.candidate.freshness.nonce); }
      forall m | m in earlier ensures exists k :: 0 <= k < n && Reserves(ts[..n][k], m) {
        var k :| 0 <= k < |ts| && Reserves(ts[k], m);
        assert Reserves(ts[..n][k], m);
      }
      CountNonces(ts[..n], earlier);
    }
  }

  lemma {:induction false} CountRecords(ts: seq<Attempt>, ids: set<string>)
    requires forall k :: 0 <= k < |ts| && ts[k].authority.Some? ==> ts[k].authority.value.authorityId in ids
    requires forall id :: id in ids ==> exists k :: 0 <= k < |ts| && HasId(ts[k], id)
    requires forall k, l, id :: 0 <= k < l < |ts| && HasId(ts[k], id) ==> !HasId(ts[l], id)
    ensures |ids| == CountInstalled(ts)
  {
    if ts == [] {
      assert ids == {};
    } else {
      var n, last := |ts| - 1, ts[|ts| - 1];
      var earlier := if last.authority.Some? then ids - {last.authority.value.authorityId} else ids;
      if last.authority.Some? { assert HasId(last, last.authority.value.authorityId); }
      forall id | id in earlier ensures exists k :: 0 <= k < n && HasId(ts[..n][k], id) {
        var k :| 0 <= k < |ts| && HasId(ts[k], id);
        assert HasId(ts[..n][k], id);
      }
      forall k | 0 <= k < n && ts[..n][k].authority.Some? ensures ts[..n][k].authority.value.authorityId in earlier {
        assert HasId(ts[k], ts[k].authority.value.authorityId);
      }
      CountRecords(ts[..n], earlier);
    }
  }

  lemma {:induction false} InstalledAtMostAllowed(ts: seq<Attempt>)
    requires forall k :: 0 <= k < |ts| && ts[k].authority.Some? ==> ts[k].denial.None?
    ensures CountInstalled(ts) <= CountAllowed(ts)
    ensures CountInstalled(ts) == CountAllowed(ts) <==>
            forall k :: 0 <= k < |ts| && ts[k].denial.None? ==> ts[k].authority.Some?
  {
    if ts != [] {
      var n := |ts| - 1;
      InstalledAtMostAllowed(ts[..n]);
      assert forall k :: 0 <= k < n ==> ts[..n][k] == ts[k];
    }
  }

  predicate CountedAt(log: seq<EvidenceRecord>, start: int, w: World, k: nat)
    requires k < |log| == |w.attempts|
  {
    && log[k].entry.monotonicCounter == start + k + 1
    && (log[k].entry.decision == "ALLOW" <==> w.attempts[k].denial.None?)
  }

  predicate DrewSameId(t: Attempt, u: Attempt) {
    t.denial.None? && u.denial.None? && t.ids.authorityId == u.ids.authorityId
  }

  /** No two allowed calls drew the same authority id. */
  predicate AuthorityIdsDistinct(ts: seq<Attempt>) {
    forall j, k :: 0 <= j < k < |ts| ==> !DrewSameId(ts[j], ts[k])
  }

  /** Each call commits one record, the n-th with counter start + n; the ALLOW records are as many as
      the reserved nonces, and as many as the activations exactly when no two allowed calls drew the
      same authority id. */
  ghost predicate Accounted(cfg: Config, start: int, w: World) {
    var log := History(cfg.p, Entries(w.attempts));
    && w.sys.evidence == CommitAll(cfg.p, Entries(w.attempts)) && |log| == |w.attempts|
    && w.sys.net.monotonicCounter == start + |log|
    && (forall k :: 0 <= k < |log| ==> CountedAt(log, start, w, k))
    && |w.sys.nonces| == CountAllowed(w.attempts)
    && |w.sys.activations.records| == CountInstalled(w.attempts)
    && (|w.sys.activations.records| == |w.sys.nonces| <==> AuthorityIdsDistinct(w.attempts))
  }

  lemma EvidenceAccounting(cfg: Config, net: NetState, evs: seq<Event>)
    requires Ideal(cfg.p)
    ensures Accounted(cfg, net.monotonicCounter, Run(cfg, Fresh(net), evs))
  {
    hide Run, Inv, Ideal, Accounted, Fresh;
    ReachableInv(cfg, net, evs);
    FreshInv(cfg, net);
    FreshFailures(net);
    RunFailures(cfg, net.monotonicCounter, Fresh(net), evs);
    AccountedAt(cfg, net.monotonicCounter, Run(cfg, Fresh(net), evs));
  }

  lemma FreshFailures(net: NetState)
    ensures FailuresMet(Fresh(net).attempts)
  {
  }

  /** An earlier call installed an authority under this id. */
  ghost predicate TakenBefore(ts: seq<Attempt>, k: nat, id: string) {
    exists j :: 0 <= j < k && j < |ts| && HasId(ts[j], id)
  }

  /** An allowed call that installed nothing drew an id that an earlier call had installed. */
  ghost predicate FailuresMet(ts: seq<Attempt>) {
    forall k :: 0 <= k < |ts| && ts[k].denial.None? && ts[k].authority.None? ==>
        TakenBefore(ts, k, ts[k].ids.authorityId)
  }

  lemma FailuresLater(ts: seq<Attempt>, t: Attempt)
    requires FailuresMet(ts)
    requires t.denial.None? && t.authority.None? ==> exists j :: 0 <= j < |ts| && HasId(ts[j], t.ids.authorityId)
    ensures FailuresMet(ts + [t])
  {
    hide HasId;
    var all := ts + [t];
    forall k | 0 <= k < |all| && all[k].denial.None? && all[k].authority.None?
      ensures TakenBefore(all, k, all[k].ids.authorityId)
    {
      if k < |ts| { assert TakenBefore(ts, k, ts[k].ids.authorityId); }
      var j :| 0 <= j < |ts| && j < k && HasId(ts[j], all[k].ids.authorityId);
      assert HasId(all[j], all[k].ids.authorityId);
    }
  }

  lemma StepFailures(cfg: Config, start: int, w: World, ev: Event)
    requires Inv(cfg, start, w) && FailuresMet(w.attempts)
    ensures FailuresMet(WorldStep(cfg, w, ev).attempts)
  {
    hide Step, AttemptOf, FailuresMet, EvidenceInv, NonceInv, ApplicationInv, Registered;
    if ev.PedCall? {
      AttemptEffect(cfg, w.sys, ev.candidate, ev.now, ev.ids);
      AttemptIds(cfg, w.sys, ev.candidate, ev.now, ev.ids);
      FailuresLater(w.attempts, AttemptOf(cfg, w.sys, ev.candidate, ev.now, ev.ids));
    }
  }

  lemma AttemptIds(cfg: Config, sys: System, c: Candidate, now: int, ids: Ids)
    ensures AttemptOf(cfg, sys, c, now, ids).ids == ids
  {
    hide PedStep, DenialOf, NewRecord;
  }

  lemma {:induction false} RunFailures(cfg: Config, start: int, w: World, evs: seq<Event>)
    requires Ideal(cfg.p) && Inv(cfg, start, w) && FailuresMet(w.attempts)
    ensures FailuresMet(Run(cfg, w, evs).attempts)
    decreases |evs|
  {
    hide WorldStep, Inv, Ideal, FailuresMet;
    if evs != [] {
      StepKeeps(cfg, start, w, evs[0]);
      StepFailures(cfg, start, w, evs[0]);
      RunFailures(cfg, start, WorldStep(cfg, w, evs[0]), evs[1..]);
    }
  }

  lemma AccountedAt(cfg: Config, start: int, w: World)
    requires Inv(cfg, start, w) && FailuresMet(w.attempts)
    ensures Accounted(cfg, start, w)
  {
    hide Inv, History, CommitAll, FailuresMet, AuthorityIdsDistinct;
    StoreAccounting(cfg, start, w);
    InstalledIffDistinct(cfg, start, w);
    forall k | 0 <= k < |w.attempts| ensures CountedAt(History(cfg.p, Entries(w.attempts)), start, w, k) {
      EntryAccounting(cfg, start, w, k);
    }
  }

  /** Every allowed call installed its authority exactly when the ids drawn by allowed calls differ. */
  lemma InstalledIffDistinct(cfg: Config, start: int, w: World)
    requires Inv(cfg, start, w) && FailuresMet(w.attempts)
    ensures (forall k :: 0 <= k < |w.attempts| && w.attempts[k].denial.None? ==> w.attempts[k].authority.Some?)
            <==> AuthorityIdsDistinct(w.attempts)
  {
    hide Validate, EntryOf, CommitAll, History, ApplicationInv, NonceInv, Registered, Sign, UnsignedPayload,
         CandidateDigest, Commitment, BoundaryId, ExpiryOf;
    var ts := w.attempts;
    forall k | 0 <= k < |ts| && ts[k].authority.Some?
      ensures ts[k].denial.None? && HasId(ts[k], ts[k].ids.authorityId)
      ensures forall id :: HasId(ts[k], id) ==> id == ts[k].ids.authorityId
    {
      assert Sound(cfg, ts[k]);
    }
  }

  lemma EntryAccounting(cfg: Config, start: int, w: World, k: nat)
    requires Inv(cfg, start, w) && k < |w.attempts|
    ensures var r := History(cfg.p, Entries(w.attempts))[k];
            r.entry.monotonicCounter == start + k + 1 && (r.entry.decision == "ALLOW" <==> w.attempts[k].denial.None?)
  {
    hide History, CommitAll, Validate, Signed, DraftAuthority, ActivationInv, NonceInv, ApplicationInv;
    RecordAt(cfg, start, w, k);
    assert Sound(cfg, w.attempts[k]);
  }

  lemma StoreAccounting(cfg: Config, start: int, w: World)
    requires Inv(cfg, start, w)
    ensures w.sys.evidence == CommitAll(cfg.p, Entries(w.attempts))
            && w.sys.net.monotonicCounter == start + |w.attempts|
    ensures |w.sys.nonces| == CountAllowed(w.attempts)
    ensures |w.sys.activations.records| == CountInstalled(w.attempts)
    ensures |w.sys.activations.records| == |w.sys.nonces| <==>
            forall k :: 0 <= k < |w.attempts| && w.attempts[k].denial.None? ==> w.attempts[k].authority.Some?
  {
    hide Validate, Signed, DraftAuthority, History, CommitAll, ApplicationInv;
    CountNonces(w.attempts, w.sys.nonces);
    forall k | 0 <= k < |w.attempts| && w.attempts[k].authority.Some?
      ensures w.attempts[k].authority.value.authorityId in w.sys.activations.records.Keys && w.attempts[k].denial.None?
    {
      assert Registered(cfg, w.sys.activations.records, w.attempts[k]) && Sound(cfg, w.attempts[k]);
    }
    CountRecords(w.attempts, w.sys.activations.records.Keys);
    assert |w.sys.activations.records| == |w.sys.activations.records.Keys|;
    InstalledAtMostAllowed(w.attempts);
  }

  /** The evidence of an attempt stays intact exactly as long as no later attempt reuses its id. */
  lemma IntactIffNotReused(cfg: Config, start: int, w: World, k: nat)
    requires Ideal(cfg.p) && EvidenceInv(cfg, start, w) && k < |w.attempts|
    ensures Intact(w, w.attempts[k])
            <==> forall j :: k < j < |w.attempts| ==> w.attempts[j].ids.evidenceId != w.attempts[k].ids.evidenceId
  {
    hide CommitAll, History, Ideal, Validate, Signed, DraftAuthority;
    FoundIffLastUse(cfg.p, Entries(w.attempts), k);
    forall j | 0 <= j < |w.attempts|
      ensures Entries(w.attempts)[j].evidenceId == w.attempts[j].ids.evidenceId
    {
      assert Sound(cfg, w.attempts[j]);
    }
    assert Records(w.attempts)[k] == w.attempts[k].record;
  }

  // ---- time ----

  /** Every admitted presentation came before its candidate expired, and within the candidate's
      greatest age plus the authority lifetime after it was created. */
  lemma TimeBound(cfg: Config, net: NetState, evs: seq<Event>, i: nat)
    requires Ideal(cfg.p) && i < |Run(cfg, Fresh(net), evs).applications|
    ensures var x := Run(cfg, Fresh(net), evs).applications[i].q;
            x.now < x.candidate.expiresAt
            && x.now < x.candidate.createdAt + cfg.policy.maxCandidateAge + cfg.policy.authorityTtl
  {
    hide Run, Inv, Sign, UnsignedPayload, CandidateDigest, Commitment, BoundaryId, EntryOf, InScope, Ideal;
    ReachableInv(cfg, net, evs);
    ApplicationFacts(cfg, net.monotonicCounter, Run(cfg, Fresh(net), evs), i);
  }

  // ---- scope ----

  /** Any two effects in scope of one candidate agree on everything that is bound: type, resources,
      digest algorithm and the canonical bytes of the parameters. */
  lemma ScopeDeterminacy(p: Primitives, c: Candidate, e: ProposedEffect, f: ProposedEffect)
    requires Ideal(p) && InScope(p, c, e) && InScope(p, c, f)
    ensures SameEffect(p, e, f)
  {
    hide DigestOf, Elements, Ideal, CanonicalBytes;
    DigestMeaning(p, e.parameters, e.parametersDigest.algorithm, f.parameters, f.parametersDigest.algorithm);
    CanonicalMeaning(p.stamp, e.parameters, f.parameters);
  }

  predicate SameEffect(p: Primitives, e: ProposedEffect, f: ProposedEffect) {
    && e.effectType == f.effectType && e.resourceType == f.resourceType
    && Elements(e.resourceIds) == Elements(f.resourceIds) && e.parametersDigest == f.parametersDigest
    && CanonicalBytes(p.stamp, e.parameters) == CanonicalBytes(p.stamp, f.parameters)
  }

  /** What passing the ladder says of the candidate and of the effect, by the authority alone. */
  lemma PassedByAuthority(cfg: Config, sys: System, q: Presentation)
    requires Ladder(cfg, sys, q).None?
    ensures var a, e := q.authority.value, q.effect;
            && CandidateDigest(cfg.p, q.candidate) == a.binding.candidateActDigest.value
            && e.effectType == a.scope.permittedEffectType && e.resourceType == a.scope.resourceType
            && Elements(e.resourceIds) == Elements(a.scope.resourceIds)
            && e.parametersDigest.value == a.scope.parametersDigest
            && DigestOf(cfg.p, e.parameters, e.parametersDigest.algorithm) == e.parametersDigest.value
  {
    hide DigestOf, Elements, CandidateDigest, Verify, UnsignedPayload, CheckActivation, CheckEvidence, CheckSink,
         CheckState;
  }

  /** Any two presentations of one authority that pass the ladder, in whatever two states, show the same
      candidate and agree on everything that is bound in the effect. */
  lemma EffectDeterminacy(cfg: Config, sys: System, q: Presentation, sys': System, r: Presentation)
    requires Ideal(cfg.p) && q.authority == r.authority
    requires Ladder(cfg, sys, q).None? && Ladder(cfg, sys', r).None?
    ensures q.candidate == r.candidate && SameEffect(cfg.p, q.effect, r.effect)
  {
    hide Ladder, DigestOf, Elements, CandidateDigest, Ideal, CanonicalBytes;
    PassedByAuthority(cfg, sys, q);
    PassedByAuthority(cfg, sys', r);
    CandidateDigestBinds(cfg.p, q.candidate, r.candidate);
    DigestMeaning(cfg.p, q.effect.parameters, q.effect.parametersDigest.algorithm,
                  r.effect.parameters, r.effect.parametersDigest.algorithm);
    CanonicalMeaning(cfg.p.stamp, q.effect.parameters, r.effect.parameters);
  }

  function WithDuration(q: Presentation, d: Option<int>): Presentation {
    q.(effect := q.effect.(durationSeconds := d))
  }

  /** The sink compares durations only when both sides name one. */
  predicate Narrows(named: Option<int>, proposed: Option<int>) {
    named.Some? && proposed.Some? ==> proposed.value <= named.value
  }

  /** An effect held to the policy maximum. */
  predicate Within(d: Option<int>, most: int) {
    d.Some? && d.value <= most
  }

  /** Durations narrow from policy to candidate to effect, but only where both sides name one. The
      policy maximum bounds every effect that can be admitted in place of this one, among those that
      name a duration or among those that do not, exactly when the candidate and the effect both name
      one. In every other case one is admitted that the maximum does not bound. */
  lemma DurationBoundIffNamed(cfg: Config, start: int, w: World, q: Presentation, names: bool)
    requires Ideal(cfg.p) && Inv(cfg, start, w) && Ladder(cfg, w.sys, q).None?
    ensures forall d: Option<int> ::
              Ladder(cfg, w.sys, WithDuration(q, d)).None? <==> Narrows(q.candidate.requestedEffect.durationSeconds, d)
    ensures q.candidate.requestedEffect.durationSeconds.Some? && names
            <==> forall d: Option<int> ::
                d.Some? == names && Ladder(cfg, w.sys, WithDuration(q, d)).None? ==>
                    Within(d, cfg.policy.maxEffectDuration)
  {
    hide Ladder, Intact, EvidenceInv, ActivationInv, NonceInv, ApplicationInv, Ideal;
    AcceptIff(cfg, start, w, q);
    var k: nat :| Admissible(cfg, w, k, q);
    AdmissibleIsGenuine(cfg, w, k, q);
    GrantedDuration(cfg, start, w, k);
    var named := q.candidate.requestedEffect.durationSeconds;
    forall d: Option<int> ensures Ladder(cfg, w.sys, WithDuration(q, d)).None? <==> Narrows(named, d) {
      AcceptGenuine(cfg, start, w, k, WithDuration(q, d));
      WithDurationPresents(cfg, w, k, q, d);
    }
    var loose := if names then Some(cfg.policy.maxEffectDuration + 1) else None;
    assert !Within(loose, cfg.policy.maxEffectDuration);
    assert Ladder(cfg, w.sys, WithDuration(q, loose)).None? <==> Narrows(named, loose);
  }

  lemma WithDurationPresents(cfg: Config, w: World, k: nat, q: Presentation, d: Option<int>)
    requires Admissible(cfg, w, k, q)
    ensures Admissible(cfg, w, k, WithDuration(q, d)) <==> Narrows(q.candidate.requestedEffect.durationSeconds, d)
  {
    hide Intact, DigestOf, Elements;
  }

  lemma GrantedDuration(cfg: Config, start: int, w: World, k: nat)
    requires EvidenceInv(cfg, start, w) && k < |w.attempts| && w.attempts[k].authority.Some?
    ensures var d := w.attempts[k].candidate.requestedEffect.durationSeconds;
            d.Some? ==> d.value <= cfg.policy.maxEffectDuration
  {
    hide CommitAll, History, Signed, DraftAuthority, EntryOf;
    SoundAttempt(cfg, start, w, k);
  }

  // ---- which denials can happen ----

  /** The checks that can never be the one that denies, for any presentation in any reachable state:
      eight come after the comparison with the activation record, which already decides them. The two
      of the locked section are no answers of the ladder; `LockedAfterLadder` shows them dead. */
  lemma DeadRungs(cfg: Config, start: int, w: World, q: Presentation)
    requires Ideal(cfg.p) && Inv(cfg, start, w) && Ladder(cfg, w.sys, q).Some?
    ensures Ladder(cfg, w.sys, q).value !in {CommitmentMismatch, SinkIdMismatch, NonceMismatch, SequenceMismatch,
              ActTypeMismatch, SubscriberScopeMismatch, PurposeMismatch, JurisdictionMismatch, UsedUnderLock,
              NotConsumed}
    ensures Genuine(w, q) ==> Ladder(cfg, w.sys, q).value !in {NoAuthority, UnknownKey, BadSignature, CandidateMismatch,
              ActivationAbsent, ActivationExpired, ActivationDigestMismatch}
  {
    hide Ladder, Intact, EvidenceInv, ActivationInv, NonceInv, ApplicationInv, DigestOf, Elements, Ideal;
    if Genuine(w, q) {
      var k :| 0 <= k < |w.attempts| && w.attempts[k].authority.Some?
               && q.authority == w.attempts[k].authority && q.candidate == w.attempts[k].candidate;
      LadderWhenGenuine(cfg, start, w, k, q);
    } else {
      LadderWhenNot(cfg, w, q);
    }
  }

  /** These are signature bytes that the scheme accepts. */
  predicate Accepted(p: Primitives, payload: seq<byte>, bytes: Option<seq<byte>>) {
    bytes.Some? && p.check(payload, bytes.value)
  }

  /** For any other signature text on an admitted authority the answer is known: if the text decodes to
      bytes that the scheme accepts for the payload, the activation digest denies it; if it does not decode,
      or the scheme refuses its bytes, the signature check does. */
  lemma SignatureTextIsPinned(cfg: Config, start: int, w: World, q: Presentation, text: string)
    requires Ideal(cfg.p) && Inv(cfg, start, w) && Ladder(cfg, w.sys, q).None?
    requires text != q.authority.value.issuer.signature
    ensures var b := WithSignature(q.authority.value, text);
            Ladder(cfg, w.sys, q.(authority := Some(b)))
            == Some(if Verify(cfg.p, UnsignedPayload(cfg.p, b), text) then ActivationDigestMismatch else BadSignature)
    ensures Ladder(cfg, w.sys, q.(authority := Some(WithSignature(q.authority.value, text))))
            == Some(if Accepted(cfg.p, UnsignedPayload(cfg.p, q.authority.value), Base64Url.Decode(text))
                    then ActivationDigestMismatch else BadSignature)
  {
    hide Verify, UnsignedPayload, AuthorityDigest, CandidateDigest, CheckSink, CheckState, CheckScope, Inv, Ideal;
    var a := q.authority.value;
    var b := WithSignature(a, text);
    assert WithSignature(a, "") == WithSignature(b, "");
    PayloadCoverage(cfg.p, a, b);
    AuthorityDigestBinds(cfg.p, a, b);
    VerifiesIff(cfg.p, UnsignedPayload(cfg.p, b), text);
  }

  lemma AdmittedIsSigned(cfg: Config, start: int, w: World, q: Presentation)
    requires Ideal(cfg.p) && Inv(cfg, start, w) && Ladder(cfg, w.sys, q).None?
    ensures q.authority.value.issuer.signature == Sign(cfg.p, UnsignedPayload(cfg.p, q.authority.value))
  {
    hide Ladder, Intact, EvidenceInv, ActivationInv, NonceInv, ApplicationInv, Ideal, Sign, UnsignedPayload, InScope,
         Validate, EntryOf;
    AcceptIff(cfg, start, w, q);
    var k: nat :| Admissible(cfg, w, k, q);
    AdmissibleIsGenuine(cfg, w, k, q);
    SoundAttempt(cfg, start, w, k);
    var t := w.attempts[k];
    SignedAuthorityVerifies(cfg.p, DraftAuthority(cfg, t.net, t.candidate, t.record, t.now, t.ids));
  }

  /** The signature check alone fixes the text of a signature up to its bytes: among the texts that
      decode to them all verify, and exactly the canonical one is the issued authority's. A text that
      is not ASCII never verifies. */
  lemma SignatureTextIffCanonical(cfg: Config, start: int, w: World, q: Presentation, text: string)
    requires Ideal(cfg.p) && Inv(cfg, start, w) && Ladder(cfg, w.sys, q).None?
    ensures var a := q.authority.value;
            var verified := Verify(cfg.p, UnsignedPayload(cfg.p, WithSignature(a, text)), text);
            && (Base64Url.Decode(text) == Base64Url.Decode(a.issuer.signature) ==>
                  verified && (text == a.issuer.signature <==> Base64Url.CanonicalText(text)))
            && (!Base64Url.Ascii(text) ==> !verified)
  {
    hide Verify, UnsignedPayload, Ladder, Inv, Ideal, Base64Url.CanonicalText, Base64Url.Ascii, Base64Url.Decode;
    var a := q.authority.value;
    AdmittedIsSigned(cfg, start, w, q);
    assert WithSignature(a, "") == WithSignature(WithSignature(a, text), "");
    PayloadCoverage(cfg.p, a, WithSignature(a, text));
    Base64Url.RoundTrip(cfg.p.sign(UnsignedPayload(cfg.p, a)));
    VerifyReadsBytes(cfg.p, UnsignedPayload(cfg.p, a), text);
  }

  /** One family of such texts: an admitted signature followed by ignored ASCII characters. */
  lemma IgnoredSuffixIsPinned(cfg: Config, start: int, w: World, q: Presentation, junk: string)
    requires Ideal(cfg.p) && Inv(cfg, start, w) && Ladder(cfg, w.sys, q).None?
    requires Base64Url.Ignored(junk) && |junk| % 4 == 0 && junk != []
    ensures var a := q.authority.value; var b := WithSignature(a, a.issuer.signature + junk);
            && Verify(cfg.p, UnsignedPayload(cfg.p, b), b.issuer.signature)
            && Ladder(cfg, w.sys, q.(authority := Some(b))) == Some(ActivationDigestMismatch)
  {
    hide Verify, UnsignedPayload, Ladder, Inv, Ideal;
    var a := q.authority.value;
    var text := a.issuer.signature + junk;
    assert |text| != |a.issuer.signature|;
    Base64Url.DecodeIgnores(a.issuer.signature, junk);
    SignatureTextIffCanonical(cfg, start, w, q, text);
    SignatureTextIsPinned(cfg, start, w, q, text);
  }

  // ---- what is issued can be used ----

  lemma UsedIsRegistered(cfg: Config, w: World, id: string)
    requires ActivationInv(cfg, w) && ApplicationInv(cfg, w) && id in w.sys.activations.used
    ensures id in w.sys.activations.records
  {
    hide InScope, EffectsProduced, ActivationOf;
    var i :| 0 <= i < |w.applications| && Applies(w.applications[i], id);
    var x := w.applications[i];
    assert Granted(cfg, w.attempts, w.sys.activations.used, x);
    assert Registered(cfg, w.sys.activations.records, w.attempts[x.grant]);
  }

  /** Presenting an authority just issued, with its candidate, at its sink, in time and in scope, is allowed. */
  lemma IssuedIsAdmitted(cfg: Config, start: int, w: World, c: Candidate, now: int, ids: Ids, q: Presentation,
                         effectId: string)
    requires Ideal(cfg.p) && Inv(cfg, start, w)
    requires PedStep(cfg, w.sys, c, now, ids).1.Issued?
             && q.authority == Some(PedStep(cfg, w.sys, c, now, ids).1.authority)
    requires q.candidate == c && q.sink == SinkIdentity(c.finalitySink.sinkId, c.finalitySink.sinkType)
    requires q.now < q.authority.value.lifetime.expiresAt && InScope(cfg.p, c, q.effect)
    ensures SinkStep(cfg, PedStep(cfg, w.sys, c, now, ids).0, q, Some(effectId)).1
            == Answered(Allowed(q.requestId, ids.authorityId, effectId))
  {
    hide Inv, PedStep, Ladder, EvidenceInv, ActivationInv, NonceInv, ApplicationInv, InScope, Ideal, Allowed,
         EffectOf, Validate, NewRecord, EntryOf;
    var w', k := WorldStep(cfg, w, PedCall(c, now, ids)), |w.attempts|;
    PedKeeps(cfg, start, w, c, now, ids);
    AttemptEffect(cfg, w.sys, c, now, ids);
    InvParts(cfg, start, w);
    InvParts(cfg, start, w');
    if ids.authorityId in w.sys.activations.used { UsedIsRegistered(cfg, w, ids.authorityId); }
    IntactIffNotReused(cfg, start, w', k);
    PedLeavesEpochs(cfg, w.sys, c, now, ids);
    AttemptIsSound(cfg, w.sys, c, now, ids);
    assert w'.attempts[k] == AttemptOf(cfg, w.sys, c, now, ids);
    assert Admissible(cfg, w', k, q);
    AcceptGenuine(cfg, start, w', k, q);
  }

  lemma InvParts(cfg: Config, start: int, w: World)
    requires Inv(cfg, start, w)
    ensures EvidenceInv(cfg, start, w) && ActivationInv(cfg, w) && NonceInv(w) && ApplicationInv(cfg, w)
  {
  }

  // ---- revocation ----

  predicate NotBelow(e: Epochs, f: Epochs) {
    e.topology >= f.topology && e.configuration >= f.configuration && e.policy >= f.policy
    && e.authority >= f.authority && e.revocation >= f.revocation
  }

  /** The environment only ever raises epochs. */
  predicate EpochsRise(cfg: Config, w: World, evs: seq<Event>)
    decreases evs
  {
    evs == [] ||
    ((evs[0].Environment? ==> NotBelow(evs[0].epochs, w.sys.net.epochs))
     && EpochsRise(cfg, WorldStep(cfg, w, evs[0]), evs[1..]))
  }

  /** Once one epoch has passed the value an authority is bound to, nothing is ever admitted under
      that authority again, however the run goes on. */
  lemma {:induction false} PermanentRevocation(cfg: Config, w: World, evs: seq<Event>, a: Authority)
    requires EpochsRise(cfg, w, evs) && !NotBelow(a.binding.epochs, w.sys.net.epochs)
    ensures var w' := Run(cfg, w, evs);
            && !NotBelow(a.binding.epochs, w'.sys.net.epochs)
            && w.applications <= w'.applications
            && forall i :: |w.applications| <= i < |w'.applications| ==> w'.applications[i].q.authority != Some(a)
    decreases |evs|
  {
    hide WorldStep, PedStep, Ladder;
    if evs != [] {
      var next := WorldStep(cfg, w, evs[0]);
      RevokedStep(cfg, w, evs[0], a);
      PermanentRevocation(cfg, next, evs[1..], a);
      var w' := Run(cfg, next, evs[1..]);
      forall i | |w.applications| <= i < |w'.applications| ensures w'.applications[i].q.authority != Some(a) {
        if i < |next.applications| { assert w'.applications[i] == next.applications[i]; }
      }
    }
  }

  lemma RevokedStep(cfg: Config, w: World, ev: Event, a: Authority)
    requires ev.Environment? ==> NotBelow(ev.epochs, w.sys.net.epochs)
    requires !NotBelow(a.binding.epochs, w.sys.net.epochs)
    ensures var next := WorldStep(cfg, w, ev);
            && NotBelow(next.sys.net.epochs, w.sys.net.epochs) && w.applications <= next.applications
            && forall i :: |w.applications| <= i < |next.applications| ==> next.applications[i].q.authority != Some(a)
  {
    hide AttemptOf, PedStep, Ladder, GrantOf, EffectOf;
    match ev
    case PedCall(c, now, ids) => PedLeavesEpochs(cfg, w.sys, c, now, ids);
    case SinkCall(q, applied) =>
      hide WorldStep;
      SinkEffect(cfg, w, q, applied);
      if q.authority == Some(a) { RevokedDenied(cfg, w.sys, q); }
    case Environment(_, _, _, _, _, _) =>
  }

  lemma PedLeavesEpochs(cfg: Config, sys: System, c: Candidate, now: int, ids: Ids)
    ensures PedStep(cfg, sys, c, now, ids).0.net.epochs == sys.net.epochs
  {
    hide DenialOf, IssuedAuthority, Validate, EntryOf, NewRecord, ActivationOf, DecisionOf;
  }

  lemma RevokedDenied(cfg: Config, sys: System, q: Presentation)
    requires q.authority.Some? && !NotBelow(q.authority.value.binding.epochs, sys.net.epochs)
    ensures Ladder(cfg, sys, q).Some?
  {
    hide CheckEnvelope, StoreLadder, CheckSink, CheckScope;
  }

  // ---- denied presentations leave no trace ----

  /** A presentation that was denied, or whose effect raised and was undone. */
  predicate Ineffective(ev: Event, reply: Reply) {
    ev.SinkCall? && reply.FromSink? && (reply.outcome.NetworkRaised? || !reply.outcome.response.allow)
  }

  function Final(cfg: Config, sys: System, evs: seq<Event>): System
    decreases evs
  {
    if evs == [] then sys else Final(cfg, Step(cfg, sys, evs[0]).0, evs[1..])
  }

  function Replies(cfg: Config, sys: System, evs: seq<Event>): seq<Reply>
    decreases evs
  {
    if evs == [] then [] else [Step(cfg, sys, evs[0]).1] + Replies(cfg, Step(cfg, sys, evs[0]).0, evs[1..])
  }

  /** The run without its ineffective presentations. */
  function Erased(cfg: Config, sys: System, evs: seq<Event>): seq<Event>
    decreases evs
  {
    if evs == [] then []
    else
      var (next, reply) := Step(cfg, sys, evs[0]);
      (if Ineffective(evs[0], reply) then [] else [evs[0]]) + Erased(cfg, next, evs[1..])
  }

  /** The replies to the events that are kept, as they were in the full run. */
  function KeptReplies(cfg: Config, sys: System, evs: seq<Event>): seq<Reply>
    decreases evs
  {
    if evs == [] then []
    else
      var (next, reply) := Step(cfg, sys, evs[0]);
      (if Ineffective(evs[0], reply) then [] else [reply]) + KeptReplies(cfg, next, evs[1..])
  }

  lemma IneffectiveChangesNothing(cfg: Config, sys: System, ev: Event)
    requires Ineffective(ev, Step(cfg, sys, ev).1)
    ensures Step(cfg, sys, ev).0 == sys
  {
    hide Ladder, EffectOf, Report, Code, ReasonOf, Passed;
  }

  /** Erasing every ineffective presentation changes neither the final state nor any other reply. */
  lemma {:induction false} DenialsAreInvisible(cfg: Config, sys: System, evs: seq<Event>)
    ensures Final(cfg, sys, Erased(cfg, sys, evs)) == Final(cfg, sys, evs)
    ensures Replies(cfg, sys, Erased(cfg, sys, evs)) == KeptReplies(cfg, sys, evs)
    decreases |evs|
  {
    hide Step;
    if evs != [] {
      var (next, reply) := Step(cfg, sys, evs[0]);
      DenialsAreInvisible(cfg, next, evs[1..]);
      var rest := Erased(cfg, next, evs[1..]);
      if Ineffective(evs[0], reply) {
        IneffectiveChangesNothing(cfg, sys, evs[0]);
        assert Erased(cfg, sys, evs) == rest;
      } else {
        assert ([evs[0]] + rest)[1..] == rest;
      }
    }
  }

  /** Every event of this run is an ineffective presentation. */
  predicate AllIneffective(cfg: Config, sys: System, evs: seq<Event>) {
    |Replies(cfg, sys, evs)| == |evs|
    && forall i :: 0 <= i < |evs| ==> Ineffective(evs[i], Replies(cfg, sys, evs)[i])
  }

  lemma {:induction false} RepliesLength(cfg: Config, sys: System, evs: seq<Event>)
    ensures |Replies(cfg, sys, evs)| == |evs|
    decreases |evs|
  {
    hide Step;
    if evs != [] { RepliesLength(cfg, Step(cfg, sys, evs[0]).0, evs[1..]); }
  }

  lemma {:induction false} IneffectiveRun(cfg: Config, sys: System, evs: seq<Event>)
    requires AllIneffective(cfg, sys, evs)
    ensures Final(cfg, sys, evs) == sys
    decreases |evs|
  {
    hide Step, Ineffective;
    if evs != [] {
      var next := Step(cfg, sys, evs[0]).0;
      RepliesLength(cfg, next, evs[1..]);
      assert forall i :: 0 <= i < |evs| - 1 ==> Replies(cfg, next, evs[1..])[i] == Replies(cfg, sys, evs)[i + 1];
      assert Ineffective(evs[0], Replies(cfg, sys, evs)[0]);
      IneffectiveChangesNothing(cfg, sys, evs[0]);
      IneffectiveRun(cfg, next, evs[1..]);
    }
  }

  /** An authority just issued survives any presentations that are denied or whose effect raises: they
      leave the system as it was, and presenting it in time, at its sink and in scope is still allowed. */
  lemma ValidAuthoritySurvives(cfg: Config, start: int, w: World, c: Candidate, now: int, ids: Ids, evs: seq<Event>,
                               q: Presentation, effectId: string)
    requires Ideal(cfg.p) && Inv(cfg, start, w)
    requires PedStep(cfg, w.sys, c, now, ids).1.Issued?
             && q.authority == Some(PedStep(cfg, w.sys, c, now, ids).1.authority)
    requires AllIneffective(cfg, PedStep(cfg, w.sys, c, now, ids).0, evs)
    requires q.candidate == c && q.sink == SinkIdentity(c.finalitySink.sinkId, c.finalitySink.sinkType)
    requires q.now < q.authority.value.lifetime.expiresAt && InScope(cfg.p, c, q.effect)
    ensures var issued := PedStep(cfg, w.sys, c, now, ids).0;
            && Final(cfg, issued, evs) == issued
            && SinkStep(cfg, Final(cfg, issued, evs), q, Some(effectId)).1
               == Answered(Allowed(q.requestId, ids.authorityId, effectId))
  {
    hide PedStep, SinkStep, Inv, Ideal, AllIneffective, InScope, Allowed;
    IneffectiveRun(cfg, PedStep(cfg, w.sys, c, now, ids).0, evs);
    IssuedIsAdmitted(cfg, start, w, c, now, ids, q, effectId);
  }

  // ---- runs that come about ----

  /** An effect for the candidate's request with these parameters and this duration. */
  function EffectFor(c: Candidate, parameters: Parameters, d: Option<int>): ProposedEffect {
    ProposedEffect(c.requestedEffect.effectType, c.resourceScope.resourceType, c.resourceScope.resourceIds, parameters,
                   c.requestedEffect.parametersDigest, d)
  }

  /** Presenting an issued authority with its candidate at its sink. */
  function Present(c: Candidate, a: Authority, effect: ProposedEffect, now: int): Presentation {
    Presentation(SinkIdentity(c.finalitySink.sinkId, c.finalitySink.sinkType), "", c, Some(a), effect, now)
  }

  lemma EffectForInScope(p: Primitives, c: Candidate, parameters: Parameters, d: Option<int>)
    requires DigestOf(p, parameters, c.requestedEffect.parametersDigest.algorithm)
             == c.requestedEffect.parametersDigest.value
    requires Narrows(c.requestedEffect.durationSeconds, d)
    ensures InScope(p, c, EffectFor(c, parameters, d))
  {
    hide DigestOf, Elements;
  }

  /** From a fresh system, for any permitted candidate: what is issued is allowed for the effect the
      candidate asks for, with every duration up to the one it names, with any duration at all if it
      names none, and with none whatever it names. */
  lemma FirstRun(cfg: Config, net: NetState, c: Candidate, now: int, ids: Ids, parameters: Parameters, d: Option<int>,
                 t: int, effectId: string)
    requires Ideal(cfg.p) && Permitted(cfg.policy, net, c, now)
    requires DigestOf(cfg.p, parameters, c.requestedEffect.parametersDigest.algorithm)
             == c.requestedEffect.parametersDigest.value
    requires Narrows(c.requestedEffect.durationSeconds, d)
    requires t < now + cfg.policy.authorityTtl && t < c.expiresAt
    ensures var sys := Fresh(net).sys; var step := PedStep(cfg, sys, c, now, ids);
            && step.1.Issued?
            && SinkStep(cfg, step.0, Present(c, step.1.authority, EffectFor(c, parameters, d), t), Some(effectId)).1
               == Answered(Allowed("", ids.authorityId, effectId))
  {
    hide PedStep, SinkStep, Inv, Ideal, Permitted, DigestOf, InScope, Allowed, EffectFor;
    var sys := Fresh(net).sys;
    FreshInv(cfg, net);
    IssuesIff(cfg, sys, c, now, ids);
    IssuedExpires(cfg, sys, c, now, ids);
    EffectForInScope(cfg.p, c, parameters, d);
    var a := PedStep(cfg, sys, c, now, ids).1.authority;
    IssuedIsAdmitted(cfg, net.monotonicCounter, Fresh(net), c, now, ids,
                     Present(c, a, EffectFor(c, parameters, d), t), effectId);
  }

  lemma IssuedExpires(cfg: Config, sys: System, c: Candidate, now: int, ids: Ids)
    requires PedStep(cfg, sys, c, now, ids).1.Issued?
    ensures LivesFrom(cfg.policy, c, now, PedStep(cfg, sys, c, now, ids).1.authority.lifetime)
  {
    hide PedStep, ScopeAsked, BoundTo, LivesFrom, UnsignedPayload, Sign, ActivationFor;
    IssuesAsAsked(cfg, sys, c, now, ids);
  }
}
