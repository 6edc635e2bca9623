/** The guarantees of whole runs, restated for every interleaving: what stands behind each effect, that
    nothing is spent twice, the time and duration bounds, and how the bound epochs relate to policy's. */
module Backing {
  import opened Wrappers
  import opened Crypto
  import opened Models
  import opened Evidence
  import opened State
  import opened Policy
  import opened SystemState
  import opened Ped
  import opened Sink
  import opened Protocol
  import opened Concurrent
  import opened Issuance
  import Sandwich
  import Passage

  lemma {:induction false} ExecIssues(cfg: Config, m: Machine, acts: seq<Action>)
    requires IssuanceInv(cfg, m)
    ensures IssuanceInv(cfg, Exec(cfg, m, acts))
    decreases |acts|
  {
    hide Act, IssuanceInv;
    if acts != [] {
      Issuance.NextKeeps(cfg, m, acts[0]);
      ExecIssues(cfg, Next(cfg, m, acts[0]), acts[1..]);
    }
  }

  lemma {:induction false} ExecReserves(cfg: Config, m: Machine, acts: seq<Action>)
    requires ReservationInv(m)
    ensures ReservationInv(Exec(cfg, m, acts))
    decreases |acts|
  {
    hide Act, ReservationInv;
    if acts != [] {
      NextReserves(cfg, m, acts[0]);
      ExecReserves(cfg, Next(cfg, m, acts[0]), acts[1..]);
    }
  }

  function GrantFor(grants: map<string, Grant>, q: Presentation): Option<Grant> {
    if q.authority.Some? && q.authority.value.authorityId in grants then Some(grants[q.authority.value.authorityId])
    else None
  }

  /** The presentation shows what was granted, policy passed on values each current when read, and the
      ALLOW record that the authority names is in the chain. */
  predicate BackedBy(cfg: Config, n: Machine, q: Presentation) {
    var g := GrantFor(n.grants, q);
    && g.Some? && q.authority == Some(g.value.authority) && q.candidate == g.value.candidate
    && Vetted(cfg, n.log, g.value) && Evidenced(cfg, History(cfg.p, n.committed), g.value)
  }

  lemma GrantStands(cfg: Config, n: Machine, q: Presentation)
    requires IssuanceInv(cfg, n) && Passage.WasIssued(cfg, n.grants, q)
    ensures BackedBy(cfg, n, q)
  {
    hide Issuing, Vetted, Evidenced, History, CommitAll, InScope;
  }

  /** In every interleaving, and after any earlier commits, each effect rests on an installed authority
      for its candidate, on policy's having passed, and on an ALLOW record in the chain for this
      candidate and decision, which the authority names by id and digest. */
  lemma ConcurrentBacking(cfg: Config, m: Machine, acts: seq<Action>, i: nat)
    requires Ideal(cfg.p) && Initial(m) && m.sys.evidence == CommitAll(cfg.p, m.committed)
    requires i < |Exec(cfg, m, acts).applied|
    ensures var n := Exec(cfg, m, acts);
            BackedBy(cfg, n, n.applied[i].q) && n.sys.evidence == CommitAll(cfg.p, n.committed)
  {
    hide Exec, BackedBy, Vetted, Evidenced, Issuing, CommitAll, History, Initial, Passage.WasIssued, Ideal;
    InitialIssuance(cfg, m);
    ExecIssues(cfg, m, acts);
    Passage.ConcurrentFinality(cfg, m, acts, i);
    GrantStands(cfg, Exec(cfg, m, acts), Exec(cfg, m, acts).applied[i].q);
  }

  predicate Apart(p: Primitives, x: Presentation, y: Presentation) {
    && x.authority.Some? && y.authority.Some? && x.authority.value.authorityId != y.authority.value.authorityId
    && x.candidate.freshness.nonce != y.candidate.freshness.nonce
    && CandidateDigest(p, x.candidate) != CandidateDigest(p, y.candidate)
  }

  lemma GrantsApart(cfg: Config, n: Machine, x: Presentation, y: Presentation)
    requires Ideal(cfg.p) && ReservationInv(n) && IdOf(x) != IdOf(y)
    requires Passage.WasIssued(cfg, n.grants, x) && Passage.WasIssued(cfg, n.grants, y)
    ensures Apart(cfg.p, x, y)
  {
    hide InScope, CandidateDigest, Ideal, Claims;
    assert GrantedFor(n.grants, x.authority.value.authorityId, x.candidate.freshness.nonce);
    assert GrantedFor(n.grants, y.authority.value.authorityId, y.candidate.freshness.nonce);
    CandidateDigestBinds(cfg.p, x.candidate, y.candidate);
  }

  /** In every interleaving there is at most one effect per authority, per nonce and per candidate. */
  lemma ConcurrentOnce(cfg: Config, m: Machine, acts: seq<Action>, i: nat, j: nat)
    requires Ideal(cfg.p) && Initial(m) && i < |Exec(cfg, m, acts).applied| && j < |Exec(cfg, m, acts).applied|
             && i != j
    ensures var n := Exec(cfg, m, acts); Apart(cfg.p, n.applied[i].q, n.applied[j].q)
  {
    hide Exec, Initial, Apart, ReservationInv, Passage.WasIssued, Ideal;
    InitialReservation(m);
    ExecReserves(cfg, m, acts);
    Passage.ConcurrentFinality(cfg, m, acts, i);
    Passage.ConcurrentFinality(cfg, m, acts, j);
    var n := Exec(cfg, m, acts);
    GrantsApart(cfg, n, n.applied[i].q, n.applied[j].q);
  }

  /** Within the candidate's lifetime and greatest age, under an authority that expires at the earlier of
      its own lifetime and the candidate, and within the durations of candidate and policy. */
  predicate Bounded(policy: PolicyConfig, q: Presentation) {
    var named, proposed := q.candidate.requestedEffect.durationSeconds, q.effect.durationSeconds;
    && q.now < q.candidate.expiresAt && q.now < q.candidate.createdAt + policy.maxCandidateAge + policy.authorityTtl
    && (named.Some? ==> named.value <= policy.maxEffectDuration)
    && (named.Some? && proposed.Some? ==> proposed.value <= named.value)
    && q.authority.Some?
    && var l := q.authority.value.lifetime;
       && l.expiresAt <= l.issuedAt + policy.authorityTtl && l.expiresAt <= q.candidate.expiresAt
       && (l.expiresAt == l.issuedAt + policy.authorityTtl || l.expiresAt == q.candidate.expiresAt)
  }

  lemma BackedIsBounded(cfg: Config, n: Machine, q: Presentation)
    requires BackedBy(cfg, n, q) && Passage.WasIssued(cfg, n.grants, q)
    ensures Bounded(cfg.policy, q)
  {
    hide Looked, History, ValidateView, DigestOf, CandidateDigest, Elements;
    var g := GrantFor(n.grants, q).value;
    var chain := History(cfg.p, n.committed);
    var k :| 0 <= k < |chain| && Names(cfg, g.candidate, g.authority, chain[k]);
    PassedIsSensible(cfg.policy, g.view, g.candidate, g.authority.lifetime.issuedAt);
    ExpiryIs(cfg.policy, g.candidate, g.authority.lifetime.issuedAt);
  }

  /** The time and duration bounds of sequential runs hold in every interleaving. */
  lemma ConcurrentBounds(cfg: Config, m: Machine, acts: seq<Action>, i: nat)
    requires Ideal(cfg.p) && Initial(m) && m.sys.evidence == CommitAll(cfg.p, m.committed)
    requires i < |Exec(cfg, m, acts).applied|
    ensures Bounded(cfg.policy, Exec(cfg, m, acts).applied[i].q)
  {
    hide Exec, Initial, BackedBy, Bounded, CommitAll, Passage.WasIssued, Ideal;
    ConcurrentBacking(cfg, m, acts, i);
    Passage.ConcurrentFinality(cfg, m, acts, i);
    BackedIsBounded(cfg, Exec(cfg, m, acts), Exec(cfg, m, acts).applied[i].q);
  }

  // ---- the epochs policy saw, and the epochs bound ----

  /** The three epochs that policy compares, in the order it reads them. */
  function Compared(state: PolicyState, k: nat): int {
    if k == 0 then state.policyEpoch else if k == 1 then state.authorityEpoch else state.revocationEpoch
  }

  lemma SawEpoch(cfg: Config, log: seq<NetState>, g: Grant, k: nat)
    requires Vetted(cfg, log, g) && k < 3
    ensures g.viewAt[k] < |log| && At(log[g.viewAt[k]].epochs, k + 2) == Compared(g.candidate.policyState, k)
    ensures g.viewAt[k] < g.readAt[0]
  {
    hide ValidateView;
    PassedIsSensible(cfg.policy, g.view, g.candidate, g.authority.lifetime.issuedAt);
    assert Saw(g.view, log[g.viewAt[k]], k);
  }

  /** The epochs of an authority are read after policy has compared those of the candidate, so they may
      be later. If epochs only rise, a bound epoch is never below the one compared, and is the same if
      and only if it did not move between the two reads. */
  lemma BoundIffUnmoved(cfg: Config, m: Machine, acts: seq<Action>, id: string, k: nat)
    requires Ideal(cfg.p) && Initial(m) && m.sys.evidence == CommitAll(cfg.p, m.committed)
             && Sandwich.AllRaise(cfg, m, acts)
    requires id in Exec(cfg, m, acts).grants && k < 3
    ensures var n := Exec(cfg, m, acts); var g := n.grants[id];
            && |g.viewAt| == 9 && |g.readAt| == 5 && g.viewAt[k] < g.readAt[k + 2] < |n.log|
            && var compared, bound := Compared(g.candidate.policyState, k), At(g.authority.binding.epochs, k + 2);
               compared <= bound
                 && (compared == bound <==> Sandwich.Held(n.log, g.viewAt[k], g.readAt[k + 2], k + 2, compared))
  {
    hide Exec, Initial, CommitAll, History, Issuing, Evidenced, Vetted, Sandwich.Held, Compared, Ideal,
         Sandwich.ThreadOk,
         Sandwich.Follows, Sandwich.AllRaise, Sandwich.Rising, At, ActivationOf;
    InitialIssuance(cfg, m);
    ExecIssues(cfg, m, acts);
    Sandwich.InitialReads(cfg, m);
    Sandwich.ExecKeeps(cfg, m, acts);
    var n := Exec(cfg, m, acts);
    var g := n.grants[id];
    assert Sandwich.GrantOk(cfg, n.sys.activations.records, n.log, id, g);
    VettedLengths(cfg, n.log, g);
    SawEpoch(cfg, n.log, g, k);
    Sandwich.ListedAt(g.authority.binding.epochs, k + 2);
    Sandwich.RisesBetween(n.log, g.viewAt[k], g.readAt[k + 2], k + 2);
  }

  lemma VettedLengths(cfg: Config, log: seq<NetState>, g: Grant)
    requires Vetted(cfg, log, g)
    ensures |g.viewAt| == 9 && g.readAt != []
  {
    hide Looked, ValidateView;
  }
}
