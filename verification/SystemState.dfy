/** Everything the two boundaries share: the wiring, the state they read and write, and the
    identifiers and answers they produce. */
module SystemState {
  import opened Wrappers
  import opened Crypto
  import opened Models
  import opened Evidence
  import opened State
  import opened Policy

  /** One signing key and one policy, as the reference wiring builds them. */
  datatype Config = Config(p: Primitives, pedId: string, keyId: string, algorithm: string, policy: PolicyConfig)

  /** The consequence recorded by the network. */
  datatype NetEffect = NetEffect(
    candidateActId: string, authorityId: string, effectType: string, resourceType: string,
    resourceIds: seq<string>, parameters: Parameters, durationSeconds: Option<int>)

  datatype System = System(
    net: NetState, nonces: set<string>, evidence: EvidenceState, activations: Activations,
    effects: map<string, NetEffect>)

  /** The identifiers and the random bytes drawn by one call of the protected domain. */
  datatype Ids = Ids(decisionId: string, evidenceId: string, authorityId: string, secret: seq<byte>)

  datatype Decision = Decision(
    decisionId: string, candidateActId: string, allow: bool, topologyEpoch: int, configurationEpoch: int,
    stateReference: string, monotonicCounter: int, evidenceId: Option<string>, denialCode: Option<string>)

  /** `Raised` is the error of installing an activation under an id already present. */
  datatype PedResult = Denied(decision: Decision) | Issued(decision: Decision, authority: Authority) | Raised

  class DemoNetwork {
    var effects: map<string, NetEffect>

    constructor ()
      ensures effects == map[]
    {
      effects := map[];
    }

    method Apply(effect: NetEffect, effectId: string)
      modifies this
      ensures effects == old(effects)[effectId := effect]
    {
      effects := effects[effectId := effect];
    }
  }
}
