# Network finality: a verified model

The repository is a two-boundary authorisation protocol for changes to a telecom network. A *protected
enforcement domain* validates a candidate act, commits evidence of its decision in a hash chain, signs a
single-use authority and installs a matching activation record. A *finality sink* checks everything that is
presented to it, consumes the authority, lets the network make the effect, and gives the authority back if the
network raises. This project models both boundaries with their stores and proves what they guarantee.

- `Utf8`, `Base64Url`, `Dicts`, `Json`, `Canonical`: the canonical encoding on which every digest and signature
  rests, as a printer with parsers that invert it (RFC 8259, RFC 3629 section 3, RFC 4648 section 5).
- `Spelling`: the canonical text itself, without reference to a reader: what each kind of value is written as, and
  the exact text of every record that is hashed or signed, field name by field name.
- `Crypto`, `Models`: digests and signatures over abstract primitives, and the records with their Python forms,
  field name by field name.
- `Evidence`, `State`: the in-memory and durable stores as classes, each proved equal to a step function.
- `Policy`, `SystemState`, `Ped`, `Sink`: policy, and the two boundaries as classes proved equal to `PedStep` and
  `SinkStep`.
- `Protocol`, `Invariants`, `Finality`: arbitrary runs (calls with any arguments and clock values, any change of
  epochs and allowlists), the invariant that every step keeps, and what follows for whole runs.
- `Reference`: the reference wiring and candidate, and a run of them from start to effect.
- `Concurrent`, `Ownership`, `Sandwich`, `Passage`, `Issuance`, `Backing`, `Winner`, `Crowd`, `Locks`, `Uninterrupted`,
  `Counters`, `Moving`, `Effects`: any number of threads inside both boundaries, one shared read or write at a time, policy's
  reads and the unlocked counter included.

Digests bind because the encoding is injective and the hash is taken to be; nothing assumes that signatures cannot
be forged, since acceptance goes through the activation record. `Crypto.Ideal` states the assumptions and
`Crypto.IdealExists` gives primitives that meet them. An operation on a class is specified by a function of the old
state, and the properties are proved about those functions. `Uninterrupted` ties the small-step machine back to
them, so the sequential and the interleaved results are about the same calls.

Some promises hold only under a condition. These were made exact:

- The policy maximum bounds the duration of an effect if and only if both the candidate and the effect name one
  (`Finality.DurationBoundIffNamed`), because the sink compares durations only then. If the candidate names none, any
  duration is admitted; if the effect names none, it is admitted and recorded without one, whatever the candidate
  names. `Reference.ReferenceRunAdmits` is a run of the reference candidate for each case.
- A signature text is determined by the bytes it decodes to if and only if it is canonical: URL-safe symbols only, a
  length other than 1 modulo 4, unused low bits zero (`Base64Url.ReencodesIffCanonical`). Other texts for the same
  bytes still verify (`Finality.SignatureTextIffCanonical`), and whatever the other text is, the answer on an
  admitted authority is known: the activation digest denies it if it verifies, the signature check if not
  (`Finality.SignatureTextIsPinned`). A text that is not ASCII never verifies.
- The in-memory evidence chain can be walked to GENESIS if and only if no evidence id was used twice
  (`Evidence.WalkIffIdsDistinct`), and an authority whose evidence id was reused is refused
  (`Finality.IntactIffNotReused` with `Invariants.AcceptIff`). The durable store refuses such a commit instead.
- There are as many activations as reserved nonces if and only if no two allowed calls drew the same authority id
  (`Finality.EvidenceAccounting`).
- The two activation stores differ only in the used flag of a fetched record (`State.FetchedFlag`).
- In the interleaved machine "current" means at the reads: `Sandwich.EpochSandwich` says for which interval all five
  epochs held their bound values. At the effect an epoch still has its bound value if and only if it has not moved
  since the sink read it (`Sandwich.CurrentIffUnmoved`).
- Policy compares the candidate's epochs before the domain reads those it binds. A bound epoch is the one compared if
  and only if it did not move between the two reads (`Backing.BoundIffUnmoved`).
- Both moves come about: for every permitted candidate there is a schedule in which policy compares some epochs, the
  authority is bound to later ones, and the effect is made at later ones still (`Moving.EffectAcrossMoves`, and
  `Moving.ReferenceIsOvertaken` with epochs 42, 43 and 44).
- Records carry consecutive counters in sequential runs. The records of two overlapping calls carry different counters
  if and only if one call has written before the other reads and read back before the other writes
  (`Counters.CountersDifferIff`), because the counter is raised without a lock and read back.
- Exactly one of many presentations of an authority is allowed if and only if some thread that took it made the
  effect; otherwise every one that took it gave it back (`Crowd.OneOrGivenBack`).

## Model

| member | source | states |
|---|---|---|
| `Utf8.TableRow` | src/network_finality/canonical.py:34 | each character takes the bytes of its row of the UTF-8 table, and the bits behind the marks are its scalar value |
| `Utf8.EncodesByPieces` | src/network_finality/canonical.py:34 | strings are encoded character by character |
| `Utf8.RoundTrip` | src/network_finality/canonical.py:34 | decoding inverts UTF-8 encoding on every string |
| `Base64Url.Alphabet` | src/network_finality/canonical.py:44-45 | the symbols are those of the URL-safe alphabet, by value |
| `Base64Url.GroupBits` | src/network_finality/canonical.py:44-45 | three bytes are the four symbols of their 24 bits, and a last one or two the first two or three symbols of theirs and zeros |
| `Base64Url.EncodesByGroups` | src/network_finality/canonical.py:44-45 | whole groups of three bytes are written apart from what follows |
| `Base64Url.DecodesIffLength` | src/network_finality/canonical.py:48-50 | a text of URL-safe symbols decodes exactly when its length is not 1 modulo 4 |
| `Base64Url.EncodedShape` | src/network_finality/canonical.py:44-50 | the unpadded text has length ceil(4n/3), never 1 modulo 4, and the decoder restores exactly the padding stripped |
| `Base64Url.RoundTrip` | src/network_finality/canonical.py:44-50 | decoding the unpadded text returns the original bytes, for every byte string |
| `Base64Url.Injective` | src/network_finality/canonical.py:44-45 | different bytes have different texts |
| `Base64Url.DecodeIgnores` | src/network_finality/canonical.py:48-50 | the decoder is not injective: appending a multiple of four ASCII characters outside both alphabets changes nothing |
| `Base64Url.Decode` | src/network_finality/canonical.py:48-50 | only ASCII texts decode; any other raises |
| `Base64Url.ReencodesIffCanonical` | src/network_finality/canonical.py:44-50 | encoding what a text decodes to gives the text back exactly when it is canonical |
| `Base64Url.WrittenIffCanonical` | src/network_finality/canonical.py:44-45 | the canonical texts are exactly the encoder's |
| `Base64Url.CanonicalTextsDiffer` | src/network_finality/canonical.py:48-50 | two canonical texts for the same bytes are the same text |
| `Base64Url.LowBitsAreLost` | src/network_finality/canonical.py:48-50 | after any whole groups, two last groups that differ in their last symbol only decode alike exactly when its used bits agree |
| `Base64Url.StandardDecodes` | src/network_finality/canonical.py:48-50 | texts in the standard alphabet decode like URL-safe ones, and are not canonical |
| `Base64Url.AfterPadding` | src/network_finality/canonical.py:48-50 | after any whole groups and a last one with its padding, further ASCII text is not read |
| `Dicts.SortSorts` | src/network_finality/canonical.py:19 | sorting by key gives an ascending listing of the same mapping |
| `Dicts.AscendingUnique` | src/network_finality/canonical.py:19 | a mapping has only one ascending listing, so keys alone decide the order |
| `Json.QuotedIffPlain` | src/network_finality/canonical.py:28-34 | a string is written between quotes as it is exactly when it holds no quote, backslash or control character |
| `Json.Escapes` | src/network_finality/canonical.py:28-34 | the seven short escapes, and the lower-case hexadecimal spelling of every other control character |
| `Json.WrittenByPieces` | src/network_finality/canonical.py:28-34 | strings are written character by character |
| `Json.PrintedNoControl` | src/network_finality/canonical.py:28-34 | no control character occurs in any printed text |
| `Json.Decimal` | src/network_finality/canonical.py:28-34 | whole numbers are written in decimal digits that stand for them, without leading zero, after a minus if negative |
| `Json.RoundTrip` | src/network_finality/canonical.py:28-34 | parsing inverts printing on every nested value |
| `Json.PrintInjective` | src/network_finality/canonical.py:28-34 | different values print differently |
| `Canonical.NormalFormIsStable` | src/network_finality/canonical.py:18-19 | the sort repeated by the JSON writer finds nothing to move |
| `Canonical.SourceOrder` | src/network_finality/canonical.py:19 | sorting before normalising, as the code does, or after, gives the same members |
| `Canonical.NormalFormMeaning` | src/network_finality/canonical.py:12-24 | normal forms are equal exactly when the values hold the same data |
| `Canonical.CanonicalMeaning` | src/network_finality/canonical.py:27-34 | canonical bytes are equal exactly when the values hold the same data, at every nesting depth |
| `Canonical.OrderIndependence` | tests/test_models_and_canonical.py:13-14 | insertion order does not change the bytes |
| `Canonical.CanonicalRoundTrip` | src/network_finality/canonical.py:27-34 | the bytes are read back to the normal form they were written from |
| `Spelling.TextOfLeaf` | src/network_finality/canonical.py:12-34 | the texts of null, booleans, numbers, strings, enumerations and timestamps |
| `Spelling.TextOfList` | src/network_finality/canonical.py:20-21 | a list is written in brackets, its items in order and separated by commas |
| `Spelling.TextOfDict` | src/network_finality/canonical.py:18-19 | a dictionary is written in braces, its members in ascending order of their keys, with compact separators |
| `Spelling.CandidateText` | src/network_finality/models.py:162-178 | the exact canonical text of every candidate act |
| `Spelling.AuthorityText` | src/network_finality/models.py:285-294 | the exact canonical text of every authority |
| `Spelling.EntryText` | src/network_finality/evidence.py:41-42 | the exact canonical text over which every evidence record is digested |
| `Spelling.RecordDigests` | src/network_finality/canonical.py:53-54 | the digests of candidates, authorities and records are SHA-256 over the UTF-8 bytes of these texts, in base64url |
| `Spelling.PayloadIs` | src/network_finality/authority.py:9-12 | what is signed is the text of the authority with an empty signature |
| `Reference.ParametersText` | examples/deterministic-digest-vector.json:4-7 | the canonical text of the reference parameters, character by character |
| `Crypto.VerifiesIff` | src/network_finality/crypto.py:35-40 | a text verifies exactly when it decodes to bytes the scheme accepts |
| `Crypto.DigestMeaning` | src/network_finality/canonical.py:53-54 | equal digests mean the same algorithm over the same data, and conversely |
| `Crypto.DigestIsNotGenesis` | src/network_finality/evidence.py:36 | no digest is the seed of the evidence chain |
| `Crypto.SignedVerifies` | src/network_finality/crypto.py:66-90 | what the signer produced, the verifier accepts, through the text form |
| `Crypto.VerifyIgnores` | src/network_finality/crypto.py:35-40 | appended ASCII characters outside both alphabets, four at a time, do not change the verdict |
| `Crypto.VerifyReadsBytes` | src/network_finality/crypto.py:35-40 | a text that is not ASCII is refused; any text for the signature's own bytes is accepted, and is the signer's exactly when canonical |
| `Models.CandidateDigestBinds` | src/network_finality/models.py:162-178 | a candidate digest names one candidate, all fields included |
| `Models.AuthorityDigestBinds` | src/network_finality/authority.py:15-16 | an authority digest names one authority, its signature text included |
| `Models.PayloadCoverage` | src/network_finality/authority.py:9-12 | two authorities share the signed payload exactly when they differ at most in the signature |
| `Models.SignedAuthorityVerifies` | src/network_finality/ped.py:165 | installing the signature leaves the payload as it was signed, so the domain's own output verifies |
| `Evidence.EntryDigestBinds` | src/network_finality/evidence.py:41-42 | a record digest names its entry and the record before it |
| `Evidence.InMemoryEvidenceStore.constructor` | src/network_finality/evidence.py:34-37 | a new store is empty and its tail is GENESIS |
| `Evidence.InMemoryEvidenceStore.CommitEntry` | src/network_finality/evidence.py:39-46 | adds the record linked to the old tail, replacing any under the same id, and moves the tail |
| `Evidence.InMemoryEvidenceStore.Find` | src/network_finality/evidence.py:48-50 | returns the record stored under the id, if any |
| `Evidence.HistoryIsChained` | src/network_finality/evidence.py:39-46 | after any commits, each record links to the one before it |
| `Evidence.PointsBack` | src/network_finality/evidence.py:36-45 | the first record points to "GENESIS", every later one to the digest before it |
| `Evidence.TailFixesHistory` | src/network_finality/evidence.py:41-45 | two chains have equal tails exactly when they are the same history |
| `Evidence.DigestsDistinct` | src/network_finality/evidence.py:41-45 | no two records of a chain share a digest, even for equal entries |
| `Evidence.LastUseIsFound` | src/network_finality/evidence.py:44 | the store finds the last record committed under an id |
| `Evidence.FoundIffLastUse` | src/network_finality/evidence.py:44-50 | a committed record is found under its id exactly when no later commit used the id |
| `Evidence.WalkIffIdsDistinct` | src/network_finality/evidence.py:33-50 | a walk along previous digests from the tail reaches GENESIS exactly when no id was reused, and is then the whole history, newest first |
| `Evidence.SQLiteEvidenceStore.CommitEntry` | src/network_finality/evidence.py:80-95 | appends a row linked to the last one, or refuses a used id and changes nothing |
| `Evidence.SQLiteEvidenceStore.Find` | src/network_finality/evidence.py:97-105 | returns the row with the id, if any |
| `Evidence.DurableHistory` | src/network_finality/evidence.py:80-95 | the table is always the history of the first uses of each id |
| `Evidence.DurableWalk` | src/network_finality/evidence.py:80-95 | its chain walks to GENESIS through every row exactly once, and in no other way |
| `State.ProtectedNetworkState.AdvanceCounter` | src/network_finality/state.py:26-28 | raises the counter by one, returns it, and changes nothing else |
| `State.NonceRegistry.Reserve` | src/network_finality/state.py:162-167 | succeeds exactly for a nonce not seen before, which is then seen |
| `State.NonceRegistry.Contains` | src/network_finality/state.py:169-171 | tells whether the nonce was seen |
| `State.InMemoryActivationStore.Put` | src/network_finality/state.py:56-60 | installs a record, or refuses an id already present |
| `State.InMemoryActivationStore.Get` | src/network_finality/state.py:62-64 | returns the record as it was put |
| `State.InMemoryActivationStore.Consume` | src/network_finality/state.py:66-71 | succeeds exactly for a registered unused id, which is then used |
| `State.InMemoryActivationStore.Unconsume` | src/network_finality/state.py:73-75 | makes the id unused and changes nothing else |
| `State.InMemoryActivationStore.IsUsed` | src/network_finality/state.py:77-79 | tells whether the id is used |
| `State.SQLiteActivationStore.Put` | src/network_finality/state.py:107-122 | inserts an unused row, or refuses an id already present |
| `State.SQLiteActivationStore.Get` | src/network_finality/state.py:124-136 | returns the row with its used flag |
| `State.SQLiteActivationStore.Consume` | src/network_finality/state.py:138-146 | succeeds exactly when an unused row was updated |
| `State.SQLiteActivationStore.Unconsume` | src/network_finality/state.py:148-150 | clears the flag of the row, if there is one |
| `State.SQLiteActivationStore.IsUsed` | src/network_finality/state.py:152-154 | tells whether there is a used row |
| `State.StepsAgree` | src/network_finality/state.py:50-154 | one operation keeps the two stores in correspondence and answers alike; a fetch differs exactly in a stale flag |
| `State.StoresAgree` | src/network_finality/state.py:50-154 | for every sequence of operations, reopening included, both stores answer alike up to a fetched flag, and used ids are registered |
| `State.FetchedFlag` | src/network_finality/state.py:62-79 | exactly when a fetched record is the same in both stores |
| `Policy.DeniesIffNotPermitted` | src/network_finality/policy.py:25-59 | policy denies exactly the candidates outside the window, the epochs, the allowlists or the duration envelope |
| `Policy.DeniesWithFirst` | src/network_finality/policy.py:25-59 | the denial has the reason and the code of the first of the fourteen checks that fails |
| `Policy.ReasonIffFirst` | src/network_finality/policy.py:25-59 | a reason is given exactly when a check with that reason is the first to fail; none exactly when all are met |
| `SystemState.DemoNetwork.Apply` | src/network_finality/network.py:17-20 | records the effect under the id drawn and changes nothing else |
| `Ped.ProtectedEnforcementDomain.ValidateAndIssue` | src/network_finality/ped.py:91-181 | is the step `PedStep`: policy, then nonce, counter, evidence, and only then signature and activation; the whole new state and the result |
| `Ped.IssuesIff` | src/network_finality/ped.py:95-181 | an authority is issued exactly for a permitted candidate with a new nonce and an id not taken; the nonce is reserved and ALLOW recorded exactly for the first two |
| `Ped.AnswerIs` | src/network_finality/ped.py:59-115 | every decision names the call and the state; a denial carries the code of the first failing check, or EF-006 exactly for a permitted candidate whose nonce was seen |
| `Ped.RecordIs` | src/network_finality/ped.py:100-110 | the record committed for every call, field by field |
| `Ped.IssuesAsAsked` | src/network_finality/ped.py:117-181 | the authority issued and the activation installed, field by field: scope, binding, lifetime, issuer, signature; it expires at the earlier of its own lifetime and the candidate |
| `Sink.NetworkFinalitySink.VerifyEnvelope` | src/network_finality/sink.py:74-86 | key, signature, expiry and candidate: the first failing check, and the report so far |
| `Sink.NetworkFinalitySink.VerifyStores` | src/network_finality/sink.py:88-109 | evidence, activation and consumption state: the first failing check, and the report so far |
| `Sink.NetworkFinalitySink.VerifyBinding` | src/network_finality/sink.py:111-134 | sink, boundary, state reference and the five epochs: the first failing check, and the report so far |
| `Sink.NetworkFinalitySink.VerifyScope` | src/network_finality/sink.py:136-170 | nonce to duration: the first failing check, and the report so far |
| `Sink.NetworkFinalitySink.Effectuate` | src/network_finality/sink.py:175-206 | is the locked section as one step, whatever it finds: denies a used or unregistered authority, consumes and applies, or leaves all as it was when the network raises |
| `Sink.LockedAfterLadder` | src/network_finality/sink.py:175-179 | when nothing has moved since the ladder passed, neither denial of the locked section is given |
| `Sink.NetworkFinalitySink.VerifyAndEffectuate` | src/network_finality/sink.py:61-206 | is the step `SinkStep`: the answer of the ladder with its code and report, and the whole new state |
| `Sink.ReportCovers` | src/network_finality/sink.py:70-166 | after n checks the report holds exactly the first n |
| `Sink.ReplyReports` | src/network_finality/sink.py:48-206 | every reply that denies carries its rung's code and reports exactly the checks passed before it; every reply that allows reports all seventeen, consumption included |
| `Sink.ReplySays` | src/network_finality/sink.py:48-206 | a denial or exception changes nothing and says so; an ALLOW consumes the authority and puts one effect on the network that carries what was presented, field by field |
| `Sink.RungCodes` | src/network_finality/errors.py:6-38 | the code of each of the sink's denials |
| `Invariants.AcceptIff` | src/network_finality/sink.py:72-170 | in every reachable state the ladder passes exactly an issued authority with its own candidate, evidence intact, unused, unexpired, at its sink, under its state, in scope |
| `Invariants.LadderWhenGenuine` | src/network_finality/sink.py:72-170 | for what was issued the ladder is a short one: expiry, evidence, sink, use, sink type, state, effect |
| `Invariants.LadderWhenNot` | src/network_finality/sink.py:72-104 | anything else is denied no later than the comparison with the activation record |
| `Invariants.PedKeeps` | src/network_finality/ped.py:91-181 | a call of the domain keeps the invariant over evidence, activations, nonces and effects |
| `Invariants.SinkKeeps` | src/network_finality/sink.py:61-206 | a presentation, with any arguments, keeps the invariant |
| `Invariants.ReachableInv` | src/network_finality/engine.py:47-97 | after every run from a fresh system the invariant holds |
| `Finality.EffectsAreBacked` | src/network_finality/ped.py:91-181 | each admitted presentation showed an issued authority with ALLOW evidence for its candidate and decision, committed in the chain before it |
| `Finality.NetworkIsBacked` | src/network_finality/sink.py:175-194 | every effect was made by an admitted presentation, and the used authorities are exactly the admitted ones |
| `Finality.EffectsAreAsAsked` | src/network_finality/sink.py:181-189 | every effect on the network carries, field by field, what one admitted presentation showed, and has the type, resources and parameters that the validated candidate asks for |
| `Finality.AtMostOnce` | src/network_finality/sink.py:107-109 | at most one effect per authority, per nonce and per candidate digest |
| `Finality.EffectsAreInjective` | src/network_finality/network.py:17-20 | effects on the network map injectively to used authorities |
| `Finality.EvidenceAccounting` | src/network_finality/ped.py:95-180 | one record per call with consecutive counters; ALLOW records as many as reserved nonces; as many as activations exactly when no two allowed calls drew the same authority id |
| `Finality.IntactIffNotReused` | src/network_finality/evidence.py:44 | the evidence of an authority stays intact exactly until its id is reused |
| `Finality.TimeBound` | src/network_finality/policy.py:27-32 | every effect is admitted before the candidate expires and within greatest age plus authority lifetime of its creation |
| `Finality.EffectDeterminacy` | src/network_finality/sink.py:145-166 | two presentations of one authority that pass the ladder, in any two states, show the same candidate and agree on effect type, resources and canonical parameters |
| `Finality.DurationBoundIffNamed` | src/network_finality/sink.py:168-170 | which durations are admitted in place of the effect's own, none included; the policy maximum bounds them exactly when candidate and effect both name one |
| `Finality.DeadRungs` | src/network_finality/sink.py:72-170 | eight denials of the ladder can never be its answer in a reachable state, and seven more not for what was issued |
| `Finality.SignatureTextIsPinned` | src/network_finality/sink.py:76-101 | on an admitted authority any other signature text is denied: for the activation digest if it decodes to bytes the scheme accepts, for the signature if it does not decode or the scheme refuses its bytes |
| `Finality.SignatureTextIffCanonical` | src/network_finality/crypto.py:35-40 | among the texts for an admitted signature's bytes all verify, and exactly the canonical one is the issued text; a text that is not ASCII never verifies |
| `Finality.IgnoredSuffixIsPinned` | src/network_finality/sink.py:76-101 | a signature followed by ignored ASCII characters verifies and is denied for the activation digest |
| `Finality.IssuedIsAdmitted` | src/network_finality/sink.py:196-206 | an authority just issued, presented in time, at its sink and in scope, is allowed |
| `Finality.ValidAuthoritySurvives` | tests/test_variations.py:91-97 | presentations that are denied or whose effect raises leave an issued authority as good as before |
| `Finality.FirstRun` | src/network_finality/engine.py:47-97 | from a fresh system, any permitted candidate is issued an authority that is allowed until its own lifetime or the candidate ends, for every duration up to the one it names, for any duration if it names none, and for none at all |
| `Reference.ReferenceRunAdmits` | src/network_finality/engine.py:100-180 | the reference candidate gets its effect, up to its duration; of any length if it names none and without one in any case, although policy allows 300 seconds |
| `Finality.PermanentRevocation` | draft/draft-das-ai-native-6g-execution-finality-01.xml:1159-1165 | once an epoch has passed an authority's value, no continuation of the run admits it |
| `Finality.DenialsAreInvisible` | tests/test_variations.py:91-97 | erasing denied presentations, and those whose effect raised, changes neither the final state nor any other reply |
| `Ownership.ActKeeps` | src/network_finality/sink.py:175-194 | every step of every thread keeps ownership |
| `Ownership.OwnershipAlways` | src/network_finality/sink.py:107-194 | in every interleaving the used authorities are the disjoint union of applied ones and ones owned by one thread |
| `Ownership.UnconsumeIsSafe` | src/network_finality/sink.py:190-194 | giving an authority back never frees one that has an effect or another owner |
| `Sandwich.NextKeeps` | src/network_finality/sink.py:120-134 | every step keeps what threads and authorities know about the times of their epoch reads |
| `Sandwich.EpochSandwich` | src/network_finality/ped.py:146-150 | if epochs only rise, all five held the bound values at once from the domain's last read to the sink's first, for every effect |
| `Sandwich.CurrentIffUnmoved` | src/network_finality/sink.py:120-189 | with rising epochs, at the effect none is below its bound value, and each still has it exactly when it has not moved since the sink read it |
| `Sandwich.RevokedNeverApplied` | draft/draft-das-ai-native-6g-execution-finality-01.xml:1159-1165 | in the interleaved machine, a presentation that read an epoch after it passed the bound value has no effect, let alone one whose reads began after |
| `Passage.ConcurrentFinality` | src/network_finality/sink.py:61-206 | in every interleaving each effect was presented with an installed authority and its candidate, at its sink, in time, in scope, and no two share an authority |
| `Issuance.NextKeeps` | src/network_finality/ped.py:91-181 | every step keeps what stands behind calls and authorities: policy's reads, its verdict, and the record in the chain |
| `Issuance.NextReserves` | src/network_finality/state.py:162-167 | every step keeps each nonce with at most one call or one authority, and reserved |
| `Backing.ConcurrentBacking` | src/network_finality/ped.py:95-165 | in every interleaving each effect rests on policy having passed on values each current when read, and on an ALLOW record in the chain that its authority names |
| `Backing.ConcurrentOnce` | src/network_finality/sink.py:107-194 | in every interleaving at most one effect per authority, per nonce and per candidate digest |
| `Backing.ConcurrentBounds` | src/network_finality/policy.py:27-55 | the time and duration bounds hold in every interleaving, under authorities that expire at the earlier of their own lifetime and the candidate |
| `Backing.BoundIffUnmoved` | src/network_finality/ped.py:146-150 | with rising epochs, a bound epoch is never below the one policy compared, and equal exactly when it did not move between the reads |
| `Moving.IssuesAcross` | src/network_finality/ped.py:95-165 | a permitted call overtaken after policy issues nevertheless, bound to the epochs as they are then |
| `Moving.EffectAcrossMoves` | src/network_finality/sink.py:120-194 | for every permitted candidate and any two moves there is a schedule in which policy compares the first epochs, the authority is bound to the second, and the effect is made at the third |
| `Moving.ReferenceIsOvertaken` | src/network_finality/engine.py:100-166 | such a schedule for the reference candidate |
| `Counters.StepCounts` | src/network_finality/state.py:26-28 | every step, of any thread, keeps what two counting calls have read, been given and recorded |
| `Counters.CountersDifferIff` | src/network_finality/state.py:26-28 | in any schedule without a third writer, the records of two calls carry different counters exactly when one call precedes the other in all three accesses |
| `Counters.CountersMayRepeat` | src/network_finality/ped.py:100-110 | from the start of two calls: a schedule with different counters in their records, and one with the same |
| `Effects.ApplyPuts` | src/network_finality/sink.py:181-189 | the step that makes an effect puts exactly it on the network, carrying what was presented |
| `Effects.ConcurrentEffects` | src/network_finality/sink.py:175-194 | in every interleaving each effect carries what one admitted presentation showed and is what the candidate of its authority asks for |
| `Winner.CheckRaces` | src/network_finality/sink.py:72-170 | among presentations valid alone, a check denies nobody except for an authority taken meanwhile |
| `Winner.RaceStep` | src/network_finality/sink.py:107-194 | each step keeps the race open, lets one thread take the authority, or lets it win |
| `Winner.OneWinner` | tests/test_variations.py:45-54 | however N presentations of a valid authority interleave, exactly one is allowed, the others find it used, and there is one effect |
| `Crowd.OneOrGivenBack` | src/network_finality/sink.py:175-194 | among any other threads and with a network that may raise: exactly one presentation is allowed and makes the one effect, or none is and one that took the authority gave it back |
| `Winner.IssuedOpensContest` | tests/test_variations.py:45-48 | any number of threads presenting an authority just issued meet the conditions of `Winner.OneWinner` |
| `Winner.BeatenCode` | src/network_finality/errors.py:11 | every loser is denied with EF-005 |
| `Winner.MatchesSequential` | src/network_finality/sink.py:175-206 | the outcome is that of every sequential order in which the winner comes first |
| `Locks.LocksAlways` | src/network_finality/sink.py:175 | in every schedule each lock is held exactly by the thread inside its section |
| `Locks.MutualExclusion` | src/network_finality/sink.py:175-194 | at most one thread is inside a network's section |
| `Locks.NoDeadlock` | src/network_finality/sink.py:175 | while some thread is unfinished, some thread can move, for any number of sinks and networks |
| `Locks.AllCanFinish` | src/network_finality/sink.py:175-206 | from any reachable point a schedule brings all presentations to their end |
| `Locks.ConsumeNeverFails` | src/network_finality/sink.py:176-179 | with one network, a thread past the second look at the used set always consumes |
| `Uninterrupted.PendingStep` | src/network_finality/sink.py:72-170 | each small reading step leaves the pending answer of the ladder as it was, or gives it |
| `Uninterrupted.SinkCallAlone` | src/network_finality/sink.py:61-206 | a sink thread running alone ends with the state and the exact answer of the one-step call |
| `Uninterrupted.PedCallAlone` | src/network_finality/ped.py:91-181 | a domain thread running alone ends with the state, counter included, and the exact result of the one-step call |

## Left out

- EvidenceAccounting: consecutive counters are claimed for sequential runs only; `Counters.CountersDifferIff` says when they differ otherwise.
- Where policy stops at the first failing check, the interleaved domain still reads the remaining fields; a read of
  the counter that the source overwrites before use, and the reads behind the predicate flags, are left out.
- The inside of SHA-2, HMAC and Ed25519: primitives are functions with the properties of `Crypto.Ideal`. Their outputs
  have no fixed length, because no injective hash on all byte strings has one.
- Identifiers and random bytes (`uuid4`, `secrets.token_bytes`) and the clock are arguments. No freshness is assumed:
  a reused evidence id overwrites, a reused effect id overwrites, a reused authority id makes installation fail.
- SQL text, write-ahead logging, files and crashes: a table is a field that outlives the store object, and each
  operation is one transaction. The nonce registry and the counter do not survive a restart in the source, and
  nothing is claimed across restarts.
- Floats, NaN, lone surrogates, keys that are not strings and Python's limit on integer digits, in canonical JSON;
  the calendar text of a timestamp, which is an injective function of its microseconds.
- Pydantic parsing, minimum lengths and enumeration members: records are plain datatypes with wire strings, and
  validators are not run-time invariants in the source either.
- The message of a denial and the predicate flags of a decision, which follow from whether it allows.
- The sequential sink is written as one method with five helpers, one for each stretch of the source's body, and
  leaves the locks out; `Concurrent` has them.
- The durable stores are not wired into `Ped` and `Sink`: `State.StoresAgree` covers activations, and the durable
  evidence store differs by refusing a reused id.
- Re-entry of a lock by the thread that holds it, which no call makes.
- The command line, examples, benchmark, container and wiring by environment variables; attestation, hardware,
  alternate paths and replication, which `docs/LIMITATIONS.md` disclaims.
