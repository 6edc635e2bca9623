/** Digests and signatures over the canonical bytes. The hash and the signature scheme are
    parameters; what is assumed of them is `Ideal`, and `IdealExists` shows it can be met. */
module Crypto {
  import opened Wrappers
  import opened Canonical
  import Base64Url
  import J = Json

  datatype Algorithm = SHA256 | SHA384 | SHA512

  /** The primitives the protocol is built on: a hash, a timestamp text, and a signature scheme.
      For HMAC, `check` recomputes the code and compares; for Ed25519 it is the public-key check. */
  datatype Primitives = Primitives(
    hash: (Algorithm, seq<byte>) -> seq<byte>,
    stamp: Stamp,
    sign: seq<byte> -> seq<byte>,
    check: (seq<byte>, seq<byte>) -> bool)

  /** The idealisation: hashing never collides, within or across algorithms, and gives at least
      32 bytes; timestamps have distinct texts; a signature just made is accepted. Outputs are
      not given a fixed length, because no injective function on all byte strings has one. */
  ghost predicate Ideal(p: Primitives) {
    && InjectiveStamp(p.stamp)
    && (forall a, x, b, y :: p.hash(a, x) == p.hash(b, y) ==> a == b && x == y)
    && (forall a, x :: |p.hash(a, x)| >= 32)
    && (forall x :: p.check(x, p.sign(x)))
  }

  function WitnessHash(a: Algorithm, x: seq<byte>): (h: seq<byte>)
    ensures |h| == 32 + |x| && h[32..] == x
    ensures h[0] == if a == SHA256 then 0 else if a == SHA384 then 1 else 2
  {
    var tag: byte := if a == SHA256 then 0 else if a == SHA384 then 1 else 2;
    [tag] + seq(31, _ => 0) + x
  }

  /** The idealisation is consistent: here are primitives that meet it. */
  lemma IdealExists() returns (p: Primitives)
    ensures Ideal(p)
  {
    p := Primitives((a, x) => WitnessHash(a, x), t => J.PrintInt(t), x => x, (x, y) => x == y);
    forall a, b | J.PrintInt(a) == J.PrintInt(b) ensures a == b {
      J.PrintInjective(J.Num(a), J.Num(b));
    }
    forall a, x, b, y | WitnessHash(a, x) == WitnessHash(b, y) ensures a == b && x == y {
      assert WitnessHash(a, x)[32..] == x && WitnessHash(b, y)[32..] == y;
    }
  }

  function DigestOf(p: Primitives, v: PyData, a: Algorithm := SHA256): string {
    Base64Url.Encode(p.hash(a, CanonicalBytes(p.stamp, v)))
  }

  /** Equal digests mean the same algorithm over the same data, and the other way round. */
  lemma DigestMeaning(p: Primitives, v: PyData, a: Algorithm, w: PyData, b: Algorithm)
    requires Ideal(p)
    ensures DigestOf(p, v, a) == DigestOf(p, w, b) <==> a == b && SameData(p.stamp, v, w)
  {
    CanonicalMeaning(p.stamp, v, w);
    if DigestOf(p, v, a) == DigestOf(p, w, b) {
      Base64Url.Injective(p.hash(a, CanonicalBytes(p.stamp, v)), p.hash(b, CanonicalBytes(p.stamp, w)));
    }
  }

  const GENESIS := "GENESIS"

  /** A digest has at least 43 characters, so it is never the chain's seed. */
  lemma DigestIsNotGenesis(p: Primitives, v: PyData, a: Algorithm)
    requires Ideal(p)
    ensures |DigestOf(p, v, a)| >= 43 && DigestOf(p, v, a) != GENESIS
  {
    Base64Url.EncodedShape(p.hash(a, CanonicalBytes(p.stamp, v)));
  }

  function Sign(p: Primitives, payload: seq<byte>): string {
    Base64Url.Encode(p.sign(payload))
  }

  /** A text that does not decode is rejected, as the caught exception is in the source. */
  predicate Verify(p: Primitives, payload: seq<byte>, signature: string) {
    match Base64Url.Decode(signature)
    case None => false
    case Some(bytes) => p.check(payload, bytes)
  }

  lemma SignedVerifies(p: Primitives, payload: seq<byte>)
    requires Ideal(p)
    ensures Verify(p, payload, Sign(p, payload))
  {
    Base64Url.RoundTrip(p.sign(payload));
  }

  /** A scheme whose check compares with the signature it computes, as the one by HMAC does. */
  ghost predicate Comparing(p: Primitives) {
    forall x, s :: p.check(x, s) <==> s == p.sign(x)
  }

  /** A text verifies exactly when it decodes to bytes that the scheme accepts; where the scheme compares,
      exactly when it decodes to the signature of the payload. */
  lemma VerifiesIff(p: Primitives, payload: seq<byte>, text: string)
    ensures Verify(p, payload, text)
            <==> Base64Url.Decode(text).Some? && p.check(payload, Base64Url.Decode(text).value)
    ensures Comparing(p) ==> (Verify(p, payload, text) <==> Base64Url.Decode(text) == Some(p.sign(payload)))
  {
  }

  /** The signature check reads bytes, not text: ignored characters change nothing. */
  lemma VerifyIgnores(p: Primitives, payload: seq<byte>, signature: string, junk: string)
    requires Base64Url.Ignored(junk) && |junk| % 4 == 0
    ensures Verify(p, payload, signature + junk) == Verify(p, payload, signature)
  {
    Base64Url.DecodeIgnores(signature, junk);
  }

  /** A signature text that is not ASCII is refused whatever it would decode to. Any text for the
      signature's own bytes verifies, and it is the signer's text if and only if it is canonical. */
  lemma VerifyReadsBytes(p: Primitives, payload: seq<byte>, text: string)
    requires Ideal(p)
    ensures !Base64Url.Ascii(text) ==> !Verify(p, payload, text)
    ensures Base64Url.Decode(text) == Some(p.sign(payload)) ==>
      Verify(p, payload, text) && (text == Sign(p, payload) <==> Base64Url.CanonicalText(text))
  {
    if Base64Url.Decode(text) == Some(p.sign(payload)) {
      Base64Url.ReencodesIffCanonical(text, p.sign(payload));
    }
  }
}
