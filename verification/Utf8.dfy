/** UTF-8 (section 3 of RFC 3629): the last step of the canonical encoding. A Dafny `char`
    is a Unicode scalar value, which is what a Python string without lone surrogates holds. */
module Utf8 {
  import opened Wrappers

  function EncodeChar(c: char): (b: seq<byte>)
    ensures 1 <= |b| <= 4
  {
    var n := c as int;
    if n < 0x80 then [n]
    else if n < 0x800 then [0xC0 + n / 64, 0x80 + n % 64]
    else if n < 0x10000 then [0xE0 + n / 4096, 0x80 + n / 64 % 64, 0x80 + n % 64]
    else [0xF0 + n / 262144, 0x80 + n / 4096 % 64, 0x80 + n / 64 % 64, 0x80 + n % 64]
  }

  function Encode(s: string): seq<byte> {
    if s == [] then [] else EncodeChar(s[0]) + Encode(s[1..])
  }

  predicate IsScalar(n: int) {
    0 <= n < 0xD800 || 0xE000 <= n < 0x11_0000
  }

  predicate Continues(b: seq<byte>, k: nat) {
    k < |b| && forall i :: 1 <= i <= k ==> 0x80 <= b[i] < 0xC0
  }

  /** Reads one character: its scalar value and the number of bytes it took. */
  function DecodeChar(b: seq<byte>): (r: Option<(int, nat)>)
    requires b != []
    ensures r.Some? ==> IsScalar(r.value.0) && 1 <= r.value.1 <= |b|
  {
    var (n: int, k: nat) :=
      if b[0] < 0x80 then (b[0] as int, 0)
      else if 0xC0 <= b[0] < 0xE0 && Continues(b, 1) then (b[0] as int * 64 + b[1] as int - 0x3080, 1)
      else if 0xE0 <= b[0] < 0xF0 && Continues(b, 2) then
        (b[0] as int * 4096 + b[1] as int * 64 + b[2] as int - 0xE2080, 2)
      else if 0xF0 <= b[0] < 0xF8 && Continues(b, 3) then
        (b[0] as int * 262144 + b[1] as int * 4096 + b[2] as int * 64 + b[3] as int - 0x3C82080, 3)
      else (-1, 0);
    if IsScalar(n) then Some((n, k + 1)) else None
  }

  function Decode(b: seq<byte>): Option<string> {
    if b == [] then Some([])
    else
      match DecodeChar(b)
      case None => None
      case Some((n, k)) =>
        match Decode(b[k..])
        case None => None
        case Some(s) => Some([n as char] + s)
  }

  lemma DecodeOneEncoded(c: char, rest: seq<byte>)
    ensures DecodeChar(EncodeChar(c) + rest) == Some((c as int, |EncodeChar(c)|))
  {
    var n, b := c as int, EncodeChar(c) + rest;
    if n < 0x800 {
    } else if n < 0x10000 {
      assert n / 4096 == n / 64 / 64;
      assert Continues(b, 2);
    } else {
      assert n / 4096 == n / 64 / 64 && n / 262144 == n / 64 / 64 / 64;
      assert Continues(b, 3);
    }
  }

  /** Decoding inverts encoding on every string, so the encoding loses nothing. */
  lemma {:induction false} RoundTrip(s: string)
    ensures Decode(Encode(s)) == Some(s)
  {
    if s != [] {
      var head, rest := EncodeChar(s[0]), Encode(s[1..]);
      DecodeOneEncoded(s[0], rest);
      assert (head + rest)[|head|..] == rest;
      RoundTrip(s[1..]);
      assert [s[0]] + s[1..] == s;
    }
  }

  lemma {:induction false} Injective(s: string, t: string)
    requires Encode(s) == Encode(t)
    ensures s == t
  {
    RoundTrip(s);
    RoundTrip(t);
  }

  // ---- the bytes themselves ----

  /** The rows of the table in section 3 of RFC 3629: how many bytes, how each is marked, and that the bits
      behind the marks are the scalar value. */
  lemma TableRow(c: char)
    ensures var n, b := c as int, EncodeChar(c);
            if n < 0x80 then b == [n]
            else if n < 0x800 then
              |b| == 2 && 0xC0 <= b[0] < 0xE0 && Continues(b, 1)
                && n == (b[0] as int - 0xC0) * 64 + (b[1] as int - 0x80)
            else if n < 0x10000 then
              |b| == 3 && 0xE0 <= b[0] < 0xF0 && Continues(b, 2)
              && n == (b[0] as int - 0xE0) * 4096 + (b[1] as int - 0x80) * 64 + (b[2] as int - 0x80)
            else
              |b| == 4 && 0xF0 <= b[0] < 0xF8 && Continues(b, 3)
              && n == (b[0] as int - 0xF0) * 262144 + (b[1] as int - 0x80) * 4096 + (b[2] as int - 0x80) * 64
                      + (b[3] as int - 0x80)
  {
    var n := c as int;
    assert n / 4096 == n / 64 / 64 && n / 262144 == n / 64 / 64 / 64;
  }

  /** Strings are encoded character by character. */
  lemma {:induction false} EncodesByPieces(s: string, t: string)
    ensures Encode(s + t) == Encode(s) + Encode(t)
    ensures forall c :: Encode([c]) == EncodeChar(c)
  {
    forall c ensures Encode([c]) == EncodeChar(c) {
      assert [c][1..] == [];
      assert EncodeChar(c) + [] == EncodeChar(c);
    }
    if s == [] {
      assert s + t == t;
    } else {
      assert (s + t)[1..] == s[1..] + t;
      EncodesByPieces(s[1..], t);
    }
  }
}
