/** Unpadded base64url text (section 5 of RFC 4648, padding per section 3.2). */
module Base64Url {
  import opened Wrappers

  type sextet = x: int | 0 <= x < 64

  /** The URL-safe alphabet. */
  function Symbol(v: sextet): (c: char)
    ensures c != '=' && c as int < 128
  {
    if v < 26 then 'A' + v as char
    else if v < 52 then 'a' + (v - 26) as char
    else if v < 62 then '0' + (v - 52) as char
    else if v == 62 then '-' else '_'
  }

  /** The decoder's table: both alphabets are accepted, since '-' and '_' are first mapped to '+' and '/'. */
  function Sextet(c: char): Option<sextet> {
    if 'A' <= c <= 'Z' then Some(c as int - 'A' as int)
    else if 'a' <= c <= 'z' then Some(c as int - 'a' as int + 26)
    else if '0' <= c <= '9' then Some(c as int - '0' as int + 52)
    else if c == '-' || c == '+' then Some(62)
    else if c == '_' || c == '/' then Some(63)
    else None
  }

  /** Three bytes as four characters. */
  function Group(b0: byte, b1: byte, b2: byte): (s: string)
    ensures |s| == 4
    ensures s[0] != '=' && s[1] != '=' && s[2] != '=' && s[3] != '=' && Ascii(s)
  {
    [Symbol(b0 / 4), Symbol(b0 % 4 * 16 + b1 / 16), Symbol(b1 % 16 * 4 + b2 / 64), Symbol(b2 % 64)]
  }

  /** `base64.urlsafe_b64encode`: groups of three bytes, the last one padded with '='. */
  function Padded(b: seq<byte>): string {
    if b == [] then []
    else if |b| == 1 then [Symbol(b[0] / 4), Symbol(b[0] % 4 * 16), '=', '=']
    else if |b| == 2 then
      [Symbol(b[0] / 4), Symbol(b[0] % 4 * 16 + b[1] / 16), Symbol(b[1] % 16 * 4), '=']
    else Group(b[0], b[1], b[2]) + Padded(b[3..])
  }

  function StripPadding(s: string): string {
    if s != [] && s[|s| - 1] == '=' then StripPadding(s[..|s| - 1]) else s
  }

  function Encode(b: seq<byte>): string {
    StripPadding(Padded(b))
  }

  function Padding(length: nat): string {
    match length % 4
    case 0 => ""
    case 3 => "="
    case 2 => "=="
    case _ => "==="
  }

  /** Bits carried over at each position of a group of four characters. */
  predicate Carried(quad: nat, left: nat) {
    quad < 4 && left < (if quad == 0 then 1 else if quad == 1 then 64 else if quad == 2 then 16 else 4)
  }

  /** One more sextet: the byte it completes, if any, and the next position and carry. */
  function Absorb(quad: nat, left: nat, v: sextet): (r: (seq<byte>, nat, nat))
    requires Carried(quad, left)
    ensures Carried(r.1, r.2) && r.1 == (quad + 1) % 4
  {
    if quad == 0 then ([], 1, v)
    else if quad == 1 then ([First(left, v)], 2, v % 16)
    else if quad == 2 then ([Second(left, v)], 3, v % 4)
    else ([Third(left, v)], 0, 0)
  }

  function First(left: nat, v: sextet): byte requires left < 64 { left * 4 + v / 16 }

  function Second(left: nat, v: sextet): byte requires left < 16 { left * 16 + v / 4 }

  function Third(left: nat, v: sextet): byte requires left < 4 { left * 64 + v }

  function Prepend(out: seq<byte>, r: Option<seq<byte>>): Option<seq<byte>> {
    match r
    case None => None
    case Some(bs) => Some(out + bs)
  }

  /** The lenient byte reader behind `base64.urlsafe_b64decode`: characters outside the alphabet
      are skipped, a '=' that completes the group ends the text, a group left open is an error. */
  function Read(s: string, quad: nat, left: nat, pads: nat): Option<seq<byte>>
    requires Carried(quad, left)
  {
    if s == [] then (if quad == 0 then Some([]) else None)
    else if s[0] == '=' then
      if quad < 2 then Read(s[1..], quad, left, pads)
      else if quad + pads + 1 >= 4 then Some([])
      else Read(s[1..], quad, left, pads + 1)
    else
      match Sextet(s[0])
      case None => Read(s[1..], quad, left, pads)
      case Some(v) =>
        var (out, q, l) := Absorb(quad, left, v);
        Prepend(out, Read(s[1..], q, l, 0))
  }

  /** A text that can be handed to the byte reader: a `str` is first encoded as ASCII. */
  predicate Ascii(s: string) {
    forall i :: 0 <= i < |s| ==> s[i] as int < 128
  }

  /** `b64url_decode`: it raises for a text that is not ASCII, whatever else the text holds. */
  function Decode(s: string): (r: Option<seq<byte>>)
    ensures r.Some? ==> Ascii(s)
  {
    if Ascii(s) then Read(s + Padding(|s|), 0, 0, 0) else None
  }

  function EncodedLength(n: nat): nat {
    (4 * n + 2) / 3
  }

  // ---- the padding that is stripped is the padding that is restored ----

  function Body(b: seq<byte>): (s: string)
    ensures |s| == EncodedLength(|b|) && Ascii(s)
    ensures forall i :: 0 <= i < |s| ==> s[i] != '='
  {
    if b == [] then []
    else if |b| == 1 then [Symbol(b[0] / 4), Symbol(b[0] % 4 * 16)]
    else if |b| == 2 then [Symbol(b[0] / 4), Symbol(b[0] % 4 * 16 + b[1] / 16), Symbol(b[1] % 16 * 4)]
    else Group(b[0], b[1], b[2]) + Body(b[3..])
  }

  lemma PaddingOfLonger(n: nat)
    ensures Padding(4 + n) == Padding(n)
  {
    assert (4 + n) % 4 == n % 4;
  }

  lemma PaddedShort(b: seq<byte>)
    requires |b| < 3
    ensures Padded(b) == Body(b) + Padding(|Body(b)|)
  {
    assert |Body(b)| == if b == [] then 0 else |b| + 1;
  }

  lemma {:induction false} PaddedIsBodyAndPadding(b: seq<byte>)
    ensures Padded(b) == Body(b) + Padding(|Body(b)|)
  {
    if |b| < 3 {
      PaddedShort(b);
    } else {
      PaddedIsBodyAndPadding(b[3..]);
      AppendToGroup(Group(b[0], b[1], b[2]), Body(b[3..]), Padded(b[3..]));
    }
  }

  lemma AppendToGroup(group: string, body: string, padded: string)
    requires |group| == 4 && padded == body + Padding(|body|)
    ensures group + padded == (group + body) + Padding(|group + body|)
  {
    PaddingOfLonger(|body|);
  }

  lemma {:induction false} StripOnlyPadding(s: string, pad: string)
    requires forall i :: 0 <= i < |s| ==> s[i] != '='
    requires forall i :: 0 <= i < |pad| ==> pad[i] == '='
    ensures StripPadding(s + pad) == s
  {
    if pad == [] {
      assert s + pad == s;
    } else {
      assert (s + pad)[..|s + pad| - 1] == s + pad[..|pad| - 1];
      StripOnlyPadding(s, pad[..|pad| - 1]);
    }
  }

  /** What the unpadded text is: its length is ceil(4n/3), never 1 modulo 4, and adding the
      decoder's padding gives back exactly the padded text. */
  lemma EncodedShape(b: seq<byte>)
    ensures Encode(b) == Body(b)
    ensures |Encode(b)| == EncodedLength(|b|) && |Encode(b)| % 4 != 1
    ensures Encode(b) + Padding(|Encode(b)|) == Padded(b)
  {
    PaddedIsBodyAndPadding(b);
    StripOnlyPadding(Body(b), Padding(|Body(b)|));
  }

  lemma SextetOfSymbol(v: sextet)
    ensures Sextet(Symbol(v)) == Some(v)
  {
  }

  lemma ReadSymbol(v: sextet, t: string, quad: nat, left: nat)
    requires Carried(quad, left)
    ensures var (out, q, l) := Absorb(quad, left, v);
            Read([Symbol(v)] + t, quad, left, 0) == Prepend(out, Read(t, q, l, 0))
  {
    SextetOfSymbol(v);
    assert ([Symbol(v)] + t)[1..] == t;
  }

  lemma ReadPair(v0: sextet, v1: sextet, t: string)
    ensures Read([Symbol(v0)] + ([Symbol(v1)] + t), 0, 0, 0)
            == Prepend([First(v0, v1)], Read(t, 2, v1 % 16, 0))
  {
    ReadSymbol(v0, [Symbol(v1)] + t, 0, 0);
    ReadSymbol(v1, t, 1, v0);
    var r := Read(t, 2, v1 % 16, 0);
    if r.Some? {
      assert [] + ([First(v0, v1)] + r.value) == [First(v0, v1)] + r.value;
    }
  }

  lemma ReadTriple(v0: sextet, v1: sextet, v2: sextet, t: string)
    ensures Read([Symbol(v0)] + ([Symbol(v1)] + ([Symbol(v2)] + t)), 0, 0, 0)
            == Prepend([First(v0, v1)], Prepend([Second(v1 % 16, v2)], Read(t, 3, v2 % 4, 0)))
  {
    ReadPair(v0, v1, [Symbol(v2)] + t);
    ReadSymbol(v2, t, 2, v1 % 16);
  }

  lemma ReadGroup(v0: sextet, v1: sextet, v2: sextet, v3: sextet, t: string)
    ensures Read([Symbol(v0), Symbol(v1), Symbol(v2), Symbol(v3)] + t, 0, 0, 0)
            == Prepend([First(v0, v1)],
                 Prepend([Second(v1 % 16, v2)], Prepend([Third(v2 % 4, v3)], Read(t, 0, 0, 0))))
  {
    ReadTriple(v0, v1, v2, [Symbol(v3)] + t);
    ReadSymbol(v3, t, 3, v2 % 4);
    assert [Symbol(v0), Symbol(v1), Symbol(v2), Symbol(v3)] + t
        == [Symbol(v0)] + ([Symbol(v1)] + ([Symbol(v2)] + ([Symbol(v3)] + t)));
  }

  lemma Regroup(b0: byte, b1: byte, b2: byte, v1: int, v2: int)
    requires v1 == b0 % 4 * 16 + b1 / 16 && v2 == b1 % 16 * 4 + b2 / 64
    ensures 0 <= v1 < 64 && 0 <= v2 < 64
    ensures b0 / 4 * 4 + v1 / 16 == b0
    ensures v1 % 16 * 16 + v2 / 4 == b1
    ensures v2 % 4 * 64 + b2 % 64 == b2
  {
  }

  lemma ReadLastOne(v0: sextet, v1: sextet)
    ensures Read([Symbol(v0), Symbol(v1), '=', '='], 0, 0, 0) == Some([First(v0, v1)])
  {
    hide Symbol;
    ReadPair(v0, v1, "==");
    assert [Symbol(v0), Symbol(v1), '=', '='] == [Symbol(v0)] + ([Symbol(v1)] + "==");
    assert "=="[1..] == "=";
    assert Read("==", 2, 0, 0) == Read("=", 2, 0, 1) == Some([]);
    assert [First(v0, v1)] + [] == [First(v0, v1)];
  }

  lemma ReadLastTwo(v0: sextet, v1: sextet, v2: sextet)
    ensures Read([Symbol(v0), Symbol(v1), Symbol(v2), '='], 0, 0, 0) == Some([First(v0, v1), Second(v1 % 16, v2)])
  {
    hide Symbol;
    ReadTriple(v0, v1, v2, "=");
    assert [Symbol(v0), Symbol(v1), Symbol(v2), '='] == [Symbol(v0)] + ([Symbol(v1)] + ([Symbol(v2)] + "="));
    assert Read("=", 3, 0, 0) == Some([]);
    assert [First(v0, v1)] + ([Second(v1 % 16, v2)] + []) == [First(v0, v1), Second(v1 % 16, v2)];
  }

  lemma ReadThree(b0: byte, b1: byte, b2: byte, t: string)
    ensures Read(Group(b0, b1, b2) + t, 0, 0, 0)
            == Prepend([b0], Prepend([b1], Prepend([b2], Read(t, 0, 0, 0))))
  {
    var v1, v2 := b0 % 4 * 16 + b1 / 16, b1 % 16 * 4 + b2 / 64;
    Regroup(b0, b1, b2, v1, v2);
    ReadGroup(b0 / 4, v1, v2, b2 % 64, t);
  }

  lemma ReadEmpty()
    ensures Read([], 0, 0, 0) == Some([])
  {
  }

  lemma {:induction false} ReadPadded(b: seq<byte>)
    ensures Read(Padded(b), 0, 0, 0) == Some(b)
  {
    hide Symbol, Group, Read;
    if b == [] {
      ReadEmpty();
    } else if |b| == 1 {
      var v1 := b[0] % 4 * 16;
      Regroup(b[0], 0, 0, v1, 0);
      ReadLastOne(b[0] / 4, v1);
      assert [b[0]] == b;
    } else if |b| == 2 {
      var v1, v2 := b[0] % 4 * 16 + b[1] / 16, b[1] % 16 * 4;
      Regroup(b[0], b[1], 0, v1, v2);
      ReadLastTwo(b[0] / 4, v1, v2);
      assert [b[0], b[1]] == b;
    } else {
      ReadThree(b[0], b[1], b[2], Padded(b[3..]));
      ReadPadded(b[3..]);
      assert [b[0]] + ([b[1]] + ([b[2]] + b[3..])) == b;
    }
  }

  /** Decoding the unpadded text of any byte string gives that byte string. */
  lemma RoundTrip(b: seq<byte>)
    ensures Decode(Encode(b)) == Some(b)
  {
    EncodedShape(b);
    ReadPadded(b);
  }

  lemma {:induction false} Injective(a: seq<byte>, b: seq<byte>)
    requires Encode(a) == Encode(b)
    ensures a == b
  {
    RoundTrip(a);
    RoundTrip(b);
  }

  // ---- the decoder is lenient: many texts stand for the same bytes ----

  /** ASCII characters outside the table, which the reader skips. */
  predicate Ignored(s: string) {
    Ascii(s) && forall i :: 0 <= i < |s| ==> s[i] != '=' && Sextet(s[i]) == None
  }

  lemma {:induction false} SkipJunk(junk: string, t: string, quad: nat, left: nat, pads: nat)
    requires Carried(quad, left) && Ignored(junk)
    ensures Read(junk + t, quad, left, pads) == Read(t, quad, left, pads)
  {
    if junk == [] {
      assert junk + t == t;
    } else {
      assert (junk + t)[1..] == junk[1..] + t;
      SkipJunk(junk[1..], t, quad, left, pads);
    }
  }

  lemma {:induction false} ReadSkips(s: string, junk: string, t: string, quad: nat, left: nat, pads: nat)
    requires Carried(quad, left) && Ignored(junk)
    ensures Read(s + (junk + t), quad, left, pads) == Read(s + t, quad, left, pads)
    decreases |s|
  {
    var a, b := s + (junk + t), s + t;
    if s == [] {
      assert a == junk + t && b == t;
      SkipJunk(junk, t, quad, left, pads);
    } else {
      assert a[0] == b[0] == s[0] && a[1..] == s[1..] + (junk + t) && b[1..] == s[1..] + t;
      if s[0] == '=' {
        ReadSkips(s[1..], junk, t, quad, left, if quad < 2 then pads else pads + 1);
      } else {
        match Sextet(s[0])
        case None => ReadSkips(s[1..], junk, t, quad, left, pads);
        case Some(v) =>
          var (_, q, l) := Absorb(quad, left, v);
          ReadSkips(s[1..], junk, t, q, l, 0);
      }
    }
  }

  lemma AsciiConcat(s: string, t: string)
    requires Ascii(t)
    ensures Ascii(s + t) <==> Ascii(s)
  {
    if Ascii(s + t) {
      assert forall i :: 0 <= i < |s| ==> (s + t)[i] == s[i];
    }
  }

  /** Appending any multiple of four ignored characters leaves the decoded bytes unchanged,
      so a text is not determined by the bytes it decodes to. */
  lemma DecodeIgnores(s: string, junk: string)
    requires Ignored(junk) && |junk| % 4 == 0
    ensures Decode(s + junk) == Decode(s)
  {
    AsciiConcat(s, junk);
    ReadSkips(s, junk, Padding(|s|), 0, 0, 0);
    assert s + (junk + Padding(|s|)) == (s + junk) + Padding(|s|);
    assert |s + junk| % 4 == |s| % 4;
  }

  // ---- which texts are determined by the bytes they decode to ----

  /** A character of the URL-safe alphabet: not one of the two that are only mapped to it. */
  predicate UrlSafe(c: char) {
    Sextet(c).Some? && c != '+' && c != '/'
  }

  /** URL-safe symbols only, a possible length, and the unused low bits of the last symbol zero. */
  predicate CanonicalText(t: string) {
    && (forall i :: 0 <= i < |t| ==> UrlSafe(t[i]))
    && |t| % 4 != 1
    && (|t| % 4 == 2 ==> Sextet(t[|t| - 1]).value % 16 == 0)
    && (|t| % 4 == 3 ==> Sextet(t[|t| - 1]).value % 4 == 0)
  }

  lemma SymbolIsUrlSafe(v: sextet)
    ensures UrlSafe(Symbol(v)) && Sextet(Symbol(v)) == Some(v)
  {
  }

  lemma SymbolOfSextet(c: char)
    requires UrlSafe(c)
    ensures Symbol(Sextet(c).value) == c
  {
  }

  lemma TwoAreCanonical(v0: sextet, v1: sextet)
    requires v1 % 16 == 0
    ensures CanonicalText([Symbol(v0), Symbol(v1)])
  {
    hide Symbol, Sextet, UrlSafe;
    SymbolIsUrlSafe(v0);
    SymbolIsUrlSafe(v1);
  }

  lemma ThreeAreCanonical(v0: sextet, v1: sextet, v2: sextet)
    requires v2 % 4 == 0
    ensures CanonicalText([Symbol(v0), Symbol(v1), Symbol(v2)])
  {
    hide Symbol, Sextet, UrlSafe;
    SymbolIsUrlSafe(v0);
    SymbolIsUrlSafe(v1);
    SymbolIsUrlSafe(v2);
  }

  lemma NoneAreCanonical()
    ensures CanonicalText([])
  {
  }

  lemma ShortIsCanonical(b: seq<byte>)
    requires |b| < 3
    ensures CanonicalText(Body(b))
  {
    hide Symbol, CanonicalText;
    if b == [] {
      NoneAreCanonical();
    } else if |b| == 1 {
      TwoAreCanonical(b[0] / 4, b[0] % 4 * 16);
    } else {
      ThreeAreCanonical(b[0] / 4, b[0] % 4 * 16 + b[1] / 16, b[1] % 16 * 4);
    }
  }

  lemma GroupIsUrlSafe(b0: byte, b1: byte, b2: byte)
    ensures forall i :: 0 <= i < 4 ==> UrlSafe(Group(b0, b1, b2)[i])
  {
    hide Symbol, Sextet, UrlSafe;
    SymbolIsUrlSafe(b0 / 4);
    SymbolIsUrlSafe(b0 % 4 * 16 + b1 / 16);
    SymbolIsUrlSafe(b1 % 16 * 4 + b2 / 64);
    SymbolIsUrlSafe(b2 % 64);
  }

  lemma GroupThenCanonical(group: string, t: string)
    requires |group| == 4 && (forall i :: 0 <= i < 4 ==> UrlSafe(group[i])) && CanonicalText(t)
    ensures CanonicalText(group + t)
  {
    hide Sextet;
    var whole := group + t;
    assert |whole| % 4 == |t| % 4;
    if t != [] { assert whole[|whole| - 1] == t[|t| - 1]; }
  }

  /** What the encoder writes is canonical. */
  lemma {:induction false} BodyIsCanonical(b: seq<byte>)
    ensures CanonicalText(Body(b))
  {
    hide CanonicalText, Group;
    if |b| < 3 {
      ShortIsCanonical(b);
    } else {
      BodyIsCanonical(b[3..]);
      GroupIsUrlSafe(b[0], b[1], b[2]);
      GroupThenCanonical(Group(b[0], b[1], b[2]), Body(b[3..]));
    }
  }

  /** The bytes a canonical text was written from. */
  function Bytes(t: string): (b: seq<byte>)
    requires CanonicalText(t)
  {
    if t == [] then []
    else
      var v0, v1 := Sextet(t[0]).value, Sextet(t[1]).value;
      if |t| == 2 then [First(v0, v1)]
      else
        var v2 := Sextet(t[2]).value;
        if |t| == 3 then [First(v0, v1), Second(v1 % 16, v2)]
        else
          TailIsCanonical(t);
          [First(v0, v1), Second(v1 % 16, v2), Third(v2 % 4, Sextet(t[3]).value)] + Bytes(t[4..])
  }

  lemma TailIsCanonical(t: string)
    requires CanonicalText(t) && |t| >= 4
    ensures CanonicalText(t[4..])
  {
    hide Sextet;
    assert |t[4..]| % 4 == |t| % 4;
    if |t| > 4 { assert t[4..][|t[4..]| - 1] == t[|t| - 1]; }
  }

  lemma Ungroup(v0: sextet, v1: sextet, v2: sextet, v3: sextet)
    ensures Group(First(v0, v1), Second(v1 % 16, v2), Third(v2 % 4, v3))
            == [Symbol(v0), Symbol(v1), Symbol(v2), Symbol(v3)]
  {
    hide Symbol, First, Second;
    SplitFirst(v0, v1);
    SplitSecond(v1 % 16, v2);
    Quotients(v1);
    Quotients(v2);
    assert Third(v2 % 4, v3) / 64 == v2 % 4 && Third(v2 % 4, v3) % 64 == v3;
  }

  lemma SplitFirst(v0: sextet, v1: sextet)
    ensures First(v0, v1) / 4 == v0 && First(v0, v1) % 4 == v1 / 16
  {
  }

  lemma SplitSecond(left: nat, v2: sextet)
    requires left < 16
    ensures Second(left, v2) / 16 == left && Second(left, v2) % 16 == v2 / 4
  {
  }

  lemma Quotients(v: sextet)
    ensures v / 16 * 16 + v % 16 == v && v / 4 * 4 + v % 4 == v
  {
  }

  lemma BodyOfOne(v0: sextet, v1: sextet)
    requires v1 % 16 == 0
    ensures Body([First(v0, v1)]) == [Symbol(v0), Symbol(v1)]
  {
    hide Symbol, First;
    SplitFirst(v0, v1);
    Quotients(v1);
  }

  lemma BodyOfTwo(v0: sextet, v1: sextet, v2: sextet)
    requires v2 % 4 == 0
    ensures Body([First(v0, v1), Second(v1 % 16, v2)]) == [Symbol(v0), Symbol(v1), Symbol(v2)]
  {
    hide Symbol, First, Second;
    SplitFirst(v0, v1);
    SplitSecond(v1 % 16, v2);
    Quotients(v1);
    Quotients(v2);
  }

  lemma BodyOfMore(v0: sextet, v1: sextet, v2: sextet, v3: sextet, rest: seq<byte>)
    ensures Body([First(v0, v1), Second(v1 % 16, v2), Third(v2 % 4, v3)] + rest)
            == [Symbol(v0), Symbol(v1), Symbol(v2), Symbol(v3)] + Body(rest)
  {
    hide Symbol, Group;
    var b := [First(v0, v1), Second(v1 % 16, v2), Third(v2 % 4, v3)] + rest;
    Ungroup(v0, v1, v2, v3);
    assert b[3..] == rest;
  }

  /** Every canonical text is written for some bytes. */
  lemma {:induction false} BodyOfBytes(t: string)
    requires CanonicalText(t)
    ensures Body(Bytes(t)) == t
  {
    hide Symbol, Sextet, Body, First, Second, Third;
    forall i | 0 <= i < |t| ensures Symbol(Sextet(t[i]).value) == t[i] {
      SymbolOfSextet(t[i]);
    }
    if t == [] {
      EmptyBody();
    } else if |t| == 2 {
      BodyOfOne(Sextet(t[0]).value, Sextet(t[1]).value);
    } else if |t| == 3 {
      BodyOfTwo(Sextet(t[0]).value, Sextet(t[1]).value, Sextet(t[2]).value);
    } else {
      TailIsCanonical(t);
      BodyOfBytes(t[4..]);
      BodyOfMore(Sextet(t[0]).value, Sextet(t[1]).value, Sextet(t[2]).value, Sextet(t[3]).value, Bytes(t[4..]));
      assert t == [t[0], t[1], t[2], t[3]] + t[4..];
    }
  }

  lemma EmptyBody()
    ensures Body([]) == []
  {
  }

  /** Exactly when decoding a text loses nothing: the encoder gives the text back if and only if it is
      canonical. So bytes have one canonical text, and every other text for them breaks the form. */
  lemma ReencodesIffCanonical(t: string, b: seq<byte>)
    requires Decode(t) == Some(b)
    ensures Encode(b) == t <==> CanonicalText(t)
  {
    EncodedShape(b);
    BodyIsCanonical(b);
    if CanonicalText(t) {
      BodyOfBytes(t);
      EncodedShape(Bytes(t));
      RoundTrip(Bytes(t));
    }
  }

  /** The canonical texts are exactly the encoder's. */
  lemma WrittenIffCanonical(t: string)
    ensures CanonicalText(t) <==> exists b: seq<byte> :: Encode(b) == t
  {
    forall b: seq<byte> ensures Encode(b) == t ==> CanonicalText(t) {
      EncodedShape(b);
      BodyIsCanonical(b);
    }
    if CanonicalText(t) {
      BodyOfBytes(t);
      EncodedShape(Bytes(t));
    }
  }

  lemma CanonicalTextsDiffer(s: string, t: string)
    requires CanonicalText(s) && CanonicalText(t) && Decode(s).Some? && Decode(s) == Decode(t)
    ensures s == t
  {
    ReencodesIffCanonical(s, Decode(s).value);
    ReencodesIffCanonical(t, Decode(t).value);
  }

  /** Whole groups are read first, whatever follows them. */
  lemma {:induction false} ReadWhole(b: seq<byte>, t: string)
    requires |b| % 3 == 0
    ensures Read(Body(b) + t, 0, 0, 0) == Prepend(b, Read(t, 0, 0, 0))
  {
    hide Symbol, Group, Read, EncodedLength;
    var r := Read(t, 0, 0, 0);
    if b == [] {
      assert Body(b) + t == t;
      assert r.Some? ==> b + r.value == r.value;
    } else {
      var rest := Body(b[3..]) + t;
      assert Body(b) + t == Group(b[0], b[1], b[2]) + rest;
      ReadThree(b[0], b[1], b[2], rest);
      ReadWhole(b[3..], t);
      assert r.Some? ==> [b[0]] + ([b[1]] + ([b[2]] + (b[3..] + r.value))) == b + r.value;
    }
  }

  /** So a text that starts with whole groups decodes to their bytes and those of the remainder. */
  lemma DecodeWhole(b: seq<byte>, t: string)
    requires |b| % 3 == 0 && Ascii(t)
    ensures Decode(Body(b) + t) == Prepend(b, Decode(t))
  {
    hide Body, Read, Prepend, Padding;
    AsciiConcat(Body(b), t);
    WholeLength(b, t);
    assert Body(b) + t + Padding(|t|) == Body(b) + (t + Padding(|t|));
    ReadWhole(b, t + Padding(|t|));
  }

  lemma WholeLength(b: seq<byte>, t: string)
    requires |b| % 3 == 0
    ensures Padding(|Body(b) + t|) == Padding(|t|)
  {
    hide Body, EncodedLength;
    WholeIsFour(|b| / 3);
    FourMore(EncodedLength(|b|) / 4, |t|);
  }

  lemma WholeIsFour(m: nat)
    ensures EncodedLength(3 * m) == 4 * m
  {
  }

  lemma FourMore(m: nat, n: nat)
    ensures Padding(4 * m + n) == Padding(n)
  {
    assert (4 * m + n) % 4 == n % 4;
  }

  function Symbols(vs: seq<sextet>): (s: string)
    ensures |s| == |vs| && Ascii(s)
  {
    seq(|vs|, i requires 0 <= i < |vs| => Symbol(vs[i]))
  }

  /** The bytes of a last group of two or three symbols. */
  function OpenBytes(vs: seq<sextet>): seq<byte>
    requires 2 <= |vs| <= 3
  {
    if |vs| == 2 then [First(vs[0], vs[1])] else [First(vs[0], vs[1]), Second(vs[1] % 16, vs[2])]
  }

  lemma ReadOpen(vs: seq<sextet>, tail: string)
    requires 2 <= |vs| <= 3
    ensures Read(Symbols(vs) + (Padding(|vs|) + tail), 0, 0, 0) == Some(OpenBytes(vs))
  {
    hide Symbol, First, Second, Read;
    var rest := Padding(|vs|) + tail;
    if |vs| == 2 {
      assert Symbols(vs) + rest == [Symbol(vs[0])] + ([Symbol(vs[1])] + rest);
      ReadPair(vs[0], vs[1], rest);
      PaddingEnds(tail, vs[1] % 16);
      assert [First(vs[0], vs[1])] + [] == OpenBytes(vs);
    } else {
      assert Symbols(vs) + rest == [Symbol(vs[0])] + ([Symbol(vs[1])] + ([Symbol(vs[2])] + rest));
      ReadTriple(vs[0], vs[1], vs[2], rest);
      PadEnds(tail, vs[2] % 4);
      assert [First(vs[0], vs[1])] + ([Second(vs[1] % 16, vs[2])] + []) == OpenBytes(vs);
    }
  }

  lemma PaddingEnds(t: string, left: nat)
    requires left < 16
    ensures Read("==" + t, 2, left, 0) == Some([])
  {
    assert ("==" + t)[1..] == "=" + t && ("=" + t)[1..] == t;
    assert Read("=" + t, 2, left, 1) == Some([]);
  }

  lemma PadEnds(t: string, left: nat)
    requires left < 4
    ensures Read("=" + t, 3, left, 0) == Some([])
  {
  }

  lemma DecodeOpen(b: seq<byte>, vs: seq<sextet>)
    requires |b| % 3 == 0 && 2 <= |vs| <= 3
    ensures Decode(Body(b) + Symbols(vs)) == Some(b + OpenBytes(vs))
  {
    hide Symbols, Read, OpenBytes;
    ReadOpen(vs, "");
    assert Padding(|vs|) + "" == Padding(|vs|);
    DecodeWhole(b, Symbols(vs));
  }

  /** The unused low bits of the last symbol are lost, after any whole groups. */
  lemma LowBitsAreLost(b: seq<byte>, vs: seq<sextet>, ws: seq<sextet>)
    requires |b| % 3 == 0 && 2 <= |vs| == |ws| <= 3 && vs[..|vs| - 1] == ws[..|ws| - 1]
    ensures Decode(Body(b) + Symbols(vs)) == Decode(Body(b) + Symbols(ws)) <==>
            if |vs| == 2 then vs[1] / 16 == ws[1] / 16 else vs[2] / 4 == ws[2] / 4
  {
    hide Decode, Body;
    DecodeOpen(b, vs);
    DecodeOpen(b, ws);
    assert vs[0] == vs[..|vs| - 1][0] == ws[0];
    assert |vs| == 3 ==> vs[1] == vs[..2][1] == ws[1];
    assert b + OpenBytes(vs) == b + OpenBytes(ws) <==> OpenBytes(vs) == OpenBytes(ws) by {
      assert (b + OpenBytes(vs))[|b|..] == OpenBytes(vs) && (b + OpenBytes(ws))[|b|..] == OpenBytes(ws);
    }
    var n := |OpenBytes(vs)| - 1;
    assert OpenBytes(vs) == OpenBytes(ws) <==> OpenBytes(vs)[n] == OpenBytes(ws)[n];
  }

  /** The standard alphabet in place of the URL-safe one. */
  function Standard(t: string): (s: string)
    ensures |s| == |t|
  {
    seq(|t|, i requires 0 <= i < |t| => if t[i] == '-' then '+' else if t[i] == '_' then '/' else t[i])
  }

  lemma {:induction false} ReadStandard(t: string, quad: nat, left: nat, pads: nat)
    requires Carried(quad, left)
    ensures Read(Standard(t), quad, left, pads) == Read(t, quad, left, pads)
    decreases |t|
  {
    if t != [] {
      assert Standard(t)[1..] == Standard(t[1..]);
      if t[0] == '=' {
        ReadStandard(t[1..], quad, left, if quad < 2 then pads else pads + 1);
      } else {
        match Sextet(t[0])
        case None => ReadStandard(t[1..], quad, left, pads);
        case Some(v) =>
          var (_, q, l) := Absorb(quad, left, v);
          ReadStandard(t[1..], q, l, 0);
      }
    }
  }

  /** Both alphabets are read alike, and only one of them is canonical. */
  lemma StandardDecodes(t: string)
    ensures Decode(Standard(t)) == Decode(t)
    ensures CanonicalText(Standard(t)) ==> Standard(t) == t
  {
    assert Standard(t) + Padding(|t|) == Standard(t + Padding(|t|));
    ReadStandard(t + Padding(|t|), 0, 0, 0);
    assert forall i :: 0 <= i < |t| ==> (Standard(t)[i] as int < 128 <==> t[i] as int < 128);
    if CanonicalText(Standard(t)) {
      assert forall i :: 0 <= i < |t| ==> UrlSafe(Standard(t)[i]) ==> Standard(t)[i] == t[i];
    }
  }

  lemma Regrouped(s: string, pad: string, tail: string, more: string)
    ensures (s + (pad + tail)) + more == s + (pad + (tail + more))
  {
  }

  /** A last group with its padding, whatever ASCII text follows. */
  lemma DecodePadded(vs: seq<sextet>, tail: string)
    requires 2 <= |vs| <= 3 && Ascii(tail)
    ensures Ascii(Symbols(vs) + (Padding(|vs|) + tail))
    ensures Decode(Symbols(vs) + (Padding(|vs|) + tail)) == Some(OpenBytes(vs))
  {
    hide Symbols, Read, OpenBytes, Padding, Ascii;
    PaddingIsAscii(|vs|);
    AsciiConcat(Padding(|vs|), tail);
    AsciiConcat(Symbols(vs), Padding(|vs|) + tail);
    var more := Padding(|Symbols(vs) + (Padding(|vs|) + tail)|);
    Regrouped(Symbols(vs), Padding(|vs|), tail, more);
    ReadOpen(vs, tail + more);
  }

  lemma PaddingIsAscii(n: nat)
    ensures Ascii(Padding(n))
  {
  }

  /** Whatever ASCII text follows a complete padding is not read. */
  lemma AfterPadding(b: seq<byte>, vs: seq<sextet>, tail: string)
    requires |b| % 3 == 0 && 2 <= |vs| <= 3 && Ascii(tail)
    ensures Decode(Body(b) + (Symbols(vs) + (Padding(|vs|) + tail))) == Decode(Body(b) + Symbols(vs))
  {
    hide Symbols, Decode, OpenBytes, Body, Padding, Ascii;
    DecodePadded(vs, tail);
    DecodeWhole(b, Symbols(vs) + (Padding(|vs|) + tail));
    DecodeOpen(b, vs);
  }

  // ---- the symbols themselves ----

  /** The alphabet of section 5 of RFC 4648: where its four runs begin and end, that codes are consecutive
      within a run, and the two last symbols. */
  lemma Alphabet(v: sextet)
    ensures Symbol(0) == 'A' && Symbol(25) == 'Z' && Symbol(26) == 'a' && Symbol(51) == 'z'
    ensures Symbol(52) == '0' && Symbol(61) == '9' && Symbol(62) == '-' && Symbol(63) == '_'
    ensures v < 61 && v != 25 && v != 51 ==> Symbol(v + 1) as int == Symbol(v) as int + 1
  {
  }

  /** Four symbols stand for the 24 bits of three bytes. */
  predicate Stands(s: string, bits: int) {
    exists v0: sextet, v1: sextet, v2: sextet, v3: sextet :: StandsAs(s, bits, v0, v1, v2, v3)
  }

  predicate StandsAs(s: string, bits: int, v0: sextet, v1: sextet, v2: sextet, v3: sextet) {
    s == [Symbol(v0), Symbol(v1), Symbol(v2), Symbol(v3)]
    && bits == 262144 * v0 as int + 4096 * v1 as int + 64 * v2 as int + v3 as int
  }

  function Bits(b0: byte, b1: byte, b2: byte): int {
    65536 * b0 as int + 256 * b1 as int + b2 as int
  }

  lemma GroupStands(b0: byte, b1: byte, b2: byte)
    ensures Stands(Group(b0, b1, b2), Bits(b0, b1, b2))
  {
    hide Symbol;
    SameBits(b0, b1, b2);
    assert StandsAs(Group(b0, b1, b2), Bits(b0, b1, b2), b0 / 4, b0 % 4 * 16 + b1 / 16, b1 % 16 * 4 + b2 / 64, b2 % 64);
  }

  lemma SameBits(b0: byte, b1: byte, b2: byte)
    ensures Bits(b0, b1, b2)
            == 262144 * (b0 as int / 4) + 4096 * (b0 as int % 4 * 16 + b1 as int / 16)
               + 64 * (b1 as int % 16 * 4 + b2 as int / 64) + b2 as int % 64
  {
    assert b0 == b0 / 4 * 4 + b0 % 4 && b1 == b1 / 16 * 16 + b1 % 16 && b2 == b2 / 64 * 64 + b2 % 64;
  }

  lemma {:induction false} BodyByGroups(b: seq<byte>, c: seq<byte>)
    requires |b| % 3 == 0
    ensures Body(b + c) == Body(b) + Body(c)
  {
    hide Symbol, Group, EncodedLength, Ascii;
    if b == [] {
      assert b + c == c;
    } else {
      BodyByGroups(b[3..], c);
      assert (b + c)[3..] == b[3..] + c;
    }
  }

  /** Whole groups of three bytes are written apart from what follows them. */
  lemma EncodesByGroups(b: seq<byte>, c: seq<byte>)
    requires |b| % 3 == 0
    ensures Encode(b + c) == Encode(b) + Encode(c)
  {
    hide Body, Encode, EncodedLength;
    EncodedShape(b + c);
    EncodedShape(b);
    EncodedShape(c);
    BodyByGroups(b, c);
  }

  /** Three bytes are four symbols for their bits; the last one or two bytes are the first two or three
      symbols for their bits and zeros. */
  lemma GroupBits(x: byte, y: byte, z: byte)
    ensures Stands(Encode([x, y, z]), Bits(x, y, z))
    ensures Stands(Encode([x, y]) + "A", Bits(x, y, 0))
    ensures Stands(Encode([x]) + "AA", Bits(x, 0, 0))
  {
    hide Symbol, Stands, Group, Encode, EncodedLength, Bits;
    GroupStands(x, y, z);
    GroupStands(x, y, 0);
    GroupStands(x, 0, 0);
    Alphabet(0);
    EncodedShape([x, y, z]);
    EncodedShape([x, y]);
    EncodedShape([x]);
    assert [x, y, z][3..] == [];
    assert Body([x, y, z]) == Group(x, y, z) + Body([]);
    EmptyBody();
    assert Group(x, y, z) + [] == Group(x, y, z);
    TwoBytes(x, y);
    OneByte(x);
  }

  lemma TwoBytes(x: byte, y: byte)
    ensures Body([x, y]) + [Symbol(0)] == Group(x, y, 0)
  {
    hide Symbol;
  }

  lemma OneByte(x: byte)
    ensures Body([x]) + [Symbol(0), Symbol(0)] == Group(x, 0, 0)
  {
    hide Symbol;
  }

  lemma ReadDangling(v: sextet)
    ensures Read([Symbol(v)] + "===", 0, 0, 0) == None
  {
    hide Symbol;
    ReadSymbol(v, "===", 0, 0);
    assert "==="[1..] == "==" && "=="[1..] == "=" && "="[1..] == "";
    assert Read("=", 1, v, 0) == Read("", 1, v, 0) == None;
    assert Read("===", 1, v, 0) == Read("==", 1, v, 0) == Read("=", 1, v, 0);
  }

  lemma SafeIsSymbol(c: char)
    requires UrlSafe(c)
    ensures Sextet(c).Some? && c == Symbol(Sextet(c).value) && c as int < 128
  {
  }

  lemma DecodesShort(t: string)
    requires |t| < 4 && forall i :: 0 <= i < |t| ==> UrlSafe(t[i])
    ensures Ascii(t) && (Decode(t).Some? <==> |t| != 1)
  {
    hide Symbol, Sextet, Read, UrlSafe;
    forall i | 0 <= i < |t| ensures Sextet(t[i]).Some? && t[i] == Symbol(Sextet(t[i]).value) && t[i] as int < 128 {
      SafeIsSymbol(t[i]);
    }
    if t == [] {
      ReadEmpty();
      assert t + Padding(0) == [];
    } else if |t| == 1 {
      ReadDangling(Sextet(t[0]).value);
      assert t == [t[0]];
    } else if |t| == 2 {
      ReadLastOne(Sextet(t[0]).value, Sextet(t[1]).value);
      assert t + "==" == [t[0], t[1], '=', '='];
    } else {
      ReadLastTwo(Sextet(t[0]).value, Sextet(t[1]).value, Sextet(t[2]).value);
      assert t + "=" == [t[0], t[1], t[2], '='];
    }
  }

  lemma ReadFour(t: string, rest: string)
    requires |t| == 4 && forall i :: 0 <= i < 4 ==> UrlSafe(t[i])
    ensures Read(t + rest, 0, 0, 0).Some? <==> Read(rest, 0, 0, 0).Some?
  {
    hide Symbol, Sextet, Read, UrlSafe;
    SafeIsSymbol(t[0]);
    SafeIsSymbol(t[1]);
    SafeIsSymbol(t[2]);
    SafeIsSymbol(t[3]);
    assert t == [t[0], t[1], t[2], t[3]];
    ReadGroup(Sextet(t[0]).value, Sextet(t[1]).value, Sextet(t[2]).value, Sextet(t[3]).value, rest);
  }

  /** A text of URL-safe symbols decodes exactly when its length is not 1 modulo 4. */
  lemma {:induction false} DecodesIffLength(t: string)
    requires forall i :: 0 <= i < |t| ==> UrlSafe(t[i])
    ensures Ascii(t) && (Decode(t).Some? <==> |t| % 4 != 1)
  {
    hide Read, UrlSafe, Padding;
    if |t| < 4 {
      DecodesShort(t);
    } else {
      DecodesIffLength(t[4..]);
      DecodesShort(t[..3]);
      DecodesShort(t[3..4]);
      ReadFour(t[..4], t[4..] + Padding(|t[4..]|));
      PaddingOfLonger(|t[4..]|);
      assert t == t[..3] + t[3..4] + t[4..];
      AsciiConcat(t[..3], t[3..4]);
      AsciiConcat(t[..3] + t[3..4], t[4..]);
      assert t + Padding(|t|) == t[..4] + (t[4..] + Padding(|t[4..]|));
    }
  }
}
