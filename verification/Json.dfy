/** The JSON text that `json.dumps` writes with compact separators and `ensure_ascii=False`
    (sections 3, 4, 5 and 7 of RFC 8259), and a reader for it. */
module Json {
  import opened Wrappers
  import opened Dicts

  datatype Json =
    | Null
    | Bool(b: bool)
    | Num(n: int)
    | Str(s: string)
    | Arr(items: seq<Json>)
    | Obj(members: Entries<Json>)

  // ---- printing ----

  function Digit(d: nat): char requires d < 10 { '0' + d as char }

  function PrintNat(n: nat): (s: string)
    ensures s != [] && IsDigit(s[0])
  {
    if n < 10 then [Digit(n)] else PrintNat(n / 10) + [Digit(n % 10)]
  }

  function PrintInt(n: int): string {
    if n < 0 then ['-'] + PrintNat(-n) else PrintNat(n)
  }

  function HexDigit(d: nat): char requires d < 16 {
    if d < 10 then '0' + d as char else 'a' + (d - 10) as char
  }

  /** One character of a string: quote, backslash and the control characters are escaped. */
  function Escape(c: char): string {
    if c == '"' then "\\\""
    else if c == '\\' then "\\\\"
    else if c == '\n' then "\\n"
    else if c == '\r' then "\\r"
    else if c == '\t' then "\\t"
    else if c == '\U{0c}' then "\\f"
    else if c == '\U{08}' then "\\b"
    else if c < ' ' then "\\u00" + [HexDigit(c as int / 16), HexDigit(c as int % 16)]
    else [c]
  }

  function EscapeAll(s: string): string {
    if s == [] then [] else Escape(s[0]) + EscapeAll(s[1..])
  }

  function PrintStr(s: string): string {
    ['"'] + EscapeAll(s) + ['"']
  }

  function Print(j: Json): string
    decreases j, 1
  {
    match j
    case Null => "null"
    case Bool(b) => if b then "true" else "false"
    case Num(n) => PrintInt(n)
    case Str(s) => PrintStr(s)
    case Arr(items) => ['['] + PrintItems(items) + [']']
    case Obj(members) => ['{'] + PrintMembers(members) + ['}']
  }

  function PrintItems(items: seq<Json>): string
    decreases items, 0
  {
    if items == [] then []
    else if |items| == 1 then Print(items[0])
    else Print(items[0]) + [','] + PrintItems(items[1..])
  }

  function PrintMember(m: Entry<Json>): string
    decreases m, 2
  {
    PrintStr(m.key) + [':'] + Print(m.val)
  }

  function PrintMembers(members: Entries<Json>): string
    decreases members, 0
  {
    if members == [] then []
    else if |members| == 1 then PrintMember(members[0])
    else PrintMember(members[0]) + [','] + PrintMembers(members[1..])
  }

  // ---- reading ----

  datatype Parsed<+T> = Fail | Got(val: T, rest: string)

  predicate IsDigit(c: char) { '0' <= c <= '9' }

  /** All the digits at the front, appended to `acc`. */
  function ReadNat(s: string, acc: nat): (r: (nat, string))
    ensures |r.1| <= |s|
  {
    if s != [] && IsDigit(s[0]) then ReadNat(s[1..], 10 * acc + (s[0] as int - '0' as int)) else (acc, s)
  }

  /** One or more digits. */
  function ReadDigits(s: string): (r: Parsed<nat>)
    ensures r.Got? ==> |r.rest| < |s|
  {
    var (n, rest) := ReadNat(s, 0);
    if |rest| < |s| then Got(n, rest) else Fail
  }

  function ReadInt(s: string): (r: Parsed<Json>)
    ensures r.Got? ==> |r.rest| < |s|
  {
    if s != [] && s[0] == '-' then
      match ReadDigits(s[1..])
      case Fail => Fail
      case Got(n, rest) => Got(Num(0 - n as int), rest)
    else
      match ReadDigits(s)
      case Fail => Fail
      case Got(n, rest) => Got(Num(n), rest)
  }

  function HexValue(c: char): Option<nat> {
    if '0' <= c <= '9' then Some(c as int - '0' as int)
    else if 'a' <= c <= 'f' then Some(c as int - 'a' as int + 10)
    else None
  }

  /** One possibly escaped character. */
  function ReadChar(s: string): (r: Parsed<char>)
    ensures r.Got? ==> |r.rest| < |s|
  {
    if s == [] || s[0] == '"' then Fail
    else if s[0] != '\\' then Got(s[0], s[1..])
    else if |s| < 2 then Fail
    else
      match s[1]
      case '"' => Got('"', s[2..])
      case '\\' => Got('\\', s[2..])
      case 'n' => Got('\n', s[2..])
      case 'r' => Got('\r', s[2..])
      case 't' => Got('\t', s[2..])
      case 'f' => Got('\U{0c}', s[2..])
      case 'b' => Got('\U{08}', s[2..])
      case 'u' =>
        if |s| < 6 || s[2] != '0' || s[3] != '0' then Fail
        else
          (match (HexValue(s[4]), HexValue(s[5]))
           case (Some(h), Some(l)) => Got((h * 16 + l) as char, s[6..])
           case _ => Fail)
      case _ => Fail
  }

  /** Characters up to and including the closing quote. */
  function ReadChars(s: string): (r: Parsed<string>)
    ensures r.Got? ==> |r.rest| < |s|
    decreases |s|
  {
    if s == [] then Fail
    else if s[0] == '"' then Got([], s[1..])
    else
      match ReadChar(s)
      case Fail => Fail
      case Got(c, rest) =>
        match ReadChars(rest)
        case Fail => Fail
        case Got(cs, rest') => Got([c] + cs, rest')
  }

  function ReadStr(s: string): (r: Parsed<string>)
    ensures r.Got? ==> |r.rest| < |s|
  {
    if s != [] && s[0] == '"' then ReadChars(s[1..]) else Fail
  }

  function ReadWord(s: string, word: string, j: Json): (r: Parsed<Json>)
    requires word != []
    ensures r.Got? ==> |r.rest| < |s|
  {
    if word <= s then Got(j, s[|word|..]) else Fail
  }

  function Read(s: string): (r: Parsed<Json>)
    ensures r.Got? ==> |r.rest| < |s|
    decreases |s|, 0
  {
    if s == [] then Fail
    else if s[0] == 'n' then ReadWord(s, "null", Null)
    else if s[0] == 't' then ReadWord(s, "true", Bool(true))
    else if s[0] == 'f' then ReadWord(s, "false", Bool(false))
    else if s[0] == '"' then
      (match ReadStr(s)
       case Fail => Fail
       case Got(t, rest) => Got(Str(t), rest))
    else if s[0] == '[' then
      if |s| > 1 && s[1] == ']' then Got(Arr([]), s[2..])
      else
        (match ReadItems(s[1..])
         case Fail => Fail
         case Got(items, rest) => Got(Arr(items), rest))
    else if s[0] == '{' then
      if |s| > 1 && s[1] == '}' then Got(Obj([]), s[2..])
      else
        (match ReadMembers(s[1..])
         case Fail => Fail
         case Got(members, rest) => Got(Obj(members), rest))
    else ReadInt(s)
  }

  /** One or more values separated by commas, and the closing bracket. */
  function ReadItems(s: string): (r: Parsed<seq<Json>>)
    ensures r.Got? ==> |r.rest| < |s|
    decreases |s|, 1
  {
    match Read(s)
    case Fail => Fail
    case Got(j, rest) =>
      if rest == [] then Fail
      else if rest[0] == ']' then Got([j], rest[1..])
      else if rest[0] != ',' then Fail
      else
        match ReadItems(rest[1..])
        case Fail => Fail
        case Got(js, rest') => Got([j] + js, rest')
  }

  function ReadMember(s: string): (r: Parsed<Entry<Json>>)
    ensures r.Got? ==> |r.rest| < |s|
    decreases |s|, 1
  {
    match ReadStr(s)
    case Fail => Fail
    case Got(k, rest) =>
      if rest == [] || rest[0] != ':' then Fail
      else
        match Read(rest[1..])
        case Fail => Fail
        case Got(j, rest') => Got(Entry(k, j), rest')
  }

  function ReadMembers(s: string): (r: Parsed<Entries<Json>>)
    ensures r.Got? ==> |r.rest| < |s|
    decreases |s|, 2
  {
    match ReadMember(s)
    case Fail => Fail
    case Got(m, rest) =>
      if rest == [] then Fail
      else if rest[0] == '}' then Got([m], rest[1..])
      else if rest[0] != ',' then Fail
      else
        match ReadMembers(rest[1..])
        case Fail => Fail
        case Got(ms, rest') => Got([m] + ms, rest')
  }

  function Parse(s: string): Option<Json> {
    match Read(s)
    case Got(j, rest) => if rest == [] then Some(j) else None
    case Fail => None
  }

  // ---- the reader inverts the printer ----

  /** What may follow a value so that a number in front of it ends where it should. */
  predicate Ends(rest: string) { rest == [] || !IsDigit(rest[0]) }

  lemma {:induction false} ReadNatPrinted(n: nat, rest: string)
    ensures ReadNat(PrintNat(n) + rest, 0) == ReadNat(rest, n)
  {
    if n < 10 {
      assert (PrintNat(n) + rest)[1..] == rest;
    } else {
      var tail := [Digit(n % 10)] + rest;
      assert PrintNat(n) + rest == PrintNat(n / 10) + tail;
      ReadNatPrinted(n / 10, tail);
      assert tail[1..] == rest;
    }
  }

  lemma ReadDigitsPrinted(n: nat, rest: string)
    requires Ends(rest)
    ensures ReadDigits(PrintNat(n) + rest) == Got(n, rest)
    ensures PrintNat(n) + rest != [] && (PrintNat(n) + rest)[0] != '-'
  {
    hide PrintNat;
    ReadNatPrinted(n, rest);
    assert (PrintNat(n) + rest)[0] == PrintNat(n)[0];
  }

  lemma ReadIntPrinted(n: int, rest: string)
    requires Ends(rest)
    ensures ReadInt(PrintInt(n) + rest) == Got(Num(n), rest)
  {
    hide PrintNat, ReadDigits;
    ReadDigitsPrinted(if n < 0 then -n else n, rest);
    if n < 0 {
      assert (PrintInt(n) + rest)[1..] == PrintNat(-n) + rest;
    }
  }

  lemma ReadCharEscaped(c: char, rest: string)
    ensures ReadChar(Escape(c) + rest) == Got(c, rest)
    ensures (Escape(c) + rest)[0] != '"'
  {
    var s := Escape(c) + rest;
    if |Escape(c)| == 2 {
      assert s[2..] == rest;
    } else if |Escape(c)| == 6 {
      assert HexValue(HexDigit(c as int / 16)) == Some(c as int / 16);
      assert HexValue(HexDigit(c as int % 16)) == Some(c as int % 16);
      assert s[6..] == rest;
    } else {
      assert s[1..] == rest;
    }
  }

  lemma {:induction false} ReadCharsEscaped(t: string, rest: string)
    ensures ReadChars(EscapeAll(t) + (['"'] + rest)) == Got(t, rest)
  {
    hide Escape, ReadChar;
    if t == [] {
      assert EscapeAll(t) + (['"'] + rest) == ['"'] + rest;
      assert (['"'] + rest)[1..] == rest;
    } else {
      var tail := EscapeAll(t[1..]) + (['"'] + rest);
      assert EscapeAll(t) + (['"'] + rest) == Escape(t[0]) + tail;
      ReadCharEscaped(t[0], tail);
      ReadCharsEscaped(t[1..], rest);
      assert [t[0]] + t[1..] == t;
    }
  }

  lemma ReadStrPrinted(t: string, rest: string)
    ensures ReadStr(PrintStr(t) + rest) == Got(t, rest)
    ensures (PrintStr(t) + rest)[0] == '"'
  {
    assert (PrintStr(t) + rest)[1..] == EscapeAll(t) + (['"'] + rest);
    ReadCharsEscaped(t, rest);
  }

  lemma PrintStarts(j: Json)
    ensures Print(j) != [] && Print(j)[0] != ']' && Print(j)[0] != '}'
    ensures j.Null? ==> Print(j)[0] == 'n'
    ensures j.Num? ==> Print(j)[0] == '-' || IsDigit(Print(j)[0])
  {
  }

  lemma {:induction false} ReadPrinted(j: Json, rest: string)
    requires Ends(rest)
    ensures Read(Print(j) + rest) == Got(j, rest)
    decreases j, 1
  {
    match j
    case Null => ReadWordPrinted(j, "null", rest);
    case Bool(b) => ReadWordPrinted(j, if b then "true" else "false", rest);
    case Num(n) => ReadIntPrinted(n, rest);
    case Str(t) => ReadStrPrinted(t, rest);
    case Arr(items) => ReadArrPrinted(items, rest);
    case Obj(members) => ReadObjPrinted(members, rest);
  }

  lemma ReadWordPrinted(j: Json, word: string, rest: string)
    requires (j == Null && word == "null") || (j == Bool(true) && word == "true")
             || (j == Bool(false) && word == "false")
    ensures Read(word + rest) == Got(j, rest)
  {
    assert (word + rest)[|word|..] == rest && word <= word + rest;
  }

  lemma {:induction false} ReadArrPrinted(items: seq<Json>, rest: string)
    ensures Read(['['] + PrintItems(items) + [']'] + rest) == Got(Arr(items), rest)
    decreases items, 3
  {
    hide ReadInt, ReadItems, ReadMembers, ReadStr, ReadWord;
    var s := ['['] + PrintItems(items) + [']'] + rest;
    if items == [] {
      assert s == "[]" + rest && s[2..] == rest;
    } else {
      assert s[0] == '[' && s[1..] == PrintItems(items) + ([']'] + rest);
      ItemsStart(items, [']'] + rest);
      ReadItemsPrinted(items, rest);
    }
  }

  lemma {:induction false} ReadObjPrinted(members: Entries<Json>, rest: string)
    ensures Read(['{'] + PrintMembers(members) + ['}'] + rest) == Got(Obj(members), rest)
    decreases members, 3
  {
    hide ReadInt, ReadItems, ReadMembers, ReadStr, ReadWord;
    var s := ['{'] + PrintMembers(members) + ['}'] + rest;
    if members == [] {
      assert s == "{}" + rest && s[2..] == rest;
    } else {
      assert s[0] == '{' && s[1..] == PrintMembers(members) + (['}'] + rest);
      MembersStart(members, ['}'] + rest);
      ReadMembersPrinted(members, rest);
    }
  }

  lemma ItemsStart(items: seq<Json>, rest: string)
    requires items != []
    ensures PrintItems(items) + rest != [] && (PrintItems(items) + rest)[0] != ']'
  {
    PrintStarts(items[0]);
  }

  lemma MembersStart(members: Entries<Json>, rest: string)
    requires members != []
    ensures PrintMembers(members) + rest != [] && (PrintMembers(members) + rest)[0] == '"'
  {
  }

  lemma {:induction false} ReadItemsPrinted(items: seq<Json>, rest: string)
    requires items != []
    ensures ReadItems(PrintItems(items) + ([']'] + rest)) == Got(items, rest)
    decreases items, 0
  {
    hide Print, Read;
    var s := PrintItems(items) + ([']'] + rest);
    if |items| == 1 {
      ReadPrinted(items[0], [']'] + rest);
      assert ([']'] + rest)[1..] == rest;
      assert [items[0]] == items;
    } else {
      var tail := PrintItems(items[1..]) + ([']'] + rest);
      assert s == Print(items[0]) + ([','] + tail);
      ReadPrinted(items[0], [','] + tail);
      assert ([','] + tail)[1..] == tail;
      ReadItemsPrinted(items[1..], rest);
      assert [items[0]] + items[1..] == items;
    }
  }

  lemma {:induction false} ReadMemberPrinted(m: Entry<Json>, rest: string)
    requires Ends(rest)
    ensures ReadMember(PrintMember(m) + rest) == Got(m, rest)
    decreases m, 2
  {
    hide Print, PrintStr, Read, ReadStr;
    var tail := [':'] + (Print(m.val) + rest);
    assert PrintMember(m) + rest == PrintStr(m.key) + tail;
    ReadStrPrinted(m.key, tail);
    assert tail[1..] == Print(m.val) + rest;
    ReadPrinted(m.val, rest);
  }

  lemma {:induction false} ReadMembersPrinted(members: Entries<Json>, rest: string)
    requires members != []
    ensures ReadMembers(PrintMembers(members) + (['}'] + rest)) == Got(members, rest)
    decreases members, 0
  {
    hide PrintMember, ReadMember;
    var s := PrintMembers(members) + (['}'] + rest);
    if |members| == 1 {
      ReadMemberPrinted(members[0], ['}'] + rest);
      assert (['}'] + rest)[1..] == rest;
      assert [members[0]] == members;
    } else {
      var tail := PrintMembers(members[1..]) + (['}'] + rest);
      assert s == PrintMember(members[0]) + ([','] + tail);
      ReadMemberPrinted(members[0], [','] + tail);
      assert ([','] + tail)[1..] == tail;
      ReadMembersPrinted(members[1..], rest);
      assert [members[0]] + members[1..] == members;
    }
  }

  /** Every value, however deeply nested, is read back from its text. */
  lemma RoundTrip(j: Json)
    ensures Parse(Print(j)) == Some(j)
  {
    ReadPrinted(j, []);
    assert Print(j) + [] == Print(j);
  }

  lemma {:induction false} PrintInjective(a: Json, b: Json)
    requires Print(a) == Print(b)
    ensures a == b
  {
    RoundTrip(a);
    RoundTrip(b);
  }

  // ---- what the text is, whatever reads it ----

  /** A character that is written as itself: not quote, backslash or control. */
  predicate PlainChar(c: char) {
    c != '"' && c != '\\' && c >= ' '
  }

  predicate Plain(s: string) {
    s == [] || (PlainChar(s[0]) && Plain(s[1..]))
  }

  lemma {:induction false} PlainAll(s: string)
    ensures Plain(s) <==> forall i :: 0 <= i < |s| ==> PlainChar(s[i])
  {
    if s != [] {
      PlainAll(s[1..]);
      assert (forall i :: 0 <= i < |s| ==> PlainChar(s[i]))
          == (PlainChar(s[0]) && forall i :: 0 <= i < |s[1..]| ==> PlainChar(s[1..][i])) by {
        assert forall i :: 0 < i < |s| ==> s[i] == s[1..][i - 1];
      }
    }
  }

  lemma {:induction false} EscapedLength(s: string)
    ensures |EscapeAll(s)| >= |s|
    ensures |EscapeAll(s)| == |s| <==> Plain(s)
    ensures Plain(s) ==> EscapeAll(s) == s
  {
    if s != [] { EscapedLength(s[1..]); }
  }

  /** A string is written between quotes as it is, exactly when it holds no quote, backslash or control
      character. */
  lemma QuotedIffPlain(s: string)
    ensures PrintStr(s) == ['"'] + s + ['"'] <==> forall i :: 0 <= i < |s| ==> PlainChar(s[i])
  {
    EscapedLength(s);
    PlainAll(s);
    assert |PrintStr(s)| == |EscapeAll(s)| + 2;
  }

  /** What stands between the quotes. */
  function Inside(quoted: string): string
    requires |quoted| >= 2
  {
    quoted[1..|quoted| - 1]
  }

  /** Strings are written character by character. */
  lemma WrittenByPieces(s: string, t: string)
    ensures PrintStr(s + t) == ['"'] + Inside(PrintStr(s)) + Inside(PrintStr(t)) + ['"']
  {
    hide EscapeAll;
    assert Inside(PrintStr(s)) == EscapeAll(s) && Inside(PrintStr(t)) == EscapeAll(t);
    EscapeAppends(s, t);
  }

  lemma {:induction false} EscapeAppends(s: string, t: string)
    ensures EscapeAll(s + t) == EscapeAll(s) + EscapeAll(t)
  {
    if s == [] {
      assert s + t == t;
    } else {
      assert (s + t)[1..] == s[1..] + t;
      EscapeAppends(s[1..], t);
    }
  }

  const HEX := "0123456789abcdef"

  lemma OneEscaped(c: char)
    ensures PrintStr([c]) == ['"'] + Escape(c) + ['"']
  {
    assert [c][1..] == [];
    assert EscapeAll([c]) == Escape(c) + [];
  }

  /** The seven short escapes, and the spelling of every other control character. */
  lemma Escapes(c: char)
    ensures PrintStr("\"") == "\"\\\"\"" && PrintStr("\\") == "\"\\\\\""
    ensures PrintStr("\n") == "\"\\n\"" && PrintStr("\r") == "\"\\r\"" && PrintStr("\t") == "\"\\t\""
    ensures PrintStr("\U{0c}") == "\"\\f\"" && PrintStr("\U{08}") == "\"\\b\""
    ensures c < ' ' && c !in {'\n', '\r', '\t', '\U{0c}', '\U{08}'} ==>
      PrintStr([c]) == "\"\\u00" + [HEX[c as int / 16], HEX[c as int % 16]] + "\""
  {
    OneEscaped('"');
    OneEscaped('\\');
    OneEscaped('\n');
    OneEscaped('\r');
    OneEscaped('\t');
    OneEscaped('\U{0c}');
    OneEscaped('\U{08}');
    OneEscaped(c);
    if c < ' ' {
      HexIs(c as int / 16);
      HexIs(c as int % 16);
    }
  }

  lemma HexIs(d: nat)
    requires d < 16
    ensures HexDigit(d) == HEX[d]
  {
  }

  predicate NoControl(s: string) {
    forall i :: 0 <= i < |s| ==> s[i] >= ' '
  }

  lemma NoControlConcat(s: string, t: string)
    requires NoControl(s) && NoControl(t)
    ensures NoControl(s + t)
  {
  }

  lemma {:induction false} EscapedNoControl(s: string)
    ensures NoControl(EscapeAll(s))
  {
    if s != [] {
      EscapedNoControl(s[1..]);
      NoControlConcat(Escape(s[0]), EscapeAll(s[1..]));
    }
  }

  lemma {:induction false} DigitsNoControl(n: nat)
    ensures NoControl(PrintNat(n))
  {
    if n >= 10 { DigitsNoControl(n / 10); }
  }

  /** No control character occurs in any printed text. */
  lemma {:induction false} PrintedNoControl(j: Json)
    ensures NoControl(Print(j))
    decreases j, 1
  {
    hide EscapeAll, PrintNat;
    match j
    case Null =>
    case Bool(_) =>
    case Num(n) => DigitsNoControl(if n < 0 then -n else n);
    case Str(s) => EscapedNoControl(s);
    case Arr(items) => ItemsNoControl(items);
    case Obj(members) => MembersNoControl(members);
  }

  lemma {:induction false} ItemsNoControl(items: seq<Json>)
    ensures NoControl(PrintItems(items))
    decreases items, 0
  {
    hide Print, NoControl;
    if items == [] {
      EmptyNoControl();
    } else {
      PrintedNoControl(items[0]);
      if |items| > 1 {
        ItemsNoControl(items[1..]);
        CommaNoControl(Print(items[0]), PrintItems(items[1..]));
      }
    }
  }

  lemma EmptyNoControl()
    ensures NoControl([])
  {
  }

  lemma CommaNoControl(s: string, t: string)
    requires NoControl(s) && NoControl(t)
    ensures NoControl(s + [','] + t)
  {
  }

  lemma {:induction false} MembersNoControl(members: Entries<Json>)
    ensures NoControl(PrintMembers(members))
    decreases members, 0
  {
    hide Print, NoControl, PrintMember;
    if members == [] {
      EmptyNoControl();
    } else {
      PrintedNoControl(members[0].val);
      MemberNoControl(members[0]);
      if |members| > 1 {
        MembersNoControl(members[1..]);
        CommaNoControl(PrintMember(members[0]), PrintMembers(members[1..]));
      }
    }
  }

  lemma MemberNoControl(m: Entry<Json>)
    requires NoControl(Print(m.val))
    ensures NoControl(PrintMember(m))
  {
    hide Print, EscapeAll;
    EscapedNoControl(m.key);
  }

  /** The number that decimal digits stand for. */
  function ValueOf(digits: string): (n: nat)
    requires forall i :: 0 <= i < |digits| ==> IsDigit(digits[i])
  {
    if digits == [] then 0
    else
      var last := digits[|digits| - 1];
      assert IsDigit(last);
      10 * ValueOf(digits[..|digits| - 1]) + (last as int - '0' as int)
  }

  /** Whole numbers are written in decimal digits, without a leading zero, negative ones after a minus. */
  lemma {:induction false} Decimal(n: nat)
    ensures (forall i :: 0 <= i < |PrintNat(n)| ==> IsDigit(PrintNat(n)[i])) && ValueOf(PrintNat(n)) == n
    ensures PrintNat(n)[0] == '0' ==> n == 0 && PrintNat(n) == "0"
    ensures Print(Num(n)) == PrintNat(n) && (n > 0 ==> Print(Num(0 - n as int)) == "-" + PrintNat(n))
  {
    if n >= 10 {
      Decimal(n / 10);
      var front := PrintNat(n / 10);
      assert PrintNat(n)[..|front|] == front;
    } else {
      assert [Digit(n)][..0] == [];
    }
  }
}
