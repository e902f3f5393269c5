/** JSON texts: the canonical emitter (emit.py: canonical_json) and the parser it is read
    back with, by the grammar of RFC 8259. Floats are texts the machine reads and prints. */
module JsonText {
  import opened Results
  import opened Text
  import opened Json
  import opened JsonKeys
  import opened JsonPatch
  import Ordering

  // ----- white space --------------------------------------------------------------------

  predicate IsBlank(c: char) {
    c == ' ' || c == '\t' || c == '\n' || c == '\r'
  }

  function Unblanked(s: string): (rest: string)
    ensures |rest| <= |s|
    ensures rest != "" ==> !IsBlank(rest[0])
  {
    if s != "" && IsBlank(s[0]) then Unblanked(s[1..]) else s
  }

  /** A line break and the indentation of a level. */
  function Break(level: nat): string {
    "\n" + seq(2 * level, _ => ' ')
  }

  lemma {:induction false} BlanksSkipped(blanks: string, s: string)
    requires forall i :: 0 <= i < |blanks| ==> IsBlank(blanks[i])
    requires s == "" || !IsBlank(s[0])
    ensures Unblanked(blanks + s) == s
    decreases |blanks|
  {
    if blanks == "" {
      assert blanks + s == s;
    } else {
      assert (blanks + s)[1..] == blanks[1..] + s;
      BlanksSkipped(blanks[1..], s);
    }
  }

  // ----- texts ------------------------------------------------------------------------------

  function HexDigit(n: nat): char
    requires n < 16
  {
    if n < 10 then (48 + n) as char else (87 + n) as char
  }

  function Hex4(n: nat): (s: string)
    requires n < 0x10000
    ensures |s| == 4
  {
    [HexDigit(n / 0x1000), HexDigit(n / 0x100 % 16), HexDigit(n / 16 % 16), HexDigit(n % 16)]
  }

  function HexValue(c: char): (n: Option<nat>)
    ensures n.Some? ==> n.value < 16
  {
    if '0' <= c <= '9' then Some(c as int - 48)
    else if 'a' <= c <= 'f' then Some(c as int - 87)
    else if 'A' <= c <= 'F' then Some(c as int - 55)
    else None
  }

  /** The four hexadecimal digits at the front of a text. */
  function ReadHex4(s: string): (n: Option<nat>)
    ensures n.Some? ==> |s| >= 4 && n.value < 0x10000
  {
    if |s| < 4 then None
    else
      match (HexValue(s[0]), HexValue(s[1]), HexValue(s[2]), HexValue(s[3]))
      case (Some(a), Some(b), Some(c), Some(d)) => Some(0x1000 * a + 0x100 * b + 16 * c + d)
      case _ => None
  }

  function Unicode(n: nat): string
    requires n < 0x10000
  {
    "\\u" + Hex4(n)
  }

  /** One character as the emitter writes it: ASCII only, beyond the first plane as a
      surrogate pair. */
  function EscapeChar(c: char): (s: string)
    ensures s != ""
  {
    if c == '"' then "\\\""
    else if c == '\\' then "\\\\"
    else if c == '\n' then "\\n"
    else if c == '\r' then "\\r"
    else if c == '\t' then "\\t"
    else if c as int == 8 then "\\b"
    else if c as int == 12 then "\\f"
    else if 0x20 <= c as int <= 0x7e then [c]
    else if c as int < 0x10000 then Unicode(c as int)
    else Unicode(0xd800 + (c as int - 0x10000) / 0x400) + Unicode(0xdc00 + (c as int - 0x10000) % 0x400)
  }

  function Escape(s: string): string {
    if s == "" then "" else EscapeChar(s[0]) + Escape(s[1..])
  }

  function SimpleEscape(c: char): Option<char> {
    if c == '"' || c == '\\' || c == '/' then Some(c)
    else if c == 'n' then Some('\n')
    else if c == 'r' then Some('\r')
    else if c == 't' then Some('\t')
    else if c == 'b' then Some(8 as char)
    else if c == 'f' then Some(12 as char)
    else None
  }

  /** A `\uXXXX` escape or a pair of them; `s` is what follows the backslash. Lone
      surrogates are no characters here. */
  function ReadUnicode(s: string): (r: Option<(char, string)>)
    ensures r.Some? ==> |r.value.1| < |s|
  {
    if s == "" || s[0] != 'u' then None
    else
      match ReadHex4(s[1..])
      case None => None
      case Some(n) =>
        var rest := s[5..];
        if n < 0xd800 || 0xe000 <= n then Some((n as char, rest))
        else if n >= 0xdc00 || !StartsWith(rest, "\\u") then None
        else
          match ReadHex4(rest[2..])
          case Some(m) =>
            if 0xdc00 <= m < 0xe000 then Some(((0x10000 + (n - 0xd800) * 0x400 + (m - 0xdc00)) as char, rest[6..])) else None
          case None => None
  }

  /** One character of a text, escaped or not. */
  function ReadChar(s: string): (r: Option<(char, string)>)
    requires s != "" && s[0] != '"'
    ensures r.Some? ==> |r.value.1| < |s|
  {
    if s[0] == '\\' then
      if |s| < 2 then None
      else if s[1] == 'u' then ReadUnicode(s[1..])
      else
        match SimpleEscape(s[1])
        case Some(c) => Some((c, s[2..]))
        case None => None
    else if s[0] as int < 0x20 then None
    else Some((s[0], s[1..]))
  }

  /** A text after its opening quote, and what follows the closing one. */
  function ReadText(s: string): (r: Option<(string, string)>)
    ensures r.Some? ==> |r.value.1| < |s|
    decreases |s|
  {
    if s == "" then None
    else if s[0] == '"' then Some(("", s[1..]))
    else
      match ReadChar(s)
      case None => None
      case Some((c, rest)) =>
        match ReadText(rest)
        case None => None
        case Some((more, after)) => Some(([c] + more, after))
  }

  lemma HexBack(n: nat, tail: string)
    requires n < 0x10000
    ensures ReadHex4(Hex4(n) + tail) == Some(n) && (Hex4(n) + tail)[4..] == tail
  {
    hide HexValue, HexDigit;
    var s := Hex4(n) + tail;
    HexSum(n);
    DigitBack(n / 0x1000);
    DigitBack(n / 0x100 % 16);
    DigitBack(n / 16 % 16);
    DigitBack(n % 16);
    assert s[0] == HexDigit(n / 0x1000) && s[1] == HexDigit(n / 0x100 % 16) && s[2] == HexDigit(n / 16 % 16) && s[3] == HexDigit(n % 16);
  }

  lemma HexSum(n: nat)
    ensures 0x1000 * (n / 0x1000) + 0x100 * (n / 0x100 % 16) + 16 * (n / 16 % 16) + n % 16 == n
  {
    assert n / 0x100 == n / 16 / 16 && n / 0x1000 == n / 0x100 / 16;
  }

  lemma DigitBack(n: nat)
    requires n < 16
    ensures HexValue(HexDigit(n)) == Some(n)
  {
  }

  lemma UnicodeBack(n: nat, tail: string)
    requires n < 0xd800 || 0xe000 <= n < 0x10000
    ensures ReadUnicode((Unicode(n) + tail)[1..]) == Some((n as char, tail))
  {
    hide Hex4, ReadHex4;
    HexBack(n, tail);
    var s := (Unicode(n) + tail)[1..];
    assert s[0] == 'u' && s[1..] == Hex4(n) + tail && s[5..] == s[1..][4..];
  }

  lemma PairBack(n: nat, m: nat, tail: string)
    requires 0xd800 <= n < 0xdc00 && 0xdc00 <= m < 0xe000
    ensures ReadUnicode((Unicode(n) + Unicode(m) + tail)[1..]) == Some(((0x10000 + (n - 0xd800) * 0x400 + (m - 0xdc00)) as char, tail))
  {
    hide Hex4, ReadHex4;
    var second := Unicode(m) + tail;
    HexBack(n, second);
    HexBack(m, tail);
    var s := (Unicode(n) + Unicode(m) + tail)[1..];
    assert s == "u" + Hex4(n) + second;
    assert s[0] == 'u' && s[1..] == Hex4(n) + second && s[5..] == s[1..][4..] == second;
    assert StartsWith(second, "\\u") && second[2..] == Hex4(m) + tail && second[6..] == second[2..][4..] == tail;
  }

  lemma CharBack(c: char, tail: string)
    ensures EscapeChar(c)[0] != '"' && ReadChar(EscapeChar(c) + tail) == Some((c, tail))
  {
    hide ReadUnicode, Unicode;
    var s := EscapeChar(c) + tail;
    var n := c as int;
    if n >= 0x10000 {
      var v := n - 0x10000;
      PairBack(0xd800 + v / 0x400, 0xdc00 + v % 0x400, tail);
      assert v == v / 0x400 * 0x400 + v % 0x400;
      UnicodeHead(0xd800 + v / 0x400);
      assert s == Unicode(0xd800 + v / 0x400) + Unicode(0xdc00 + v % 0x400) + tail;
    } else if EscapeChar(c) == Unicode(n) {
      UnicodeHead(n);
      UnicodeBack(n, tail);
    } else if s[0] == '\\' {
      assert s[2..] == tail;
    } else {
      assert s[1..] == tail;
    }
  }

  lemma UnicodeHead(n: nat)
    requires n < 0x10000
    ensures |Unicode(n)| == 6 && Unicode(n)[0] == '\\' && Unicode(n)[1] == 'u'
  {
  }

  /** A text comes back from its escaped form. */
  lemma {:induction false} TextBack(s: string, tail: string)
    ensures ReadText(Escape(s) + "\"" + tail) == Some((s, tail))
    decreases |s|
  {
    hide ReadChar, EscapeChar;
    var all := Escape(s) + "\"" + tail;
    if s == "" {
      assert all == "\"" + tail && all[1..] == tail;
    } else {
      var rest := Escape(s[1..]) + "\"" + tail;
      CharBack(s[0], rest);
      assert all == EscapeChar(s[0]) + rest;
      assert all[0] == EscapeChar(s[0])[0];
      TextBack(s[1..], tail);
      assert [s[0]] + s[1..] == s;
    }
  }

  // ----- numbers --------------------------------------------------------------------------------

  function Digits(s: string): nat {
    RunLength(s, IsDigit)
  }

  /** The integer part at the front of a text: no leading zeros. */
  function NaturalLength(s: string): nat {
    if s == "" then 0 else if s[0] == '0' then 1 else Digits(s)
  }

  function IntLength(s: string): (n: nat)
    ensures n <= |s|
  {
    if s != "" && s[0] == '-' then
      var n := NaturalLength(s[1..]);
      if n == 0 then 0 else 1 + n
    else NaturalLength(s)
  }

  function FractionLength(s: string): (n: nat)
    ensures n <= |s|
  {
    if s == "" || s[0] != '.' then 0
    else
      var n := Digits(s[1..]);
      if n == 0 then 0 else 1 + n
  }

  predicate IsSign(c: char) {
    c == '+' || c == '-'
  }

  function ExponentLength(s: string): (n: nat)
    ensures n <= |s|
  {
    if s == "" || (s[0] != 'e' && s[0] != 'E') then 0
    else
      var sign := if |s| > 1 && IsSign(s[1]) then 1 else 0;
      var n := Digits(s[1 + sign..]);
      if n == 0 then 0 else 1 + sign + n
  }

  /** A number with a fraction or an exponent, and nothing else. */
  predicate IsFloatText(s: string) {
    var a := IntLength(s);
    var b := FractionLength(s[a..]);
    var c := ExponentLength(s[a + b..]);
    a > 0 && b + c > 0 && a + b + c == |s|
  }

  function DigitOf(n: nat): char
    requires n < 10
  {
    (48 + n) as char
  }

  function NatText(n: nat): (s: string)
    ensures s != "" && forall i :: 0 <= i < |s| ==> IsDigit(s[i])
  {
    if n < 10 then [DigitOf(n)] else NatText(n / 10) + [DigitOf(n % 10)]
  }

  /** `str` of an integer. */
  function IntText(n: int): string {
    if n < 0 then "-" + NatText(-n) else NatText(n)
  }

  /** The integer an integer part stands for. */
  function IntValue(s: string): int
    requires s != "" && IntLength(s) == |s|
  {
    AllDigits(s);
    if s[0] == '-' then -(Decimal(s[1..]) as int) else Decimal(s)
  }

  lemma {:induction false} RunAll(s: string)
    ensures forall i :: 0 <= i < Digits(s) ==> IsDigit(s[i])
  {
    if s != "" && IsDigit(s[0]) {
      RunAll(s[1..]);
      forall i | 0 <= i < Digits(s) ensures IsDigit(s[i]) {
        assert i > 0 ==> s[i] == s[1..][i - 1];
      }
    }
  }

  lemma AllDigits(s: string)
    requires s != "" && IntLength(s) == |s|
    ensures s[0] == '-' ==> forall i :: 0 <= i < |s[1..]| ==> IsDigit(s[1..][i])
    ensures s[0] != '-' ==> forall i :: 0 <= i < |s| ==> IsDigit(s[i])
  {
    RunAll(s);
    RunAll(s[1..]);
  }

  /** No character that a number could go on with. */
  predicate Stops(rest: string) {
    rest == "" || (!IsDigit(rest[0]) && rest[0] != '.' && rest[0] != 'e' && rest[0] != 'E' && !IsSign(rest[0]))
  }

  lemma {:induction false} DigitsStop(s: string, rest: string)
    requires Stops(rest)
    ensures Digits(s + rest) == Digits(s)
    decreases |s|
  {
    if s == "" {
      assert s + rest == rest;
    } else {
      assert (s + rest)[1..] == s[1..] + rest;
      DigitsStop(s[1..], rest);
    }
  }

  lemma NaturalStops(s: string, rest: string)
    requires Stops(rest)
    ensures NaturalLength(s + rest) == NaturalLength(s)
  {
    DigitsStop(s, rest);
    if s == "" {
      assert s + rest == rest;
    }
  }

  /** The parts of a number end where its text ends. */
  lemma PartsStop(s: string, rest: string)
    requires Stops(rest)
    ensures s != "" ==> IntLength(s + rest) == IntLength(s)
    ensures FractionLength(s + rest) == FractionLength(s)
    ensures ExponentLength(s + rest) == ExponentLength(s)
  {
    if s == "" {
      assert s + rest == rest;
    } else {
      assert (s + rest)[1..] == s[1..] + rest;
      NaturalStops(s, rest);
      NaturalStops(s[1..], rest);
      DigitsStop(s[1..], rest);
      if |s| > 1 {
        assert (s + rest)[2..] == s[2..] + rest;
        DigitsStop(s[2..], rest);
      } else {
        assert (s + rest)[1..] == rest;
      }
    }
  }

  lemma {:induction false} AllRun(s: string)
    requires forall i :: 0 <= i < |s| ==> IsDigit(s[i])
    ensures Digits(s) == |s|
  {
    if s != "" {
      AllRun(s[1..]);
    }
  }

  /** A natural number has no leading zero, and its digits give it back. */
  lemma {:induction false} NatTextFacts(n: nat)
    ensures Decimal(NatText(n)) == n
    ensures (NatText(n)[0] == '0' <==> n == 0) && (n == 0 ==> NatText(n) == "0")
  {
    if n < 10 {
      assert [DigitOf(n)][..0] == "";
    } else {
      NatTextFacts(n / 10);
      var s := NatText(n);
      assert s[..|s| - 1] == NatText(n / 10) && s[|s| - 1] == DigitOf(n % 10);
      assert s[0] == NatText(n / 10)[0];
    }
  }

  lemma IntTextFacts(n: int)
    ensures var s := IntText(n); s != "" && IntLength(s) == |s| && IntValue(s) == n
  {
    var m := if n < 0 then -n else n;
    var digits := NatText(m);
    NatTextFacts(m);
    AllRun(digits);
    assert digits[0] != '-';
    if n < 0 {
      assert IntText(n)[1..] == digits;
    }
  }

  /** The machine's floats: how each is written, and what a number's text reads as. */
  datatype Floats = Floats(repr: real -> string, read: string -> Option<real>) {
    /** The text is a number that reads back. */
    predicate Holds(r: real) {
      IsFloatText(repr(r)) && read(repr(r)) == Some(r)
    }

    /** Whatever is read is a float whose text reads back, and no text has a line break. */
    ghost predicate Lawful() {
      && (forall text :: read(text).Some? ==> Holds(read(text).value))
      && (forall r :: '\r' !in repr(r))
    }
  }

  function ReadNumber(floats: Floats, s: string): (r: Option<(Json, string)>)
    ensures r.Some? ==> |r.value.1| < |s|
  {
    var a := IntLength(s);
    if a == 0 then None
    else
      var b := FractionLength(s[a..]);
      var c := ExponentLength(s[a + b..]);
      if b + c == 0 then
        WholeInt(s);
        Some((Int(IntValue(s[..a])), s[a..]))
      else
        match floats.read(s[..a + b + c])
        case Some(r) => Some((Float(r), s[a + b + c..]))
        case None => None
  }

  lemma {:induction false} RunPrefix(s: string)
    ensures Digits(s[..Digits(s)]) == Digits(s)
  {
    RunAll(s);
    AllRun(s[..Digits(s)]);
  }

  /** The integer part of a text is an integer part by itself. */
  lemma WholeInt(s: string)
    requires IntLength(s) > 0
    ensures var part := s[..IntLength(s)]; part != "" && IntLength(part) == |part|
  {
    var a := IntLength(s);
    var part := s[..a];
    RunPrefix(s);
    if s[0] == '-' {
      assert part[1..] == s[1..][..a - 1];
      RunPrefix(s[1..]);
    }
  }

  lemma IntBack(floats: Floats, n: int, rest: string)
    requires Stops(rest)
    ensures ReadNumber(floats, IntText(n) + rest) == Some((Int(n), rest))
  {
    var s := IntText(n);
    IntTextFacts(n);
    PartsStop(s, rest);
    PartsStop("", rest);
    assert "" + rest == rest;
    assert (s + rest)[|s|..] == rest && (s + rest)[..|s|] == s;
  }

  lemma FloatBack(floats: Floats, r: real, rest: string)
    requires floats.Holds(r) && Stops(rest)
    ensures ReadNumber(floats, floats.repr(r) + rest) == Some((Float(r), rest))
  {
    hide IntLength, FractionLength, ExponentLength, IntValue, Stops;
    var s := floats.repr(r);
    var a := IntLength(s);
    var b := FractionLength(s[a..]);
    PartsStop(s, rest);
    PartsStop(s[a..], rest);
    PartsStop(s[a + b..], rest);
    assert (s + rest)[a..] == s[a..] + rest && (s + rest)[a + b..] == s[a + b..] + rest;
    assert (s + rest)[|s|..] == rest && (s + rest)[..|s|] == s;
  }

  // ----- values ---------------------------------------------------------------------------------

  /** `json.dumps(..., indent=2)`, keys as they stand. */
  function Dump(floats: Floats, j: Json, level: nat): string
    decreases j, Width(j) + 1
  {
    match j
    case Null => "null"
    case Bool(b) => if b then "true" else "false"
    case Int(i) => IntText(i)
    case Float(r) => floats.repr(r)
    case Str(s) => "\"" + Escape(s) + "\""
    case Arr(elements) => if elements == [] then "[]" else "[" + Break(level + 1) + DumpElements(floats, j, 0, level)
    case Obj(fields) => if fields == [] then "{}" else "{" + Break(level + 1) + DumpFields(floats, j, 0, level)
  }

  function Width(j: Json): nat {
    match j
    case Arr(elements) => |elements|
    case Obj(fields) => |fields|
    case _ => 0
  }

  /** The elements from one on, and the closing bracket. */
  function DumpElements(floats: Floats, j: Json, i: nat, level: nat): string
    requires j.Arr? && i < |j.elements|
    decreases j, Width(j) - i
  {
    Dump(floats, j.elements[i], level + 1)
    + if i + 1 == |j.elements| then Break(level) + "]" else "," + Break(level + 1) + DumpElements(floats, j, i + 1, level)
  }

  function DumpFields(floats: Floats, j: Json, i: nat, level: nat): string
    requires j.Obj? && i < |j.fields|
    decreases j, Width(j) - i
  {
    "\"" + Escape(j.fields[i].key) + "\": " + Dump(floats, j.fields[i].value, level + 1)
    + if i + 1 == |j.fields| then Break(level) + "}" else "," + Break(level + 1) + DumpFields(floats, j, i + 1, level)
  }

  /** `canonical_json`. */
  function Emit(floats: Floats, j: Json): string {
    Dump(floats, SortedKeys(j), 0) + "\n"
  }

  /** The last value of a repeated key, where the key first stood. */
  function Put(fields: seq<Field>, f: Field): seq<Field> {
    match IndexOf(fields, f.key)
    case Some(k) => fields[k := f]
    case None => fields + [f]
  }

  function Dict(fields: seq<Field>): seq<Field> {
    if fields == [] then [] else Put(Dict(fields[..|fields| - 1]), fields[|fields| - 1])
  }

  /** One value at the front of a text, and what follows it. */
  function ReadValue(floats: Floats, s: string): (r: Option<(Json, string)>)
    ensures r.Some? ==> |r.value.1| < |s|
    decreases |s|, 0
  {
    if s == "" then None
    else if s[0] == '"' then
      match ReadText(s[1..])
      case Some((text, rest)) => Some((Str(text), rest))
      case None => None
    else if s[0] == '{' then
      var t := Unblanked(s[1..]);
      if t != "" && t[0] == '}' then Some((Obj([]), t[1..]))
      else
        match ReadFields(floats, t)
        case Some((fields, rest)) => Some((Obj(Dict(fields)), rest))
        case None => None
    else if s[0] == '[' then
      var t := Unblanked(s[1..]);
      if t != "" && t[0] == ']' then Some((Arr([]), t[1..]))
      else
        match ReadElements(floats, t)
        case Some((elements, rest)) => Some((Arr(elements), rest))
        case None => None
    else if StartsWith(s, "null") then Some((Null, s[4..]))
    else if StartsWith(s, "true") then Some((Bool(true), s[4..]))
    else if StartsWith(s, "false") then Some((Bool(false), s[5..]))
    else ReadNumber(floats, s)
  }

  /** Elements up to the closing bracket. */
  function ReadElements(floats: Floats, s: string): (r: Option<(seq<Json>, string)>)
    ensures r.Some? ==> |r.value.1| < |s|
    decreases |s|, 1
  {
    match ReadValue(floats, s)
    case None => None
    case Some((value, after)) =>
      var t := Unblanked(after);
      if t != "" && t[0] == ']' then Some(([value], t[1..]))
      else if t == "" || t[0] != ',' then None
      else
        match ReadElements(floats, Unblanked(t[1..]))
        case Some((more, rest)) => Some(([value] + more, rest))
        case None => None
  }

  /** A key and its colon. */
  function ReadKey(s: string): (r: Option<(string, string)>)
    ensures r.Some? ==> |r.value.1| < |s|
  {
    if s == "" || s[0] != '"' then None
    else
      match ReadText(s[1..])
      case None => None
      case Some((key, after)) =>
        var t := Unblanked(after);
        if t == "" || t[0] != ':' then None else Some((key, Unblanked(t[1..])))
  }

  function ReadFields(floats: Floats, s: string): (r: Option<(seq<Field>, string)>)
    ensures r.Some? ==> |r.value.1| < |s|
    decreases |s|, 1
  {
    match ReadKey(s)
    case None => None
    case Some((key, text)) =>
      match ReadValue(floats, text)
      case None => None
      case Some((value, after)) =>
        var t := Unblanked(after);
        if t != "" && t[0] == '}' then Some(([Field(key, value)], t[1..]))
        else if t == "" || t[0] != ',' then None
        else
          match ReadFields(floats, Unblanked(t[1..]))
          case Some((more, rest)) => Some(([Field(key, value)] + more, rest))
          case None => None
  }

  /** `json.loads`: one value, and nothing but white space around it. */
  function Parse(floats: Floats, text: string): Option<Json> {
    match ReadValue(floats, Unblanked(text))
    case Some((value, rest)) => if Unblanked(rest) == "" then Some(value) else None
    case None => None
  }

  // ----- every document comes back from its text ----------------------------------------------------

  predicate Starts(s: string) {
    s != "" && !IsBlank(s[0]) && s[0] != ']' && s[0] != '}'
  }

  lemma NumberStarts(s: string)
    requires IntLength(s) > 0
    ensures Starts(s) && s[0] != '"' && s[0] != '{' && s[0] != '[' && s[0] != 'n' && s[0] != 't' && s[0] != 'f'
  {
  }

  lemma DumpStarts(floats: Floats, j: Json, level: nat)
    requires Proper(r => floats.Holds(r), j)
    ensures Starts(Dump(floats, j, level))
  {
    hide IntLength, FractionLength, ExponentLength, DumpElements, DumpFields, Escape, Break;
    match j {
      case Int(i) =>
        IntTextFacts(i);
        NumberStarts(IntText(i));
      case Float(r) =>
        assert floats.Holds(r);
        NumberStarts(floats.repr(r));
      case _ =>
    }
  }

  lemma BreakSkipped(level: nat, s: string)
    requires s == "" || !IsBlank(s[0])
    ensures Unblanked(Break(level) + s) == s
  {
    BlanksSkipped(Break(level), s);
  }

  lemma StaysUnblanked(s: string)
    requires s == "" || !IsBlank(s[0])
    ensures Unblanked(s) == s
  {
  }

  lemma NumberReads(floats: Floats, s: string)
    requires IntLength(s) > 0
    ensures ReadValue(floats, s) == ReadNumber(floats, s)
  {
    NumberStarts(s);
    hide IntLength, ReadNumber, Unblanked;
    assert !StartsWith(s, "null") && !StartsWith(s, "true") && !StartsWith(s, "false");
  }

  lemma {:induction false} ValueBack(floats: Floats, j: Json, level: nat, rest: string)
    requires Proper(r => floats.Holds(r), j) && Stops(rest)
    ensures ReadValue(floats, Dump(floats, j, level) + rest) == Some((j, rest))
    decreases j, Width(j) + 1
  {
    match j {
      case Null => WordBack(floats, rest);
      case Bool(_) => WordBack(floats, rest);
      case Int(n) =>
        IntBack(floats, n, rest);
        IntTextFacts(n);
        PartsStop(IntText(n), rest);
        NumberReads(floats, IntText(n) + rest);
      case Float(r) =>
        assert floats.Holds(r);
        FloatBack(floats, r, rest);
        PartsStop(floats.repr(r), rest);
        NumberReads(floats, floats.repr(r) + rest);
      case Str(text) => StringBack(floats, text, rest);
      case Arr(elements) =>
        if elements == [] {
          EmptyBack(floats, rest);
        } else {
          ElementsBack(floats, j, 0, level, rest);
          ArrayBack(floats, j, level, rest);
        }
      case Obj(fields) =>
        if fields == [] {
          EmptyBack(floats, rest);
        } else {
          FieldsBack(floats, j, 0, level, rest);
          ObjectBack(floats, j, level, rest);
        }
    }
  }

  lemma WordBack(floats: Floats, rest: string)
    ensures ReadValue(floats, "null" + rest) == Some((Null, rest))
    ensures ReadValue(floats, "true" + rest) == Some((Bool(true), rest))
    ensures ReadValue(floats, "false" + rest) == Some((Bool(false), rest))
  {
    hide ReadNumber, ReadFields, ReadElements, ReadText, Unblanked;
    var a, b, c := "null" + rest, "true" + rest, "false" + rest;
    assert a[0] == 'n' && b[0] == 't' && c[0] == 'f';
    assert a[..4] == "null" && b[..4] == "true" && c[..5] == "false";
    assert a[4..] == rest && b[4..] == rest && c[5..] == rest;
  }

  lemma StringBack(floats: Floats, text: string, rest: string)
    ensures ReadValue(floats, "\"" + Escape(text) + "\"" + rest) == Some((Str(text), rest))
  {
    hide ReadNumber, ReadFields, ReadElements, ReadText, Escape;
    TextBack(text, rest);
    var s := "\"" + Escape(text) + "\"" + rest;
    assert s[0] == '"' && s[1..] == Escape(text) + "\"" + rest;
  }

  lemma EmptyBack(floats: Floats, rest: string)
    ensures ReadValue(floats, "[]" + rest) == Some((Arr([]), rest)) && ReadValue(floats, "{}" + rest) == Some((Obj([]), rest))
  {
    hide ReadNumber, ReadFields, ReadElements, ReadText;
    var a, b := "[]" + rest, "{}" + rest;
    assert a[0] == '[' && a[1..] == "]" + rest && ("]" + rest)[1..] == rest;
    assert b[0] == '{' && b[1..] == "}" + rest && ("}" + rest)[1..] == rest;
  }

  // How the reader goes on, whatever the texts are.

  lemma ReadArray(floats: Floats, level: nat, items: string, values: seq<Json>, rest: string)
    requires Starts(items) && ReadElements(floats, items) == Some((values, rest))
    ensures ReadValue(floats, "[" + (Break(level) + items)) == Some((Arr(values), rest))
  {
    hide ReadNumber, ReadFields, ReadElements, ReadText, Break, Unblanked;
    var s := "[" + (Break(level) + items);
    assert s[0] == '[' && s[1..] == Break(level) + items;
    BreakSkipped(level, items);
  }

  lemma ReadObject(floats: Floats, level: nat, items: string, fields: seq<Field>, rest: string)
    requires Starts(items) && ReadFields(floats, items) == Some((fields, rest))
    ensures ReadValue(floats, "{" + (Break(level) + items)) == Some((Obj(Dict(fields)), rest))
  {
    hide ReadNumber, ReadFields, ReadElements, ReadText, Break, Unblanked, Dict;
    var s := "{" + (Break(level) + items);
    assert s[0] == '{' && s[1..] == Break(level) + items;
    BreakSkipped(level, items);
  }

  lemma ClosingSkipped(level: nat, close: char, rest: string)
    requires close == ']' || close == '}'
    ensures Unblanked(Break(level) + ([close] + rest)) == [close] + rest && ([close] + rest)[1..] == rest
  {
    hide Unblanked, Break;
    BreakSkipped(level, [close] + rest);
  }

  lemma CommaSkipped(level: nat, more: string)
    requires Starts(more)
    ensures var t := "," + (Break(level) + more); Unblanked(t) == t && Unblanked(t[1..]) == more
  {
    hide Break, Unblanked;
    var t := "," + (Break(level) + more);
    StaysUnblanked(t);
    assert t[1..] == Break(level) + more;
    BreakSkipped(level, more);
  }

  lemma ReadLastElement(floats: Floats, s: string, value: Json, level: nat, rest: string)
    requires ReadValue(floats, s) == Some((value, Break(level) + ([']'] + rest)))
    ensures ReadElements(floats, s) == Some(([value], rest))
  {
    hide ReadValue, Unblanked, Break;
    ClosingSkipped(level, ']', rest);
  }

  lemma ReadNextElement(floats: Floats, s: string, value: Json, level: nat, more: string, values: seq<Json>, rest: string)
    requires ReadValue(floats, s) == Some((value, "," + (Break(level) + more)))
    requires Starts(more) && ReadElements(floats, more) == Some((values, rest))
    ensures ReadElements(floats, s) == Some(([value] + values, rest))
  {
    hide ReadValue, Unblanked, Break;
    CommaSkipped(level, more);
  }

  lemma ReadLastField(floats: Floats, s: string, key: string, text: string, value: Json, level: nat, rest: string)
    requires ReadKey(s) == Some((key, text)) && ReadValue(floats, text) == Some((value, Break(level) + (['}'] + rest)))
    ensures ReadFields(floats, s) == Some(([Field(key, value)], rest))
  {
    hide ReadValue, Unblanked, Break, ReadKey;
    ClosingSkipped(level, '}', rest);
  }

  lemma ReadNextField(floats: Floats, s: string, key: string, text: string, value: Json, level: nat, more: string, fields: seq<Field>, rest: string)
    requires ReadKey(s) == Some((key, text)) && ReadValue(floats, text) == Some((value, "," + (Break(level) + more)))
    requires Starts(more) && ReadFields(floats, more) == Some((fields, rest))
    ensures ReadFields(floats, s) == Some(([Field(key, value)] + fields, rest))
  {
    hide ReadValue, Unblanked, Break, ReadKey;
    CommaSkipped(level, more);
  }

  lemma StartsWithMore(s: string, rest: string)
    requires Starts(s)
    ensures Starts(s + rest)
  {
  }

  lemma ArrayBack(floats: Floats, j: Json, level: nat, rest: string)
    requires j.Arr? && j.elements != [] && Proper(r => floats.Holds(r), j)
    requires ReadElements(floats, DumpElements(floats, j, 0, level) + rest) == Some((j.elements, rest))
    ensures ReadValue(floats, Dump(floats, j, level) + rest) == Some((j, rest))
  {
    ElementsStart(floats, j, 0, level);
    hide ReadValue, ReadElements, DumpElements, Break, Starts, Proper;
    StartsWithMore(DumpElements(floats, j, 0, level), rest);
    ReadArray(floats, level + 1, DumpElements(floats, j, 0, level) + rest, j.elements, rest);
    assert Dump(floats, j, level) + rest == "[" + (Break(level + 1) + (DumpElements(floats, j, 0, level) + rest));
  }

  lemma ElementsStart(floats: Floats, j: Json, i: nat, level: nat)
    requires j.Arr? && i < |j.elements| && Proper(r => floats.Holds(r), j)
    ensures Starts(DumpElements(floats, j, i, level))
  {
    DumpStarts(floats, j.elements[i], level + 1);
    hide Dump, Break;
    assert DumpElements(floats, j, i, level)[0] == Dump(floats, j.elements[i], level + 1)[0];
  }

  /** What follows one element. */
  function AfterElement(floats: Floats, j: Json, i: nat, level: nat, rest: string): string
    requires j.Arr? && i < |j.elements|
  {
    if i + 1 == |j.elements| then Break(level) + ([']'] + rest) else "," + (Break(level + 1) + (DumpElements(floats, j, i + 1, level) + rest))
  }

  lemma ElementsSplit(floats: Floats, j: Json, i: nat, level: nat, rest: string)
    requires j.Arr? && i < |j.elements|
    ensures DumpElements(floats, j, i, level) + rest == Dump(floats, j.elements[i], level + 1) + AfterElement(floats, j, i, level, rest)
    ensures Stops(AfterElement(floats, j, i, level, rest))
  {
    hide Dump;
  }

  lemma {:induction false} ElementsBack(floats: Floats, j: Json, i: nat, level: nat, rest: string)
    requires j.Arr? && i < |j.elements| && Proper(r => floats.Holds(r), j) && Stops(rest)
    ensures ReadElements(floats, DumpElements(floats, j, i, level) + rest) == Some((j.elements[i..], rest))
    decreases j, Width(j) - i
  {
    hide Dump, DumpElements, Break, ReadValue, ReadElements, Stops, Starts;
    var s := DumpElements(floats, j, i, level) + rest;
    var tail := AfterElement(floats, j, i, level, rest);
    ElementsSplit(floats, j, i, level, rest);
    ValueBack(floats, j.elements[i], level + 1, tail);
    if i + 1 == |j.elements| {
      ReadLastElement(floats, s, j.elements[i], level, rest);
      assert j.elements[i..] == [j.elements[i]];
    } else {
      var next := DumpElements(floats, j, i + 1, level);
      ElementsStart(floats, j, i + 1, level);
      StartsWithMore(next, rest);
      ElementsBack(floats, j, i + 1, level, rest);
      ReadNextElement(floats, s, j.elements[i], level + 1, next + rest, j.elements[i + 1..], rest);
      assert j.elements[i..] == [j.elements[i]] + j.elements[i + 1..];
    }
  }

  lemma KeyBack(key: string, text: string)
    requires Starts(text)
    ensures ReadKey("\"" + Escape(key) + "\": " + text) == Some((key, text))
  {
    hide Escape, ReadText, Unblanked;
    var s := "\"" + Escape(key) + "\": " + text;
    var after := ": " + text;
    TextBack(key, after);
    assert s[0] == '"' && s[1..] == Escape(key) + "\"" + after;
    StaysUnblanked(after);
    assert after[1..] == " " + text;
    BlanksSkipped(" ", text);
  }

  lemma ObjectBack(floats: Floats, j: Json, level: nat, rest: string)
    requires j.Obj? && j.fields != [] && UniqueKeys(j.fields)
    requires ReadFields(floats, DumpFields(floats, j, 0, level) + rest) == Some((j.fields, rest))
    ensures ReadValue(floats, Dump(floats, j, level) + rest) == Some((j, rest))
  {
    FieldsStart(floats, j, 0, level);
    UniqueDict(j.fields);
    hide ReadValue, ReadFields, DumpFields, Dump, Break, Starts, Dict;
    StartsWithMore(DumpFields(floats, j, 0, level), rest);
    ReadObject(floats, level + 1, DumpFields(floats, j, 0, level) + rest, j.fields, rest);
    ObjectSplit(floats, j, level, rest);
  }

  lemma ObjectSplit(floats: Floats, j: Json, level: nat, rest: string)
    requires j.Obj? && j.fields != []
    ensures Dump(floats, j, level) + rest == "{" + (Break(level + 1) + (DumpFields(floats, j, 0, level) + rest))
  {
    hide DumpFields, Break;
  }

  lemma FieldsStart(floats: Floats, j: Json, i: nat, level: nat)
    requires j.Obj? && i < |j.fields|
    ensures Starts(DumpFields(floats, j, i, level))
  {
    hide Dump, Break, Escape;
  }

  lemma {:induction false} UniqueDict(fields: seq<Field>)
    requires UniqueKeys(fields)
    ensures Dict(fields) == fields
  {
    if fields != [] {
      var early, last := fields[..|fields| - 1], fields[|fields| - 1];
      UniqueDict(early);
      assert IndexOf(early, last.key) == None;
      assert fields == early + [last];
    }
  }

  function AfterField(floats: Floats, j: Json, i: nat, level: nat, rest: string): string
    requires j.Obj? && i < |j.fields|
  {
    if i + 1 == |j.fields| then Break(level) + (['}'] + rest) else "," + (Break(level + 1) + (DumpFields(floats, j, i + 1, level) + rest))
  }

  lemma FieldsSplit(floats: Floats, j: Json, i: nat, level: nat, rest: string)
    requires j.Obj? && i < |j.fields|
    ensures DumpFields(floats, j, i, level) + rest
         == "\"" + Escape(j.fields[i].key) + "\": " + (Dump(floats, j.fields[i].value, level + 1) + AfterField(floats, j, i, level, rest))
    ensures Stops(AfterField(floats, j, i, level, rest))
  {
    hide Dump, Escape;
  }

  lemma {:induction false} FieldsBack(floats: Floats, j: Json, i: nat, level: nat, rest: string)
    requires j.Obj? && i < |j.fields| && Proper(r => floats.Holds(r), j) && Stops(rest)
    ensures ReadFields(floats, DumpFields(floats, j, i, level) + rest) == Some((j.fields[i..], rest))
    decreases j, Width(j) - i
  {
    hide Dump, DumpFields, Break, ReadValue, ReadFields, Stops, Starts, ReadKey, Escape, AfterField;
    var f := j.fields[i];
    var s := DumpFields(floats, j, i, level) + rest;
    var tail := AfterField(floats, j, i, level, rest);
    FieldsSplit(floats, j, i, level, rest);
    ValueBack(floats, f.value, level + 1, tail);
    DumpStarts(floats, f.value, level + 1);
    StartsWithMore(Dump(floats, f.value, level + 1), tail);
    KeyBack(f.key, Dump(floats, f.value, level + 1) + tail);
    if i + 1 == |j.fields| {
      LastFieldBack(floats, j, level, s, rest);
    } else {
      FieldsBack(floats, j, i + 1, level, rest);
      NextFieldBack(floats, j, i, level, s, Dump(floats, f.value, level + 1) + tail, rest);
      assert j.fields[i..] == [f] + j.fields[i + 1..];
    }
  }

  lemma LastFieldBack(floats: Floats, j: Json, level: nat, s: string, rest: string)
    requires j.Obj? && j.fields != []
    requires var i := |j.fields| - 1;
             var tail := AfterField(floats, j, i, level, rest);
             var text := Dump(floats, j.fields[i].value, level + 1) + tail;
             ReadKey(s) == Some((j.fields[i].key, text)) && ReadValue(floats, text) == Some((j.fields[i].value, tail))
    ensures ReadFields(floats, s) == Some((j.fields[|j.fields| - 1..], rest))
  {
    hide Dump, DumpFields, Break, ReadValue, ReadFields, ReadKey;
    var i := |j.fields| - 1;
    var f := j.fields[i];
    ReadLastField(floats, s, f.key, Dump(floats, f.value, level + 1) + AfterField(floats, j, i, level, rest), f.value, level, rest);
    assert j.fields[i..] == [f];
  }

  lemma AfterNext(floats: Floats, j: Json, i: nat, level: nat, rest: string)
    requires j.Obj? && i + 1 < |j.fields|
    ensures AfterField(floats, j, i, level, rest) == "," + (Break(level + 1) + (DumpFields(floats, j, i + 1, level) + rest))
  {
    hide DumpFields, Break;
  }

  lemma NextFieldBack(floats: Floats, j: Json, i: nat, level: nat, s: string, text: string, rest: string)
    requires j.Obj? && i + 1 < |j.fields| && ReadKey(s) == Some((j.fields[i].key, text))
    requires ReadValue(floats, text) == Some((j.fields[i].value, AfterField(floats, j, i, level, rest)))
    requires ReadFields(floats, DumpFields(floats, j, i + 1, level) + rest) == Some((j.fields[i + 1..], rest))
    ensures ReadFields(floats, s) == Some(([j.fields[i]] + j.fields[i + 1..], rest))
  {
    hide Dump, DumpFields, Break, ReadValue, ReadFields, ReadKey, Starts, AfterField;
    FieldsStart(floats, j, i + 1, level);
    AfterNext(floats, j, i, level, rest);
    var more := DumpFields(floats, j, i + 1, level) + rest;
    StartsWithMore(DumpFields(floats, j, i + 1, level), rest);
    ReadNextField(floats, s, j.fields[i].key, text, j.fields[i].value, level + 1, more, j.fields[i + 1..], rest);
  }

  // ----- what is read is a document -------------------------------------------------------------------

  lemma {:induction false} DictFacts(fields: seq<Field>)
    ensures UniqueKeys(Dict(fields)) && forall f :: f in Dict(fields) ==> f in fields
  {
    if fields != [] {
      var early, last := fields[..|fields| - 1], fields[|fields| - 1];
      DictFacts(early);
      PutFacts(Dict(early), last);
      assert fields == early + [last];
    }
  }

  lemma PutFacts(fields: seq<Field>, f: Field)
    requires UniqueKeys(fields)
    ensures UniqueKeys(Put(fields, f)) && forall g :: g in Put(fields, f) ==> g in fields || g == f
  {
    var k := IndexOf(fields, f.key);
    if k.None? {
      assert forall i :: 0 <= i < |fields| ==> fields[i].key != f.key;
    }
  }

  ghost predicate AllProper(floats: Floats, values: seq<Json>) {
    forall j :: j in values ==> Proper(r => floats.Holds(r), j)
  }

  lemma ElementsProper(floats: Floats, elements: seq<Json>)
    requires AllProper(floats, elements)
    ensures Proper(r => floats.Holds(r), Arr(elements))
  {
    forall i | 0 <= i < |elements| ensures Proper(r => floats.Holds(r), elements[i]) {
      assert elements[i] in elements;
    }
  }

  ghost predicate FieldsProper(floats: Floats, fields: seq<Field>) {
    forall f :: f in fields ==> Proper(r => floats.Holds(r), f.value)
  }

  lemma DictProper(floats: Floats, fields: seq<Field>)
    requires FieldsProper(floats, fields)
    ensures Proper(r => floats.Holds(r), Obj(Dict(fields)))
  {
    DictFacts(fields);
    ProperFields(r => floats.Holds(r), Dict(fields));
  }

  lemma NumberProper(floats: Floats, s: string)
    requires floats.Lawful() && ReadNumber(floats, s).Some?
    ensures Proper(r => floats.Holds(r), ReadNumber(floats, s).value.0)
  {
    hide IntLength, FractionLength, ExponentLength, IntValue;
  }

  lemma {:induction false} ValueProper(floats: Floats, s: string)
    requires floats.Lawful() && ReadValue(floats, s).Some?
    ensures Proper(r => floats.Holds(r), ReadValue(floats, s).value.0)
    decreases |s|, 0
  {
    hide ReadText, ReadNumber, Dict, Floats.Lawful, AllProper, FieldsProper, ReadFields, ReadElements;
    if s[0] == '{' {
      var t := Unblanked(s[1..]);
      if ReadFields(floats, t).Some? {
        ReadFieldsProper(floats, t);
        DictProper(floats, ReadFields(floats, t).value.0);
      }
    } else if s[0] == '[' {
      var t := Unblanked(s[1..]);
      if ReadElements(floats, t).Some? {
        ReadElementsProper(floats, t);
        ElementsProper(floats, ReadElements(floats, t).value.0);
      }
    } else if ReadNumber(floats, s).Some? {
      NumberProper(floats, s);
    }
  }

  lemma {:induction false} ReadElementsProper(floats: Floats, s: string)
    requires floats.Lawful() && ReadElements(floats, s).Some?
    ensures AllProper(floats, ReadElements(floats, s).value.0)
    decreases |s|, 1
  {
    hide ReadValue, Floats.Lawful, Proper;
    ValueProper(floats, s);
    var t := Unblanked(ReadValue(floats, s).value.1);
    if t[0] == ',' {
      ReadElementsProper(floats, Unblanked(t[1..]));
    }
  }

  lemma {:induction false} ReadFieldsProper(floats: Floats, s: string)
    requires floats.Lawful() && ReadFields(floats, s).Some?
    ensures FieldsProper(floats, ReadFields(floats, s).value.0)
    decreases |s|, 1
  {
    hide ReadValue, Floats.Lawful, Proper, ReadKey;
    var text := ReadKey(s).value.1;
    ValueProper(floats, text);
    var t := Unblanked(ReadValue(floats, text).value.1);
    if t[0] == ',' {
      ReadFieldsProper(floats, Unblanked(t[1..]));
    }
  }

  // ----- the codec ----------------------------------------------------------------------------------

  /** The program's codec. */
  function TextCodec(floats: Floats): Codec {
    Codec(text => Parse(floats, text), j => Emit(floats, j), r => floats.Holds(r))
  }

  /** Every document comes back from its canonical text, with its keys in order. */
  lemma EmitParse(floats: Floats, j: Json)
    requires Proper(r => floats.Holds(r), j)
    ensures Parse(floats, Emit(floats, j)) == Some(SortedKeys(j))
  {
    hide ReadValue, Dump, SortedKeys, Proper;
    var sorted := SortedKeys(j);
    SortedProper(r => floats.Holds(r), j);
    ValueBack(floats, sorted, 0, "\n");
    DumpStarts(floats, sorted, 0);
    StaysUnblanked(Emit(floats, j));
    assert Unblanked("\n") == "" by {
      BlanksSkipped("\n", "");
    }
  }

  lemma {:induction false} SameFloats(p: real -> bool, q: real -> bool, j: Json)
    requires forall r :: p(r) == q(r)
    ensures Proper(p, j) == Proper(q, j)
    decreases j
  {
    match j {
      case Arr(elements) =>
        forall i | 0 <= i < |elements| ensures Proper(p, elements[i]) == Proper(q, elements[i]) {
          SameFloats(p, q, elements[i]);
        }
      case Obj(fields) =>
        forall i | 0 <= i < |fields| ensures Proper(p, fields[i].value) == Proper(q, fields[i].value) {
          SameFloats(p, q, fields[i].value);
        }
      case _ =>
    }
  }

  /** The program's codec is lawful, if the machine's floats are: what is read as a float has
      a text that reads back. */
  lemma TextCodecLawful(floats: Floats)
    requires floats.Lawful()
    ensures TextCodec(floats).Lawful()
  {
    hide Parse, Emit, Proper, SortedKeys;
    var codec := TextCodec(floats);
    forall text | codec.parse(text).Some? ensures Proper(codec.floats, codec.parse(text).value) {
      ParsedProper(floats, text);
      SameFloats(codec.floats, r => floats.Holds(r), codec.parse(text).value);
    }
    forall j: Json | j.Obj? && Proper(codec.floats, j) ensures codec.parse(codec.emit(j)) == Some(SortedKeys(j)) {
      SameFloats(codec.floats, r => floats.Holds(r), j);
      EmitParse(floats, j);
    }
    forall j: Json ensures '\r' !in codec.emit(j) {
      EmitKeepsLine(floats, j);
    }
    forall a: Json, b: Json | Proper(codec.floats, a) && Proper(codec.floats, b) && Alike(a, b) ensures codec.emit(a) == codec.emit(b) {
      AlikeEmits(floats, a, b);
    }
  }

  lemma {:induction false} EscapeNoReturn(s: string)
    ensures '\r' !in Escape(s)
  {
    if s != "" {
      EscapeNoReturn(s[1..]);
      CharNoReturn(s[0]);
    }
  }

  lemma CharNoReturn(c: char)
    ensures '\r' !in EscapeChar(c)
  {
  }

  lemma IntNoReturn(n: int)
    ensures '\r' !in IntText(n)
  {
    var digits := NatText(if n < 0 then -n else n);
    assert forall i :: 0 <= i < |digits| ==> IsDigit(digits[i]);
  }

  lemma {:induction false} DumpNoReturn(floats: Floats, j: Json, level: nat)
    requires floats.Lawful()
    ensures '\r' !in Dump(floats, j, level)
    decreases j, Width(j) + 1
  {
    hide Escape, IntText, DumpElements, DumpFields;
    match j {
      case Int(n) => IntNoReturn(n);
      case Str(s) => EscapeNoReturn(s);
      case Arr(elements) =>
        if elements != [] {
          ElementsNoReturn(floats, j, 0, level);
        }
      case Obj(fields) =>
        if fields != [] {
          FieldsNoReturn(floats, j, 0, level);
        }
      case _ =>
    }
  }

  lemma {:induction false} ElementsNoReturn(floats: Floats, j: Json, i: nat, level: nat)
    requires floats.Lawful() && j.Arr? && i < |j.elements|
    ensures '\r' !in DumpElements(floats, j, i, level)
    decreases j, Width(j) - i
  {
    hide Dump;
    DumpNoReturn(floats, j.elements[i], level + 1);
    if i + 1 < |j.elements| {
      ElementsNoReturn(floats, j, i + 1, level);
    }
  }

  lemma {:induction false} FieldsNoReturn(floats: Floats, j: Json, i: nat, level: nat)
    requires floats.Lawful() && j.Obj? && i < |j.fields|
    ensures '\r' !in DumpFields(floats, j, i, level)
    decreases j, Width(j) - i
  {
    hide Dump, Escape;
    EscapeNoReturn(j.fields[i].key);
    DumpNoReturn(floats, j.fields[i].value, level + 1);
    if i + 1 < |j.fields| {
      FieldsNoReturn(floats, j, i + 1, level);
    }
  }

  lemma EmitKeepsLine(floats: Floats, j: Json)
    requires floats.Lawful()
    ensures '\r' !in Emit(floats, j)
  {
    hide Dump;
    DumpNoReturn(floats, SortedKeys(j), 0);
  }

  lemma AlikeEmits(floats: Floats, a: Json, b: Json)
    requires Alike(a, b)
    ensures Emit(floats, a) == Emit(floats, b)
  {
    hide Dump;
  }

  lemma ParsedProper(floats: Floats, text: string)
    requires floats.Lawful() && Parse(floats, text).Some?
    ensures Proper(r => floats.Holds(r), Parse(floats, text).value)
  {
    hide ReadValue, Proper, Floats.Lawful;
    ValueProper(floats, Unblanked(text));
  }

  /** One float is enough for a lawful machine. */
  lemma SomeFloatsLawful()
    ensures var floats := Floats(_ => "0.5", text => if text == "0.5" then Some(0.5) else None);
            floats.Lawful() && floats.Holds(0.5)
  {
    assert RunLength("5", IsDigit) == 1 by {
      assert "5"[1..] == "";
    }
    assert "0.5"[1..] == ".5" && ".5"[1..] == "5" && "0.5"[3..] == "";
    assert IsFloatText("0.5");
  }

  // ----- the layout ----------------------------------------------------------------------------

  const LIST: Json := Arr([Int(7), Obj([])])
  const SAMPLE: Json := Obj([Field("b", LIST), Field("a", Bool(true))])

  lemma ListSorted()
    ensures SortedKeys(LIST) == LIST && SortedKeys(Bool(true)) == Bool(true)
  {
    assert SortedKeys(Obj([])) == Obj([]);
  }

  lemma SampleSorted()
    ensures SortedKeys(SAMPLE) == Obj([Field("a", Bool(true)), Field("b", LIST)])
  {
    ListSorted();
    hide LIST;
    var values := SortedValues(SAMPLE.fields);
    assert values == SAMPLE.fields;
    var a, b := values[1], values[0];
    assert values[1..] == [a] && values[1..][1..] == [];
    assert Ordering.SortBy([a], FieldKey()) == [a];
    assert "a"[0] < "b"[0];
    assert !Ordering.TupleLeq([b.key], [a.key]);
    assert [a][1..] == [];
    assert Ordering.Insert(b, [a], FieldKey()) == [a, b];
  }

  lemma Breaks()
    ensures Break(0) == "\n" && Break(1) == "\n  " && Break(2) == "\n    "
  {
  }

  lemma ListText(floats: Floats)
    ensures Dump(floats, LIST, 1) == "[" + "\n    " + ("7" + ("," + "\n    " + ("{}" + ("\n  " + "]"))))
  {
    Breaks();
    hide Break;
    assert NatText(7) == "7";
    hide NatText, IntText;
    assert IntText(7) == "7" by {
      SevenText();
    }
    assert DumpElements(floats, LIST, 1, 1) == "{}" + ("\n  " + "]");
  }

  lemma SevenText()
    ensures IntText(7) == "7"
  {
  }

  lemma KeyTexts()
    ensures Escape("a") == "a" && Escape("b") == "b"
  {
    assert "a"[1..] == "" && "b"[1..] == "";
  }

  /** A nested document in the fixed layout: keys in order, two blanks a level, a colon and a
      blank after each key, empty containers closed at once, and a final newline. */
  lemma SampleText(floats: Floats)
    ensures Emit(floats, SAMPLE) ==
              "{" + "\n  " + ("\"a\": " + "true" + ("," + "\n  " + ("\"b\": "
              + ("[" + "\n    " + ("7" + ("," + "\n    " + ("{}" + ("\n  " + "]"))))) + ("\n" + "}")))) + "\n"
  {
    SampleSorted();
    Breaks();
    KeyTexts();
    ListText(floats);
    hide Break, SortedKeys, Escape, LIST;
    var whole := Obj([Field("a", Bool(true)), Field("b", LIST)]);
    assert "\"" + "a" + "\": " == "\"a\": " && "\"" + "b" + "\": " == "\"b\": ";
    assert DumpFields(floats, whole, 1, 0) == "\"b\": " + Dump(floats, LIST, 1) + ("\n" + "}");
    assert DumpFields(floats, whole, 0, 0) == "\"a\": " + "true" + ("," + "\n  " + DumpFields(floats, whole, 1, 0));
  }
}
