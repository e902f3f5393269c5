/** Newline-separated text: `str.split("\n")` and `"\n".join(lines)`, and the
    character classes the line patcher's regular expressions use. */
module Text {

  /** No line produced by `Split` holds a newline. */
  predicate NoNewline(line: string) {
    '\n' !in line
  }

  predicate AllLines(lines: seq<string>) {
    lines != [] && forall i :: 0 <= i < |lines| ==> NoNewline(lines[i])
  }

  function Split(text: string): (lines: seq<string>)
    ensures AllLines(lines)
  {
    if text == "" then [""]
    else
      var rest := Split(text[1..]);
      if text[0] == '\n' then [""] + rest else [[text[0]] + rest[0]] + rest[1..]
  }

  function Join(lines: seq<string>): string
    requires lines != []
  {
    if |lines| == 1 then lines[0] else lines[0] + "\n" + Join(lines[1..])
  }

  lemma {:induction false} JoinSplit(text: string)
    ensures Join(Split(text)) == text
  {
    if text != "" {
      JoinSplit(text[1..]);
      var rest := Split(text[1..]);
      if text[0] == '\n' {
        assert ([""] + rest)[1..] == rest;
      } else {
        var lines := [[text[0]] + rest[0]] + rest[1..];
        assert lines[1..] == rest[1..];
        assert Join(lines) == [text[0]] + Join(rest);
      }
    }
  }

  lemma {:induction false} SplitLine(line: string, lines: seq<string>)
    requires NoNewline(line) && lines != []
    ensures Split(line) == [line]
    ensures Split(line + "\n" + Join(lines)) == [line] + Split(Join(lines))
    decreases |line|
  {
    var text := line + "\n" + Join(lines);
    if line == "" {
      assert text[1..] == Join(lines);
    } else {
      SplitLine(line[1..], lines);
      assert text[1..] == line[1..] + "\n" + Join(lines);
      assert line == [line[0]] + line[1..];
    }
  }

  lemma {:induction false} SplitJoin(lines: seq<string>)
    requires AllLines(lines)
    ensures Split(Join(lines)) == lines
    decreases |lines|
  {
    if |lines| == 1 {
      SplitLine(lines[0], lines);
    } else {
      SplitLine(lines[0], lines[1..]);
      assert lines[1..][0] == lines[1];
      SplitJoin(lines[1..]);
    }
  }

  /** A joined text ends with a newline exactly when its last line is empty
      (and it is not the only one). */
  lemma {:induction false} JoinEndsWithNewline(lines: seq<string>)
    requires AllLines(lines)
    ensures EndsWithNewline(Join(lines)) <==> |lines| > 1 && lines[|lines| - 1] == ""
    decreases |lines|
  {
    if |lines| > 1 {
      JoinEndsWithNewline(lines[1..]);
      if |lines| == 2 && lines[1] == "" {
        assert Join(lines[1..]) == "";
      }
    }
  }

  predicate EndsWithNewline(text: string) {
    |text| > 0 && text[|text| - 1] == '\n'
  }

  lemma {:induction false} JoinMember(lines: seq<string>, c: char)
    requires lines != [] && c != '\n'
    ensures c in Join(lines) <==> exists i :: 0 <= i < |lines| && c in lines[i]
    decreases |lines|
  {
    if |lines| > 1 {
      JoinMember(lines[1..], c);
      assert forall i :: 0 <= i < |lines| - 1 ==> lines[1..][i] == lines[i + 1];
      if c in Join(lines[1..]) {
        var i :| 0 <= i < |lines| - 1 && c in lines[1..][i];
        assert c in lines[i + 1];
      }
      if i :| 0 <= i < |lines| && c in lines[i] {
        if i > 0 {
          assert c in lines[1..][i - 1];
        }
      }
    } else {
      assert Join(lines) == lines[0];
    }
  }

  predicate StartsWith(s: string, prefix: string) {
    |prefix| <= |s| && s[..|prefix|] == prefix
  }

  /** `str.split` on a character. */
  function SplitOn(s: string, separator: char): (parts: seq<string>)
    ensures parts != []
  {
    if s == "" then [""]
    else
      var rest := SplitOn(s[1..], separator);
      if s[0] == separator then [""] + rest else [[s[0]] + rest[0]] + rest[1..]
  }

  // ----- character classes -------------------------------------------------

  /** `\s` and `str.isspace`: the code points Python treats as whitespace. */
  predicate IsSpace(c: char) {
    var n := c as int;
    || 0x09 <= n <= 0x0d || 0x1c <= n <= 0x20 || n == 0x85 || n == 0xa0
    || n == 0x1680 || 0x2000 <= n <= 0x200a || n == 0x2028 || n == 0x2029
    || n == 0x202f || n == 0x205f || n == 0x3000
  }

  predicate IsDigit(c: char) {
    '0' <= c <= '9'
  }

  predicate IsAlnum(c: char) {
    'a' <= c <= 'z' || 'A' <= c <= 'Z' || '0' <= c <= '9'
  }

  /** First index at or after `from` whose character is not whitespace. */
  function SkipSpaces(s: string, from: nat): (k: nat)
    requires from <= |s|
    ensures from <= k <= |s|
    ensures forall i :: from <= i < k ==> IsSpace(s[i])
    ensures k < |s| ==> !IsSpace(s[k])
    decreases |s| - from
  {
    if from < |s| && IsSpace(s[from]) then SkipSpaces(s, from + 1) else from
  }

  /** `SkipSpaces` is the only index with its property. */
  lemma SkipSpacesIs(s: string, from: nat, k: nat)
    requires from <= k <= |s|
    requires forall i :: from <= i < k ==> IsSpace(s[i])
    requires k < |s| ==> !IsSpace(s[k])
    ensures SkipSpaces(s, from) == k
  {
    if SkipSpaces(s, from) != k {
      assert false;
    }
  }

  // ----- line ends --------------------------------------------------------------------

  /** `read_text`: a carriage return, with the newline that follows it, reads as a newline. */
  function Translated(s: string): (t: string)
    ensures '\r' !in t
    decreases |s|
  {
    if s == "" then ""
    else if s[0] != '\r' then [s[0]] + Translated(s[1..])
    else if |s| > 1 && s[1] == '\n' then "\n" + Translated(s[2..])
    else "\n" + Translated(s[1..])
  }

  /** Reading keeps a file's text exactly when it holds no carriage return. */
  lemma {:induction false} TranslatedIff(s: string)
    ensures Translated(s) == s <==> '\r' !in s
    decreases |s|
  {
    if '\r' in s {
      assert '\r' !in Translated(s);
    } else if s != "" {
      TranslatedIff(s[1..]);
    }
  }
}
