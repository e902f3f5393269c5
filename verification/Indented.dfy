/** Reading indented contract files line by line: the shape both contract loaders
    (state_machine.py, catalog.py) share. */
module Indented {
  import opened Results
  import opened Text
  import YamlLines
  import YamlScalars

  // ----- lines ------------------------------------------------------------------------

  /** The characters `str.splitlines` breaks at. */
  predicate IsBreak(c: char) {
    var n := c as int;
    0x0a <= n <= 0x0d || 0x1c <= n <= 0x1e || n == 0x85 || n == 0x2028 || n == 0x2029
  }

  predicate OneLine(s: string) {
    forall i :: 0 <= i < |s| ==> !IsBreak(s[i])
  }

  ghost predicate AllOneLine(lines: seq<string>) {
    forall i :: 0 <= i < |lines| ==> OneLine(lines[i])
  }

  function BreakFrom(s: string, from: nat): (k: nat)
    requires from <= |s|
    ensures from <= k <= |s| && (k < |s| ==> IsBreak(s[k]))
    ensures forall i :: from <= i < k ==> !IsBreak(s[i])
    decreases |s| - from
  {
    if from < |s| && !IsBreak(s[from]) then BreakFrom(s, from + 1) else from
  }

  /** What follows a break: a carriage return before a newline belongs to it. */
  function AfterBreak(text: string, k: nat): (rest: string)
    requires k < |text|
    ensures |rest| < |text|
  {
    if text[k] == '\r' && k + 1 < |text| && text[k + 1] == '\n' then text[k + 2..] else text[k + 1..]
  }

  /** `Path.read_text().splitlines()`: no line follows the last break. */
  function SplitLines(text: string): (lines: seq<string>)
    decreases |text|
  {
    if text == "" then []
    else
      var k := BreakFrom(text, 0);
      if k == |text| then [text] else [text[..k]] + SplitLines(AfterBreak(text, k))
  }

  lemma {:induction false} SplitLinesAreLines(text: string)
    ensures AllOneLine(SplitLines(text))
    decreases |text|
  {
    hide AfterBreak, IsBreak;
    if text != "" {
      var k := BreakFrom(text, 0);
      assert OneLine(text[..k]);
      if k < |text| {
        hide OneLine;
        SplitLinesAreLines(AfterBreak(text, k));
      }
    }
  }

  /** A file that holds these lines. */
  function FileOf(lines: seq<string>): string {
    if lines == [] then "" else lines[0] + "\n" + FileOf(lines[1..])
  }

  /** Writing lines and splitting the file are inverse, if every line is one. */
  lemma {:induction false} SplitFile(lines: seq<string>)
    requires AllOneLine(lines)
    ensures SplitLines(FileOf(lines)) == lines
  {
    if lines != [] {
      var text := FileOf(lines);
      var k := |lines[0]|;
      SplitFile(lines[1..]);
      assert OneLine(lines[0]);
      assert text[k] == '\n' && forall i :: 0 <= i < k ==> text[i] == lines[0][i];
      assert BreakFrom(text, 0) == k;
      assert text[..k] == lines[0] && text[k + 1..] == FileOf(lines[1..]);
    }
  }

  // ----- texts ------------------------------------------------------------------------

  /** `str.strip()`. */
  function Strip(s: string): string {
    var first := SkipSpaces(s, 0);
    s[first..YamlScalars.TrimBack(s, first, |s|)]
  }

  /** On one line, with nothing to strip. */
  predicate Trimmed(s: string) {
    OneLine(s) && (s == "" || (!IsSpace(s[0]) && !IsSpace(s[|s| - 1])))
  }

  predicate Clean(s: string) {
    s != "" && Trimmed(s)
  }

  lemma StripTrims(s: string)
    ensures OneLine(s) ==> Trimmed(Strip(s))
    ensures Trimmed(s) ==> Strip(s) == s
    ensures Strip(s) != "" ==> !IsSpace(Strip(s)[0]) && !IsSpace(Strip(s)[|Strip(s)| - 1])
    ensures |Strip(s)| <= |s|
  {
    var first := SkipSpaces(s, 0);
    var last := YamlScalars.TrimBack(s, first, |s|);
    if first < last {
      assert Strip(s)[0] == s[first] && Strip(s)[|Strip(s)| - 1] == s[last - 1];
    }
    if s != "" && Trimmed(s) {
      SkipSpacesIs(s, 0, 0);
      assert last == |s|;
    }
  }

  predicate EndsWithColon(s: string) {
    s != "" && s[|s| - 1] == ':'
  }

  /** What follows a key that ends with its only colon, or the dash of an item. */
  function After(s: string, prefix: string): string
    requires StartsWith(s, prefix)
  {
    Strip(s[|prefix|..])
  }

  /** A line that says something: its indentation and its stripped text. */
  datatype Token = Token(indent: nat, text: string)

  function Tokenize(raw: string): Option<Token> {
    var text := Strip(raw);
    if text == "" || text[0] == '#' then None else Some(Token(YamlLines.IndentOf(raw), text))
  }

  lemma TokenIsClean(raw: string)
    requires Tokenize(raw).Some? && OneLine(raw)
    ensures Clean(Tokenize(raw).value.text) && Tokenize(raw).value.text[0] != '#'
  {
    StripTrims(raw);
  }

  // ----- printing ------------------------------------------------------------------

  function Blanks(n: nat): (s: string)
    ensures |s| == n && forall i :: 0 <= i < n ==> s[i] == ' '
  {
    seq(n, _ => ' ')
  }

  function Line(t: Token): string {
    Blanks(t.indent) + t.text
  }

  function Lines(tokens: seq<Token>): (lines: seq<string>)
    ensures |lines| == |tokens|
  {
    seq(|tokens|, i requires 0 <= i < |tokens| => Line(tokens[i]))
  }

  predicate Says(t: Token) {
    Clean(t.text) && t.text[0] != '#'
  }

  lemma SaysOneLine(t: Token)
    requires Says(t)
    ensures OneLine(t.text)
  {
  }

  lemma {:induction false} IndentOfLine(n: nat, text: string)
    requires text != "" && text[0] != ' '
    ensures YamlLines.IndentOf(Blanks(n) + text) == n
  {
    var line := Blanks(n) + text;
    if n > 0 {
      IndentOfLine(n - 1, text);
      assert line[1..] == Blanks(n - 1) + text;
    } else {
      assert line == text;
    }
  }

  /** A printed line reads back as what was printed. */
  lemma LineReads(t: Token)
    requires Says(t)
    ensures Tokenize(Line(t)) == Some(t) && OneLine(Line(t))
  {
    var line := Line(t);
    assert line[t.indent] == t.text[0] && line[|line| - 1] == t.text[|t.text| - 1];
    SkipSpacesIs(line, 0, t.indent);
    assert YamlScalars.TrimBack(line, t.indent, |line|) == |line|;
    assert Strip(line) == line[t.indent..|line|] == t.text;
    IndentOfLine(t.indent, t.text);
  }

  /** `key: value`, or the bare key of an empty value. */
  function Field(key: string, value: string): string {
    if value == "" then key else key + " " + value
  }

  function Item(value: string): string {
    "- " + value
  }

  predicate IsKey(key: string) {
    Clean(key) && key[0] != '#'
  }

  lemma FieldReads(key: string, value: string)
    requires IsKey(key) && Trimmed(value)
    ensures StartsWith(Field(key, value), key) && After(Field(key, value), key) == value
    ensures Clean(Field(key, value)) && Field(key, value)[0] == key[0]
  {
    var text := Field(key, value);
    var rest := text[|key|..];
    if value == "" {
      assert rest == "";
    } else {
      assert rest == [' '] + value;
      SkipSpacesIs(rest, 0, 1);
      assert YamlScalars.TrimBack(rest, 1, |rest|) == |rest|;
      assert rest[1..] == value;
    }
  }

  lemma ItemReads(value: string)
    requires Clean(value)
    ensures StartsWith(Item(value), "- ") && After(Item(value), "- ") == value
    ensures Clean(Item(value)) && Item(value)[0] == '-'
  {
    assert Item(value)[2..] == value;
    StripTrims(value);
  }

  /** What follows a dash is never empty. */
  lemma ItemIsClean(text: string)
    requires Clean(text) && StartsWith(text, "- ")
    ensures Clean(After(text, "- "))
  {
    var rest := text[2..];
    StripTrims(rest);
    assert text[1] == ' ';
    assert rest != "" && rest[|rest| - 1] == text[|text| - 1];
  }
}
