/** Scalar replacement on one mapping line, and the scalars the renderer is
    willing to write (patch.py: yaml_scalar, _SCALAR_REST, _replace_scalar_line). */
module YamlScalars {
  import opened Results
  import opened Text
  import opened YamlLines

  // ----- what may be written -------------------------------------------------

  /** Characters an existing value may consist of to be replaced. */
  predicate IsPlainChar(c: char) {
    IsAlnum(c) || c == '.' || c == '_' || c == '/' || c == ':' || c == '@' || c == '+' || c == '-'
  }

  /** A non-empty run of plain characters. */
  predicate IsPlain(s: string) {
    s != "" && forall i :: 0 <= i < |s| ==> IsPlainChar(s[i])
  }

  predicate IsForbiddenLead(c: char) {
    c in "|>&*\"'{["
  }

  /** The values of a unified document, as `yaml_scalar` tells them apart. The
      text of a number is a parameter: `str(int)` and `repr(float)`. */
  datatype Value = BoolValue(b: bool) | NumberValue(text: string) | StringValue(s: string) | OtherValue

  predicate IsBareRun(s: string) {
    s != "" && IsAlnum(s[0]) && forall i :: 0 <= i < |s| ==> IsKeyChar(s[i])
  }

  /** The bare-string pattern. Its `$` also matches just before a final newline. */
  predicate MatchesBareString(s: string) {
    IsBareRun(s) || (s != "" && s[|s| - 1] == '\n' && IsBareRun(s[..|s| - 1]))
  }

  function ToLower(s: string): string {
    seq(|s|, i requires 0 <= i < |s| =>
      if 'A' <= s[i] <= 'Z' then ((s[i] as int) + 32) as char else s[i])
  }

  predicate IsReserved(s: string) {
    s in {"true", "false", "yes", "no", "on", "off", "null", "~"}
  }

  /** `yaml_scalar`: the deterministic bare rendering of a value. */
  function YamlScalar(value: Value): Result<string, PatchError> {
    match value
    case BoolValue(b) => Ok(if b then "true" else "false")
    case NumberValue(text) => Ok(text)
    case StringValue(s) => if MatchesBareString(s) && !IsReserved(ToLower(s)) then Ok(s) else Err(UnsafeScalar)
    case OtherValue => Err(UnsafeScalar)
  }

  /** What the renderer writes is a plain scalar the patcher can replace again,
      except for a string that ends with a newline, which the pattern lets through. */
  lemma RenderedIsPlain(value: Value)
    requires YamlScalar(value).Ok?
    requires value.NumberValue? ==> IsPlain(value.text)
    ensures IsPlain(YamlScalar(value).value) <==>
            !(value.StringValue? && value.s != "" && value.s[|value.s| - 1] == '\n')
  {
    var text := YamlScalar(value).value;
    if value.StringValue? && text[|text| - 1] == '\n' {
      assert !IsPlainChar(text[|text| - 1]);
    }
  }

  // ----- one line --------------------------------------------------------------

  /** First '#' at or after `from`, or the end of the string. */
  function FindHash(s: string, from: nat): (k: nat)
    requires from <= |s|
    ensures from <= k <= |s|
    ensures forall i :: from <= i < k ==> s[i] != '#'
    ensures k < |s| ==> s[k] == '#'
    decreases |s| - from
  {
    if from == |s| || s[from] == '#' then from else FindHash(s, from + 1)
  }

  /** The least index not below `floor` from which s[..k] is all whitespace. */
  function TrimBack(s: string, floor: nat, k: nat): (j: nat)
    requires floor <= k <= |s|
    ensures floor <= j <= k
    ensures forall i :: j <= i < k ==> IsSpace(s[i])
    ensures j > floor ==> !IsSpace(s[j - 1])
    decreases k - floor
  {
    if k > floor && IsSpace(s[k - 1]) then TrimBack(s, floor, k - 1) else k
  }

  /** The scalar pattern on what follows the colon: whitespace, a value that runs
      (lazily) to the comment or to the end, and the comment with the whitespace
      before it. `None` when there is no value. */
  function SplitScalar(rest: string): (r: Option<(string, string)>)
    ensures r.Some? ==> r.value.0 != ""
  {
    var first := SkipSpaces(rest, 0);
    if first == 0 || first == |rest| then None
    else
      var hash := FindHash(rest, first + 1);
      var stop := if hash == |rest| then hash else TrimBack(rest, first + 1, hash);
      Some((rest[first..stop], rest[stop..]))
  }

  /** The scalar a mapping line carries and the comment that follows it. */
  function ScalarOf(line: string): Result<(string, string), PatchError> {
    match ParseKey(line)
    case None => Err(NotAKeyLine(0))
    case Some(token) =>
      match SplitScalar(line[token.end..])
      case None => Err(NestedBlock)
      case Some((existing, comment)) =>
        if IsForbiddenLead(existing[0]) || !IsPlain(existing) then Err(NotPlainScalar)
        else Ok((existing, comment))
  }

  /** `_replace_scalar_line`. */
  function ReplaceScalar(line: string, rendered: string): (r: Result<string, PatchError>)
    ensures r.Ok? <==> ScalarOf(line).Ok?
  {
    var (existing, comment) :- ScalarOf(line);
    Ok(line[..ParseKey(line).value.end] + " " + rendered + comment)
  }

  // ----- laws of one line ------------------------------------------------------

  /** A key line keeps its key and indentation whatever follows the colon, as
      long as whitespace comes first. */
  lemma ParseKeyHead(line: string, rest: string)
    requires ParseKey(line).Some?
    requires rest != "" && IsSpace(rest[0])
    ensures var head := line[..ParseKey(line).value.end];
            ParseKey(head + rest) == ParseKey(line) && SameLineShape(line, head + rest)
  {
    var token := ParseKey(line).value;
    var start := SkipSpaces(line, 0);
    var stop := SkipKeyChars(line, start);
    var line' := line[..token.end] + rest;
    SkipSpacesIs(line', 0, start);
    SkipKeyCharsIs(line', start, stop);
    assert line'[start..stop] == line[start..stop];
    IndentPrefix(line, line', start);
  }

  lemma SkipKeyCharsIs(s: string, from: nat, k: nat)
    requires from <= k <= |s|
    requires forall i :: from <= i < k ==> IsKeyChar(s[i])
    requires k < |s| ==> !IsKeyChar(s[k])
    ensures SkipKeyChars(s, from) == k
  {
  }

  /** Lines that agree up to and including a non-space have the same indentation. */
  lemma {:induction false} IndentPrefix(a: string, b: string, k: nat)
    requires k < |a| && k < |b| && a[..k + 1] == b[..k + 1] && a[k] != ' '
    ensures IndentOf(a) == IndentOf(b)
  {
    assert a[0] == a[..k + 1][0] == b[..k + 1][0] == b[0];
    if k > 0 && a[0] == ' ' {
      assert a[1..][..k] == a[..k + 1][1..] == b[..k + 1][1..] == b[1..][..k];
      IndentPrefix(a[1..], b[1..], k - 1);
    }
  }

  /** A comment as the scalar pattern returns it: nothing, or whitespace and a '#'. */
  predicate IsComment(s: string) {
    s == "" || (var k := SkipSpaces(s, 0); k < |s| && s[k] == '#')
  }

  lemma SplitScalarComment(rest: string)
    requires SplitScalar(rest).Some?
    ensures IsComment(SplitScalar(rest).value.1)
  {
    var first := SkipSpaces(rest, 0);
    var hash := FindHash(rest, first + 1);
    if hash < |rest| {
      var stop := TrimBack(rest, first + 1, hash);
      assert rest[stop..][hash - stop] == '#';
      SkipSpacesIs(rest[stop..], 0, hash - stop);
    }
  }

  /** Writing a plain scalar after one blank and before a comment, and reading it back. */
  lemma SplitScalarWritten(rendered: string, comment: string)
    requires IsPlain(rendered) && IsComment(comment)
    ensures SplitScalar(" " + rendered + comment) == Some((rendered, comment))
  {
    hide SplitScalar, SkipSpaces, FindHash, TrimBack;
    var rest := " " + rendered + comment;
    var stop := 1 + |rendered|;
    assert forall i :: 1 <= i < stop ==> rest[i] == rendered[i - 1];
    assert rest[1] == rendered[0] && IsPlainChar(rendered[0]);
    SkipSpacesIs(rest, 0, 1);
    var gap := SkipSpaces(comment, 0);
    assert forall i :: 0 <= i < gap ==> rest[stop + i] == comment[i];
    if comment != "" {
      assert rest[stop + gap] == comment[gap] == '#';
    }
    assert rest[1..stop] == rendered && rest[stop..] == comment;
    FindHashIs(rest, 2, stop + gap);
    if comment != "" {
      TrimBackIs(rest, 2, stop, stop + gap);
    }
    SplitScalarIs(rest, 1, stop + gap, stop);
  }

  lemma SplitScalarIs(rest: string, first: nat, hash: nat, stop: nat)
    requires 0 < first < |rest| && SkipSpaces(rest, 0) == first && FindHash(rest, first + 1) == hash
    requires stop == if hash == |rest| then hash else TrimBack(rest, first + 1, hash)
    ensures first < stop <= |rest| && SplitScalar(rest) == Some((rest[first..stop], rest[stop..]))
  {
    hide SkipSpaces, FindHash, TrimBack;
  }

  lemma FindHashIs(s: string, from: nat, k: nat)
    requires from <= k <= |s|
    requires forall i :: from <= i < k ==> s[i] != '#'
    requires k < |s| ==> s[k] == '#'
    ensures FindHash(s, from) == k
  {
  }

  lemma TrimBackIs(s: string, floor: nat, j: nat, k: nat)
    requires floor <= j <= k <= |s|
    requires forall i :: j <= i < k ==> IsSpace(s[i])
    requires j > floor ==> !IsSpace(s[j - 1])
    ensures TrimBack(s, floor, k) == j
  {
  }

  /** Put-get and shape: the written line reads back the written scalar and the
      old comment, and the patcher sees the same key at the same place. */
  lemma ReplacedLine(line: string, rendered: string)
    requires ReplaceScalar(line, rendered).Ok? && IsPlain(rendered)
    ensures var line' := ReplaceScalar(line, rendered).value;
            && SameLineShape(line, line')
            && ScalarOf(line') == Ok((rendered, ScalarOf(line).value.1))
            && line'[..ParseKey(line).value.end] == line[..ParseKey(line).value.end]
            && ParseKey(line') == ParseKey(line)
  {
    hide ParseKey, SplitScalar, SameLineShape, IsComment;
    var token := ParseKey(line).value;
    var comment := ScalarOf(line).value.1;
    var written := " " + rendered + comment;
    var line' := ReplaceScalar(line, rendered).value;
    assert line' == line[..token.end] + written;
    ParseKeyHead(line, written);
    SplitScalarComment(line[token.end..]);
    SplitScalarWritten(rendered, comment);
    assert line'[token.end..] == written;
    assert IsPlainChar(rendered[0]);
  }

  /** Put-put: the second scalar is all that remains of two writes. */
  lemma ReplaceTwice(line: string, first: string, second: string)
    requires ReplaceScalar(line, first).Ok? && IsPlain(first)
    ensures ReplaceScalar(ReplaceScalar(line, first).value, second) == ReplaceScalar(line, second)
  {
    ReplacedLine(line, first);
  }

  lemma SplitScalarParts(rest: string)
    requires SplitScalar(rest).Some?
    ensures var (existing, comment) := SplitScalar(rest).value;
            var first := SkipSpaces(rest, 0);
            0 < first < |rest| && rest == rest[..first] + existing + comment
  {
    hide SkipSpaces, FindHash, TrimBack, IsSpace;
    var first := SkipSpaces(rest, 0);
    var (existing, comment) := SplitScalar(rest).value;
    SliceParts(rest, first, first + |existing|);
  }

  lemma SliceParts(s: string, i: nat, j: nat)
    requires i <= j <= |s|
    ensures s == s[..i] + s[i..j] + s[j..]
  {
  }

  predicate OneBlank(rest: string) {
    |rest| > 1 && rest[0] == ' ' && !IsSpace(rest[1])
  }

  /** Get-put fails in general: the patcher writes one blank after the colon. It
      holds exactly for lines that already have exactly one. */
  lemma GetPut(line: string)
    requires ScalarOf(line).Ok?
    ensures ReplaceScalar(line, ScalarOf(line).value.0) == Ok(line) <==>
            OneBlank(line[ParseKey(line).value.end..])
  {
    hide ParseKey, FindHash, TrimBack, IsPlain, SplitScalar;
    var end := ParseKey(line).value.end;
    var rest := line[end..];
    var first := SkipSpaces(rest, 0);
    var (existing, comment) := SplitScalar(rest).value;
    var line' := ReplaceScalar(line, existing).value;
    SplitScalarParts(rest);
    assert line == line[..end] + rest;
    assert line' == line[..end] + (" " + existing + comment);
    if line' == line {
      assert rest == " " + existing + comment;
      assert rest[0] == ' ';
    }
    if OneBlank(rest) {
      SkipSpacesIs(rest, 0, 1);
      assert rest[..1] == " ";
    }
  }

  /** Two blanks after the colon: writing back what was read takes one out. */
  lemma TwoBlanksShrink()
    ensures ScalarOf("a:  1").Ok? && ScalarOf("a:  1").value.0 == "1"
    ensures ReplaceScalar("a:  1", "1") == Ok("a: 1") && "a: 1" != "a:  1"
  {
    var line := "a:  1";
    SkipSpacesIs(line, 0, 0);
    SkipKeyCharsIs(line, 0, 1);
    assert line[0..1] == "a";
    var rest := line[2..];
    assert rest == "  1";
    SkipSpacesIs(rest, 0, 2);
    assert FindHash(rest, 3) == 3;
    assert rest[2..3] == "1" && rest[3..] == "";
    assert line[..2] + " " + "1" + "" == "a: 1";
  }
}
