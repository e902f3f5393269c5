/** Setting or inserting a top-level scalar key (patch.py: set_top_level_scalar). */
module YamlTopLevel {
  import opened Results
  import opened Text
  import opened YamlLines
  import opened YamlScalars
  import opened YamlLens

  /** A content line that starts in column zero with the given key. */
  predicate IsTopLevelKey(line: string, key: string) {
    IsContent(line) && !(line != "" && line[0] == ' ') && KeyOf(line) == Some(key)
  }

  /** The first line that carries the key at top level. */
  function TopLevelLine(lines: seq<string>, key: string, from: nat): (at: Option<nat>)
    requires from <= |lines|
    ensures at.Some? ==> from <= at.value < |lines| && IsTopLevelKey(lines[at.value], key)
    ensures forall i :: from <= i < |lines| && (at.Some? ==> i < at.value) ==> !IsTopLevelKey(lines[i], key)
    decreases |lines| - from
  {
    if from == |lines| then None
    else if IsTopLevelKey(lines[from], key) then Some(from)
    else TopLevelLine(lines, key, from + 1)
  }

  function LinesWithTopLevel(lines: seq<string>, key: string, rendered: string): (r: Result<seq<string>, PatchError>)
    requires lines != []
    ensures r.Ok? ==> r.value != []
  {
    match TopLevelLine(lines, key, 0)
    case Some(i) =>
      var line :- ReplaceScalar(lines[i], rendered);
      Ok(lines[i := line])
    case None => Ok(lines[..1] + [key + ": " + rendered] + lines[1..])
  }

  /** `set_top_level_scalar`. */
  function WithTopLevelScalar(text: string, key: string, rendered: string): Result<string, PatchError> {
    var adopted :- Adopted(text);
    var lines :- LinesOf(adopted);
    var patched :- LinesWithTopLevel(lines, key, rendered);
    Ok(Join(patched))
  }

  method SetTopLevelScalar(text: string, key: string, rendered: string) returns (r: Result<string, PatchError>)
    ensures r == WithTopLevelScalar(text, key, rendered)
  {
    var adopted :- Adopted(text);
    var lines :- LinesOf(adopted);
    var index := 0;
    while index < |lines|
      invariant 0 <= index <= |lines|
      invariant TopLevelLine(lines, key, 0) == TopLevelLine(lines, key, index)
    {
      if IsTopLevelKey(lines[index], key) {
        var line :- ReplaceScalar(lines[index], rendered);
        lines := lines[index := line];
        return Ok(Join(lines));
      }
      index := index + 1;
    }
    lines := lines[..1] + [key + ": " + rendered] + lines[1..];
    r := Ok(Join(lines));
  }

  // ----- laws ------------------------------------------------------------------

  predicate IsBareKey(key: string) {
    key != "" && forall i :: 0 <= i < |key| ==> IsKeyChar(key[i])
  }

  lemma TopLevelLineIs(lines: seq<string>, key: string, i: nat)
    requires i < |lines| && IsTopLevelKey(lines[i], key)
    requires forall j :: 0 <= j < i ==> !IsTopLevelKey(lines[j], key)
    ensures TopLevelLine(lines, key, 0) == Some(i)
  {
    hide IsTopLevelKey;
  }

  /** The line the patcher inserts carries the key and the value. */
  lemma InsertedLine(key: string, rendered: string)
    requires IsBareKey(key) && IsPlain(rendered)
    ensures var line := key + ": " + rendered;
            && IsTopLevelKey(line, key) && NoNewline(line) && '\r' !in line
            && ScalarOf(line) == Ok((rendered, ""))
            && ParseKey(line) == Some(KeyToken(|key| + 1, key))
  {
    hide ParseKey, SplitScalar, IsKeyChar, IsPlainChar, IsSpace;
    var line := key + ": " + rendered;
    InsertedKey(key, rendered);
    assert line[|key| + 1..] == " " + rendered + "";
    SplitScalarWritten(rendered, "");
    assert !IsForbiddenLead(rendered[0]) by { PlainLead(rendered); }
    InsertedClean(key, rendered);
  }

  lemma PlainLead(s: string)
    requires IsPlain(s)
    ensures !IsForbiddenLead(s[0])
  {
    assert IsPlainChar(s[0]);
  }

  lemma InsertedKey(key: string, rendered: string)
    requires IsBareKey(key)
    ensures var line := key + ": " + rendered;
            ParseKey(line) == Some(KeyToken(|key| + 1, key)) && IsContent(line) && line[0] != ' '
  {
    var line := key + ": " + rendered;
    assert forall i :: 0 <= i < |key| ==> line[i] == key[i];
    assert IsKeyChar(key[0]);
    SkipSpacesIs(line, 0, 0);
    SkipKeyCharsIs(line, 0, |key|);
    assert line[0..|key|] == key;
  }

  lemma InsertedClean(key: string, rendered: string)
    requires IsBareKey(key) && IsPlain(rendered)
    ensures NoNewline(key + ": " + rendered) && '\r' !in key + ": " + rendered
  {
    assert !IsKeyChar('\n') && !IsKeyChar('\r') && !IsPlainChar('\n') && !IsPlainChar('\r');
  }

  /** What one write does to an adopted file: it replaces the value on the key's
      line, or inserts the key just below the marker; afterwards the key is found
      on that line with the written value. */
  lemma TopLevelFrame(lines: seq<string>, key: string, rendered: string)
    requires IsFile(lines) && lines[0] == MARKER_COMMENT
    requires IsBareKey(key) && IsPlain(rendered)
    requires LinesWithTopLevel(lines, key, rendered).Ok?
    ensures var lines' := LinesWithTopLevel(lines, key, rendered).value;
            var at := TopLevelLine(lines, key, 0);
            var i := if at.Some? then at.value else 1;
            && IsFile(lines') && lines'[0] == MARKER_COMMENT
            && 0 < i < |lines'| && TopLevelLine(lines', key, 0) == Some(i)
            && ScalarOf(lines'[i]).Ok? && ScalarOf(lines'[i]).value.0 == rendered
            && lines'[..i] == lines[..i]
            && lines'[i + 1..] == lines[if at.Some? then i + 1 else i..]
  {
    hide ScalarOf, KeyOf, IsContent, IsPlain, ReplaceScalar, ParseKey, IsBareKey;
    MarkerLine();
    LastLine(lines);
    match TopLevelLine(lines, key, 0) {
      case Some(i) =>
        assert IsContent(lines[i]) && i > 0;
        EmptyIsNotContent();
        assert ReplaceScalar(lines[i], rendered).Ok?;
        ReplacedLine(lines[i], rendered);
        ReplacedLineClean(lines[i], rendered);
        var line := ReplaceScalar(lines[i], rendered).value;
        ReplacedFile(lines, i, line);
        assert IsTopLevelKey(line, key) by { ShapedTopLevel(lines[i], line, key, rendered); }
        TopLevelLineIs(lines[i := line], key, i);
      case None =>
        InsertedLine(key, rendered);
        var lines' := lines[..1] + [key + ": " + rendered] + lines[1..];
        TopLevelLineIs(lines', key, 1);
        assert lines'[2..] == lines[1..];
    }
  }

  lemma ShapedTopLevel(line: string, line': string, key: string, rendered: string)
    requires IsTopLevelKey(line, key) && IsPlain(rendered) && ReplaceScalar(line, rendered) == Ok(line')
    ensures IsTopLevelKey(line', key)
  {
    ReplacedLine(line, rendered);
    assert line'[0] == line[0];
  }

  /** The key's value in an adopted file. */
  function TopLevelScalarAt(text: string, key: string): Result<string, PatchError> {
    var lines :- LinesOf(text);
    match TopLevelLine(lines, key, 0)
    case None => Err(NoMatchingKey)
    case Some(i) =>
      var (existing, _) :- ScalarOf(lines[i]);
      Ok(existing)
  }

  lemma AdoptedLines(text: string)
    requires Adopted(text).Ok?
    ensures var adopted := Adopted(text).value;
            LinesOf(adopted).Ok? && IsFile(LinesOf(adopted).value) && LinesOf(adopted).value[0] == MARKER_COMMENT
  {
    AdoptedFacts(text);
    LinesOfFile(Adopted(text).value);
  }

  /** Put-get and put-put for the top-level key; the result is an adopted file. */
  lemma TopLevelLaws(text: string, key: string, first: string, second: string)
    requires IsBareKey(key) && IsPlain(first)
    requires WithTopLevelScalar(text, key, first).Ok?
    ensures var once := WithTopLevelScalar(text, key, first).value;
            && IsAdopted(once)
            && TopLevelScalarAt(once, key) == Ok(first)
            && WithTopLevelScalar(once, key, second) == WithTopLevelScalar(text, key, second)
  {
    hide IsBareKey, IsPlain, ScalarOf, ReplaceScalar, IsTopLevelKey, Adopted, IsFile, KeyOf;
    AdoptedLines(text);
    var lines := LinesOf(Adopted(text).value).value;
    TopLevelFrame(lines, key, first);
    var lines' := LinesWithTopLevel(lines, key, first).value;
    var once := Join(lines');
    LinesOfJoin(lines');
    assert IsAdopted(once);
    assert Adopted(once) == Ok(once) by { AdoptedTwice(once); }
    match TopLevelLine(lines, key, 0) {
      case Some(i) =>
        ReplaceTwice(lines[i], first, second);
        if ReplaceScalar(lines[i], second).Ok? {
          var line := ReplaceScalar(lines[i], second).value;
          assert lines'[i := line] == lines[i := line];
        }
      case None =>
        InsertedReplaced(key, first, second);
        assert lines' == lines[..1] + [key + ": " + first] + lines[1..];
        assert lines'[1 := key + ": " + second] == lines[..1] + [key + ": " + second] + lines[1..];
    }
  }

  lemma AdoptedTwice(text: string)
    requires IsAdopted(text)
    ensures Adopted(text) == Ok(text)
  {
  }

  lemma InsertedReplaced(key: string, first: string, second: string)
    requires IsBareKey(key) && IsPlain(first)
    ensures ReplaceScalar(key + ": " + first, second) == Ok(key + ": " + second)
  {
    InsertedLine(key, first);
    var line := key + ": " + first;
    assert line[..|key| + 1] == key + ":";
    assert key + ":" + " " + second + "" == key + ": " + second;
  }
}
