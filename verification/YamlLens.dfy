/** Scalar patches of a whole YAML file, and the lens laws they obey
    (patch.py: insert_marker, set_yaml_scalar, set_top_level_scalar). */
module YamlLens {
  import opened Results
  import opened Text
  import opened YamlLines
  import opened YamlScalars

  // In pieces: the verifier looks into short literals only (see MarkerClean).
  const MARKER :=
    "GENERATED by the " + "unified " + "configuration " + "renderer " + "- DO NOT EDIT BY " + "HAND."
  const MARKER_COMMENT := "# " + MARKER

  // ----- specification functions -----------------------------------------------

  /** `_split_lines`. */
  function LinesOf(text: string): (r: Result<seq<string>, PatchError>)
    ensures r.Ok? ==> AllLines(r.value) && |r.value| > 1 && r.value[|r.value| - 1] == ""
  {
    if '\r' in text then Err(CarriageReturn)
    else if !EndsWithNewline(text) then Err(NoFinalNewline)
    else
      JoinSplit(text);
      JoinEndsWithNewline(Split(text));
      Ok(Split(text))
  }

  /** Lines that `LinesOf` gives back when they are joined. */
  predicate IsFile(lines: seq<string>) {
    && AllLines(lines) && |lines| > 1 && lines[|lines| - 1] == ""
    && forall i :: 0 <= i < |lines| ==> '\r' !in lines[i]
  }

  lemma LinesOfJoin(lines: seq<string>)
    requires IsFile(lines)
    ensures LinesOf(Join(lines)) == Ok(lines)
  {
    SplitJoin(lines);
    JoinEndsWithNewline(lines);
    JoinMember(lines, '\r');
  }

  lemma LinesOfFile(text: string)
    requires LinesOf(text).Ok?
    ensures IsFile(LinesOf(text).value) && Join(LinesOf(text).value) == text
  {
    JoinSplit(text);
    JoinMember(Split(text), '\r');
  }

  /** `insert_marker`. */
  function Adopted(text: string): Result<string, PatchError> {
    var lines :- LinesOf(text);
    Ok(if lines[0] == MARKER_COMMENT then text else MARKER_COMMENT + "\n" + text)
  }

  /** Where a locator resolves in the whole file. */
  function LocateIn(lines: seq<string>, dotted: string): Result<nat, PatchError> {
    Locate(lines, 0, |lines|, dotted)
  }

  /** The file's lines with the scalar at a locator replaced. */
  function LinesWithScalar(lines: seq<string>, dotted: string, rendered: string): (r: Result<seq<string>, PatchError>)
    ensures r.Ok? ==> |r.value| == |lines| > 0
  {
    var index :- LocateIn(lines, dotted);
    LocateFacts(lines, 0, |lines|, dotted);
    var line :- ReplaceScalar(lines[index], rendered);
    Ok(lines[index := line])
  }

  /** `set_yaml_scalar`. */
  function WithScalar(text: string, dotted: string, rendered: string): Result<string, PatchError> {
    var lines :- LinesOf(text);
    var patched :- LinesWithScalar(lines, dotted, rendered);
    Ok(Join(patched))
  }

  /** The scalar at a locator: the reader the writer is measured against. */
  function ScalarAt(text: string, dotted: string): Result<string, PatchError> {
    var lines :- LinesOf(text);
    LineScalarAt(lines, dotted)
  }

  function LineScalarAt(lines: seq<string>, dotted: string): Result<string, PatchError> {
    var index :- LocateIn(lines, dotted);
    LocateFacts(lines, 0, |lines|, dotted);
    var (existing, _) :- ScalarOf(lines[index]);
    Ok(existing)
  }

  // ----- the in-place editor of the program ------------------------------------

  method SetYamlScalar(text: string, dotted: string, rendered: string) returns (r: Result<string, PatchError>)
    ensures r == WithScalar(text, dotted, rendered)
  {
    var lines :- LinesOf(text);
    var index :- LocateIn(lines, dotted);
    LocateFacts(lines, 0, |lines|, dotted);
    var line :- ReplaceScalar(lines[index], rendered);
    lines := lines[index := line];
    r := Ok(Join(lines));
  }

  // ----- laws on lines -----------------------------------------------------------

  lemma ReplacedChars(line: string, rendered: string, c: char)
    requires ReplaceScalar(line, rendered).Ok?
    requires c != ' ' && c !in line && c !in rendered
    ensures c !in ReplaceScalar(line, rendered).value
  {
    hide ParseKey;
    var rest := line[ParseKey(line).value.end..];
    assert c !in rest;
    assert c !in SplitScalar(rest).value.1;
  }

  lemma ReplacedLineClean(line: string, rendered: string)
    requires ReplaceScalar(line, rendered).Ok? && IsPlain(rendered)
    requires NoNewline(line) && '\r' !in line
    ensures NoNewline(ReplaceScalar(line, rendered).value) && '\r' !in ReplaceScalar(line, rendered).value
  {
    hide ReplaceScalar;
    assert !IsPlainChar('\n') && !IsPlainChar('\r');
    ReplacedChars(line, rendered, '\n');
    ReplacedChars(line, rendered, '\r');
  }

  /** A scalar write touches one line and leaves every line's shape alone. */
  lemma LinesWithScalarFrame(lines: seq<string>, dotted: string, rendered: string)
    requires IsFile(lines) && IsPlain(rendered)
    requires LinesWithScalar(lines, dotted, rendered).Ok?
    ensures var lines' := LinesWithScalar(lines, dotted, rendered).value;
            var i := LocateIn(lines, dotted).value;
            && IsFile(lines') && SameShape(lines, lines') && |lines'| == |lines|
            && i < |lines| && IsContent(lines[i])
            && lines' == lines[i := lines'[i]]
            && ReplaceScalar(lines[i], rendered) == Ok(lines'[i])
  {
    hide ReplaceScalar, Locate, SameLineShape, IsContent, KeyOf, SameShape, IsFile, IsPlain;
    var i := LocateIn(lines, dotted).value;
    LocateFacts(lines, 0, |lines|, dotted);
    assert ReplaceScalar(lines[i], rendered).Ok?;
    ReplacedLine(lines[i], rendered);
    EmptyIsNotContent();
    LastLine(lines);
    ReplacedLineClean(lines[i], rendered);
    ReplacedFile(lines, i, ReplaceScalar(lines[i], rendered).value);
  }

  /** The empty last line of a file is not content. */
  lemma EmptyIsNotContent()
    ensures !IsContent("")
  {
  }

  lemma LastLine(lines: seq<string>)
    requires IsFile(lines)
    ensures |lines| > 1 && lines[|lines| - 1] == ""
    ensures forall i :: 0 <= i < |lines| ==> '\r' !in lines[i] && '\n' !in lines[i]
  {
  }

  lemma ReplacedFile(lines: seq<string>, i: nat, line: string)
    requires IsFile(lines) && i < |lines| - 1
    requires NoNewline(line) && '\r' !in line && SameLineShape(lines[i], line)
    ensures IsFile(lines[i := line]) && SameShape(lines, lines[i := line])
  {
    hide SameLineShape;
    forall j | 0 <= j < |lines| ensures SameLineShape(lines[j], lines[j]) {
      ShapeReflexive(lines[j]);
    }
  }

  lemma ShapeReflexive(line: string)
    ensures SameLineShape(line, line)
  {
  }

  // ----- the lens laws ---------------------------------------------------------------

  /** Frame: one line of the file changes, the one the locator names, and every
      locator, this one included, resolves exactly as before. */
  lemma ScalarFrame(text: string, dotted: string, rendered: string)
    requires IsPlain(rendered) && WithScalar(text, dotted, rendered).Ok?
    ensures var lines, lines' := Split(text), Split(WithScalar(text, dotted, rendered).value);
            && LinesOf(WithScalar(text, dotted, rendered).value) == Ok(lines')
            && LocateIn(lines, dotted).Ok? && LocateIn(lines, dotted).value < |lines|
            && |lines'| == |lines|
            && (forall j :: 0 <= j < |lines| && j != LocateIn(lines, dotted).value ==> lines'[j] == lines[j])
            && (forall d: string :: LocateIn(lines', d) == LocateIn(lines, d))
  {
    hide Locate, ReplaceScalar, SameShape;
    var lines := LinesOf(text).value;
    LinesOfFile(text);
    LinesWithScalarFrame(lines, dotted, rendered);
    var lines' := LinesWithScalar(lines, dotted, rendered).value;
    LinesOfJoin(lines');
    forall d: string ensures LocateIn(lines', d) == LocateIn(lines, d) {
      LocateShape(lines, lines', 0, |lines|, d);
    }
  }

  /** Put-get: the written scalar is read back. */
  lemma PutGet(text: string, dotted: string, rendered: string)
    requires IsPlain(rendered) && WithScalar(text, dotted, rendered).Ok?
    ensures ScalarAt(WithScalar(text, dotted, rendered).value, dotted) == Ok(rendered)
  {
    hide Locate, ReplaceScalar, ScalarOf;
    ScalarFrame(text, dotted, rendered);
    var lines := LinesOf(text).value;
    LinesOfFile(text);
    LinesWithScalarFrame(lines, dotted, rendered);
    ReplacedLine(lines[LocateIn(lines, dotted).value], rendered);
    LinesOfJoin(LinesWithScalar(lines, dotted, rendered).value);
  }

  /** Distinct locators name distinct lines, so a write through one leaves what
      the other reads, an error included. */
  lemma PutGetOther(text: string, dotted: string, rendered: string, other: string)
    requires IsPlain(rendered) && WithScalar(text, dotted, rendered).Ok? && other != dotted
    ensures ScalarAt(WithScalar(text, dotted, rendered).value, other) == ScalarAt(text, other)
  {
    hide Locate, ReplaceScalar, ScalarOf;
    ScalarFrame(text, dotted, rendered);
    var lines := LinesOf(text).value;
    if LocateIn(lines, other).Ok? {
      LocateFacts(lines, 0, |lines|, other);
      if LocateIn(lines, other) == LocateIn(lines, dotted) {
        LocateInjective(lines, 0, |lines|, dotted, other);
      }
    }
  }

  /** A locator can be written exactly when it can be read, whatever the value. */
  lemma WritableIffReadable(text: string, dotted: string, rendered: string)
    ensures WithScalar(text, dotted, rendered).Ok? <==> ScalarAt(text, dotted).Ok?
    ensures WithScalar(text, dotted, rendered).Err? ==>
              ScalarAt(text, dotted) == Err(WithScalar(text, dotted, rendered).error)
  {
    hide Locate, ScalarOf;
  }

  /** Put-put: a second write through the same locator replaces the first. */
  lemma PutPut(text: string, dotted: string, first: string, second: string)
    requires IsPlain(first) && WithScalar(text, dotted, first).Ok?
    ensures WithScalar(WithScalar(text, dotted, first).value, dotted, second) == WithScalar(text, dotted, second)
  {
    hide Locate, ReplaceScalar, SameShape, IsFile, IsPlain, Join, IsContent;
    var lines := LinesOf(text).value;
    LinesOfFile(text);
    LinesWithScalarFrame(lines, dotted, first);
    var lines' := LinesWithScalar(lines, dotted, first).value;
    LinesOfJoin(lines');
    LocateShape(lines, lines', 0, |lines|, dotted);
    var i := LocateIn(lines, dotted).value;
    ReplaceTwice(lines[i], first, second);
    if ReplaceScalar(lines[i], second).Ok? {
      assert lines'[i := ReplaceScalar(lines[i], second).value] == lines[i := ReplaceScalar(lines[i], second).value];
    }
  }

  /** Writes through distinct locators commute, and neither decides whether the
      other succeeds. */
  lemma PutsCommute(text: string, d1: string, r1: string, d2: string, r2: string)
    requires d1 != d2 && IsPlain(r1) && IsPlain(r2)
    requires WithScalar(text, d1, r1).Ok?
    ensures WithScalar(text, d2, r2).Ok? ==>
              WithScalar(WithScalar(text, d1, r1).value, d2, r2).Ok?
              && WithScalar(WithScalar(text, d1, r1).value, d2, r2) == WithScalar(WithScalar(text, d2, r2).value, d1, r1)
    ensures WithScalar(text, d2, r2).Err? ==>
              WithScalar(WithScalar(text, d1, r1).value, d2, r2) == WithScalar(text, d2, r2)
  {
    hide LinesWithScalar, IsFile, IsPlain, Join;
    var lines := LinesOf(text).value;
    LinesOfFile(text);
    LinesCommute(lines, d1, r1, d2, r2);
    LinesStayFile(lines, d1, r1);
    LinesOfJoin(LinesWithScalar(lines, d1, r1).value);
    if LinesWithScalar(lines, d2, r2).Ok? {
      LinesStayFile(lines, d2, r2);
      LinesOfJoin(LinesWithScalar(lines, d2, r2).value);
    }
  }

  lemma LinesStayFile(lines: seq<string>, dotted: string, rendered: string)
    requires IsFile(lines) && IsPlain(rendered) && LinesWithScalar(lines, dotted, rendered).Ok?
    ensures IsFile(LinesWithScalar(lines, dotted, rendered).value)
  {
    hide LinesWithScalar, IsFile, IsPlain;
    LinesWithScalarFrame(lines, dotted, rendered);
  }

  lemma LinesCommute(lines: seq<string>, d1: string, r1: string, d2: string, r2: string)
    requires d1 != d2 && IsPlain(r1) && IsPlain(r2) && IsFile(lines)
    requires LinesWithScalar(lines, d1, r1).Ok?
    ensures LinesWithScalar(lines, d2, r2).Ok? ==>
              LinesWithScalar(LinesWithScalar(lines, d1, r1).value, d2, r2).Ok?
              && LinesWithScalar(LinesWithScalar(lines, d1, r1).value, d2, r2) == LinesWithScalar(LinesWithScalar(lines, d2, r2).value, d1, r1)
    ensures LinesWithScalar(lines, d2, r2).Err? ==>
              LinesWithScalar(LinesWithScalar(lines, d1, r1).value, d2, r2) == LinesWithScalar(lines, d2, r2)
  {
    hide Locate, ReplaceScalar, SameShape, IsFile, IsPlain, IsContent;
    LinesWithScalarFrame(lines, d1, r1);
    var lines1 := LinesWithScalar(lines, d1, r1).value;
    LocateShape(lines, lines1, 0, |lines|, d2);
    if LocateIn(lines, d2).Ok? {
      LocateFacts(lines, 0, |lines|, d2);
      if LocateIn(lines, d1) == LocateIn(lines, d2) {
        LocateInjective(lines, 0, |lines|, d1, d2);
      }
    }
    if LinesWithScalar(lines, d2, r2).Ok? {
      LinesWithScalarFrame(lines, d2, r2);
      var lines2 := LinesWithScalar(lines, d2, r2).value;
      LocateShape(lines, lines2, 0, |lines|, d1);
      var i1, i2 := LocateIn(lines, d1).value, LocateIn(lines, d2).value;
      assert lines1[i2 := lines2[i2]] == lines2[i1 := lines1[i1]];
    }
  }

  // ----- when a re-render is the identity ---------------------------------------------

  function LineCount(lines: seq<string>): nat {
    if lines == [] then 0 else |Split(lines[0])| + LineCount(lines[1..])
  }

  lemma {:induction false} SplitConcat(a: string, b: string)
    ensures |Split(a + b)| == |Split(a)| + |Split(b)| - 1
    decreases |a|
  {
    if a == "" {
      assert a + b == b;
    } else {
      assert (a + b)[1..] == a[1..] + b;
      SplitConcat(a[1..], b);
    }
  }

  lemma {:induction false} SplitJoinCount(lines: seq<string>)
    requires lines != []
    ensures |Split(Join(lines))| == LineCount(lines)
    decreases |lines|
  {
    if |lines| > 1 {
      SplitJoinCount(lines[1..]);
      SplitConcat(lines[0] + "\n", Join(lines[1..]));
      SplitConcat(lines[0], "\n");
      assert Split("\n") == ["", ""];
      assert lines[0] + "\n" + Join(lines[1..]) == Join(lines);
    } else {
      assert LineCount(lines[1..]) == 0;
    }
  }

  lemma {:induction false} LineCountUpdate(lines: seq<string>, i: nat, line: string)
    requires i < |lines|
    ensures LineCount(lines[i := line]) == LineCount(lines) - |Split(lines[i])| + |Split(line)|
  {
    if i == 0 {
      assert lines[0 := line][1..] == lines[1..];
    } else {
      LineCountUpdate(lines[1..], i - 1, line);
      assert lines[i := line][1..] == lines[1..][i - 1 := line];
    }
  }

  lemma {:induction false} LineCountClean(lines: seq<string>)
    requires forall i :: 0 <= i < |lines| ==> NoNewline(lines[i])
    ensures LineCount(lines) == |lines|
  {
    if lines != [] {
      SplitLine(lines[0], [""]);
      LineCountClean(lines[1..]);
    }
  }

  /** Writing a scalar that carries a final newline adds a line to the file. */
  lemma TrailingNewlineAddsLine(text: string, dotted: string, bare: string)
    requires IsPlain(bare) && WithScalar(text, dotted, bare + "\n").Ok?
    ensures |Split(WithScalar(text, dotted, bare + "\n").value)| == |Split(text)| + 1
  {
    hide Locate, ScalarOf, ParseKey, SplitScalar, IsContent;
    var lines := LinesOf(text).value;
    LinesOfFile(text);
    LocateFacts(lines, 0, |lines|, dotted);
    var i := LocateIn(lines, dotted).value;
    var line := lines[i];
    var line' := ReplaceScalar(line, bare + "\n").value;
    WrittenLineCount(line, bare);
    SplitJoinCount(lines[i := line']);
    LineCountUpdate(lines, i, line');
    LineCountClean(lines);
    SplitLine(line, [""]);
  }

  lemma WrittenLineCount(line: string, bare: string)
    requires NoNewline(line) && IsPlain(bare) && ReplaceScalar(line, bare + "\n").Ok?
    ensures |Split(ReplaceScalar(line, bare + "\n").value)| == 2
  {
    hide ParseKey;
    var end := ParseKey(line).value.end;
    var comment := ScalarOf(line).value.1;
    var head := line[..end] + " " + bare;
    assert !IsPlainChar('\n');
    assert NoNewline(head) && NoNewline(comment);
    assert head + "\n" + comment == ReplaceScalar(line, bare + "\n").value;
    assert Join([comment]) == comment;
    SplitLine(head, [comment]);
    SplitLine(comment, [comment]);
  }

  /** Rendering the same value twice is rendering it once, except for a string
      value that ends with a newline: then each render adds a line. */
  lemma RewriteIsIdentityIff(text: string, dotted: string, value: Value)
    requires value.NumberValue? ==> IsPlain(value.text)
    requires YamlScalar(value).Ok? && WithScalar(text, dotted, YamlScalar(value).value).Ok?
    ensures var rendered := YamlScalar(value).value;
            var once := WithScalar(text, dotted, rendered).value;
            WithScalar(once, dotted, rendered) == Ok(once) <==>
            !(value.StringValue? && value.s != "" && value.s[|value.s| - 1] == '\n')
  {
    hide WithScalar;
    var rendered := YamlScalar(value).value;
    RenderedIsPlain(value);
    if IsPlain(rendered) {
      PutPut(text, dotted, rendered, rendered);
    } else {
      var bare := value.s[..|value.s| - 1];
      assert rendered == bare + "\n";
      assert IsBareRun(bare) by {
        assert !IsKeyChar('\n') && rendered[|rendered| - 1] == '\n';
      }
      var once := WithScalar(text, dotted, rendered).value;
      if WithScalar(once, dotted, rendered).Ok? {
        TrailingNewlineAddsLine(once, dotted, bare);
      }
    }
  }

  // ----- marker adoption -----------------------------------------------------------------

  predicate IsAdopted(text: string) {
    var lines := LinesOf(text);
    lines.Ok? && lines.value[0] == MARKER_COMMENT
  }

  lemma MarkerLine()
    ensures NoNewline(MARKER_COMMENT) && '\r' !in MARKER_COMMENT && !IsContent(MARKER_COMMENT)
  {
    MarkerClean();
    assert MARKER_COMMENT[0] == '#';
    SkipSpacesIs(MARKER_COMMENT, 0, 0);
  }

  lemma MarkerClean()
    ensures '\n' !in MARKER_COMMENT && '\r' !in MARKER_COMMENT
  {
    var parts := ["# ", "GENERATED by the ", "unified ", "configuration ", "renderer ", "- DO NOT EDIT BY ", "HAND."];
    assert MARKER_COMMENT == parts[0] + (parts[1] + parts[2] + parts[3] + parts[4] + parts[5] + parts[6]);
    forall k | 0 <= k < 7 ensures '\n' !in parts[k] && '\r' !in parts[k] {
    }
  }

  /** Adoption puts the marker on line one, once: it keeps every line below and
      is the identity on an adopted file. */
  lemma AdoptedFacts(text: string)
    requires Adopted(text).Ok?
    ensures var adopted := Adopted(text).value;
            && IsAdopted(adopted) && Adopted(adopted) == Ok(adopted)
            && (if IsAdopted(text) then adopted == text
                else LinesOf(adopted) == Ok([MARKER_COMMENT] + LinesOf(text).value))
  {
    if !IsAdopted(text) {
      var lines := LinesOf(text).value;
      LinesOfFile(text);
      MarkerLine();
      var lines' := [MARKER_COMMENT] + lines;
      assert lines'[1..] == lines;
      assert Join(lines') == MARKER_COMMENT + "\n" + text;
      LinesOfJoin(lines');
    }
  }

  /** The patch of one yaml-line-patch binding: adopt the file, then set the scalar. */
  function AdoptedWithScalar(text: string, dotted: string, rendered: string): Result<string, PatchError> {
    var adopted :- Adopted(text);
    WithScalar(adopted, dotted, rendered)
  }

  /** The marker line is no content, so no scalar write moves it. */
  lemma ScalarKeepsMarker(text: string, dotted: string, rendered: string)
    requires IsAdopted(text) && IsPlain(rendered) && WithScalar(text, dotted, rendered).Ok?
    ensures IsAdopted(WithScalar(text, dotted, rendered).value)
  {
    hide Locate, ReplaceScalar, ScalarOf, SameShape, IsPlain, IsContent;
    var lines := LinesOf(text).value;
    LinesOfFile(text);
    LinesWithScalarFrame(lines, dotted, rendered);
    MarkerLine();
    LinesOfJoin(LinesWithScalar(lines, dotted, rendered).value);
  }

  // ----- files that hold carriage returns ---------------------------------------------------

  /** Adopting a file, as it is read, keeps every byte of it exactly when it holds no carriage
      return: reading has turned each of them into a newline, so the refusal of carriage
      returns never meets a file. */
  lemma AdoptKeepsBytesIff(raw: string)
    requires EndsWithNewline(Translated(raw))
    ensures Adopted(Translated(raw)).Ok?
    ensures var adopted := Adopted(Translated(raw)).value;
            adopted == raw || adopted == MARKER_COMMENT + "\n" + raw <==> '\r' !in raw
  {
    hide EndsWithNewline, Translated;
    TranslatedIff(raw);
    var text := Translated(raw);
    var marked := MARKER_COMMENT + "\n";
    assert '\r' !in marked by {
      MarkerClean();
    }
    assert Adopted(text).value == text || Adopted(text).value == marked + text;
    BehindMark(marked, text, raw);
  }

  lemma BehindMark(mark: string, text: string, raw: string)
    requires '\r' !in mark && '\r' !in text && (text == raw <==> '\r' !in raw)
    ensures '\r' !in raw ==> raw == text
    ensures '\r' in raw ==> text != raw && text != mark + raw && mark + text != raw && mark + text != mark + raw
  {
    assert '\r' !in mark + text;
    if '\r' in raw {
      assert '\r' in mark + raw;
    }
  }

  /** A file with other line ends is adopted and rewritten throughout. */
  lemma OtherLineEndsRewritten()
    ensures Adopted(Translated("a\r\nb\r\n")) == Ok(MARKER_COMMENT + "\n" + "a\nb\n")
  {
    var raw := "a\r\nb\r\n";
    assert raw[1..] == "\r\nb\r\n" && "\r\nb\r\n"[2..] == "b\r\n" && "b\r\n"[1..] == "\r\n" && "\r\n"[2..] == "";
    assert Translated("\r\n") == "\n" && Translated("b\r\n") == "b\n" && Translated("\r\nb\r\n") == "\nb\n";
    assert Translated(raw) == "a\nb\n";
    var text := "a\nb\n";
    AdoptKeepsBytesIff(raw);
    JoinSplit(text);
    assert Split(text)[0] != MARKER_COMMENT by {
      FirstLine(text);
      assert MARKER_COMMENT[0] == '#';
    }
  }

  lemma FirstLine(text: string)
    requires text != "" && text[0] != '\n'
    ensures Split(text)[0] != "" && Split(text)[0][0] == text[0]
  {
  }
}
