/** What loading the navigation catalog guarantees: printing and loading are inverse on
    exactly the catalogs that can be loaded, with native roles inline or folded over lines. */
module CatalogLaws {
  import opened Results
  import opened Text
  import opened Indented
  import opened CatalogFile

  // ----- printing ------------------------------------------------------------------------------

  function Quote(v: string): string {
    "\"" + v + "\""
  }

  /** How a native role is written: on its line, or folded over deeper lines. */
  datatype Style = Inline | Folded(lines: seq<string>)

  predicate Prose(line: string) {
    Clean(line) && line[0] != '#'
  }

  predicate AllProse(lines: seq<string>) {
    forall i :: 0 <= i < |lines| ==> Prose(lines[i])
  }

  predicate StyleOk(role: string, style: Style) {
    match style
    case Inline => Trimmed(role)
    case Folded(lines) => AllProse(lines) && SpaceJoin(lines) == role
  }

  function ProseTokens(lines: seq<string>): (tokens: seq<Token>)
    ensures |tokens| == |lines|
  {
    seq(|lines|, i requires 0 <= i < |lines| => Token(12, lines[i]))
  }

  function RoleTokens(role: string, style: Style): seq<Token> {
    match style
    case Inline => [Token(10, Field("native_role:", Quote(role)))]
    case Folded(lines) => [Token(10, Field("native_role:", ">-"))] + ProseTokens(lines)
  }

  function MappingTokens(m: Mapping, style: Style): seq<Token> {
    [Token(8, Field("- plane_group:", Quote(m.group)))] + RoleTokens(m.role, style)
  }

  function MappingsTokens(ms: seq<Mapping>, styles: seq<Style>): seq<Token>
    requires |styles| == |ms|
  {
    if ms == [] then [] else MappingTokens(ms[0], styles[0]) + MappingsTokens(ms[1..], styles[1..])
  }

  function HeadTokens(e: Entry): seq<Token> {
    [Token(2, Item(Field("id:", Quote(e.id)))), Token(4, Field("system:", Quote(e.system))),
     Token(4, Field("display_name:", Quote(e.displayName))), Token(4, "endpoint:"), Token(6, Field("source:", Quote(e.source))),
     Token(6, Field("profile_key:", if e.profileKey.Some? then Quote(e.profileKey.value) else "null")),
     Token(4, "sso_role_mapping:"), Token(6, "mappings:")]
  }

  function EntryTokens(e: Entry, styles: seq<Style>): seq<Token>
    requires |styles| == |e.mappings|
  {
    HeadTokens(e) + MappingsTokens(e.mappings, styles)
  }

  predicate Fits(entries: seq<Entry>, styles: seq<seq<Style>>) {
    && |styles| == |entries|
    && forall i :: 0 <= i < |entries| ==> EntryFits(entries[i], styles[i])
  }

  predicate EntryFits(e: Entry, styles: seq<Style>) {
    |styles| == |e.mappings| && forall i :: 0 <= i < |styles| ==> StyleOk(e.mappings[i].role, styles[i])
  }

  function EntriesTokens(entries: seq<Entry>, styles: seq<seq<Style>>): seq<Token>
    requires Fits(entries, styles)
  {
    if entries == [] then [] else EntryTokens(entries[0], styles[0]) + EntriesTokens(entries[1..], styles[1..])
  }

  /** The catalog in the contract's indentation shape. */
  function Print(entries: seq<Entry>, styles: seq<seq<Style>>): seq<string>
    requires Fits(entries, styles)
  {
    Lines([Token(0, "ui_catalog:")] + EntriesTokens(entries, styles))
  }

  // ----- the catalogs a file can hold --------------------------------------------------------------

  predicate MappingsOk(ms: seq<Mapping>) {
    forall i :: 0 <= i < |ms| ==> OneLine(ms[i].group) && Trimmed(ms[i].role)
  }

  predicate KeyOk(key: Option<string>) {
    key.Some? ==> OneLine(key.value) && key.value != "null" && key.value != "~" && key.value != ""
  }

  predicate EntryOk(e: Entry) {
    && OneLine(e.id) && OneLine(e.system) && OneLine(e.displayName) && OneLine(e.source)
    && KeyOk(e.profileKey) && MappingsOk(e.mappings) && Maps(e.mappings, "role_mapping.readonly_group") && Maps(e.mappings, "role_mapping.admin_group")
  }

  predicate Printable(entries: seq<Entry>) {
    entries != [] && forall i :: 0 <= i < |entries| ==> EntryOk(entries[i])
  }

  // ----- everything that loads is printable ------------------------------------------------------------

  predicate LineIfAny(text: Option<string>) {
    text.Some? ==> OneLine(text.value)
  }

  predicate BuilderOk(b: Builder) {
    && OneLine(b.id) && LineIfAny(b.system) && LineIfAny(b.displayName) && LineIfAny(b.source)
    && KeyOk(b.profileKey) && MappingsOk(b.mappings)
  }

  ghost predicate ReaderOk(p: Reader) {
    && p.Valid()
    && (p.current.Some? ==> BuilderOk(p.current.value))
    && LineIfAny(p.group) && (p.folded.Some? ==> AllOneLine(p.folded.value))
    && forall i :: 0 <= i < |p.entries| ==> EntryOk(p.entries[i])
  }

  lemma ScalarOneLine(text: string, key: string)
    requires StartsWith(text, key) && OneLine(text)
    ensures OneLine(After(text, key)) && OneLine(Scalar(text, key)) && OneLine(Unquote(After(text, key)))
  {
  }

  lemma {:induction false} JoinOneLine(lines: seq<string>)
    requires AllOneLine(lines)
    ensures OneLine(SpaceJoin(lines))
  {
    assert OneLine("");
    hide OneLine;
    if lines != [] {
      JoinOneLine(lines[1..]);
      SpaceOneLine(lines[0], SpaceJoin(lines[1..]));
    }
  }

  lemma SpaceOneLine(a: string, b: string)
    requires OneLine(a) && OneLine(b)
    ensures OneLine(a + " " + b)
  {
  }

  lemma MappingAdded(ms: seq<Mapping>, group: string, lines: seq<string>)
    requires MappingsOk(ms) && OneLine(group) && AllOneLine(lines)
    ensures MappingsOk(ms + [Mapping(group, Strip(SpaceJoin(lines)))])
  {
    hide OneLine, Trimmed, SpaceJoin, Strip;
    JoinOneLine(lines);
    StripTrims(SpaceJoin(lines));
  }

  lemma FinishMappingKeepsOk(p: Reader)
    requires ReaderOk(p)
    ensures ReaderOk(FinishMapping(p))
  {
    hide EntryOk, KeyOk, MappingsOk, Strip, SpaceJoin, OneLine;
    if p.folded.Some? {
      MappingAdded(p.current.value.mappings, p.group.value, p.folded.value);
    }
  }

  lemma FinishEntryKeepsOk(p: Reader)
    requires ReaderOk(p) && FinishEntry(p).Ok?
    ensures ReaderOk(FinishEntry(p).value)
  {
    hide Strip, SpaceJoin, FinishMapping, KeyOk, MappingsOk, OneLine;
    FinishMappingKeepsOk(p);
  }

  lemma ReadFieldKeepsOk(p: Reader, text: string)
    requires ReaderOk(p) && p.current.Some? && OneLine(text)
    ensures ReaderOk(ReadField(p, text))
  {
    hide EntryOk, KeyOk, MappingsOk, Scalar, StartsWith, FinishMapping, OneLine, After, Unquote;
    FinishMappingKeepsOk(p);
    if StartsWith(text, "system:") {
      ScalarOneLine(text, "system:");
    } else if StartsWith(text, "display_name:") {
      ScalarOneLine(text, "display_name:");
    }
  }

  lemma ReadEndpointKeepsOk(p: Reader, text: string)
    requires ReaderOk(p) && p.current.Some? && OneLine(text)
    ensures ReaderOk(ReadEndpoint(p, text))
  {
    hide EntryOk, MappingsOk, Scalar, StartsWith, OneLine, After, Unquote;
    if StartsWith(text, "source:") {
      ScalarOneLine(text, "source:");
    } else if StartsWith(text, "profile_key:") {
      ScalarOneLine(text, "profile_key:");
    }
  }

  lemma ReadRoleKeepsOk(p: Reader, text: string)
    requires ReaderOk(p) && p.group.Some? && OneLine(text) && StartsWith(text, "native_role:")
    ensures ReaderOk(ReadRole(p, text))
  {
    hide EntryOk, BuilderOk, StartsWith, OneLine, After, Unquote, IsFoldMark, Scalar;
    ScalarOneLine(text, "native_role:");
  }

  lemma ReadBodyKeepsOk(p: Reader, t: Token)
    requires ReaderOk(p) && p.current.Some? && OneLine(t.text)
    ensures ReaderOk(ReadBody(p, t))
  {
    hide EntryOk, BuilderOk, Scalar, StartsWith, After, FinishMapping, ReadField, ReadEndpoint, ReadRole, OneLine, Unquote;
    FinishMappingKeepsOk(p);
    ReadFieldKeepsOk(p, t.text);
    ReadEndpointKeepsOk(p, t.text);
    if StartsWith(t.text, "- plane_group:") {
      ScalarOneLine(t.text, "- plane_group:");
    }
    if p.group.Some? && StartsWith(t.text, "native_role:") {
      ReadRoleKeepsOk(p, t.text);
    }
  }

  lemma NewEntryOk(text: string)
    requires OneLine(text) && StartsWith(text, "- ") && StartsWith(After(text, "- "), "id:")
    ensures BuilderOk(Builder(Scalar(After(text, "- "), "id:"), None, None, None, None, false, []))
  {
    hide OneLine, After, Scalar, Unquote, StartsWith;
    ScalarOneLine(text, "- ");
    ScalarOneLine(After(text, "- "), "id:");
  }

  lemma ReadKeepsOk(p: Reader, t: Token)
    requires ReaderOk(p) && t.text != "" && OneLine(t.text) && Read(p, t).Ok?
    ensures ReaderOk(Read(p, t).value)
  {
    hide EntryOk, BuilderOk, Scalar, StartsWith, After, FinishEntry, ReadBody, OneLine;
    if FinishEntry(p).Ok? {
      FinishEntryKeepsOk(p);
    }
    if p.current.Some? {
      ReadBodyKeepsOk(p, t);
    }
    if StartsWith(t.text, "- ") && StartsWith(After(t.text, "- "), "id:") {
      NewEntryOk(t.text);
    }
  }

  lemma {:induction false} ReadLinesKeepOk(p: Reader, lines: seq<string>)
    requires ReaderOk(p) && ReadLines(p, lines).Ok? && AllOneLine(lines)
    ensures ReaderOk(ReadLines(p, lines).value)
    decreases |lines|
  {
    hide BuilderOk, EntryOk, Read, Strip, OneLine, Clean;
    if lines != [] {
      if Tokenize(lines[0]).Some? {
        TokenIsClean(lines[0]);
        CleanOneLine(Tokenize(lines[0]).value.text);
        ReadKeepsOk(p, Tokenize(lines[0]).value);
      }
      ReadLinesKeepOk(ReadLine(p, lines[0]).value, lines[1..]);
    }
  }

  lemma CleanOneLine(text: string)
    requires Clean(text)
    ensures OneLine(text)
  {
  }

  /** Whatever a file says, what loads from it is complete and can be printed. */
  lemma LoadedIsPrintable(text: string)
    requires LoadText(text).Ok?
    ensures Printable(LoadText(text).value)
  {
    hide ReadLines, FinishEntry, EntryOk, OneLine, SplitLines;
    var lines := SplitLines(text);
    SplitLinesAreLines(text);
    ReadLinesKeepOk(START, lines);
    FinishEntryKeepsOk(ReadLines(START, lines).value);
  }

  // ----- a printed catalog reads back ---------------------------------------------------------------------

  ghost predicate AllSay(tokens: seq<Token>) {
    forall i :: 0 <= i < |tokens| ==> Says(tokens[i])
  }

  function ReadTokens(p: Reader, tokens: seq<Token>): (r: Result<Reader, CatalogError>)
    requires p.Valid() && forall i :: 0 <= i < |tokens| ==> tokens[i].text != ""
    ensures r.Ok? ==> r.value.Valid()
    decreases |tokens|
  {
    if tokens == [] then Ok(p)
    else
      var q :- Read(p, tokens[0]);
      ReadTokens(q, tokens[1..])
  }

  /** Reading the printed tokens takes one reader to the other. */
  ghost predicate Takes(p: Reader, tokens: seq<Token>, q: Reader) {
    p.Valid() && AllSay(tokens) && ReadTokens(p, tokens) == Ok(q)
  }

  lemma {:induction false} TakesThen(p: Reader, a: seq<Token>, q: Reader, b: seq<Token>, r: Reader)
    requires Takes(p, a, q) && Takes(q, b, r)
    ensures Takes(p, a + b, r)
    decreases |a|
  {
    hide Read, Trimmed;
    if a == [] {
      assert a + b == b;
    } else {
      assert (a + b)[1..] == a[1..] + b;
      TakesThen(Read(p, a[0]).value, a[1..], q, b, r);
    }
  }

  lemma TakesOne(p: Reader, t: Token, q: Reader)
    requires p.Valid() && Says(t) && Read(p, t) == Ok(q)
    ensures Takes(p, [t], q)
  {
    hide Read;
    assert [t][1..] == [] && ReadTokens(q, []) == Ok(q);
  }

  lemma TakesNone(p: Reader)
    requires p.Valid()
    ensures Takes(p, [], p)
  {
  }

  lemma {:induction false} PrintedReads(p: Reader, tokens: seq<Token>, q: Reader)
    requires Takes(p, tokens, q)
    ensures ReadLines(p, Lines(tokens)) == Ok(q) && AllOneLine(Lines(tokens))
    decreases |tokens|
  {
    hide Read, Says, OneLine;
    if tokens != [] {
      LineReads(tokens[0]) by {
        assert Says(tokens[0]);
      }
      assert Lines(tokens)[1..] == Lines(tokens[1..]);
      PrintedReads(Read(p, tokens[0]).value, tokens[1..], q);
    }
  }

  /** A quoted value reads back, whatever its line holds. */
  lemma QuotedReads(key: string, v: string)
    requires IsKey(key) && OneLine(v)
    ensures var text := Field(key, Quote(v));
            && Clean(text) && text[0] == key[0] && StartsWith(text, key)
            && After(text, key) == Quote(v) && Scalar(text, key) == v
  {
    assert Trimmed(Quote(v));
    assert Quote(v)[1..|Quote(v)| - 1] == v;
    FieldReads(key, Quote(v));
  }

  predicate InCatalog(p: Reader) {
    p.Valid() && p.section == Some("ui_catalog") && p.current.Some?
  }

  // ----- the mappings of an entry ------------------------------------------------------------------------

  function LinesOf(role: string, style: Style): seq<string> {
    match style
    case Inline => [role]
    case Folded(lines) => lines
  }

  function AfterMapping(p: Reader, m: Mapping, style: Style): (q: Reader)
    requires InCatalog(p)
    ensures InCatalog(q) && q.group.Some? && q.folded.Some?
  {
    FinishMapping(p).(group := Some(m.group), folded := Some(LinesOf(m.role, style)))
  }

  lemma {:induction false} ProseReads(p: Reader, lines: seq<string>)
    requires InCatalog(p) && p.folded.Some? && AllProse(lines)
    ensures Takes(p, ProseTokens(lines), p.(folded := Some(p.folded.value + lines)))
    decreases |lines|
  {
    hide Clean;
    if lines == [] {
      assert p.folded.value + [] == p.folded.value;
      assert p.(folded := Some(p.folded.value)) == p;
      TakesNone(p);
    } else {
      var q := p.(folded := Some(p.folded.value + [lines[0]]));
      assert Prose(lines[0]);
      TakesOne(p, Token(12, lines[0]), q);
      ProseReads(q, lines[1..]);
      assert (p.folded.value + [lines[0]]) + lines[1..] == p.folded.value + lines;
      hide Takes;
      TakesThen(p, [Token(12, lines[0])], q, ProseTokens(lines[1..]), p.(folded := Some(p.folded.value + lines)));
      assert ProseTokens(lines) == [Token(12, lines[0])] + ProseTokens(lines[1..]);
    }
  }

  lemma GroupReads(p: Reader, group: string)
    requires InCatalog(p) && p.block == SsoBlock && p.inMappings && OneLine(group)
    ensures Takes(p, [Token(8, Field("- plane_group:", Quote(group)))], FinishMapping(p).(group := Some(group)))
  {
    hide After, Scalar, Field, FinishMapping, ReadField, ReadStart, ReadRole, ReadSection, Clean;
    assert IsKey("- plane_group:") by {
      KeyIs("- plane_group:");
    }
    QuotedReads("- plane_group:", group);
    var t := Token(8, Field("- plane_group:", Quote(group)));
    TakesOne(p, t, FinishMapping(p).(group := Some(group)));
  }

  lemma KeyIs(key: string)
    requires key != "" && !IsSpace(key[0]) && !IsSpace(key[|key| - 1]) && key[0] != '#' && OneLine(key)
    ensures IsKey(key)
  {
  }

  lemma RoleHeadReads(p: Reader, value: string)
    requires InCatalog(p) && p.group.Some? && p.folded.None? && Trimmed(value)
    ensures Takes(p, [Token(10, Field("native_role:", value))], p.(folded := Some(if IsFoldMark(value) then [] else [Unquote(value)])))
  {
    hide After, Field, FinishMapping, ReadField, ReadStart, ReadSection, Clean, Unquote, Trimmed;
    assert IsKey("native_role:") by {
      KeyIs("native_role:");
    }
    FieldReads("native_role:", value);
    TakesOne(p, Token(10, Field("native_role:", value)), p.(folded := Some(if IsFoldMark(value) then [] else [Unquote(value)])));
  }

  lemma TrimmedOneLine(text: string)
    requires Trimmed(text)
    ensures OneLine(text)
  {
  }

  lemma RoleReads(p: Reader, role: string, style: Style)
    requires InCatalog(p) && p.group.Some? && p.folded.None? && StyleOk(role, style)
    ensures Takes(p, RoleTokens(role, style), p.(folded := Some(LinesOf(role, style))))
  {
    hide Takes, Field, Trimmed;
    match style
    case Inline =>
      assert Trimmed(Quote(role)) by {
        TrimmedOneLine(role);
        QuoteTrims(role);
      }
      RoleHeadReads(p, Quote(role));
      UnquoteQuote(role);
    case Folded(lines) =>
      assert Trimmed(">-") by {
        KeyIs(">-");
      }
      RoleHeadReads(p, ">-");
      var q := p.(folded := Some([]));
      ProseReads(q, lines);
      assert [] + lines == lines;
      TakesThen(p, [Token(10, Field("native_role:", ">-"))], q, ProseTokens(lines), p.(folded := Some(lines)));
  }

  lemma QuoteTrims(v: string)
    requires OneLine(v)
    ensures Trimmed(Quote(v)) && !IsFoldMark(Quote(v)) && !IsNull(Quote(v))
  {
    assert Quote(v)[0] == '"';
  }

  lemma UnquoteQuote(v: string)
    ensures Unquote(Quote(v)) == v && !IsFoldMark(Quote(v))
  {
    assert Quote(v)[0] == '"' && Quote(v)[1..|Quote(v)| - 1] == v;
  }

  lemma MappingReads(p: Reader, m: Mapping, style: Style)
    requires InCatalog(p) && p.block == SsoBlock && p.inMappings && StyleOk(m.role, style) && OneLine(m.group)
    ensures Takes(p, MappingTokens(m, style), AfterMapping(p, m, style))
  {
    hide Takes, StyleOk, RoleTokens, Field, SpaceJoin, Strip;
    GroupReads(p, m.group);
    var q := FinishMapping(p).(group := Some(m.group));
    RoleReads(q, m.role, style);
    TakesThen(p, [Token(8, Field("- plane_group:", Quote(m.group)))], q, RoleTokens(m.role, style), AfterMapping(p, m, style));
  }

  function AfterMappings(p: Reader, ms: seq<Mapping>, styles: seq<Style>): (q: Reader)
    requires InCatalog(p) && |styles| == |ms|
    ensures InCatalog(q)
    decreases |ms|
  {
    if ms == [] then p else AfterMappings(AfterMapping(p, ms[0], styles[0]), ms[1..], styles[1..])
  }

  lemma {:induction false} MappingsRead(p: Reader, ms: seq<Mapping>, styles: seq<Style>)
    requires InCatalog(p) && p.block == SsoBlock && p.inMappings && |styles| == |ms|
    requires forall i :: 0 <= i < |ms| ==> StyleOk(ms[i].role, styles[i]) && OneLine(ms[i].group)
    ensures Takes(p, MappingsTokens(ms, styles), AfterMappings(p, ms, styles))
    decreases |ms|
  {
    hide Takes, StyleOk, MappingTokens, FinishMapping;
    if ms == [] {
      TakesNone(p);
    } else {
      MappingReads(p, ms[0], styles[0]);
      var q := AfterMapping(p, ms[0], styles[0]);
      StaysOpen(p);
      MappingsRead(q, ms[1..], styles[1..]);
      TakesThen(p, MappingTokens(ms[0], styles[0]), q, MappingsTokens(ms[1..], styles[1..]), AfterMappings(p, ms, styles));
    }
  }

  lemma StaysOpen(p: Reader)
    requires p.Valid()
    ensures var q := FinishMapping(p);
            q.block == p.block && q.inMappings == p.inMappings && q.section == p.section && q.entries == p.entries
  {
  }

  /** Folded lines, joined by spaces, have nothing to strip. */
  lemma {:induction false} JoinTrims(lines: seq<string>)
    requires AllProse(lines)
    ensures Trimmed(SpaceJoin(lines))
    ensures lines != [] ==> SpaceJoin(lines) != "" && SpaceJoin(lines)[0] == lines[0][0]
    decreases |lines|
  {
    if |lines| == 1 {
      assert Prose(lines[0]);
    } else if lines != [] {
      JoinTrims(lines[1..]);
      assert Prose(lines[0]);
      var joined, rest := SpaceJoin(lines), SpaceJoin(lines[1..]);
      assert joined == lines[0] + " " + rest;
      assert joined[|joined| - 1] == rest[|rest| - 1];
    }
  }

  lemma RoleBack(role: string, style: Style)
    requires StyleOk(role, style)
    ensures Strip(SpaceJoin(LinesOf(role, style))) == role
  {
    if style.Folded? {
      JoinTrims(style.lines);
    }
    StripTrims(role);
  }

  function Mapped(p: Reader, ms: seq<Mapping>): (q: Reader)
    requires p.Valid() && p.current.Some?
    ensures q.Valid()
  {
    p.(current := Some(p.current.value.(mappings := p.current.value.mappings + ms)))
  }

  lemma MappingBack(p: Reader, m: Mapping, style: Style)
    requires InCatalog(p) && StyleOk(m.role, style)
    ensures FinishMapping(AfterMapping(p, m, style)) == Mapped(FinishMapping(p), [m])
  {
    hide StyleOk, LinesOf, Strip, SpaceJoin;
    RoleBack(m.role, style);
  }

  lemma {:induction false} MappingsBack(p: Reader, ms: seq<Mapping>, styles: seq<Style>)
    requires InCatalog(p) && |styles| == |ms|
    requires forall i :: 0 <= i < |ms| ==> StyleOk(ms[i].role, styles[i])
    ensures FinishMapping(AfterMappings(p, ms, styles)) == Mapped(FinishMapping(p), ms)
    decreases |ms|
  {
    hide StyleOk, FinishMapping, AfterMapping;
    var b := FinishMapping(p).current.value;
    if ms == [] {
      assert b.mappings + [] == b.mappings;
    } else {
      MappingBack(p, ms[0], styles[0]);
      MappingsBack(AfterMapping(p, ms[0], styles[0]), ms[1..], styles[1..]);
      assert (b.mappings + [ms[0]]) + ms[1..] == b.mappings + ms;
    }
  }

  // ----- an entry ------------------------------------------------------------------------------------------

  /** The builder once the head of an entry has been read. */
  function Begun(p: Reader, e: Entry): Reader {
    p.(current := Some(Builder(e.id, Some(e.system), Some(e.displayName), Some(e.source), e.profileKey, true, [])),
       block := SsoBlock, inMappings := true)
  }

  /** No entry is being read. */
  predicate Between(p: Reader) {
    p.Valid() && p.section == Some("ui_catalog") && p.current.None? && p.group.None? && p.folded.None?
  }

  lemma IdReads(p: Reader, id: string)
    requires p.Valid() && p.section == Some("ui_catalog") && FinishEntry(p).Ok? && OneLine(id)
    ensures Takes(p, [Token(2, Item(Field("id:", Quote(id))))],
                  FinishEntry(p).value.(current := Some(Builder(id, None, None, None, None, false, [])), block := NoBlock, inMappings := false))
  {
    hide After, Scalar, Field, FinishEntry, ReadBody, ReadSection, Clean, Item;
    assert IsKey("id:") by {
      KeyIs("id:");
    }
    QuotedReads("id:", id);
    var item := Field("id:", Quote(id));
    ItemReads(item);
    assert StartsWith(Item(item), "- ");
    var t := Token(2, Item(item));
    SaysIs(t);
    TakesOne(p, t, FinishEntry(p).value.(current := Some(Builder(id, None, None, None, None, false, [])), block := NoBlock, inMappings := false));
  }

  lemma SaysIs(t: Token)
    ensures Says(t) <==> Clean(t.text) && t.text[0] != '#'
  {
  }

  lemma NothingPending(p: Reader)
    requires p.Valid() && p.group.None?
    ensures FinishMapping(p) == p
  {
  }

  /** A field of the entry's first level. */
  lemma FieldReadsAs(p: Reader, text: string, q: Reader)
    requires InCatalog(p) && p.group.None? && Clean(text) && text[0] != '#' && ReadField(p, text) == q
    ensures Takes(p, [Token(4, text)], q)
  {
    hide ReadField, Clean, ReadSection, ReadStart, ReadEndpoint, ReadRole, FinishMapping;
    SaysIs(Token(4, text));
    TakesOne(p, Token(4, text), q);
  }

  lemma SystemReads(p: Reader, v: string)
    requires InCatalog(p) && p.group.None? && OneLine(v)
    ensures Takes(p, [Token(4, Field("system:", Quote(v)))],
                  p.(current := Some(p.current.value.(system := Some(v))), block := NoBlock, inMappings := false))
  {
    hide After, Scalar, Field, Clean, Takes, FinishMapping;
    assert IsKey("system:") by {
      KeyIs("system:");
    }
    QuotedReads("system:", v);
    NothingPending(p);
    FieldReadsAs(p, Field("system:", Quote(v)), p.(current := Some(p.current.value.(system := Some(v))), block := NoBlock, inMappings := false));
  }

  lemma DisplayNameReads(p: Reader, v: string)
    requires InCatalog(p) && p.group.None? && OneLine(v)
    ensures Takes(p, [Token(4, Field("display_name:", Quote(v)))],
                  p.(current := Some(p.current.value.(displayName := Some(v))), block := NoBlock, inMappings := false))
  {
    hide After, Scalar, Field, Clean, Takes, FinishMapping;
    assert IsKey("display_name:") by {
      KeyIs("display_name:");
    }
    QuotedReads("display_name:", v);
    NothingPending(p);
    var text := Field("display_name:", Quote(v));
    assert !StartsWith(text, "system:") by {
      assert text[0] == 'd';
    }
    FieldReadsAs(p, text, p.(current := Some(p.current.value.(displayName := Some(v))), block := NoBlock, inMappings := false));
  }

  lemma BlockReads(p: Reader, sso: bool)
    requires InCatalog(p) && p.group.None?
    ensures Takes(p, [Token(4, if sso then "sso_role_mapping:" else "endpoint:")],
                  p.(block := if sso then SsoBlock else EndpointBlock, inMappings := false))
  {
    hide Takes, FinishMapping, Scalar, Clean;
    var text := if sso then "sso_role_mapping:" else "endpoint:";
    assert Clean(text) && text[0] != '#' by {
      KeyIs(text);
    }
    NothingPending(p);
    assert text[0] == if sso then 's' else 'e';
    assert !StartsWith(text, "system:") && !StartsWith(text, "display_name:") by {
      assert text[1] == if sso then 's' else 'n';
    }
    FieldReadsAs(p, text, p.(block := if sso then SsoBlock else EndpointBlock, inMappings := false));
  }

  lemma EndpointReadsAs(p: Reader, text: string, q: Reader)
    requires InCatalog(p) && p.folded.None? && p.block == EndpointBlock && Clean(text) && text[0] != '#' && ReadEndpoint(p, text) == q
    ensures Takes(p, [Token(6, text)], q)
  {
    hide ReadField, Clean, ReadSection, ReadStart, ReadEndpoint, ReadRole, FinishMapping;
    SaysIs(Token(6, text));
    TakesOne(p, Token(6, text), q);
  }

  lemma SourceReads(p: Reader, v: string)
    requires InCatalog(p) && p.folded.None? && p.block == EndpointBlock && OneLine(v)
    ensures Takes(p, [Token(6, Field("source:", Quote(v)))], p.(current := Some(p.current.value.(source := Some(v)))))
  {
    hide After, Scalar, Field, Clean, Takes;
    assert IsKey("source:") by {
      KeyIs("source:");
    }
    QuotedReads("source:", v);
    EndpointReadsAs(p, Field("source:", Quote(v)), p.(current := Some(p.current.value.(source := Some(v)))));
  }

  function KeyText(key: Option<string>): string {
    if key.Some? then Quote(key.value) else "null"
  }

  lemma KeyTextReads(key: Option<string>)
    requires KeyOk(key)
    ensures var text := Field("profile_key:", KeyText(key));
            && Clean(text) && text[0] == 'p' && StartsWith(text, "profile_key:")
            && (var v := Scalar(text, "profile_key:"); key == if IsNull(v) then None else Some(v))
  {
    hide Clean, Field, After;
    assert IsKey("profile_key:") by {
      KeyIs("profile_key:");
    }
    match key
    case Some(v) => QuotedReads("profile_key:", v);
    case None =>
      assert Trimmed("null") by {
        KeyIs("null");
      }
      FieldReads("profile_key:", "null");
  }

  lemma ProfileKeyReads(p: Reader, key: Option<string>)
    requires InCatalog(p) && p.folded.None? && p.block == EndpointBlock && KeyOk(key)
    ensures Takes(p, [Token(6, Field("profile_key:", KeyText(key)))],
                  p.(current := Some(p.current.value.(profileKey := key, keySeen := true))))
  {
    hide Scalar, Field, Clean, Takes, KeyOk, IsNull;
    KeyTextReads(key);
    var text := Field("profile_key:", KeyText(key));
    assert !StartsWith(text, "source:") by {
      assert text[0] == 'p';
    }
    EndpointReadsAs(p, text, p.(current := Some(p.current.value.(profileKey := key, keySeen := true))));
  }

  lemma MappingsHeadReads(p: Reader)
    requires InCatalog(p) && p.group.None? && p.block == SsoBlock
    ensures Takes(p, [Token(6, "mappings:")], p.(inMappings := true))
  {
    hide ReadField, ReadSection, ReadStart, ReadEndpoint, ReadRole, FinishMapping;
    NothingPending(p);
    TakesOne(p, Token(6, "mappings:"), p.(inMappings := true));
  }

  lemma HeadReads(p: Reader, e: Entry)
    requires p.Valid() && p.section == Some("ui_catalog") && FinishEntry(p).Ok? && EntryOk(e)
    ensures Takes(p, HeadTokens(e), Begun(FinishEntry(p).value, e))
  {
    hide Takes, FinishEntry, KeyOk, Field, Item, Quote;
    IdReads(p, e.id);
    var p0 := FinishEntry(p).value.(current := Some(Builder(e.id, None, None, None, None, false, [])), block := NoBlock, inMappings := false);
    SectionStays(p);
    SystemReads(p0, e.system);
    var p1 := p0.(current := Some(p0.current.value.(system := Some(e.system))));
    DisplayNameReads(p1, e.displayName);
    var p2 := p1.(current := Some(p1.current.value.(displayName := Some(e.displayName))));
    BlockReads(p2, false);
    var p3 := p2.(block := EndpointBlock);
    SourceReads(p3, e.source);
    var p4 := p3.(current := Some(p3.current.value.(source := Some(e.source))));
    ProfileKeyReads(p4, e.profileKey);
    var p5 := p4.(current := Some(p4.current.value.(profileKey := e.profileKey, keySeen := true)));
    BlockReads(p5, true);
    var p6 := p5.(block := SsoBlock);
    MappingsHeadReads(p6);
    Chain(p, HeadTokens(e), [p0, p1, p2, p3, p4, p5, p6, p6.(inMappings := true)]);
  }

  /** Reading tokens one at a time. */
  lemma {:induction false} Chain(p: Reader, tokens: seq<Token>, stops: seq<Reader>)
    requires |stops| == |tokens| > 0
    requires forall i :: 0 <= i < |tokens| ==> Takes(([p] + stops)[i], [tokens[i]], stops[i])
    ensures Takes(p, tokens, stops[|stops| - 1])
    decreases |tokens|
  {
    hide Takes;
    assert Takes(([p] + stops)[0], [tokens[0]], stops[0]);
    if |tokens| == 1 {
      assert tokens == [tokens[0]];
    } else {
      forall i | 0 <= i < |tokens| - 1
        ensures Takes(([stops[0]] + stops[1..])[i], [tokens[1..][i]], stops[1..][i])
      {
        assert Takes(([p] + stops)[i + 1], [tokens[i + 1]], stops[i + 1]);
      }
      Chain(stops[0], tokens[1..], stops[1..]);
      TakesThen(p, [tokens[0]], stops[0], tokens[1..], stops[|stops| - 1]);
      assert tokens == [tokens[0]] + tokens[1..];
    }
  }

  lemma SectionStays(p: Reader)
    requires p.Valid() && FinishEntry(p).Ok?
    ensures FinishEntry(p).value.section == p.section
  {
  }

  function AfterEntry(p: Reader, e: Entry, styles: seq<Style>): (q: Reader)
    requires p.Valid() && p.section == Some("ui_catalog") && FinishEntry(p).Ok? && |styles| == |e.mappings|
    ensures InCatalog(q)
  {
    SectionStays(p);
    AfterMappings(Begun(FinishEntry(p).value, e), e.mappings, styles)
  }

  lemma EntryReads(p: Reader, e: Entry, styles: seq<Style>)
    requires p.Valid() && p.section == Some("ui_catalog") && FinishEntry(p).Ok? && EntryOk(e) && EntryFits(e, styles)
    ensures Takes(p, EntryTokens(e, styles), AfterEntry(p, e, styles))
  {
    assert forall i :: 0 <= i < |e.mappings| ==> OneLine(e.mappings[i].group);
    hide Takes, FinishEntry, KeyOk, HeadTokens, StyleOk, MappingsOk, Maps, OneLine;
    HeadReads(p, e);
    SectionStays(p);
    var q := Begun(FinishEntry(p).value, e);
    MappingsRead(q, e.mappings, styles);
    TakesThen(p, HeadTokens(e), q, MappingsTokens(e.mappings, styles), AfterEntry(p, e, styles));
  }

  lemma EntryBack(p: Reader, e: Entry, styles: seq<Style>)
    requires p.Valid() && p.section == Some("ui_catalog") && FinishEntry(p).Ok? && EntryOk(e) && EntryFits(e, styles)
    ensures var r := FinishEntry(AfterEntry(p, e, styles));
            r.Ok? && r.value.entries == FinishEntry(p).value.entries + [e]
  {
    hide KeyOk, StyleOk, MappingsOk, Maps, FinishMapping, AfterMappings;
    var q := Begun(FinishEntry(p).value, e);
    SectionStays(p);
    MappingsBack(q, e.mappings, styles);
    NothingPending(q);
    assert [] + e.mappings == e.mappings;
  }

  lemma FitsFirst(entries: seq<Entry>, styles: seq<seq<Style>>)
    requires Fits(entries, styles) && entries != []
    ensures EntryFits(entries[0], styles[0]) && |styles[0]| == |entries[0].mappings|
  {
  }

  lemma {:induction false} EntriesRead(p: Reader, entries: seq<Entry>, styles: seq<seq<Style>>) returns (q: Reader)
    requires p.Valid() && p.section == Some("ui_catalog") && FinishEntry(p).Ok? && Fits(entries, styles)
    requires forall i :: 0 <= i < |entries| ==> EntryOk(entries[i])
    ensures Takes(p, EntriesTokens(entries, styles), q)
    ensures q.Valid() && FinishEntry(q).Ok? && FinishEntry(q).value.entries == FinishEntry(p).value.entries + entries
    decreases |entries|
  {
    hide Takes, FinishEntry, EntryTokens, EntryOk, EntryFits;
    if entries == [] {
      TakesNone(p);
      q := p;
    } else {
      assert |styles[0]| == |entries[0].mappings| by {
        FitsFirst(entries, styles);
      }
      var p1 := AfterEntry(p, entries[0], styles[0]);
      EntryReads(p, entries[0], styles[0]);
      EntryBack(p, entries[0], styles[0]);
      q := EntriesRead(p1, entries[1..], styles[1..]);
      TakesThen(p, EntryTokens(entries[0], styles[0]), p1, EntriesTokens(entries[1..], styles[1..]), q);
      var e := FinishEntry(p).value.entries;
      assert (e + [entries[0]]) + entries[1..] == e + entries;
    }
  }

  /** Printing any loadable catalog loads as that catalog, whatever roles are folded. */
  lemma RoundTrip(entries: seq<Entry>, styles: seq<seq<Style>>)
    requires Printable(entries) && Fits(entries, styles)
    ensures LoadText(FileOf(Print(entries, styles))) == Ok(entries)
  {
    hide Takes, EntryOk, EntryFits, EntriesTokens, ReadLines, SplitLines, FileOf, OneLine;
    var p := START.(section := Some("ui_catalog"));
    var t := Token(0, "ui_catalog:");
    CatalogHead();
    var q := EntriesRead(p, entries, styles);
    TakesThen(START, [t], p, EntriesTokens(entries, styles), q);
    PrintedReads(START, [t] + EntriesTokens(entries, styles), q);
    assert [] + entries == entries;
    SplitFile(Print(entries, styles));
  }

  lemma CatalogHead()
    ensures Takes(START, [Token(0, "ui_catalog:")], START.(section := Some("ui_catalog")))
    ensures FinishEntry(START.(section := Some("ui_catalog"))) == Ok(START.(section := Some("ui_catalog")))
  {
    var t := Token(0, "ui_catalog:");
    assert t.text[..|t.text| - 1] == "ui_catalog";
    TakesOne(START, t, START.(section := Some("ui_catalog")));
  }

  /** A catalog can be loaded from some file exactly when it is printable. */
  lemma LoadableIff(entries: seq<Entry>)
    ensures (exists text :: LoadText(text) == Ok(entries)) <==> Printable(entries)
  {
    hide Print, LoadText, Maps, OneLine;
    if text :| LoadText(text) == Ok(entries) {
      LoadedIsPrintable(text);
    }
    if Printable(entries) {
      var styles := seq(|entries|, i requires 0 <= i < |entries| => seq(|entries[i].mappings|, _ => Inline));
      forall i | 0 <= i < |entries| ensures EntryFits(entries[i], styles[i]) {
        assert EntryOk(entries[i]);
      }
      RoundTrip(entries, styles);
      assert LoadText(FileOf(Print(entries, styles))) == Ok(entries);
    }
  }
}
