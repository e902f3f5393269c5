/** Loading the portal's navigation entries from the single-pane access contract
    (portalsvc: catalog.py). */
module CatalogFile {
  import opened Results
  import opened Text
  import opened Indented

  const READONLY_GROUP := "role_mapping.readonly_group"
  const ADMIN_GROUP := "role_mapping.admin_group"

  datatype Mapping = Mapping(group: string, role: string)

  datatype Entry = Entry(
    id: string, system: string, displayName: string, source: string, profileKey: Option<string>, mappings: seq<Mapping>)

  datatype FieldName = SystemField | DisplayNameField | SourceField | ProfileKeyField

  datatype CatalogError =
    | NoId(text: string)
    | MissingFields(id: string, names: seq<FieldName>)
    | UnmappedGroup(id: string, group: string)
    | NoEntries

  // ----- scalars ------------------------------------------------------------------------------

  function Unquote(v: string): string {
    if |v| >= 2 && v[0] == v[|v| - 1] && (v[0] == '"' || v[0] == '\'') then v[1..|v| - 1] else v
  }

  /** `_scalar` of what follows a key. */
  function Scalar(text: string, key: string): string
    requires StartsWith(text, key)
  {
    Unquote(After(text, key))
  }

  /** `" ".join(lines)`. */
  function SpaceJoin(lines: seq<string>): string {
    if lines == [] then "" else if |lines| == 1 then lines[0] else lines[0] + " " + SpaceJoin(lines[1..])
  }

  predicate IsNull(v: string) {
    v == "null" || v == "~" || v == ""
  }

  predicate IsFoldMark(v: string) {
    v == ">-" || v == ">" || v == "|" || v == "|-"
  }

  // ----- one entry being built ---------------------------------------------------------------------

  datatype Builder = Builder(
    id: string, system: Option<string>, displayName: Option<string>, source: Option<string>,
    profileKey: Option<string>, keySeen: bool, mappings: seq<Mapping>)

  function MissingOf(b: Builder): seq<FieldName> {
    (if b.system.None? then [SystemField] else [])
    + (if b.displayName.None? then [DisplayNameField] else [])
    + (if b.source.None? then [SourceField] else [])
    + (if !b.keySeen then [ProfileKeyField] else [])
  }

  predicate Maps(mappings: seq<Mapping>, group: string) {
    exists i :: 0 <= i < |mappings| && mappings[i].group == group
  }

  /** `_EntryBuilder.finish`. */
  function FinishBuilder(b: Builder): Result<Entry, CatalogError> {
    if b.system.None? || b.displayName.None? || b.source.None? || !b.keySeen then Err(MissingFields(b.id, MissingOf(b)))
    else if !Maps(b.mappings, READONLY_GROUP) then Err(UnmappedGroup(b.id, READONLY_GROUP))
    else if !Maps(b.mappings, ADMIN_GROUP) then Err(UnmappedGroup(b.id, ADMIN_GROUP))
    else Ok(Entry(b.id, b.system.value, b.displayName.value, b.source.value, b.profileKey, b.mappings))
  }

  // ----- reading one line ------------------------------------------------------------------------------

  datatype OpenBlock = NoBlock | EndpointBlock | SsoBlock

  datatype Reader = Reader(
    entries: seq<Entry>, section: Option<string>, current: Option<Builder>, block: OpenBlock, inMappings: bool,
    group: Option<string>, folded: Option<seq<string>>)
  {
    /** A mapping is only ever pending inside an entry. */
    predicate Valid() {
      (group.Some? ==> current.Some?) && (folded.Some? ==> group.Some?)
    }
  }

  const START := Reader([], None, None, NoBlock, false, None, None)

  /** `finish_mapping`. */
  function FinishMapping(p: Reader): (q: Reader)
    requires p.Valid()
    ensures q.Valid() && q.group.None? && q.folded.None? && (q.current.Some? <==> p.current.Some?)
  {
    var q := p.(group := None, folded := None);
    if p.folded.Some? then
      var b := p.current.value;
      q.(current := Some(b.(mappings := b.mappings + [Mapping(p.group.value, Strip(SpaceJoin(p.folded.value)))])))
    else q
  }

  /** `finish_entry`. */
  function FinishEntry(p: Reader): (r: Result<Reader, CatalogError>)
    requires p.Valid()
    ensures r.Ok? ==> r.value.Valid() && r.value.current.None? && r.value.group.None? && r.value.folded.None?
  {
    var q := FinishMapping(p);
    match q.current
    case None => Ok(q)
    case Some(b) =>
      var entry :- FinishBuilder(b);
      Ok(q.(entries := q.entries + [entry], current := None))
  }

  function ReadSection(p: Reader, text: string): (r: Result<Reader, CatalogError>)
    requires p.Valid() && text != ""
    ensures r.Ok? ==> r.value.Valid()
  {
    var q :- FinishEntry(p);
    Ok(q.(section := if EndsWithColon(text) then Some(text[..|text| - 1]) else None, block := NoBlock, inMappings := false))
  }

  function ReadStart(p: Reader, text: string): (r: Result<Reader, CatalogError>)
    requires p.Valid() && StartsWith(text, "- ")
    ensures r.Ok? ==> r.value.Valid()
  {
    var q :- FinishEntry(p);
    var item := After(text, "- ");
    if !StartsWith(item, "id:") then Err(NoId(text))
    else Ok(q.(current := Some(Builder(Scalar(item, "id:"), None, None, None, None, false, [])), block := NoBlock, inMappings := false))
  }

  function ReadField(p: Reader, text: string): (q: Reader)
    requires p.Valid() && p.current.Some?
    ensures q.Valid()
  {
    var q := FinishMapping(p).(inMappings := false, block := NoBlock);
    var b := q.current.value;
    if StartsWith(text, "system:") then q.(current := Some(b.(system := Some(Scalar(text, "system:")))))
    else if StartsWith(text, "display_name:") then q.(current := Some(b.(displayName := Some(Scalar(text, "display_name:")))))
    else if text == "endpoint:" then q.(block := EndpointBlock)
    else if text == "sso_role_mapping:" then q.(block := SsoBlock)
    else q
  }

  function ReadEndpoint(p: Reader, text: string): (q: Reader)
    requires p.Valid() && p.current.Some?
    ensures q.Valid()
  {
    var b := p.current.value;
    if StartsWith(text, "source:") then p.(current := Some(b.(source := Some(Scalar(text, "source:")))))
    else if StartsWith(text, "profile_key:") then
      var value := Scalar(text, "profile_key:");
      p.(current := Some(b.(keySeen := true, profileKey := if IsNull(value) then None else Some(value))))
    else p
  }

  function ReadRole(p: Reader, text: string): (q: Reader)
    requires p.Valid() && p.group.Some? && StartsWith(text, "native_role:")
    ensures q.Valid()
  {
    var value := After(text, "native_role:");
    p.(folded := Some(if IsFoldMark(value) then [] else [Unquote(value)]))
  }

  /** A line of an entry's body. */
  function ReadBody(p: Reader, t: Token): (q: Reader)
    requires p.Valid() && p.current.Some?
    ensures q.Valid()
  {
    if t.indent == 4 then ReadField(p, t.text)
    else if t.indent == 6 && p.block == EndpointBlock then ReadEndpoint(p, t.text)
    else if t.indent == 6 && p.block == SsoBlock then FinishMapping(p).(inMappings := t.text == "mappings:")
    else if t.indent == 8 && p.block == SsoBlock && p.inMappings && StartsWith(t.text, "- plane_group:") then
      FinishMapping(p).(group := Some(Scalar(t.text, "- plane_group:")))
    else if t.indent == 10 && p.group.Some? && StartsWith(t.text, "native_role:") then ReadRole(p, t.text)
    else p
  }

  function Read(p: Reader, t: Token): (r: Result<Reader, CatalogError>)
    requires p.Valid() && t.text != ""
    ensures r.Ok? ==> r.value.Valid()
  {
    if t.indent == 0 then ReadSection(p, t.text)
    else if p.section != Some("ui_catalog") then Ok(p)
    else if p.folded.Some? && t.indent >= 12 then Ok(p.(folded := Some(p.folded.value + [t.text])))
    else if t.indent == 2 && StartsWith(t.text, "- ") then ReadStart(p, t.text)
    else if p.current.None? then Ok(p)
    else Ok(ReadBody(p, t))
  }

  function ReadLine(p: Reader, raw: string): (r: Result<Reader, CatalogError>)
    requires p.Valid()
    ensures r.Ok? ==> r.value.Valid()
  {
    match Tokenize(raw)
    case None => Ok(p)
    case Some(t) => Read(p, t)
  }

  function ReadLines(p: Reader, lines: seq<string>): (r: Result<Reader, CatalogError>)
    requires p.Valid()
    ensures r.Ok? ==> r.value.Valid()
    decreases |lines|
  {
    if lines == [] then Ok(p)
    else
      var q :- ReadLine(p, lines[0]);
      ReadLines(q, lines[1..])
  }

  /** The end of the file. */
  function Finish(p: Reader): Result<seq<Entry>, CatalogError>
    requires p.Valid()
  {
    var q :- FinishEntry(p);
    if q.entries == [] then Err(NoEntries) else Ok(q.entries)
  }

  function Load(lines: seq<string>): Result<seq<Entry>, CatalogError> {
    var p :- ReadLines(START, lines);
    Finish(p)
  }

  /** `load_ui_catalog`, of the file's text. */
  function LoadText(text: string): Result<seq<Entry>, CatalogError> {
    Load(SplitLines(text))
  }
}
