/** What a usage record document must satisfy (commercialsvc: validation.py and the
    constants of models.py). `\d` is an ASCII digit. */
module UsageValidation {
  import opened Results
  import opened Text

  datatype Any =
    | Null
    | Bool(b: bool)
    | Int(i: int)
    | Float(r: real)
    | Str(s: string)
    | List(items: seq<Any>)
    | Mapping(fields: map<string, Any>)

  type Document = map<string, Any>

  /** `datetime.fromisoformat`, which refuses some of what the pattern admits. */
  type Clock = string -> Option<int>

  // ----- patterns; `$` also matches just before a final newline -----------------------------

  predicate IsLowerAlnum(c: char) {
    'a' <= c <= 'z' || IsDigit(c)
  }

  function Unterminated(s: string): string {
    if s != "" && s[|s| - 1] == '\n' then s[..|s| - 1] else s
  }

  predicate IsSlug(s: string) {
    && 1 <= |s| <= 32
    && IsLowerAlnum(s[0]) && IsLowerAlnum(s[|s| - 1])
    && forall i :: 0 <= i < |s| ==> IsLowerAlnum(s[i]) || s[i] == '-'
  }

  predicate MatchesTenant(s: string) {
    IsSlug(Unterminated(s))
  }

  predicate IsDate(s: string) {
    && |s| == 10 && s[4] == '-' && s[7] == '-'
    && forall i :: 0 <= i < 10 && i != 4 && i != 7 ==> IsDigit(s[i])
  }

  predicate IsTime(s: string) {
    && |s| == 9 && s[0] == 'T' && s[3] == ':' && s[6] == ':'
    && forall i :: 1 <= i < 9 && i != 3 && i != 6 ==> IsDigit(s[i])
  }

  predicate IsZone(s: string) {
    || s == "Z"
    || (|s| == 6 && (s[0] == '+' || s[0] == '-') && s[3] == ':' && IsDigit(s[1]) && IsDigit(s[2]) && IsDigit(s[4]) && IsDigit(s[5]))
  }

  function SkipDigits(s: string, from: nat): (k: nat)
    requires from <= |s|
    ensures from <= k <= |s|
    decreases |s| - from
  {
    if from < |s| && IsDigit(s[from]) then SkipDigits(s, from + 1) else from
  }

  predicate IsFractionAndZone(s: string) {
    || IsZone(s)
    || (s != "" && s[0] == '.' && SkipDigits(s, 1) > 1 && IsZone(s[SkipDigits(s, 1)..]))
  }

  predicate MatchesDatetime(text: string) {
    var s := Unterminated(text);
    |s| >= 20 && IsDate(s[..10]) && IsTime(s[10..19]) && IsFractionAndZone(s[19..])
  }

  predicate MatchesDigest(text: string) {
    var s := Unterminated(text);
    |s| == 71 && s[..7] == "sha256:" && forall i :: 7 <= i < 71 ==> IsDigit(s[i]) || 'a' <= s[i] <= 'f'
  }

  // ----- vocabulary ---------------------------------------------------------------------------------

  const INGEST := "ingest_gb_per_day"
  const RETENTION := "retention_days"
  const ACTIVE := "active_tenants"
  const QUERIES := "query_volume"

  const AGGREGATION: string := "opensearch-aggregation"
  const DESCRIPTOR := "tenant-descriptor"

  predicate IsDimension(s: string) {
    s == INGEST || s == RETENTION || s == ACTIVE || s == QUERIES
  }

  predicate IsTelemetry(s: string) {
    s == "logs" || s == "metrics" || s == "traces"
  }

  predicate IsSignal(s: string) {
    IsTelemetry(s) || s == "platform"
  }

  predicate IsUnit(s: string) {
    s == "gb" || s == "days" || s == "count" || s == "queries"
  }

  /** The schema's binding of a dimension: its signals, its unit, whether it is a 0/1 marker. */
  predicate AllowsSignal(dimension: string, signal: string) {
    if dimension == INGEST || dimension == RETENTION then IsTelemetry(signal) else signal == "platform"
  }

  function UnitOf(dimension: string): string {
    if dimension == INGEST then "gb" else if dimension == RETENTION then "days" else if dimension == ACTIVE then "count" else "queries"
  }

  const REQUIRED: set<string> := {
    "record_id", "tenant_id", "dimension", "signal", "value", "unit", "window_start", "window_end",
    "source_reference", "collected_at", "collector_version"}

  const REFERENCE_FIELDS: set<string> := {"source_type", "indices", "document_count", "content_digest", "descriptor_field"}

  // ----- errors -----------------------------------------------------------------------------------

  datatype Error =
    | UnknownFields(names: set<string>)
    | MissingFields(names: set<string>)
    | Unattributed
    | BadTenant
    | BadRecordId
    | UnknownDimension
    | UnknownSignal
    | UnknownUnit
    | BadValue
    | BadTimestamp(name: string)
    | BadVersion
    | SignalNotAllowed
    | UnitNotAllowed
    | ValueNotAllowed
    | EmptyWindow
    | WrongRecordId
    | ReferenceNotObject
    | ReferenceUnknownFields(names: set<string>)
    | NoSourceType
    | UnknownSourceType
    | BadIndices
    | BadDocumentCount
    | BadDigest
    | BadDescriptorField
    | IndicesRequired
    | DescriptorNotAllowed
    | DescriptorRequired
    | AggregationOnly(name: string)

  /** `errors.append(...)` when a condition holds. */
  function Note(errors: seq<Error>, condition: bool, error: Error): seq<Error> {
    if condition then errors + [error] else errors
  }

  // ----- the source reference -------------------------------------------------------------------------

  /** `mapping.get(key)`: absent and null are the same. */
  function GetOrNull(fields: map<string, Any>, key: string): Any {
    if key in fields then fields[key] else Null
  }

  predicate IsNonEmptyText(v: Any) {
    v.Str? && v.s != ""
  }

  predicate IsIndexList(v: Any) {
    v.List? && v.items != [] && forall i :: 0 <= i < |v.items| ==> IsNonEmptyText(v.items[i])
  }

  function ReferenceFields(fields: map<string, Any>, errors: seq<Error>): seq<Error> {
    var indices := GetOrNull(fields, "indices");
    var count := GetOrNull(fields, "document_count");
    var digest := GetOrNull(fields, "content_digest");
    var descriptor := GetOrNull(fields, "descriptor_field");
    var e1 := Note(errors, indices != Null && !IsIndexList(indices), BadIndices);
    var e2 := Note(e1, count != Null && !(count.Int? && count.i >= 0), BadDocumentCount);
    var e3 := Note(e2, digest != Null && !(digest.Str? && MatchesDigest(digest.s)), BadDigest);
    Note(e3, descriptor != Null && !IsNonEmptyText(descriptor), BadDescriptorField)
  }

  function ReferenceShape(fields: map<string, Any>, sourceType: string, errors: seq<Error>): seq<Error> {
    var indices := GetOrNull(fields, "indices");
    var descriptor := GetOrNull(fields, "descriptor_field");
    if sourceType == AGGREGATION then Note(Note(errors, indices == Null, IndicesRequired), descriptor != Null, DescriptorNotAllowed)
    else
      var e1 := Note(errors, descriptor == Null, DescriptorRequired);
      var e2 := Note(e1, indices != Null, AggregationOnly("indices"));
      var e3 := Note(e2, GetOrNull(fields, "document_count") != Null, AggregationOnly("document_count"));
      Note(e3, GetOrNull(fields, "content_digest") != Null, AggregationOnly("content_digest"))
  }

  /** `_validate_source_reference`. */
  function ValidateReference(reference: Any, errors: seq<Error>): seq<Error> {
    if !reference.Mapping? then errors + [ReferenceNotObject]
    else
      var fields := reference.fields;
      var unknown := fields.Keys - REFERENCE_FIELDS;
      var noted := Note(errors, unknown != {}, ReferenceUnknownFields(unknown));
      var sourceType := GetOrNull(fields, "source_type");
      if sourceType == Null then noted + [NoSourceType]
      else if sourceType != Str(AGGREGATION) && sourceType != Str(DESCRIPTOR) then noted + [UnknownSourceType]
      else ReferenceShape(fields, sourceType.s, ReferenceFields(fields, noted))
  }

  // ----- the record ---------------------------------------------------------------------------------------

  predicate IsNumber(v: Any) {
    v.Int? || v.Float?
  }

  predicate Negative(v: Any) {
    (v.Int? && v.i < 0) || (v.Float? && v.r < 0.0)
  }

  predicate ZeroOrOne(v: Any) {
    v == Int(0) || v == Int(1) || v == Float(0.0) || v == Float(1.0)
  }

  predicate GoodTimestamp(v: Any) {
    v.Str? && MatchesDatetime(v.s)
  }

  predicate GoodTenant(v: Any) {
    v.Str? && MatchesTenant(v.s)
  }

  predicate GoodRecordId(v: Any) {
    v.Str? && 0 < |v.s| <= 256
  }

  predicate GoodDimension(v: Any) {
    v.Str? && IsDimension(v.s)
  }

  predicate GoodSignal(v: Any) {
    v.Str? && IsSignal(v.s)
  }

  predicate GoodUnit(v: Any) {
    v.Str? && IsUnit(v.s)
  }

  predicate GoodValue(v: Any) {
    IsNumber(v) && !Negative(v)
  }

  /** A field that is present, whatever it holds. */
  function Present(document: Document, key: string): Option<Any> {
    if key in document then Some(document[key]) else None
  }

  function NoteTime(document: Document, name: string, errors: seq<Error>): seq<Error> {
    var v := Present(document, name);
    Note(errors, v.Some? && !GoodTimestamp(v.value), BadTimestamp(name))
  }

  function AttributeErrors(document: Document, errors: seq<Error>): seq<Error> {
    var tenant, id := Present(document, "tenant_id"), Present(document, "record_id");
    var dimension, signal, unit := Present(document, "dimension"), Present(document, "signal"), Present(document, "unit");
    var e1 := Note(errors, tenant.Some? && !GoodTenant(tenant.value), BadTenant);
    var e2 := Note(e1, id.Some? && !GoodRecordId(id.value), BadRecordId);
    var e3 := Note(e2, dimension.Some? && !GoodDimension(dimension.value), UnknownDimension);
    var e4 := Note(e3, signal.Some? && !GoodSignal(signal.value), UnknownSignal);
    Note(e4, unit.Some? && !GoodUnit(unit.value), UnknownUnit)
  }

  function FieldErrors(document: Document, errors: seq<Error>): seq<Error> {
    var value, version := Present(document, "value"), Present(document, "collector_version");
    var e1 := Note(AttributeErrors(document, errors), value.Some? && !GoodValue(value.value), BadValue);
    var e2 := NoteTime(document, "collected_at", NoteTime(document, "window_end", NoteTime(document, "window_start", e1)));
    Note(e2, version.Some? && !IsNonEmptyText(version.value), BadVersion)
  }

  function BindingErrors(document: Document, errors: seq<Error>): seq<Error> {
    var dimension := Present(document, "dimension");
    if dimension.None? || !GoodDimension(dimension.value) then errors
    else
      var name := dimension.value.s;
      var signal, unit, value := Present(document, "signal"), Present(document, "unit"), Present(document, "value");
      var e1 := Note(errors, signal.Some? && !(signal.value.Str? && AllowsSignal(name, signal.value.s)), SignalNotAllowed);
      var e2 := Note(e1, unit.Some? && unit.value != Str(UnitOf(name)), UnitNotAllowed);
      Note(e2, name == ACTIVE && value.Some? && IsNumber(value.value) && !ZeroOrOne(value.value), ValueNotAllowed)
  }

  function WindowErrors(document: Document, clock: Clock, errors: seq<Error>): seq<Error> {
    var from, to := GetOrNull(document, "window_start"), GetOrNull(document, "window_end");
    if !GoodTimestamp(from) || !GoodTimestamp(to) then errors
    else
      var start, end := clock(from.s), clock(to.s);
      Note(errors, start.Some? && end.Some? && end.value <= start.value, EmptyWindow)
  }

  function RecordIdOf(tenant: string, dimension: string, signal: string, day: string): string {
    tenant + ":" + dimension + ":" + signal + ":" + day
  }

  function IdentityErrors(document: Document, errors: seq<Error>): seq<Error> {
    var id, tenant := GetOrNull(document, "record_id"), GetOrNull(document, "tenant_id");
    var dimension, signal, from := GetOrNull(document, "dimension"), GetOrNull(document, "signal"), GetOrNull(document, "window_start");
    if id.Str? && GoodTenant(tenant) && GoodDimension(dimension) && GoodSignal(signal) && GoodTimestamp(from) then
      Note(errors, id.s != RecordIdOf(tenant.s, dimension.s, signal.s, from.s[..10]), WrongRecordId)
    else errors
  }

  function KeyErrors(document: Document, errors: seq<Error>): seq<Error> {
    var unknown, missing := document.Keys - REQUIRED, REQUIRED - document.Keys;
    Note(Note(Note(errors, unknown != {}, UnknownFields(unknown)), missing != {}, MissingFields(missing)), "tenant_id" !in document, Unattributed)
  }

  /** `validate_record`: every error of the document, in the order they are found. */
  function ValidateRecord(document: Document, clock: Clock): seq<Error> {
    var errors := IdentityErrors(document, WindowErrors(document, clock, BindingErrors(document, FieldErrors(document, KeyErrors(document, [])))));
    if "source_reference" in document then ValidateReference(document["source_reference"], errors) else errors
  }

  // ----- conforming documents ----------------------------------------------------------------------------

  /** What the contract says of a source reference. */
  predicate ReferenceConforms(v: Any) {
    && v.Mapping? && v.fields.Keys <= REFERENCE_FIELDS && "source_type" in v.fields
    && var indices, count := GetOrNull(v.fields, "indices"), GetOrNull(v.fields, "document_count");
    var digest, descriptor := GetOrNull(v.fields, "content_digest"), GetOrNull(v.fields, "descriptor_field");
    || (v.fields["source_type"] == Str(AGGREGATION) && IsIndexList(indices) && descriptor == Null
        && (count == Null || (count.Int? && count.i >= 0)) && (digest == Null || (digest.Str? && MatchesDigest(digest.s))))
    || (v.fields["source_type"] == Str(DESCRIPTOR) && IsNonEmptyText(descriptor) && indices == count == digest == Null)
  }

  predicate WindowConforms(from: string, to: string, clock: Clock) {
    && MatchesDatetime(from) && MatchesDatetime(to)
    && (clock(from).Some? && clock(to).Some? ==> clock(from).value < clock(to).value)
  }

  /** What the contract says of a record: exactly the known fields, the id and the binding
      that the dimension fixes, and a reference of one of the two shapes. */
  predicate Conforms(document: Document, clock: Clock) {
    && document.Keys == REQUIRED
    && GoodTenant(document["tenant_id"]) && GoodDimension(document["dimension"])
    && document["signal"].Str? && AllowsSignal(document["dimension"].s, document["signal"].s)
    && document["unit"] == Str(UnitOf(document["dimension"].s))
    && GoodValue(document["value"]) && (document["dimension"].s == ACTIVE ==> ZeroOrOne(document["value"]))
    && document["window_start"].Str? && document["window_end"].Str?
    && WindowConforms(document["window_start"].s, document["window_end"].s, clock)
    && document["record_id"]
       == Str(RecordIdOf(document["tenant_id"].s, document["dimension"].s, document["signal"].s, document["window_start"].s[..10]))
    && GoodTimestamp(document["collected_at"]) && IsNonEmptyText(document["collector_version"])
    && ReferenceConforms(document["source_reference"])
  }

  lemma ReferenceValidIff(v: Any, errors: seq<Error>)
    ensures errors <= ValidateReference(v, errors)
    ensures ValidateReference(v, errors) == errors <==> ReferenceConforms(v)
  {
    hide IsIndexList, MatchesDigest, ReferenceFields, ReferenceShape, IsNonEmptyText;
    if v.Mapping? {
      var unknown := v.fields.Keys - REFERENCE_FIELDS;
      var noted := Note(errors, unknown != {}, ReferenceUnknownFields(unknown));
      assert v.fields.Keys <= REFERENCE_FIELDS <==> unknown == {};
      ReferenceFieldsValidIff(v.fields, noted);
      var sourceType := GetOrNull(v.fields, "source_type");
      if sourceType == Str(AGGREGATION) || sourceType == Str(DESCRIPTOR) {
        ReferenceShapeValidIff(v.fields, sourceType.s, ReferenceFields(v.fields, noted));
        assert !IsIndexList(Null) && !IsNonEmptyText(Null) by {
          NullIsNeither();
        }
      }
    }
  }

  lemma NullIsNeither()
    ensures !IsIndexList(Null) && !IsNonEmptyText(Null)
  {
  }

  lemma ReferenceFieldsValidIff(fields: map<string, Any>, errors: seq<Error>)
    ensures errors <= ReferenceFields(fields, errors)
    ensures ReferenceFields(fields, errors) == errors <==>
              var indices, count := GetOrNull(fields, "indices"), GetOrNull(fields, "document_count");
              var digest, descriptor := GetOrNull(fields, "content_digest"), GetOrNull(fields, "descriptor_field");
              && (indices == Null || IsIndexList(indices)) && (count == Null || (count.Int? && count.i >= 0))
              && (digest == Null || (digest.Str? && MatchesDigest(digest.s))) && (descriptor == Null || IsNonEmptyText(descriptor))
  {
    hide IsIndexList, MatchesDigest, IsNonEmptyText;
  }

  lemma ReferenceShapeValidIff(fields: map<string, Any>, sourceType: string, errors: seq<Error>)
    ensures errors <= ReferenceShape(fields, sourceType, errors)
    ensures ReferenceShape(fields, sourceType, errors) == errors <==>
              var indices, count := GetOrNull(fields, "indices"), GetOrNull(fields, "document_count");
              var digest, descriptor := GetOrNull(fields, "content_digest"), GetOrNull(fields, "descriptor_field");
              if sourceType == AGGREGATION then indices != Null && descriptor == Null
              else descriptor != Null && indices == count == digest == Null
  {
  }

  lemma AttributesValidIff(document: Document, errors: seq<Error>)
    ensures errors <= AttributeErrors(document, errors)
    ensures document.Keys == REQUIRED ==>
              (AttributeErrors(document, errors) == errors <==>
                && GoodTenant(document["tenant_id"]) && GoodRecordId(document["record_id"]) && GoodDimension(document["dimension"])
                && GoodSignal(document["signal"]) && GoodUnit(document["unit"]))
  {
    hide GoodTenant, GoodRecordId, GoodDimension, GoodSignal, GoodUnit;
  }

  lemma FieldsValidIff(document: Document, errors: seq<Error>)
    ensures errors <= FieldErrors(document, errors)
    ensures document.Keys == REQUIRED ==>
              (FieldErrors(document, errors) == errors <==>
                && GoodTenant(document["tenant_id"]) && GoodRecordId(document["record_id"]) && GoodDimension(document["dimension"])
                && GoodSignal(document["signal"]) && GoodUnit(document["unit"]) && GoodValue(document["value"])
                && GoodTimestamp(document["window_start"]) && GoodTimestamp(document["window_end"])
                && GoodTimestamp(document["collected_at"]) && IsNonEmptyText(document["collector_version"]))
  {
    hide GoodTenant, GoodRecordId, GoodDimension, GoodSignal, GoodUnit, GoodValue, GoodTimestamp, IsNonEmptyText, AttributeErrors;
    AttributesValidIff(document, errors);
  }

  lemma BindingsValidIff(document: Document, errors: seq<Error>)
    ensures errors <= BindingErrors(document, errors)
    ensures document.Keys == REQUIRED && GoodDimension(document["dimension"]) ==>
              (BindingErrors(document, errors) == errors <==>
                var name := document["dimension"].s;
                && document["signal"].Str? && AllowsSignal(name, document["signal"].s)
                && document["unit"] == Str(UnitOf(name))
                && (name == ACTIVE && IsNumber(document["value"]) ==> ZeroOrOne(document["value"])))
  {
    hide GoodDimension, AllowsSignal, UnitOf, ZeroOrOne;
  }

  lemma WindowValidIff(document: Document, clock: Clock, errors: seq<Error>)
    ensures errors <= WindowErrors(document, clock, errors)
    ensures document.Keys == REQUIRED && GoodTimestamp(document["window_start"]) && GoodTimestamp(document["window_end"]) ==>
              (WindowErrors(document, clock, errors) == errors <==>
                WindowConforms(document["window_start"].s, document["window_end"].s, clock))
  {
    hide MatchesDatetime;
  }

  lemma IdentityValidIff(document: Document, errors: seq<Error>)
    ensures errors <= IdentityErrors(document, errors)
    ensures document.Keys == REQUIRED && GoodTenant(document["tenant_id"]) && GoodDimension(document["dimension"])
            && GoodSignal(document["signal"]) && GoodTimestamp(document["window_start"]) && document["record_id"].Str? ==>
              (IdentityErrors(document, errors) == errors <==>
                document["record_id"].s
                == RecordIdOf(document["tenant_id"].s, document["dimension"].s, document["signal"].s, document["window_start"].s[..10]))
  {
    hide MatchesTenant, IsDimension, IsSignal, MatchesDatetime, RecordIdOf;
    assert GoodTimestamp(GetOrNull(document, "window_start")) ==> |GetOrNull(document, "window_start").s| >= 10 by {
      TimestampLength(GetOrNull(document, "window_start"));
    }
  }

  lemma TimestampLength(v: Any)
    ensures GoodTimestamp(v) ==> |v.s| >= 20
  {
  }

  /** A binding fixes more than the enumerations: the id it determines also has a legal length. */
  lemma BoundIsGood(tenant: string, dimension: string, signal: string, day: string)
    requires MatchesTenant(tenant) && IsDimension(dimension) && AllowsSignal(dimension, signal) && |day| == 10
    ensures IsSignal(signal) && IsUnit(UnitOf(dimension)) && 0 < |RecordIdOf(tenant, dimension, signal, day)| <= 256
  {
    assert |tenant| <= 33 && |dimension| <= 17 && |signal| <= 8;
  }

  lemma KeysValidIff(document: Document, errors: seq<Error>)
    ensures errors <= KeyErrors(document, errors)
    ensures KeyErrors(document, errors) == errors <==> document.Keys == REQUIRED
  {
    assert document.Keys == REQUIRED <==> document.Keys - REQUIRED == {} && REQUIRED - document.Keys == {};
  }

  /** The validator reports nothing on exactly the documents the contract describes. */
  lemma ValidIff(document: Document, clock: Clock)
    ensures ValidateRecord(document, clock) == [] <==> Conforms(document, clock)
  {
    hide KeyErrors, FieldErrors, BindingErrors, WindowErrors, IdentityErrors, ValidateReference, ReferenceConforms;
    hide WindowConforms, AllowsSignal, UnitOf, RecordIdOf, ZeroOrOne, MatchesTenant, IsDimension, IsSignal, IsUnit;
    var e1 := KeyErrors(document, []);
    var e2 := FieldErrors(document, e1);
    var e3 := BindingErrors(document, e2);
    var e4 := WindowErrors(document, clock, e3);
    var e5 := IdentityErrors(document, e4);
    KeysValidIff(document, []);
    FieldsValidIff(document, e1);
    BindingsValidIff(document, e2);
    WindowValidIff(document, clock, e3);
    IdentityValidIff(document, e4);
    if "source_reference" in document {
      ReferenceValidIff(document["source_reference"], e5);
    }
    if document.Keys == REQUIRED {
      ConformingIsGood(document, clock);
    }
  }

  lemma ConformingIsGood(document: Document, clock: Clock)
    requires document.Keys == REQUIRED
    ensures Conforms(document, clock) ==>
              && GoodTenant(document["tenant_id"]) && GoodRecordId(document["record_id"]) && GoodDimension(document["dimension"])
              && GoodSignal(document["signal"]) && GoodUnit(document["unit"])
              && GoodTimestamp(document["window_start"]) && GoodTimestamp(document["window_end"])
  {
    hide ReferenceConforms, AllowsSignal, UnitOf, RecordIdOf, ZeroOrOne, MatchesTenant, IsDimension, IsSignal, IsUnit;
    if Conforms(document, clock) {
      TimestampLength(document["window_start"]);
      BoundIsGood(document["tenant_id"].s, document["dimension"].s, document["signal"].s, document["window_start"].s[..10]);
    }
  }

  // ----- the checks as they run -----------------------------------------------------------------------------

  /** The list the checks append to. */
  class ErrorList {
    var items: seq<Error>

    constructor ()
      ensures items == []
    {
      items := [];
    }

    method Append(error: Error)
      modifies this
      ensures items == old(items) + [error]
    {
      items := items + [error];
    }

    method AppendWhen(condition: bool, error: Error)
      modifies this
      ensures items == Note(old(items), condition, error)
    {
      if condition {
        Append(error);
      }
    }
  }

  method CheckIndices(indices: Any) returns (good: bool)
    ensures good == IsIndexList(indices)
  {
    if !indices.List? || indices.items == [] {
      return false;
    }
    good := true;
    var i := 0;
    while i < |indices.items| && good
      invariant i <= |indices.items|
      invariant good <==> forall k :: 0 <= k < i ==> IsNonEmptyText(indices.items[k])
    {
      good := IsNonEmptyText(indices.items[i]);
      i := i + 1;
    }
  }

  method CheckReference(reference: Any, errors: ErrorList)
    modifies errors
    ensures errors.items == ValidateReference(reference, old(errors.items))
  {
    if !reference.Mapping? {
      errors.Append(ReferenceNotObject);
      return;
    }
    var fields := reference.fields;
    var unknown := fields.Keys - REFERENCE_FIELDS;
    errors.AppendWhen(unknown != {}, ReferenceUnknownFields(unknown));
    var sourceType := GetOrNull(fields, "source_type");
    if sourceType == Null {
      errors.Append(NoSourceType);
      return;
    }
    if sourceType != Str(AGGREGATION) && sourceType != Str(DESCRIPTOR) {
      errors.Append(UnknownSourceType);
      return;
    }
    CheckReferenceFields(fields, errors);
    CheckReferenceShape(fields, sourceType.s, errors);
  }

  method CheckReferenceFields(fields: map<string, Any>, errors: ErrorList)
    modifies errors
    ensures errors.items == ReferenceFields(fields, old(errors.items))
  {
    hide IsIndexList, MatchesDigest;
    var indices := GetOrNull(fields, "indices");
    if indices != Null {
      var good := CheckIndices(indices);
      errors.AppendWhen(!good, BadIndices);
    }
    var count := GetOrNull(fields, "document_count");
    errors.AppendWhen(count != Null && !(count.Int? && count.i >= 0), BadDocumentCount);
    var digest := GetOrNull(fields, "content_digest");
    errors.AppendWhen(digest != Null && !(digest.Str? && MatchesDigest(digest.s)), BadDigest);
    var descriptor := GetOrNull(fields, "descriptor_field");
    errors.AppendWhen(descriptor != Null && !IsNonEmptyText(descriptor), BadDescriptorField);
  }

  method CheckReferenceShape(fields: map<string, Any>, sourceType: string, errors: ErrorList)
    modifies errors
    ensures errors.items == ReferenceShape(fields, sourceType, old(errors.items))
  {
    var indices := GetOrNull(fields, "indices");
    var descriptor := GetOrNull(fields, "descriptor_field");
    if sourceType == AGGREGATION {
      errors.AppendWhen(indices == Null, IndicesRequired);
      errors.AppendWhen(descriptor != Null, DescriptorNotAllowed);
    } else {
      errors.AppendWhen(descriptor == Null, DescriptorRequired);
      errors.AppendWhen(indices != Null, AggregationOnly("indices"));
      errors.AppendWhen(GetOrNull(fields, "document_count") != Null, AggregationOnly("document_count"));
      errors.AppendWhen(GetOrNull(fields, "content_digest") != Null, AggregationOnly("content_digest"));
    }
  }

  method CheckAttributes(document: Document, errors: ErrorList)
    modifies errors
    ensures errors.items == AttributeErrors(document, old(errors.items))
  {
    hide GoodTenant, GoodRecordId, GoodDimension, GoodSignal, GoodUnit;
    var tenant, id := Present(document, "tenant_id"), Present(document, "record_id");
    errors.AppendWhen(tenant.Some? && !GoodTenant(tenant.value), BadTenant);
    errors.AppendWhen(id.Some? && !GoodRecordId(id.value), BadRecordId);
    var dimension, signal, unit := Present(document, "dimension"), Present(document, "signal"), Present(document, "unit");
    errors.AppendWhen(dimension.Some? && !GoodDimension(dimension.value), UnknownDimension);
    errors.AppendWhen(signal.Some? && !GoodSignal(signal.value), UnknownSignal);
    errors.AppendWhen(unit.Some? && !GoodUnit(unit.value), UnknownUnit);
  }

  method CheckFields(document: Document, errors: ErrorList)
    modifies errors
    ensures errors.items == FieldErrors(document, old(errors.items))
  {
    hide GoodValue, GoodTimestamp, IsNonEmptyText, AttributeErrors;
    CheckAttributes(document, errors);
    var value := Present(document, "value");
    errors.AppendWhen(value.Some? && !GoodValue(value.value), BadValue);
    var names, i := ["window_start", "window_end", "collected_at"], 0;
    ghost var before := errors.items;
    while i < 3
      invariant i <= 3
      invariant errors.items == TimeErrors(document, names[..i], before)
    {
      var v := Present(document, names[i]);
      errors.AppendWhen(v.Some? && !GoodTimestamp(v.value), BadTimestamp(names[i]));
      assert names[..i + 1][..i] == names[..i];
      i := i + 1;
    }
    assert names[..3] == names;
    ThreeTimes(document, before);
    var version := Present(document, "collector_version");
    errors.AppendWhen(version.Some? && !IsNonEmptyText(version.value), BadVersion);
  }

  lemma ThreeTimes(document: Document, errors: seq<Error>)
    ensures TimeErrors(document, ["window_start", "window_end", "collected_at"], errors)
         == NoteTime(document, "collected_at", NoteTime(document, "window_end", NoteTime(document, "window_start", errors)))
  {
    hide NoteTime;
    var names := ["window_start", "window_end", "collected_at"];
    assert names[..2] == ["window_start", "window_end"] && names[..2][..1] == ["window_start"] && names[..2][..1][..0] == [];
    assert TimeErrors(document, ["window_start"], errors) == NoteTime(document, "window_start", errors);
  }

  function TimeErrors(document: Document, names: seq<string>, errors: seq<Error>): seq<Error> {
    if names == [] then errors else NoteTime(document, names[|names| - 1], TimeErrors(document, names[..|names| - 1], errors))
  }

  method CheckBindings(document: Document, errors: ErrorList)
    modifies errors
    ensures errors.items == BindingErrors(document, old(errors.items))
  {
    hide AllowsSignal, UnitOf, IsDimension;
    var dimension := Present(document, "dimension");
    if dimension.Some? && GoodDimension(dimension.value) {
      var name := dimension.value.s;
      var signal, unit, value := Present(document, "signal"), Present(document, "unit"), Present(document, "value");
      errors.AppendWhen(signal.Some? && !(signal.value.Str? && AllowsSignal(name, signal.value.s)), SignalNotAllowed);
      errors.AppendWhen(unit.Some? && unit.value != Str(UnitOf(name)), UnitNotAllowed);
      errors.AppendWhen(name == ACTIVE && value.Some? && IsNumber(value.value) && !ZeroOrOne(value.value), ValueNotAllowed);
    }
  }

  /** `validate_record`. */
  method CheckRecord(document: Document, clock: Clock) returns (errors: seq<Error>)
    ensures errors == ValidateRecord(document, clock)
  {
    hide FieldErrors, BindingErrors, ValidateReference, GoodTimestamp, GoodTenant, GoodDimension, GoodSignal, RecordIdOf;
    var list := new ErrorList();
    var unknown, missing := document.Keys - REQUIRED, REQUIRED - document.Keys;
    list.AppendWhen(unknown != {}, UnknownFields(unknown));
    list.AppendWhen(missing != {}, MissingFields(missing));
    list.AppendWhen("tenant_id" !in document, Unattributed);
    CheckFields(document, list);
    CheckBindings(document, list);
    CheckWindow(document, clock, list);
    CheckIdentity(document, list);
    if "source_reference" in document {
      CheckReference(document["source_reference"], list);
    }
    errors := list.items;
  }

  method CheckWindow(document: Document, clock: Clock, errors: ErrorList)
    modifies errors
    ensures errors.items == WindowErrors(document, clock, old(errors.items))
  {
    hide MatchesDatetime;
    var from, to := GetOrNull(document, "window_start"), GetOrNull(document, "window_end");
    if GoodTimestamp(from) && GoodTimestamp(to) {
      var start, end := clock(from.s), clock(to.s);
      errors.AppendWhen(start.Some? && end.Some? && end.value <= start.value, EmptyWindow);
    }
  }

  method CheckIdentity(document: Document, errors: ErrorList)
    modifies errors
    ensures errors.items == IdentityErrors(document, old(errors.items))
  {
    hide IsDimension, IsSignal, RecordIdOf;
    var id, tenant := GetOrNull(document, "record_id"), GetOrNull(document, "tenant_id");
    var dimension, signal, from := GetOrNull(document, "dimension"), GetOrNull(document, "signal"), GetOrNull(document, "window_start");
    if id.Str? && GoodTenant(tenant) && GoodDimension(dimension) && GoodSignal(signal) && GoodTimestamp(from) {
      errors.AppendWhen(id.s != RecordIdOf(tenant.s, dimension.s, signal.s, from.s[..10]), WrongRecordId);
    }
  }
}
