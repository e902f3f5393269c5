/** Every error the usage-record validator reports, and exactly when. */
module UsageErrors {
  import opened Results
  import opened Text
  import opened UsageValidation

  // ----- patterns, as templates ------------------------------------------------------------

  /** The text is the template, with any digit for a zero. */
  predicate Fits(s: string, template: string) {
    |s| == |template| && forall i :: 0 <= i < |s| ==> if template[i] == '0' then s[i] in "0123456789" else s[i] == template[i]
  }

  /** The text, or the text without a final newline, which the patterns' ends let through. */
  ghost predicate Matching(text: string, s: string) {
    text == s || text == s + "\n"
  }

  lemma DigitIs(c: char)
    ensures IsDigit(c) <==> c in "0123456789"
  {
    var digits := "0123456789";
    if IsDigit(c) {
      assert digits[c as int - '0' as int] == c;
    }
  }

  lemma DateFits(s: string)
    ensures IsDate(s) <==> Fits(s, "0000-00-00")
  {
    forall c: char ensures IsDigit(c) <==> c in "0123456789" {
      DigitIs(c);
    }
    hide IsDigit;
    var template := "0000-00-00";
    assert template[4] == '-' && template[7] == '-';
    assert forall i :: 0 <= i < 10 && i != 4 && i != 7 ==> template[i] == '0';
  }

  lemma TimeFits(s: string)
    ensures IsTime(s) <==> Fits(s, "T00:00:00")
  {
    forall c: char ensures IsDigit(c) <==> c in "0123456789" {
      DigitIs(c);
    }
    hide IsDigit;
    var template := "T00:00:00";
    assert template[0] == 'T' && template[3] == ':' && template[6] == ':';
    assert forall i :: 1 <= i < 9 && i != 3 && i != 6 ==> template[i] == '0';
  }

  lemma ZoneFits(s: string)
    ensures IsZone(s) <==> s == "Z" || Fits(s, "+00:00") || Fits(s, "-00:00")
  {
    forall c: char ensures IsDigit(c) <==> c in "0123456789" {
      DigitIs(c);
    }
    hide IsDigit;
    var plus, minus := "+00:00", "-00:00";
    assert plus[0] == '+' && minus[0] == '-' && plus[1] == minus[1] == plus[2] == minus[2] == plus[4] == minus[4] == plus[5] == minus[5] == '0';
    assert plus[3] == minus[3] == ':';
  }

  /** A point and one or more digits. */
  predicate IsFraction(s: string) {
    |s| >= 2 && s[0] == '.' && forall i :: 1 <= i < |s| ==> s[i] in "0123456789"
  }

  lemma {:induction false} SkipsDigits(s: string, from: nat, k: nat)
    requires from <= k <= |s| && (forall i :: from <= i < k ==> IsDigit(s[i])) && (k < |s| ==> !IsDigit(s[k]))
    ensures SkipDigits(s, from) == k
    decreases k - from
  {
    if from < k {
      SkipsDigits(s, from + 1, k);
    }
  }

  lemma {:induction false} SkippedDigits(s: string, from: nat)
    requires from <= |s|
    ensures forall i :: from <= i < SkipDigits(s, from) ==> IsDigit(s[i])
    decreases |s| - from
  {
    if from < |s| && IsDigit(s[from]) {
      SkippedDigits(s, from + 1);
    }
  }

  /** A zone, after a fraction or none. */
  ghost predicate IsEnd(s: string) {
    IsZone(s) || exists k :: 0 <= k <= |s| && IsFraction(s[..k]) && IsZone(s[k..])
  }

  lemma EndIs(s: string)
    ensures IsFractionAndZone(s) <==> IsEnd(s)
  {
    forall c: char ensures IsDigit(c) <==> c in "0123456789" {
      DigitIs(c);
    }
    if s != "" && s[0] == '.' {
      SkippedDigits(s, 1);
      var k := SkipDigits(s, 1);
      if k > 1 && IsZone(s[k..]) {
        assert IsFraction(s[..k]);
      }
    }
    if k :| 0 <= k <= |s| && IsFraction(s[..k]) && IsZone(s[k..]) {
      ZoneStart(s[k..]);
      assert s[..k][0] == s[0];
      forall i | 1 <= i < k ensures IsDigit(s[i]) {
        assert s[..k][i] == s[i];
      }
      assert s[k] == s[k..][0];
      SkipsDigits(s, 1, k);
    }
  }

  lemma ZoneStart(s: string)
    requires IsZone(s)
    ensures s != "" && !IsDigit(s[0])
  {
  }

  /** A date, a time, perhaps a fraction, and a zone. */
  ghost predicate IsTimestamp(s: string) {
    |s| >= 20 && Fits(s[..10], "0000-00-00") && Fits(s[10..19], "T00:00:00") && IsEnd(s[19..])
  }

  /** One to 32 lower-case letters, digits and dashes, no dash at an end. */
  predicate IsTenantId(s: string) {
    && 1 <= |s| <= 32 && s[0] != '-' && s[|s| - 1] != '-'
    && forall i :: 0 <= i < |s| ==> s[i] in "abcdefghijklmnopqrstuvwxyz0123456789-"
  }

  predicate IsDigest(s: string) {
    |s| == 71 && s[..7] == "sha256:" && forall i :: 7 <= i < 71 ==> s[i] in "0123456789abcdef"
  }

  lemma LetterIs(c: char)
    ensures IsLowerAlnum(c) || c == '-' <==> c in "abcdefghijklmnopqrstuvwxyz0123456789-"
  {
    var letters, digits := "abcdefghijklmnopqrstuvwxyz", "0123456789";
    assert "abcdefghijklmnopqrstuvwxyz0123456789-" == letters + digits + "-";
    DigitIs(c);
    assert 'a' <= c <= 'z' <==> c in letters by {
      if 'a' <= c <= 'z' {
        assert letters[c as int - 'a' as int] == c;
      }
    }
  }

  lemma HexIs(c: char)
    ensures IsDigit(c) || 'a' <= c <= 'f' <==> c in "0123456789abcdef"
  {
    var digits, letters := "0123456789", "abcdef";
    assert "0123456789abcdef" == digits + letters;
    DigitIs(c);
    assert 'a' <= c <= 'f' <==> c in letters;
  }

  lemma TenantIs(text: string)
    ensures MatchesTenant(text) <==> exists s :: Matching(text, s) && IsTenantId(s)
  {
    forall c: char ensures IsLowerAlnum(c) || c == '-' <==> c in "abcdefghijklmnopqrstuvwxyz0123456789-" {
      LetterIs(c);
    }
    var s := Unterminated(text);
    assert Matching(text, s);
    assert IsSlug(s) <==> IsTenantId(s);
    if t :| Matching(text, t) && IsTenantId(t) {
      assert t[|t| - 1] != '\n';
      assert t == s;
    }
  }

  lemma DigestIs(text: string)
    ensures MatchesDigest(text) <==> exists s :: Matching(text, s) && IsDigest(s)
  {
    forall c: char ensures IsDigit(c) || 'a' <= c <= 'f' <==> c in "0123456789abcdef" {
      HexIs(c);
    }
    hide IsDigit;
    var s := Unterminated(text);
    assert Matching(text, s);
    if t :| Matching(text, t) && IsDigest(t) {
      assert t[70] in "0123456789abcdef";
      assert t == s;
    }
  }

  lemma TimestampIs(text: string)
    ensures MatchesDatetime(text) <==> exists s :: Matching(text, s) && IsTimestamp(s)
  {
    var s := Unterminated(text);
    assert Matching(text, s);
    if |s| >= 20 {
      DateFits(s[..10]);
      TimeFits(s[10..19]);
      EndIs(s[19..]);
    }
    hide IsDate, IsTime, IsFractionAndZone, Fits;
    if t :| Matching(text, t) && IsTimestamp(t) {
      EndEnds(t[19..]);
      assert t[|t| - 1] == t[19..][|t[19..]| - 1];
      assert t == s;
    }
  }

  lemma EndEnds(s: string)
    requires IsEnd(s)
    ensures s != "" && s[|s| - 1] != '\n'
  {
    if !IsZone(s) {
      var k :| 0 <= k <= |s| && IsFraction(s[..k]) && IsZone(s[k..]);
      assert s[|s| - 1] == s[k..][|s| - k - 1];
    }
  }

  // ----- what is wrong with a document -------------------------------------------------------------

  const FIELDS: set<string> := {
    "record_id", "tenant_id", "dimension", "signal", "value", "unit", "window_start", "window_end",
    "source_reference", "collected_at", "collector_version"}

  ghost predicate TenantText(v: Any) {
    v.Str? && exists s :: Matching(v.s, s) && IsTenantId(s)
  }

  ghost predicate TimeText(v: Any) {
    v.Str? && exists s :: Matching(v.s, s) && IsTimestamp(s)
  }

  ghost predicate DigestText(v: Any) {
    v.Str? && exists s :: Matching(v.s, s) && IsDigest(s)
  }

  predicate OneOf(v: Any, texts: set<string>) {
    v.Str? && v.s in texts
  }

  predicate DimensionText(v: Any) {
    OneOf(v, {"ingest_gb_per_day", "retention_days", "active_tenants", "query_volume"})
  }

  predicate SignalText(v: Any) {
    OneOf(v, {"logs", "metrics", "traces", "platform"})
  }

  /** The signals a dimension is metered for. */
  predicate Metered(dimension: string, v: Any) {
    if dimension == "ingest_gb_per_day" || dimension == "retention_days" then OneOf(v, {"logs", "metrics", "traces"}) else v == Str("platform")
  }

  predicate UnitFits(dimension: string, v: Any) {
    match dimension
    case "ingest_gb_per_day" => v == Str("gb")
    case "retention_days" => v == Str("days")
    case "active_tenants" => v == Str("count")
    case _ => v == Str("queries")
  }

  /** A number that is not negative. */
  predicate Quantity(v: Any) {
    (v.Int? && v.i >= 0) || (v.Float? && v.r >= 0.0)
  }

  /** The condition of every error but those of the reference. */
  ghost predicate Wrong(d: Document, clock: Clock, e: Error) {
    match e
    case UnknownFields(names) => names == d.Keys - FIELDS && names != {}
    case MissingFields(names) => names == FIELDS - d.Keys && names != {}
    case Unattributed => "tenant_id" !in d
    case BadTenant => "tenant_id" in d && !TenantText(d["tenant_id"])
    case BadRecordId => "record_id" in d && !(d["record_id"].Str? && 1 <= |d["record_id"].s| <= 256)
    case UnknownDimension => "dimension" in d && !DimensionText(d["dimension"])
    case UnknownSignal => "signal" in d && !SignalText(d["signal"])
    case UnknownUnit => "unit" in d && !OneOf(d["unit"], {"gb", "days", "count", "queries"})
    case BadValue => "value" in d && !Quantity(d["value"])
    case BadTimestamp(name) => name in {"window_start", "window_end", "collected_at"} && name in d && !TimeText(d[name])
    case BadVersion => "collector_version" in d && (!d["collector_version"].Str? || d["collector_version"].s == "")
    case SignalNotAllowed => "dimension" in d && DimensionText(d["dimension"]) && "signal" in d && !Metered(d["dimension"].s, d["signal"])
    case UnitNotAllowed => "dimension" in d && DimensionText(d["dimension"]) && "unit" in d && !UnitFits(d["dimension"].s, d["unit"])
    case ValueNotAllowed =>
      "dimension" in d && d["dimension"] == Str("active_tenants") && "value" in d && (d["value"].Int? || d["value"].Float?)
      && d["value"] !in {Int(0), Int(1), Float(0.0), Float(1.0)}
    case EmptyWindow =>
      "window_start" in d && TimeText(d["window_start"]) && "window_end" in d && TimeText(d["window_end"])
      && clock(d["window_start"].s).Some? && clock(d["window_end"].s).Some?
      && clock(d["window_end"].s).value <= clock(d["window_start"].s).value
    case WrongRecordId =>
      "record_id" in d && d["record_id"].Str? && "tenant_id" in d && TenantText(d["tenant_id"]) && "dimension" in d && DimensionText(d["dimension"])
      && "signal" in d && SignalText(d["signal"]) && "window_start" in d && TimeText(d["window_start"])
      && |d["window_start"].s| >= 10
      && d["record_id"].s != d["tenant_id"].s + ":" + d["dimension"].s + ":" + d["signal"].s + ":" + d["window_start"].s[..10]
    case _ => false
  }

  /** A field of the reference, absent and null being the same. */
  function Given(fields: map<string, Any>, key: string): Option<Any> {
    if key in fields && fields[key] != Null then Some(fields[key]) else None
  }

  /** The condition of every error of the reference. */
  ghost predicate WrongReference(v: Any, e: Error) {
    if !v.Mapping? then e == ReferenceNotObject
    else
      var known := {"source_type", "indices", "document_count", "content_digest", "descriptor_field"};
      var kind := Given(v.fields, "source_type");
      var indices, count := Given(v.fields, "indices"), Given(v.fields, "document_count");
      var digest, descriptor := Given(v.fields, "content_digest"), Given(v.fields, "descriptor_field");
      var aggregation, described := kind == Some(Str("opensearch-aggregation")), kind == Some(Str("tenant-descriptor"));
      match e
      case ReferenceUnknownFields(names) => names == v.fields.Keys - known && names != {}
      case NoSourceType => kind == None
      case UnknownSourceType => kind.Some? && !aggregation && !described
      case BadIndices =>
        (aggregation || described) && indices.Some?
        && !(indices.value.List? && indices.value.items != [] && forall x :: x in indices.value.items ==> x.Str? && x.s != "")
      case BadDocumentCount => (aggregation || described) && count.Some? && !(count.value.Int? && count.value.i >= 0)
      case BadDigest => (aggregation || described) && digest.Some? && !DigestText(digest.value)
      case BadDescriptorField => (aggregation || described) && descriptor.Some? && !(descriptor.value.Str? && descriptor.value.s != "")
      case IndicesRequired => aggregation && indices == None
      case DescriptorNotAllowed => aggregation && descriptor.Some?
      case DescriptorRequired => described && descriptor == None
      case AggregationOnly(name) =>
        described && ((name == "indices" && indices.Some?) || (name == "document_count" && count.Some?) || (name == "content_digest" && digest.Some?))
      case _ => false
  }

  // ----- the checks, one group at a time --------------------------------------------------------------

  lemma NoteIs(errors: seq<Error>, condition: bool, noted: Error, e: Error)
    ensures e in Note(errors, condition, noted) <==> e in errors || (condition && e == noted)
  {
  }

  lemma KeysNoted(d: Document, errors: seq<Error>, e: Error)
    ensures e in KeyErrors(d, errors) <==>
            e in errors || ((e.UnknownFields? || e.MissingFields? || e.Unattributed?) && Wrong(d, (_: string) => None, e))
  {
    assert REQUIRED == FIELDS;
  }

  lemma AttributesNoted(d: Document, errors: seq<Error>, e: Error)
    ensures e in AttributeErrors(d, errors) <==>
            e in errors || ((e.BadTenant? || e.BadRecordId? || e.UnknownDimension? || e.UnknownSignal? || e.UnknownUnit?) && Wrong(d, (_: string) => None, e))
  {
    GoodAre(d);
    hide GoodTenant, GoodDimension, GoodSignal, GoodUnit, TenantText, DimensionText, SignalText, OneOf, FIELDS;
  }

  /** The validator's checks of single fields are those of this module. */
  lemma GoodAre(d: Document)
    ensures forall key :: key in d ==> GoodTenant(d[key]) == TenantText(d[key]) && GoodTimestamp(d[key]) == TimeText(d[key])
    ensures forall key :: key in d ==>
              GoodDimension(d[key]) == DimensionText(d[key]) && GoodSignal(d[key]) == SignalText(d[key])
              && GoodUnit(d[key]) == OneOf(d[key], {"gb", "days", "count", "queries"}) && GoodValue(d[key]) == Quantity(d[key])
  {
    forall key | key in d ensures GoodTenant(d[key]) == TenantText(d[key]) && GoodTimestamp(d[key]) == TimeText(d[key]) {
      GoodIs(d[key]);
    }
  }

  lemma GoodIs(v: Any)
    ensures GoodTenant(v) == TenantText(v) && GoodTimestamp(v) == TimeText(v)
  {
    hide MatchesTenant, MatchesDatetime, IsTenantId, IsTimestamp, Matching;
    if v.Str? {
      TenantIs(v.s);
      TimestampIs(v.s);
    }
  }

  lemma FieldsNoted(d: Document, errors: seq<Error>, e: Error)
    ensures e in FieldErrors(d, errors) <==>
            e in errors
            || ((e.BadTenant? || e.BadRecordId? || e.UnknownDimension? || e.UnknownSignal? || e.UnknownUnit? || e.BadValue? || e.BadTimestamp? || e.BadVersion?)
                && Wrong(d, (_: string) => None, e))
  {
    AttributesNoted(d, errors, e);
    GoodAre(d);
    hide AttributeErrors, GoodTenant, GoodDimension, GoodSignal, GoodUnit, GoodValue, GoodTimestamp, TenantText, TimeText, DimensionText, SignalText, OneOf,
         FIELDS, Quantity;
  }

  lemma BindingsNoted(d: Document, errors: seq<Error>, e: Error)
    ensures e in BindingErrors(d, errors) <==>
            e in errors || ((e.SignalNotAllowed? || e.UnitNotAllowed? || e.ValueNotAllowed?) && Wrong(d, (_: string) => None, e))
  {
    GoodAre(d);
    hide GoodTenant, GoodSignal, GoodUnit, GoodValue, GoodTimestamp, TenantText, TimeText, SignalText, FIELDS, Quantity;
    if "dimension" in d && GoodDimension(d["dimension"]) {
      assert GoodDimension(d["dimension"]) == DimensionText(d["dimension"]);
    }
  }

  lemma WindowNoted(d: Document, clock: Clock, errors: seq<Error>, e: Error)
    ensures e in WindowErrors(d, clock, errors) <==> e in errors || (e.EmptyWindow? && Wrong(d, clock, e))
  {
    GoodAre(d);
    NullIsNothing();
    hide GoodTenant, GoodDimension, GoodSignal, GoodUnit, GoodValue, MatchesDatetime, TenantText, TimeText, DimensionText, SignalText, FIELDS;
  }

  lemma NullIsNothing()
    ensures !GoodTimestamp(Null) && !GoodTenant(Null) && !GoodDimension(Null) && !GoodSignal(Null)
  {
  }

  lemma IdentityNoted(d: Document, errors: seq<Error>, e: Error)
    ensures e in IdentityErrors(d, errors) <==> e in errors || (e.WrongRecordId? && Wrong(d, (_: string) => None, e))
  {
    GoodAre(d);
    NullIsNothing();
    if "window_start" in d {
      TimestampLength(d["window_start"]);
    }
    hide GoodUnit, GoodValue, MatchesDatetime, MatchesTenant, IsDimension, IsSignal, TenantText, TimeText, DimensionText, SignalText, FIELDS;
  }

  lemma ClockApart(d: Document, clock: Clock, e: Error)
    requires !e.EmptyWindow?
    ensures Wrong(d, clock, e) == Wrong(d, (_: string) => None, e)
  {
    hide TenantText, TimeText, DimensionText, SignalText, FIELDS, OneOf, Metered, UnitFits, Quantity;
  }

  lemma GivenIs(fields: map<string, Any>, key: string)
    ensures GetOrNull(fields, key) == Null <==> Given(fields, key) == None
    ensures Given(fields, key).Some? ==> Given(fields, key).value == GetOrNull(fields, key)
  {
  }

  lemma IndexListIs(v: Any)
    ensures IsIndexList(v) <==> v.List? && v.items != [] && forall x :: x in v.items ==> x.Str? && x.s != ""
  {
    if v.List? && forall x :: x in v.items ==> x.Str? && x.s != "" {
      forall i | 0 <= i < |v.items| ensures IsNonEmptyText(v.items[i]) {
        assert v.items[i] in v.items;
      }
    }
  }

  lemma ReferenceFieldsNoted(fields: map<string, Any>, errors: seq<Error>, e: Error)
    requires Given(fields, "source_type") in {Some(Str("opensearch-aggregation")), Some(Str("tenant-descriptor"))}
    ensures e in ReferenceFields(fields, errors) <==>
            e in errors || ((e.BadIndices? || e.BadDocumentCount? || e.BadDigest? || e.BadDescriptorField?) && WrongReference(Mapping(fields), e))
  {
    hide GetOrNull, Given, MatchesDigest, IsIndexList, Matching, IsDigest, Note, WrongReference;
    var indices, count := GetOrNull(fields, "indices"), GetOrNull(fields, "document_count");
    var digest, descriptor := GetOrNull(fields, "content_digest"), GetOrNull(fields, "descriptor_field");
    GivenIs(fields, "indices");
    GivenIs(fields, "document_count");
    GivenIs(fields, "content_digest");
    GivenIs(fields, "descriptor_field");
    IndexListIs(indices);
    if digest.Str? {
      DigestIs(digest.s);
    }
    FourNotes(errors, indices != Null && !IsIndexList(indices), count != Null && !(count.Int? && count.i >= 0),
              digest != Null && !(digest.Str? && MatchesDigest(digest.s)), descriptor != Null && !IsNonEmptyText(descriptor), e);
    FieldsWrong(fields, e);
  }

  lemma FourNotes(errors: seq<Error>, a: bool, b: bool, c: bool, d: bool, e: Error)
    ensures e in Note(Note(Note(Note(errors, a, BadIndices), b, BadDocumentCount), c, BadDigest), d, BadDescriptorField) <==>
            e in errors || (e.BadIndices? && a) || (e.BadDocumentCount? && b) || (e.BadDigest? && c) || (e.BadDescriptorField? && d)
  {
    hide Note;
    var e1 := Note(errors, a, BadIndices);
    var e2 := Note(e1, b, BadDocumentCount);
    NoteIs(errors, a, BadIndices, e);
    NoteIs(e1, b, BadDocumentCount, e);
    NoteIs(e2, c, BadDigest, e);
    NoteIs(Note(e2, c, BadDigest), d, BadDescriptorField, e);
  }

  /** The conditions of the four field errors, once the kind of the reference is known. */
  lemma FieldsWrong(fields: map<string, Any>, e: Error)
    requires Given(fields, "source_type") in {Some(Str("opensearch-aggregation")), Some(Str("tenant-descriptor"))}
    ensures var indices, count := Given(fields, "indices"), Given(fields, "document_count");
            var digest, descriptor := Given(fields, "content_digest"), Given(fields, "descriptor_field");
            && (e.BadIndices? ==>
                  (WrongReference(Mapping(fields), e) <==>
                     indices.Some? && !(indices.value.List? && indices.value.items != [] && forall x :: x in indices.value.items ==> x.Str? && x.s != "")))
            && (e.BadDocumentCount? ==> (WrongReference(Mapping(fields), e) <==> count.Some? && !(count.value.Int? && count.value.i >= 0)))
            && (e.BadDigest? ==> (WrongReference(Mapping(fields), e) <==> digest.Some? && !DigestText(digest.value)))
            && (e.BadDescriptorField? ==> (WrongReference(Mapping(fields), e) <==> descriptor.Some? && !(descriptor.value.Str? && descriptor.value.s != "")))
  {
    hide Given, DigestText;
  }

  lemma ReferenceShapeNoted(fields: map<string, Any>, sourceType: string, errors: seq<Error>, e: Error)
    requires Given(fields, "source_type") == Some(Str(sourceType)) && sourceType in {"opensearch-aggregation", "tenant-descriptor"}
    ensures e in ReferenceShape(fields, sourceType, errors) <==>
            e in errors
            || ((e.IndicesRequired? || e.DescriptorNotAllowed? || e.DescriptorRequired? || e.AggregationOnly?) && WrongReference(Mapping(fields), e))
  {
    hide GetOrNull, Given, DigestText, Note;
    var indices, descriptor := GetOrNull(fields, "indices"), GetOrNull(fields, "descriptor_field");
    GivenIs(fields, "indices");
    GivenIs(fields, "document_count");
    GivenIs(fields, "content_digest");
    GivenIs(fields, "descriptor_field");
    assert |"opensearch-aggregation"| != |"tenant-descriptor"|;
    var a := Note(errors, indices == Null, IndicesRequired);
    NoteIs(errors, indices == Null, IndicesRequired, e);
    NoteIs(a, descriptor != Null, DescriptorNotAllowed, e);
    var e1 := Note(errors, descriptor == Null, DescriptorRequired);
    var e2 := Note(e1, indices != Null, AggregationOnly("indices"));
    var e3 := Note(e2, GetOrNull(fields, "document_count") != Null, AggregationOnly("document_count"));
    NoteIs(errors, descriptor == Null, DescriptorRequired, e);
    NoteIs(e1, indices != Null, AggregationOnly("indices"), e);
    NoteIs(e2, GetOrNull(fields, "document_count") != Null, AggregationOnly("document_count"), e);
    NoteIs(e3, GetOrNull(fields, "content_digest") != Null, AggregationOnly("content_digest"), e);
  }

  lemma ReferenceNoted(v: Any, errors: seq<Error>, e: Error)
    ensures e in ValidateReference(v, errors) <==> e in errors || WrongReference(v, e)
  {
    hide ReferenceFields, ReferenceShape, DigestText, GetOrNull;
    if v.Mapping? {
      var unknown := v.fields.Keys - REFERENCE_FIELDS;
      var noted := Note(errors, unknown != {}, ReferenceUnknownFields(unknown));
      GivenIs(v.fields, "source_type");
      var kind := GetOrNull(v.fields, "source_type");
      if kind == Str(AGGREGATION) || kind == Str(DESCRIPTOR) {
        ReferenceFieldsNoted(v.fields, noted, e);
        ReferenceShapeNoted(v.fields, kind.s, ReferenceFields(v.fields, noted), e);
      }
    }
  }

  /** An error is reported exactly when its condition holds. */
  lemma ReportedIff(d: Document, clock: Clock, e: Error)
    ensures e in ValidateRecord(d, clock) <==> Wrong(d, clock, e) || ("source_reference" in d && WrongReference(d["source_reference"], e))
  {
    hide KeyErrors, FieldErrors, BindingErrors, WindowErrors, IdentityErrors, ValidateReference, WrongReference, TenantText, TimeText, DimensionText,
         SignalText, FIELDS, OneOf, Metered, UnitFits, Quantity;
    var e1 := KeyErrors(d, []);
    var e2 := FieldErrors(d, e1);
    var e3 := BindingErrors(d, e2);
    var e4 := WindowErrors(d, clock, e3);
    var e5 := IdentityErrors(d, e4);
    KeysNoted(d, [], e);
    FieldsNoted(d, e1, e);
    BindingsNoted(d, e2, e);
    WindowNoted(d, clock, e3, e);
    IdentityNoted(d, e4, e);
    if !e.EmptyWindow? {
      ClockApart(d, clock, e);
    }
    if "source_reference" in d {
      ReferenceNoted(d["source_reference"], e5, e);
    }
  }
}
