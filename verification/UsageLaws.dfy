/** What building usage records guarantees: every record conforms to the contract, ids are
    distinct exactly when the sources do not repeat themselves, input order is forgotten,
    every known tenant is accounted for once, and no query is lost. */
module UsageLaws {
  import opened Results
  import opened Ordering
  import opened UsageRecords
  import InvoiceLaws
  import V = UsageValidation

  // ----- every record is valid -----------------------------------------------------------------

  predicate NonEmptyTexts(xs: seq<string>) {
    forall i :: 0 <= i < |xs| ==> xs[i] != ""
  }

  /** What the sources promise of one statistic. */
  predicate IngestOk(s: IngestStat) {
    && V.MatchesTenant(s.tenant) && V.IsTelemetry(s.signal) && s.bytes >= 0 && s.documents >= 0
    && s.indices != [] && NonEmptyTexts(s.indices) && (s.digest.Some? ==> V.MatchesDigest(s.digest.value))
  }

  predicate RetentionOk(r: Retention) {
    V.MatchesTenant(r.tenant) && r.logs >= 0 && r.metrics >= 0 && r.traces >= 0
  }

  predicate QueryOk(q: QueryStat) {
    V.MatchesTenant(q.tenant) && q.count >= 0 && NonEmptyTexts(q.indices)
  }

  predicate InputsOk(inputs: Inputs) {
    && (forall s :: s in inputs.ingest ==> IngestOk(s))
    && (forall r :: r in inputs.retentions ==> RetentionOk(r))
    && (forall q :: q in inputs.queries ==> QueryOk(q))
  }

  /** A day and its successor, a collection time and a version. */
  predicate RunOk(run: Run, clock: V.Clock) {
    && V.IsDate(run.window.day) && V.IsDate(run.window.next)
    && var from, to := clock(WindowStart(run.window)), clock(WindowEnd(run.window));
    && (from.Some? && to.Some? ==> from.value < to.value)
    && V.MatchesDatetime(run.collectedAt) && run.version != ""
  }

  lemma BoundaryMatches(day: string)
    requires V.IsDate(day)
    ensures V.MatchesDatetime(day + "T00:00:00Z") && (day + "T00:00:00Z")[..10] == day
  {
    var s := day + "T00:00:00Z";
    assert s[..10] == day && s[10..19] == "T00:00:00" && s[19..] == "Z";
    assert V.Unterminated(s) == s;
  }

  predicate ReferenceOk(r: Reference) {
    || (r.sourceType == V.AGGREGATION && r.indices.Some? && r.indices.value != [] && NonEmptyTexts(r.indices.value)
        && r.count.Some? && r.count.value >= 0 && (r.digest.Some? ==> V.MatchesDigest(r.digest.value)) && r.field.None?)
    || (r.sourceType == V.DESCRIPTOR && r.indices.None? && r.count.None? && r.digest.None? && r.field.Some? && r.field.value != "")
  }

  lemma ReferenceConforms(r: Reference)
    requires ReferenceOk(r)
    ensures V.ReferenceConforms(V.Mapping(ReferenceDocument(r)))
  {
    hide V.MatchesDigest;
    var fields := ReferenceDocument(r);
    if r.indices.Some? {
      var xs := Texts(r.indices.value);
      forall i | 0 <= i < |xs| ensures V.IsNonEmptyText(xs[i]) {
      }
      assert V.IsIndexList(V.List(xs));
    }
  }

  predicate NonNegative(n: Number) {
    (n.Whole? ==> n.i >= 0) && (n.Decimal? ==> n.r >= 0.0)
  }

  /** A record of the run, with a value and a reference its dimension allows. */
  predicate RecordOk(run: Run, r: UsageRecord) {
    && r == Record(run, r.tenant, r.dimension, r.signal, r.value, r.unit, r.reference)
    && V.MatchesTenant(r.tenant) && V.IsDimension(r.dimension) && V.AllowsSignal(r.dimension, r.signal)
    && r.unit == V.UnitOf(r.dimension) && NonNegative(r.value)
    && (r.dimension == V.ACTIVE ==> r.value == Whole(0) || r.value == Whole(1))
    && ReferenceOk(r.reference)
  }

  function NumberField(n: Number): V.Any {
    match n
    case Whole(i) => V.Int(i)
    case Decimal(d) => V.Float(d)
  }

  lemma DocumentFields(r: UsageRecord)
    ensures var d := ToDocument(r);
            && d.Keys == V.REQUIRED
            && d["record_id"] == V.Str(r.id) && d["tenant_id"] == V.Str(r.tenant) && d["dimension"] == V.Str(r.dimension)
            && d["signal"] == V.Str(r.signal) && d["value"] == NumberField(r.value) && d["unit"] == V.Str(r.unit)
            && d["window_start"] == V.Str(r.start) && d["window_end"] == V.Str(r.end)
            && d["source_reference"] == V.Mapping(ReferenceDocument(r.reference))
            && d["collected_at"] == V.Str(r.collectedAt) && d["collector_version"] == V.Str(r.version)
  {
    hide ReferenceDocument;
  }

  lemma RecordConforms(run: Run, r: UsageRecord, clock: V.Clock)
    requires RunOk(run, clock) && RecordOk(run, r)
    ensures V.Conforms(ToDocument(r), clock)
  {
    hide V.MatchesTenant, V.IsDimension, V.AllowsSignal, V.UnitOf, V.RecordIdOf, V.MatchesDatetime, V.ReferenceConforms;
    hide ReferenceOk, ReferenceDocument, V.IsDate, ToDocument;
    BoundaryMatches(run.window.day);
    BoundaryMatches(run.window.next);
    ReferenceConforms(r.reference);
    DocumentFields(r);
  }

  lemma {:induction false} NonEmptySorted(xs: seq<string>)
    requires NonEmptyTexts(xs)
    ensures NonEmptyTexts(SortBy(xs, Text)) && (xs != [] ==> SortBy(xs, Text) != [])
  {
    SortByMembers(xs, Text);
    hide SortBy;
    var sorted := SortBy(xs, Text);
    forall i | 0 <= i < |sorted| ensures sorted[i] != "" {
      assert sorted[i] in xs;
    }
  }

  lemma GigabytesNonNegative(bytes: int)
    requires bytes >= 0
    ensures Gigabytes(bytes) >= 0.0
  {
  }

  lemma IngestRecordOk(run: Run, s: IngestStat)
    requires IngestOk(s)
    ensures RecordOk(run, IngestRecord(run, s))
  {
    hide V.MatchesTenant, V.MatchesDigest, Gigabytes, SortBy, V.RecordIdOf;
    NonEmptySorted(s.indices);
    GigabytesNonNegative(s.bytes);
  }

  lemma {:induction false} IngestRecordsOk(run: Run, stats: seq<IngestStat>)
    requires forall s :: s in stats ==> IngestOk(s)
    ensures forall r :: r in RecordsOf(run, stats) ==> RecordOk(run, r)
  {
    hide IngestOk, RecordOk, IngestRecord;
    if stats != [] {
      IngestRecordOk(run, stats[0]);
      IngestRecordsOk(run, stats[1..]);
    }
  }

  lemma RetentionRecordOk(run: Run, r: Retention, signal: string)
    requires RetentionOk(r) && V.IsTelemetry(signal)
    ensures RecordOk(run, RetentionRecord(run, r, signal))
  {
    hide V.MatchesTenant, V.RecordIdOf;
    assert DescriptorField(signal) != "";
    hide DescriptorField;
  }

  lemma {:induction false} RetentionRecordsOk(run: Run, retentions: seq<Retention>)
    requires forall r :: r in retentions ==> RetentionOk(r)
    ensures forall r :: r in RetentionsOf(run, retentions) ==> RecordOk(run, r)
  {
    hide RetentionOk, RecordOk, RetentionRecord;
    if retentions != [] {
      RetentionRecordOk(run, retentions[0], "logs");
      RetentionRecordOk(run, retentions[0], "metrics");
      RetentionRecordOk(run, retentions[0], "traces");
      RetentionRecordsOk(run, retentions[1..]);
    }
  }

  lemma {:induction false} DocumentsNonNegative(stats: seq<IngestStat>, tenant: string)
    requires forall s :: s in stats ==> s.documents >= 0
    ensures DocumentsOf(stats, tenant) >= 0
  {
    if stats != [] {
      DocumentsNonNegative(stats[..|stats| - 1], tenant);
    }
  }

  lemma CitedNonEmpty(inputs: Inputs, tenant: string)
    requires InputsOk(inputs)
    ensures forall x :: x in IndicesOf(inputs, tenant) ==> x != ""
  {
    hide V.MatchesTenant, V.IsTelemetry, V.MatchesDigest, RetentionOk;
    forall x | x in IndicesOf(inputs, tenant) ensures x != "" {
    }
  }

  lemma MarkerOk(run: Run, tenant: string, count: int, found: set<string>)
    requires V.MatchesTenant(tenant) && count >= 0 && forall x :: x in found ==> x != ""
    ensures RecordOk(run, ActivityMarker(run, tenant, count, found))
  {
    hide V.MatchesTenant, V.RecordIdOf;
    if found != {} {
      var sorted := Sorted(found, false);
      forall i | 0 <= i < |sorted| ensures sorted[i] != "" {
        assert sorted[i] in found;
      }
      assert |sorted| > 0;
    }
  }

  lemma ActivityRecordOk(run: Run, inputs: Inputs, tenant: string)
    requires InputsOk(inputs) && V.MatchesTenant(tenant)
    ensures RecordOk(run, ActivityRecord(run, inputs, tenant))
  {
    CitedNonEmpty(inputs, tenant);
    DocumentsNonNegative(inputs.ingest, tenant);
    hide V.MatchesTenant, V.IsTelemetry, V.MatchesDigest, RetentionOk, DocumentsOf, IndicesOf, RecordOk, ActivityMarker, IngestOk, NonEmptyTexts;
    MarkerOk(run, tenant, DocumentsOf(inputs.ingest, tenant) + QueriesOf(inputs.queries, tenant), IndicesOf(inputs, tenant));
  }

  lemma QueryRecordOk(run: Run, queries: seq<QueryStat>, tenant: string)
    requires V.MatchesTenant(tenant) && forall q :: q in queries ==> QueryOk(q)
    ensures RecordOk(run, QueryRecord(run, queries, tenant))
  {
    hide V.MatchesTenant, V.RecordIdOf, SortBy;
    var stat := QueryOf(queries, tenant);
    if stat.Some? {
      NonEmptySorted(stat.value.indices);
    }
    assert AuditIndex(run) != "";
  }

  lemma KnownIsTenant(inputs: Inputs, tenant: string)
    requires InputsOk(inputs) && tenant in Known(inputs)
    ensures V.MatchesTenant(tenant)
  {
    hide V.MatchesTenant;
  }

  lemma BuildMember(run: Run, inputs: Inputs, r: UsageRecord)
    requires r in Build(run, inputs)
    ensures || r in IngestRecords(run, inputs.ingest) || r in RetentionRecords(run, inputs.retentions)
            || (exists t :: t in Known(inputs) && (r == ActivityRecord(run, inputs, t) || r == QueryRecord(run, inputs.queries, t)))
  {
    hide SortBy, IngestRecords, RetentionRecords, ActivityRecord, QueryRecord, Known;
    SortByMembers(Unsorted(run, inputs), RecordKey);
    var tenants := Tenants(inputs);
    var activity, volume := ActivityRecords(run, inputs, tenants), QueryRecords(run, inputs.queries, tenants);
    if r in activity {
      var i :| 0 <= i < |activity| && activity[i] == r;
      assert tenants[i] in Known(inputs);
    } else if r in volume {
      var i :| 0 <= i < |volume| && volume[i] == r;
      assert tenants[i] in Known(inputs);
    }
  }

  /** Every record of well-formed inputs passes the validator. */
  lemma EveryRecordValid(run: Run, inputs: Inputs, clock: V.Clock, r: UsageRecord)
    requires RunOk(run, clock) && InputsOk(inputs) && r in Build(run, inputs)
    ensures V.ValidateRecord(ToDocument(r), clock) == []
  {
    hide RunOk, RecordOk, IngestOk, RetentionOk, QueryOk, V.MatchesTenant, Known, Build, SortBy, ActivityRecord, QueryRecord;
    hide RecordsOf, RetentionsOf, V.ValidateRecord, V.Conforms;
    SortByMembers(inputs.ingest, IngestKey);
    IngestRecordsOk(run, SortBy(inputs.ingest, IngestKey));
    SortByMembers(inputs.retentions, RetentionKey);
    RetentionRecordsOk(run, SortBy(inputs.retentions, RetentionKey));
    BuildMember(run, inputs, r);
    if t :| t in Known(inputs) && (r == ActivityRecord(run, inputs, t) || r == QueryRecord(run, inputs.queries, t)) {
      KnownIsTenant(inputs, t);
      ActivityRecordOk(run, inputs, t);
      QueryRecordOk(run, inputs.queries, t);
    }
    RecordConforms(run, r, clock);
    V.ValidIff(ToDocument(r), clock);
  }

  // ----- distinct keys ------------------------------------------------------------------------------

  /** No two positions share a key. */
  ghost predicate Apart<T>(xs: seq<T>, key: T -> seq<string>) {
    forall i, j :: 0 <= i < j < |xs| ==> key(xs[i]) != key(xs[j])
  }

  lemma ApartAppend<T>(a: seq<T>, b: seq<T>, key: T -> seq<string>)
    ensures Apart(a + b, key) <==>
            Apart(a, key) && Apart(b, key) && forall i, j :: 0 <= i < |a| && 0 <= j < |b| ==> key(a[i]) != key(b[j])
  {
    var all := a + b;
    if Apart(all, key) {
      forall i, j | 0 <= i < j < |a| ensures key(a[i]) != key(a[j]) {
        assert all[i] == a[i] && all[j] == a[j];
      }
      forall i, j | 0 <= i < j < |b| ensures key(b[i]) != key(b[j]) {
        assert all[|a| + i] == b[i] && all[|a| + j] == b[j];
      }
      forall i, j | 0 <= i < |a| && 0 <= j < |b| ensures key(a[i]) != key(b[j]) {
        assert all[i] == a[i] && all[|a| + j] == b[j];
      }
    }
  }

  lemma {:induction false} TwoPlaces<T>(xs: seq<T>, x: T) returns (i: nat, j: nat)
    requires multiset(xs)[x] >= 2
    ensures i < j < |xs| && xs[i] == x == xs[j]
    decreases |xs|
  {
    assert xs == [xs[0]] + xs[1..];
    if xs[0] == x {
      assert x in multiset(xs[1..]);
      var k :| 0 <= k < |xs[1..]| && xs[1..][k] == x;
      i, j := 0, k + 1;
    } else {
      var i1, j1 := TwoPlaces(xs[1..], x);
      i, j := i1 + 1, j1 + 1;
    }
  }

  lemma TwiceCounted<T>(xs: seq<T>, i: nat, j: nat)
    requires i < j < |xs| && xs[i] == xs[j]
    ensures multiset(xs)[xs[i]] >= 2
  {
    assert xs == xs[..i] + [xs[i]] + xs[i + 1..];
    assert xs[j] in xs[i + 1..] by {
      assert xs[i + 1..][j - i - 1] == xs[j];
    }
  }

  lemma ApartPermutes<T>(xs: seq<T>, ys: seq<T>, key: T -> seq<string>)
    requires multiset(xs) == multiset(ys) && Apart(xs, key)
    ensures Apart(ys, key)
  {
    forall y | y in ys ensures y in xs {
      assert y in multiset(ys);
    }
    forall i, j | 0 <= i < j < |ys| && ys[i] == ys[j] ensures false {
      TwiceCounted(ys, i, j);
      var k, l := TwoPlaces(xs, ys[i]);
    }
    forall i, j | 0 <= i < j < |ys| ensures key(ys[i]) != key(ys[j]) {
      assert ys[i] in xs && ys[j] in xs;
    }
  }

  lemma SortedApartIff<T>(xs: seq<T>, key: T -> seq<string>, order: T -> seq<string>)
    ensures Apart(SortBy(xs, order), key) <==> Apart(xs, key)
  {
    hide Apart;
    if Apart(xs, key) {
      ApartPermutes(xs, SortBy(xs, order), key);
    }
    if Apart(SortBy(xs, order), key) {
      ApartPermutes(SortBy(xs, order), xs, key);
    }
  }

  lemma ApartIsKeysApart<T(!new)>(xs: seq<T>, key: T -> seq<string>)
    requires Apart(xs, key)
    ensures KeysApart(xs, key)
  {
    forall x, y | x in xs && y in xs && key(x) == key(y) ensures x == y {
      var i :| 0 <= i < |xs| && xs[i] == x;
      var j :| 0 <= j < |xs| && xs[j] == y;
      assert i == j;
    }
  }

  // ----- record ids ----------------------------------------------------------------------------------

  function IdOf(r: UsageRecord): seq<string> {
    [r.id]
  }

  predicate NoColon(s: string) {
    ':' !in s
  }

  lemma FirstPart(a: string, x: string, b: string, y: string)
    requires NoColon(a) && NoColon(b) && a + ":" + x == b + ":" + y
    ensures a == b && x == y
  {
    var s, t := a + ":" + x, b + ":" + y;
    assert s[|a|] == ':' && t[|b|] == ':';
    assert forall k :: 0 <= k < |a| ==> s[k] == a[k] && a[k] in a;
    assert forall k :: 0 <= k < |b| ==> t[k] == b[k] && b[k] in b;
    assert |a| == |b|;
    assert s[..|a|] == a && t[..|b|] == b && s[|a| + 1..] == x && t[|b| + 1..] == y;
  }

  lemma IdDetermines(t1: string, d1: string, s1: string, t2: string, d2: string, s2: string, day: string)
    requires NoColon(t1) && NoColon(t2) && NoColon(d1) && NoColon(d2)
    requires V.RecordIdOf(t1, d1, s1, day) == V.RecordIdOf(t2, d2, s2, day)
    ensures t1 == t2 && d1 == d2 && s1 == s2
  {
    assert V.RecordIdOf(t1, d1, s1, day) == t1 + ":" + (d1 + ":" + (s1 + ":" + day));
    assert V.RecordIdOf(t2, d2, s2, day) == t2 + ":" + (d2 + ":" + (s2 + ":" + day));
    FirstPart(t1, d1 + ":" + (s1 + ":" + day), t2, d2 + ":" + (s2 + ":" + day));
    FirstPart(d1, s1 + ":" + day, d2, s2 + ":" + day);
    var a, b := s1 + ":" + day, s2 + ":" + day;
    assert |s1| == |s2|;
    assert a[..|s1|] == s1 && b[..|s2|] == s2;
  }

  /** The id of a record is that of its tenant, dimension and signal. */
  predicate Identified(run: Run, r: UsageRecord) {
    r.id == V.RecordIdOf(r.tenant, r.dimension, r.signal, run.window.day) && NoColon(r.tenant) && V.IsDimension(r.dimension)
  }

  ghost predicate AllIdentified(run: Run, records: seq<UsageRecord>, dimension: string) {
    forall i :: 0 <= i < |records| ==> Identified(run, records[i]) && records[i].dimension == dimension
  }

  lemma DimensionPlain(dimension: string)
    requires V.IsDimension(dimension)
    ensures NoColon(dimension)
  {
  }

  lemma SameIdIff(run: Run, a: UsageRecord, b: UsageRecord)
    requires Identified(run, a) && Identified(run, b)
    ensures a.id == b.id <==> a.tenant == b.tenant && a.dimension == b.dimension && a.signal == b.signal
  {
    DimensionPlain(a.dimension);
    DimensionPlain(b.dimension);
    hide V.RecordIdOf, NoColon;
    if a.id == b.id {
      IdDetermines(a.tenant, a.dimension, a.signal, b.tenant, b.dimension, b.signal, run.window.day);
    }
  }

  predicate PlainTenants(inputs: Inputs) {
    && (forall s :: s in inputs.ingest ==> NoColon(s.tenant))
    && (forall r :: r in inputs.retentions ==> NoColon(r.tenant))
    && (forall q :: q in inputs.queries ==> NoColon(q.tenant))
  }

  lemma {:induction false} IngestIdsIff(run: Run, stats: seq<IngestStat>)
    requires forall s :: s in stats ==> NoColon(s.tenant)
    ensures AllIdentified(run, RecordsOf(run, stats), V.INGEST)
    ensures Apart(RecordsOf(run, stats), IdOf) <==> Apart(stats, IngestKey)
  {
    IngestAt(run, stats);
    hide RecordsOf, IngestRecord;
    var records := RecordsOf(run, stats);
    forall i | 0 <= i < |records| ensures Identified(run, records[i]) && records[i].dimension == V.INGEST {
      IngestIdentity(run, stats[i]);
    }
    forall i, j | 0 <= i < |records| && 0 <= j < |records| ensures records[i].id == records[j].id <==> IngestKey(stats[i]) == IngestKey(stats[j]) {
      IngestIdentity(run, stats[i]);
      IngestIdentity(run, stats[j]);
      SameIdIff(run, records[i], records[j]);
    }
  }

  lemma {:induction false} IngestAt(run: Run, stats: seq<IngestStat>)
    ensures forall i :: 0 <= i < |stats| ==> RecordsOf(run, stats)[i] == IngestRecord(run, stats[i])
  {
    hide IngestRecord;
    if stats != [] {
      IngestAt(run, stats[1..]);
    }
  }

  lemma IngestIdentity(run: Run, s: IngestStat)
    requires NoColon(s.tenant)
    ensures var r := IngestRecord(run, s);
            Identified(run, r) && r.dimension == V.INGEST && r.tenant == s.tenant && r.signal == s.signal
  {
    hide V.RecordIdOf, SortBy, Gigabytes;
  }

  lemma ThreeApart(run: Run, r: Retention)
    requires NoColon(r.tenant)
    ensures AllIdentified(run, ThreeRecords(run, r), V.RETENTION) && Apart(ThreeRecords(run, r), IdOf)
    ensures forall i :: 0 <= i < 3 ==> ThreeRecords(run, r)[i].tenant == r.tenant
  {
    hide V.RecordIdOf, NoColon, DescriptorField;
    var three := ThreeRecords(run, r);
    SameIdIff(run, three[0], three[1]);
    SameIdIff(run, three[0], three[2]);
    SameIdIff(run, three[1], three[2]);
  }

  /** A record of some descriptor. */
  ghost predicate FromDescriptor(run: Run, retentions: seq<Retention>, r: UsageRecord) {
    Identified(run, r) && r.dimension == V.RETENTION && exists d :: d in retentions && r.tenant == d.tenant
  }

  lemma FromOne(run: Run, retentions: seq<Retention>, r: UsageRecord)
    requires retentions != [] && NoColon(retentions[0].tenant) && r in ThreeRecords(run, retentions[0])
    ensures FromDescriptor(run, retentions, r)
  {
    hide ThreeRecords, Identified, NoColon;
    ThreeApart(run, retentions[0]);
    var i :| 0 <= i < |ThreeRecords(run, retentions[0])| && ThreeRecords(run, retentions[0])[i] == r;
    ThreeLong(run, retentions[0]);
    assert retentions[0] in retentions;
  }

  /** The tenants of the records are those of the descriptors, each with a logs record. */
  lemma {:induction false} RetentionTenants(run: Run, retentions: seq<Retention>)
    requires forall r :: r in retentions ==> NoColon(r.tenant)
    ensures forall r :: r in RetentionsOf(run, retentions) ==> FromDescriptor(run, retentions, r)
    ensures forall d :: d in retentions ==> RetentionRecord(run, d, "logs") in RetentionsOf(run, retentions)
  {
    hide RetentionRecord, NoColon, ThreeRecords, Identified;
    if retentions != [] {
      RetentionTenants(run, retentions[1..]);
      ThreeLong(run, retentions[0]);
      forall r | r in RetentionsOf(run, retentions) ensures FromDescriptor(run, retentions, r) {
        if r in ThreeRecords(run, retentions[0]) {
          FromOne(run, retentions, r);
        } else {
          var d :| d in retentions[1..] && r.tenant == d.tenant;
          assert d in retentions;
        }
      }
    }
  }

  lemma RetentionIdentified(run: Run, retentions: seq<Retention>)
    requires forall r :: r in retentions ==> NoColon(r.tenant)
    ensures AllIdentified(run, RetentionsOf(run, retentions), V.RETENTION)
  {
    hide Identified, NoColon, RetentionsOf;
    RetentionTenants(run, retentions);
    var records := RetentionsOf(run, retentions);
    forall i | 0 <= i < |records| ensures Identified(run, records[i]) && records[i].dimension == V.RETENTION {
      assert records[i] in records;
    }
  }

  lemma {:induction false} RetentionIdsIff(run: Run, retentions: seq<Retention>)
    requires forall r :: r in retentions ==> NoColon(r.tenant)
    ensures Apart(RetentionsOf(run, retentions), IdOf) <==> Apart(retentions, RetentionKey)
  {
    hide NoColon, ThreeRecords, Apart, AllIdentified;
    if retentions != [] {
      var head, rest := ThreeRecords(run, retentions[0]), RetentionsOf(run, retentions[1..]);
      ThreeApart(run, retentions[0]);
      RetentionIdsIff(run, retentions[1..]);
      ApartAppend(head, rest, IdOf);
      ConsApartIff(retentions);
      if later :| later in retentions[1..] && later.tenant == retentions[0].tenant {
        HeadApartOnlyWhen(run, retentions, later);
      } else {
        HeadApartWhen(run, retentions);
      }
    } else {
      assert Apart<UsageRecord>([], IdOf) && Apart<Retention>([], RetentionKey) by {
        NothingApart();
      }
    }
  }

  lemma NothingApart()
    ensures Apart<UsageRecord>([], IdOf) && Apart<Retention>([], RetentionKey)
  {
  }

  lemma ConsApartIff(retentions: seq<Retention>)
    requires retentions != []
    ensures Apart(retentions, RetentionKey) <==>
            Apart(retentions[1..], RetentionKey) && forall r :: r in retentions[1..] ==> r.tenant != retentions[0].tenant
  {
    var later := retentions[1..];
    if Apart(retentions, RetentionKey) {
      forall i, j | 0 <= i < j < |later| ensures RetentionKey(later[i]) != RetentionKey(later[j]) {
        assert later[i] == retentions[i + 1] && later[j] == retentions[j + 1];
      }
      forall r | r in later ensures r.tenant != retentions[0].tenant {
        var k :| 0 <= k < |later| && later[k] == r;
        assert RetentionKey(retentions[0]) != RetentionKey(retentions[k + 1]);
      }
    }
    if Apart(later, RetentionKey) && forall r :: r in later ==> r.tenant != retentions[0].tenant {
      forall i, j | 0 <= i < j < |retentions| ensures RetentionKey(retentions[i]) != RetentionKey(retentions[j]) {
        assert retentions[j] == later[j - 1] && later[j - 1] in later;
        if i > 0 {
          assert retentions[i] == later[i - 1];
        }
      }
    }
  }

  /** Whether a record of the first descriptor shares an id with a later one. */
  ghost predicate HeadApart(run: Run, retentions: seq<Retention>)
    requires retentions != []
  {
    var head, rest := ThreeRecords(run, retentions[0]), RetentionsOf(run, retentions[1..]);
    forall i, j :: 0 <= i < |head| && 0 <= j < |rest| ==> IdOf(head[i]) != IdOf(rest[j])
  }

  lemma HeadApartWhen(run: Run, retentions: seq<Retention>)
    requires retentions != [] && forall r :: r in retentions ==> NoColon(r.tenant)
    requires forall r :: r in retentions[1..] ==> r.tenant != retentions[0].tenant
    ensures HeadApart(run, retentions)
  {
    hide NoColon, RetentionRecord, ThreeRecords, RetentionsOf, Identified;
    var head, rest := ThreeRecords(run, retentions[0]), RetentionsOf(run, retentions[1..]);
    ThreeApart(run, retentions[0]);
    RetentionTenants(run, retentions[1..]);
    assert |head| == 3 by {
      ThreeLong(run, retentions[0]);
    }
    forall i, j | 0 <= i < |head| && 0 <= j < |rest| ensures IdOf(head[i]) != IdOf(rest[j]) {
      assert rest[j] in rest && FromDescriptor(run, retentions[1..], rest[j]);
      SameIdIff(run, head[i], rest[j]);
    }
  }

  lemma ThreeLong(run: Run, r: Retention)
    ensures |ThreeRecords(run, r)| == 3 && ThreeRecords(run, r)[0] == RetentionRecord(run, r, "logs")
  {
  }

  lemma HeadApartOnlyWhen(run: Run, retentions: seq<Retention>, later: Retention)
    requires retentions != [] && NoColon(retentions[0].tenant) && (forall r :: r in retentions[1..] ==> NoColon(r.tenant))
    requires later in retentions[1..] && later.tenant == retentions[0].tenant
    ensures !HeadApart(run, retentions)
  {
    hide NoColon, RetentionRecord, ThreeRecords, RetentionsOf, Identified, AllIdentified;
    var rest := RetentionsOf(run, retentions[1..]);
    RetentionTenants(run, retentions[1..]);
    var theirs := RetentionRecord(run, later, "logs");
    var k :| 0 <= k < |rest| && rest[k] == theirs;
    ThreeLong(run, retentions[0]);
    LogsRecord(run, retentions[0]);
    LogsRecord(run, later);
    assert IdOf(ThreeRecords(run, retentions[0])[0]) == IdOf(rest[k]);
  }

  lemma LogsRecord(run: Run, r: Retention)
    ensures RetentionRecord(run, r, "logs").id == V.RecordIdOf(r.tenant, V.RETENTION, "logs", run.window.day)
  {
    hide V.RecordIdOf;
  }

  lemma KnownPlain(inputs: Inputs)
    requires PlainTenants(inputs)
    ensures forall i :: 0 <= i < |Tenants(inputs)| ==> NoColon(Tenants(inputs)[i])
  {
    hide NoColon;
    forall i | 0 <= i < |Tenants(inputs)| ensures NoColon(Tenants(inputs)[i]) {
      assert Tenants(inputs)[i] in Known(inputs);
    }
  }

  /** Records of one dimension, one for each of some distinct tenants. */
  lemma PlatformApart(run: Run, records: seq<UsageRecord>, tenants: seq<string>, dimension: string)
    requires |records| == |tenants| && V.IsDimension(dimension)
    requires forall i :: 0 <= i < |tenants| ==>
               && NoColon(tenants[i]) && records[i].tenant == tenants[i] && records[i].dimension == dimension
               && records[i].id == V.RecordIdOf(tenants[i], dimension, records[i].signal, run.window.day)
    requires forall i, j :: 0 <= i < j < |tenants| ==> tenants[i] != tenants[j]
    ensures AllIdentified(run, records, dimension) && Apart(records, IdOf)
  {
    hide V.RecordIdOf, NoColon, V.IsDimension;
    forall i, j | 0 <= i < j < |records| ensures records[i].id != records[j].id {
      SameIdIff(run, records[i], records[j]);
    }
  }

  lemma ActivityApart(run: Run, inputs: Inputs)
    requires PlainTenants(inputs)
    ensures AllIdentified(run, ActivityRecords(run, inputs, Tenants(inputs)), V.ACTIVE) && Apart(ActivityRecords(run, inputs, Tenants(inputs)), IdOf)
  {
    hide NoColon, V.RecordIdOf, IndicesOf, DocumentsOf, Apart, AllIdentified, PlainTenants;
    KnownPlain(inputs);
    PlatformApart(run, ActivityRecords(run, inputs, Tenants(inputs)), Tenants(inputs), V.ACTIVE);
  }

  lemma VolumeApart(run: Run, inputs: Inputs)
    requires PlainTenants(inputs)
    ensures AllIdentified(run, QueryRecords(run, inputs.queries, Tenants(inputs)), V.QUERIES) && Apart(QueryRecords(run, inputs.queries, Tenants(inputs)), IdOf)
  {
    hide NoColon, V.RecordIdOf, SortBy, Apart, AllIdentified, PlainTenants;
    KnownPlain(inputs);
    PlatformApart(run, QueryRecords(run, inputs.queries, Tenants(inputs)), Tenants(inputs), V.QUERIES);
  }

  ghost predicate OtherDimension(run: Run, records: seq<UsageRecord>, dimensions: set<string>) {
    forall i :: 0 <= i < |records| ==> Identified(run, records[i]) && records[i].dimension in dimensions
  }

  lemma DimensionsApart(run: Run, a: seq<UsageRecord>, early: set<string>, b: seq<UsageRecord>, c: string)
    requires OtherDimension(run, a, early) && AllIdentified(run, b, c) && c !in early
    ensures Apart(a + b, IdOf) <==> Apart(a, IdOf) && Apart(b, IdOf)
    ensures OtherDimension(run, a + b, early + {c})
  {
    hide Identified, Apart;
    ApartAppend(a, b, IdOf);
    forall i, j | 0 <= i < |a| && 0 <= j < |b| ensures IdOf(a[i]) != IdOf(b[j]) {
      SameIdIff(run, a[i], b[j]);
    }
  }

  /** Record ids are distinct exactly when no two ingest statistics share a tenant and a
      signal and no two descriptors share a tenant, whatever the query statistics repeat. */
  lemma IdsDistinctIff(run: Run, inputs: Inputs)
    requires PlainTenants(inputs)
    ensures Apart(Build(run, inputs), IdOf) <==> Apart(inputs.ingest, IngestKey) && Apart(inputs.retentions, RetentionKey)
  {
    hide Apart, RecordsOf, RetentionsOf, ActivityRecords, QueryRecords, SortBy, NoColon, Identified, AllIdentified, OtherDimension, Tenants;
    var stats, retentions := SortBy(inputs.ingest, IngestKey), SortBy(inputs.retentions, RetentionKey);
    var ingest, retention := RecordsOf(run, stats), RetentionsOf(run, retentions);
    var activity, volume := ActivityRecords(run, inputs, Tenants(inputs)), QueryRecords(run, inputs.queries, Tenants(inputs));
    assert Apart(ingest, IdOf) <==> Apart(inputs.ingest, IngestKey) by {
      SortByMembers(inputs.ingest, IngestKey);
      IngestIdsIff(run, stats);
      SortedApartIff(inputs.ingest, IngestKey, IngestKey);
    }
    assert Apart(retention, IdOf) <==> Apart(inputs.retentions, RetentionKey) by {
      SortByMembers(inputs.retentions, RetentionKey);
      RetentionIdsIff(run, retentions);
      SortedApartIff(inputs.retentions, RetentionKey, RetentionKey);
    }
    ActivityApart(run, inputs);
    VolumeApart(run, inputs);
    AllIdentifiedFirst(run, inputs);
    DimensionsApart(run, ingest, {V.INGEST}, retention, V.RETENTION);
    assert {V.INGEST} + {V.RETENTION} == {V.INGEST, V.RETENTION};
    assert {V.INGEST, V.RETENTION} + {V.ACTIVE} == {V.INGEST, V.RETENTION, V.ACTIVE};
    DimensionsApart(run, ingest + retention, {V.INGEST, V.RETENTION}, activity, V.ACTIVE);
    DimensionsApart(run, ingest + retention + activity, {V.INGEST, V.RETENTION, V.ACTIVE}, volume, V.QUERIES);
    SortedApartIff(Unsorted(run, inputs), IdOf, RecordKey);
  }

  lemma AllIdentifiedFirst(run: Run, inputs: Inputs)
    requires PlainTenants(inputs)
    ensures OtherDimension(run, RecordsOf(run, SortBy(inputs.ingest, IngestKey)), {V.INGEST})
    ensures AllIdentified(run, RetentionsOf(run, SortBy(inputs.retentions, RetentionKey)), V.RETENTION)
  {
    hide SortBy, NoColon, RecordsOf, RetentionsOf, Identified;
    SortByMembers(inputs.ingest, IngestKey);
    SortByMembers(inputs.retentions, RetentionKey);
    IngestIdsIff(run, SortBy(inputs.ingest, IngestKey));
    RetentionIdentified(run, SortBy(inputs.retentions, RetentionKey));
  }

  // ----- input order is forgotten -----------------------------------------------------------------------

  /** The same reports in another order. */
  ghost predicate Shuffled(a: Inputs, b: Inputs) {
    multiset(a.ingest) == multiset(b.ingest) && multiset(a.retentions) == multiset(b.retentions) && multiset(a.queries) == multiset(b.queries)
  }

  lemma SameMembers<T>(a: seq<T>, b: seq<T>)
    requires multiset(a) == multiset(b)
    ensures forall x :: x in a <==> x in b
  {
    forall x ensures x in a <==> x in b {
      assert x in a <==> x in multiset(a);
      assert x in b <==> x in multiset(b);
    }
  }

  lemma {:induction false} DocumentsAreTotal(stats: seq<IngestStat>, tenant: string)
    ensures DocumentsOf(stats, tenant) as real == InvoiceLaws.Total(stats, (s: IngestStat) => DocumentsIn(s, tenant) as real)
  {
    var f := (s: IngestStat) => DocumentsIn(s, tenant) as real;
    if stats != [] {
      var early, last := stats[..|stats| - 1], stats[|stats| - 1];
      assert stats == early + [last];
      DocumentsAreTotal(early, tenant);
      InvoiceLaws.TotalSnoc(early, last, f);
    }
  }

  lemma SameDocuments(a: seq<IngestStat>, b: seq<IngestStat>, tenant: string)
    requires multiset(a) == multiset(b)
    ensures DocumentsOf(a, tenant) == DocumentsOf(b, tenant)
  {
    DocumentsAreTotal(a, tenant);
    DocumentsAreTotal(b, tenant);
    InvoiceLaws.TotalPermuted(a, b, (s: IngestStat) => DocumentsIn(s, tenant) as real);
  }

  lemma SameQuery(a: seq<QueryStat>, b: seq<QueryStat>, tenant: string)
    requires multiset(a) == multiset(b) && Apart(a, QueryKey)
    ensures QueryOf(a, tenant) == QueryOf(b, tenant)
  {
    hide QueryOf;
    SameMembers(a, b);
    ApartIsKeysApart(a, QueryKey);
  }

  lemma SameTenantRecords(run: Run, a: Inputs, b: Inputs, tenant: string)
    requires Shuffled(a, b) && Apart(a.queries, QueryKey)
    ensures ActivityRecord(run, a, tenant) == ActivityRecord(run, b, tenant)
    ensures QueryRecord(run, a.queries, tenant) == QueryRecord(run, b.queries, tenant)
  {
    hide QueryOf, DocumentsOf, ActivityMarker, VolumeRecord;
    SameQuery(a.queries, b.queries, tenant);
    SameDocuments(a.ingest, b.ingest, tenant);
    SameMembers(a.ingest, b.ingest);
    assert IndicesOf(a, tenant) == IndicesOf(b, tenant);
  }

  lemma SameTenants(a: Inputs, b: Inputs)
    requires Shuffled(a, b)
    ensures Tenants(a) == Tenants(b)
  {
    SameMembers(a.ingest, b.ingest);
    SameMembers(a.retentions, b.retentions);
    SameMembers(a.queries, b.queries);
    assert Known(a) == Known(b);
  }

  /** When no source repeats itself, the order of its reports does not matter. */
  lemma OrderForgotten(run: Run, a: Inputs, b: Inputs)
    requires Shuffled(a, b) && Apart(a.ingest, IngestKey) && Apart(a.retentions, RetentionKey) && Apart(a.queries, QueryKey)
    ensures Build(run, a) == Build(run, b)
  {
    hide SortBy, RecordsOf, RetentionsOf, ActivityRecord, QueryRecord, Apart, Tenants, KeysApart;
    ApartIsKeysApart(a.ingest, IngestKey);
    ApartIsKeysApart(a.retentions, RetentionKey);
    SortForgetsOrder(a.ingest, b.ingest, IngestKey);
    SortForgetsOrder(a.retentions, b.retentions, RetentionKey);
    SameTenants(a, b);
    forall i | 0 <= i < |Tenants(a)|
      ensures ActivityRecord(run, a, Tenants(a)[i]) == ActivityRecord(run, b, Tenants(b)[i])
      ensures QueryRecord(run, a.queries, Tenants(a)[i]) == QueryRecord(run, b.queries, Tenants(b)[i])
    {
      SameTenantRecords(run, a, b, Tenants(a)[i]);
    }
    assert ActivityRecords(run, a, Tenants(a)) == ActivityRecords(run, b, Tenants(b));
    assert QueryRecords(run, a.queries, Tenants(a)) == QueryRecords(run, b.queries, Tenants(b));
  }

  // ----- every tenant is accounted for once -----------------------------------------------------------------

  predicate IsOf(r: UsageRecord, tenant: string, dimension: string) {
    r.tenant == tenant && r.dimension == dimension
  }

  /** The records of one tenant and dimension, in order. */
  function Only(records: seq<UsageRecord>, tenant: string, dimension: string): seq<UsageRecord> {
    if records == [] then []
    else (if IsOf(records[0], tenant, dimension) then [records[0]] else []) + Only(records[1..], tenant, dimension)
  }

  lemma {:induction false} OnlyAppend(a: seq<UsageRecord>, b: seq<UsageRecord>, tenant: string, dimension: string)
    ensures Only(a + b, tenant, dimension) == Only(a, tenant, dimension) + Only(b, tenant, dimension)
  {
    hide IsOf;
    if a == [] {
      assert a + b == b;
    } else {
      assert (a + b)[1..] == a[1..] + b && (a + b)[0] == a[0];
      OnlyAppend(a[1..], b, tenant, dimension);
      var first := if IsOf(a[0], tenant, dimension) then [a[0]] else [];
      var mine, theirs := Only(a[1..], tenant, dimension), Only(b, tenant, dimension);
      assert Only(a, tenant, dimension) == first + mine;
      assert Only(a + b, tenant, dimension) == first + Only(a[1..] + b, tenant, dimension);
      assert first + (mine + theirs) == (first + mine) + theirs;
    }
  }

  lemma {:induction false} OnlyCounts(records: seq<UsageRecord>, tenant: string, dimension: string, r: UsageRecord)
    ensures multiset(Only(records, tenant, dimension))[r] == if IsOf(r, tenant, dimension) then multiset(records)[r] else 0
  {
    hide IsOf;
    if records != [] {
      assert records == [records[0]] + records[1..];
      OnlyCounts(records[1..], tenant, dimension, r);
    }
  }

  lemma OnlyPermutes(a: seq<UsageRecord>, b: seq<UsageRecord>, tenant: string, dimension: string)
    requires multiset(a) == multiset(b)
    ensures multiset(Only(a, tenant, dimension)) == multiset(Only(b, tenant, dimension))
  {
    hide Only, IsOf;
    var x, y := multiset(Only(a, tenant, dimension)), multiset(Only(b, tenant, dimension));
    forall r ensures x[r] == y[r] {
      OnlyCounts(a, tenant, dimension, r);
      OnlyCounts(b, tenant, dimension, r);
    }
  }

  lemma {:induction false} OnlyNone(records: seq<UsageRecord>, tenant: string, dimension: string)
    requires forall i :: 0 <= i < |records| ==> !IsOf(records[i], tenant, dimension)
    ensures Only(records, tenant, dimension) == []
  {
    if records != [] {
      OnlyNone(records[1..], tenant, dimension);
    }
  }

  lemma OnlyOne(records: seq<UsageRecord>, k: nat, tenant: string, dimension: string)
    requires k < |records| && IsOf(records[k], tenant, dimension)
    requires forall i :: 0 <= i < |records| && i != k ==> !IsOf(records[i], tenant, dimension)
    ensures Only(records, tenant, dimension) == [records[k]]
  {
    var a, b := records[..k], records[k + 1..];
    assert records == a + ([records[k]] + b);
    hide IsOf;
    OnlyNone(a, tenant, dimension);
    OnlyNone(b, tenant, dimension);
    OnlyAppend(a, [records[k]] + b, tenant, dimension);
    OnlyAppend([records[k]], b, tenant, dimension);
    assert [records[k]][1..] == [];
    assert Only([records[k]], tenant, dimension) == [records[k]];
  }

  lemma SingleOf<T>(xs: seq<T>, x: T)
    requires multiset(xs) == multiset{x}
    ensures xs == [x]
  {
    assert |multiset(xs)| == 1;
    assert xs[0] in multiset(xs);
  }

  lemma {:induction false} EarlyDimensions(run: Run, inputs: Inputs)
    ensures forall r :: r in IngestRecords(run, inputs.ingest) ==> r.dimension == V.INGEST
    ensures forall r :: r in RetentionRecords(run, inputs.retentions) ==> r.dimension == V.RETENTION
  {
    hide SortBy;
    IngestDimension(run, SortBy(inputs.ingest, IngestKey));
    RetentionDimension(run, SortBy(inputs.retentions, RetentionKey));
  }

  lemma {:induction false} IngestDimension(run: Run, stats: seq<IngestStat>)
    ensures forall r :: r in RecordsOf(run, stats) ==> r.dimension == V.INGEST
  {
    hide V.RecordIdOf, SortBy, Gigabytes;
    if stats != [] {
      IngestDimension(run, stats[1..]);
    }
  }

  lemma {:induction false} RetentionDimension(run: Run, retentions: seq<Retention>)
    ensures forall r :: r in RetentionsOf(run, retentions) ==> r.dimension == V.RETENTION
  {
    hide V.RecordIdOf, DescriptorField;
    if retentions != [] {
      RetentionDimension(run, retentions[1..]);
    }
  }

  lemma PlatformIdentity(run: Run, inputs: Inputs, tenant: string)
    ensures IsOf(ActivityRecord(run, inputs, tenant), tenant, V.ACTIVE)
    ensures IsOf(QueryRecord(run, inputs.queries, tenant), tenant, V.QUERIES)
    ensures ActivityRecord(run, inputs, tenant).dimension == V.ACTIVE && QueryRecord(run, inputs.queries, tenant).dimension == V.QUERIES
  {
    hide V.RecordIdOf, IndicesOf, DocumentsOf, SortBy, Sorted;
  }

  /** One record of the dimension for each of some distinct tenants. */
  lemma OnlyInList(records: seq<UsageRecord>, tenants: seq<string>, dimension: string, tenant: string)
    requires |records| == |tenants| && forall i, j :: 0 <= i < j < |tenants| ==> tenants[i] != tenants[j]
    requires forall i :: 0 <= i < |tenants| ==> IsOf(records[i], tenants[i], dimension)
    ensures tenant !in tenants ==> Only(records, tenant, dimension) == []
    ensures forall k :: 0 <= k < |tenants| && tenants[k] == tenant ==> Only(records, tenant, dimension) == [records[k]]
  {
    hide Only;
    if tenant !in tenants {
      OnlyNone(records, tenant, dimension);
    }
    forall k | 0 <= k < |tenants| && tenants[k] == tenant ensures Only(records, tenant, dimension) == [records[k]] {
      OnlyOne(records, k, tenant, dimension);
    }
  }

  lemma OnlyElsewhere(records: seq<UsageRecord>, own: string, tenant: string, dimension: string)
    requires own != dimension && forall r :: r in records ==> r.dimension == own
    ensures Only(records, tenant, dimension) == []
  {
    assert forall i :: 0 <= i < |records| ==> records[i] in records;
    OnlyNone(records, tenant, dimension);
  }

  lemma OnlyActivity(run: Run, inputs: Inputs, tenant: string)
    ensures Only(ActivityRecords(run, inputs, Tenants(inputs)), tenant, V.ACTIVE)
         == if tenant in Known(inputs) then [ActivityRecord(run, inputs, tenant)] else []
    ensures Only(ActivityRecords(run, inputs, Tenants(inputs)), tenant, V.QUERIES) == []
  {
    hide ActivityRecord, Only, IsOf;
    var tenants := Tenants(inputs);
    var records := ActivityRecords(run, inputs, tenants);
    forall i | 0 <= i < |tenants| ensures IsOf(records[i], tenants[i], V.ACTIVE) && records[i].dimension == V.ACTIVE {
      PlatformIdentity(run, inputs, tenants[i]);
    }
    OnlyInList(records, tenants, V.ACTIVE, tenant);
    OnlyElsewhere(records, V.ACTIVE, tenant, V.QUERIES);
  }

  lemma OnlyVolume(run: Run, inputs: Inputs, tenant: string)
    ensures Only(QueryRecords(run, inputs.queries, Tenants(inputs)), tenant, V.QUERIES)
         == if tenant in Known(inputs) then [QueryRecord(run, inputs.queries, tenant)] else []
    ensures Only(QueryRecords(run, inputs.queries, Tenants(inputs)), tenant, V.ACTIVE) == []
  {
    hide QueryRecord, Only, IsOf;
    var tenants := Tenants(inputs);
    var records := QueryRecords(run, inputs.queries, tenants);
    forall i | 0 <= i < |tenants| ensures IsOf(records[i], tenants[i], V.QUERIES) && records[i].dimension == V.QUERIES {
      PlatformIdentity(run, inputs, tenants[i]);
    }
    OnlyInList(records, tenants, V.QUERIES, tenant);
    OnlyElsewhere(records, V.QUERIES, tenant, V.ACTIVE);
  }

  /** Every known tenant has exactly one activity record and one query volume record, and
      no other tenant has any. */
  lemma OneEach(run: Run, inputs: Inputs, tenant: string)
    ensures Only(Build(run, inputs), tenant, V.ACTIVE) == if tenant in Known(inputs) then [ActivityRecord(run, inputs, tenant)] else []
    ensures Only(Build(run, inputs), tenant, V.QUERIES) == if tenant in Known(inputs) then [QueryRecord(run, inputs.queries, tenant)] else []
  {
    hide Known, Build, ActivityRecord, QueryRecord, Only, Unsorted;
    OnlyUnsorted(run, inputs, tenant, V.ACTIVE);
    OnlyUnsorted(run, inputs, tenant, V.QUERIES);
    OnlyActivity(run, inputs, tenant);
    OnlyVolume(run, inputs, tenant);
    assert SingleOrNone(run, inputs, tenant, V.ACTIVE) && SingleOrNone(run, inputs, tenant, V.QUERIES) by {
      OnlySorted(run, inputs, tenant, V.ACTIVE);
      OnlySorted(run, inputs, tenant, V.QUERIES);
    }
  }

  lemma OnlyUnsorted(run: Run, inputs: Inputs, tenant: string, dimension: string)
    requires dimension == V.ACTIVE || dimension == V.QUERIES
    ensures Only(Unsorted(run, inputs), tenant, dimension)
         == Only(ActivityRecords(run, inputs, Tenants(inputs)), tenant, dimension)
          + Only(QueryRecords(run, inputs.queries, Tenants(inputs)), tenant, dimension)
  {
    EarlyDimensions(run, inputs);
    hide IngestRecords, RetentionRecords, ActivityRecords, QueryRecords, Only, Tenants;
    var ingest, retention := IngestRecords(run, inputs.ingest), RetentionRecords(run, inputs.retentions);
    var activity, volume := ActivityRecords(run, inputs, Tenants(inputs)), QueryRecords(run, inputs.queries, Tenants(inputs));
    OnlyElsewhere(ingest, V.INGEST, tenant, dimension);
    OnlyElsewhere(retention, V.RETENTION, tenant, dimension);
    OnlyAppend(ingest, retention, tenant, dimension);
    OnlyAppend(ingest + retention, activity, tenant, dimension);
    OnlyAppend(ingest + retention + activity, volume, tenant, dimension);
  }

  /** Sorting keeps a lone record, or none. */
  ghost predicate SingleOrNone(run: Run, inputs: Inputs, tenant: string, dimension: string) {
    var before := Only(Unsorted(run, inputs), tenant, dimension);
    |before| <= 1 ==> Only(Build(run, inputs), tenant, dimension) == before
  }

  lemma OnlySorted(run: Run, inputs: Inputs, tenant: string, dimension: string)
    ensures SingleOrNone(run, inputs, tenant, dimension)
  {
    hide Unsorted, Only;
    var before, after := Only(Unsorted(run, inputs), tenant, dimension), Only(Build(run, inputs), tenant, dimension);
    OnlyPermutes(Unsorted(run, inputs), Build(run, inputs), tenant, dimension);
    if |before| == 1 {
      assert before == [before[0]];
      SingleOf(after, before[0]);
    } else if |before| == 0 {
      assert |multiset(after)| == 0;
    }
  }

  /** The activity marker is set exactly for a tenant that retained documents or ran queries. */
  lemma ActiveIff(run: Run, inputs: Inputs, tenant: string)
    requires InputsOk(inputs)
    ensures ActivityRecord(run, inputs, tenant).value == Whole(1) <==>
            || (exists s :: s in inputs.ingest && s.tenant == tenant && s.documents > 0)
            || (exists q :: QueryOf(inputs.queries, tenant) == Some(q) && q.count > 0)
  {
    hide V.RecordIdOf, V.MatchesTenant, Sorted, IndicesOf, QueryOf, NonEmptyTexts;
    DocumentsNonNegative(inputs.ingest, tenant);
    DocumentsPositiveIff(inputs.ingest, tenant);
  }

  lemma {:induction false} DocumentsPositiveIff(stats: seq<IngestStat>, tenant: string)
    requires forall s :: s in stats ==> s.documents >= 0
    ensures DocumentsOf(stats, tenant) > 0 <==> exists s :: s in stats && s.tenant == tenant && s.documents > 0
  {
    if stats != [] {
      var early, last := stats[..|stats| - 1], stats[|stats| - 1];
      assert stats == early + [last];
      DocumentsPositiveIff(early, tenant);
      DocumentsNonNegative(early, tenant);
    }
  }

  // ----- no query is lost --------------------------------------------------------------------------------------

  function VolumeOf(r: UsageRecord): real {
    if r.dimension == V.QUERIES && r.value.Whole? then r.value.i as real else 0.0
  }

  /** The queries all the records report. */
  function Reported(records: seq<UsageRecord>): real {
    InvoiceLaws.Total(records, VolumeOf)
  }

  /** The queries the sources counted. */
  function Counted(queries: seq<QueryStat>): int {
    if queries == [] then 0 else Counted(queries[..|queries| - 1]) + queries[|queries| - 1].count
  }

  function Attributed(queries: seq<QueryStat>, tenants: seq<string>): int {
    if tenants == [] then 0 else QueriesOf(queries, tenants[0]) + Attributed(queries, tenants[1..])
  }

  lemma {:induction false} AttributedNext(early: seq<QueryStat>, last: QueryStat, tenants: seq<string>)
    requires forall q :: q in early ==> q.tenant != last.tenant
    requires forall i, j :: 0 <= i < j < |tenants| ==> tenants[i] != tenants[j]
    ensures Attributed(early + [last], tenants) == Attributed(early, tenants) + if last.tenant in tenants then last.count else 0
  {
    if tenants != [] {
      assert (early + [last])[..|early|] == early;
      AttributedNext(early, last, tenants[1..]);
    }
  }

  lemma ApartInit(early: seq<QueryStat>, last: QueryStat)
    requires Apart(early + [last], QueryKey)
    ensures Apart(early, QueryKey) && forall q :: q in early ==> q.tenant != last.tenant
  {
    ApartAppend(early, [last], QueryKey);
    forall q | q in early ensures q.tenant != last.tenant {
      var i :| 0 <= i < |early| && early[i] == q;
      assert QueryKey(early[i]) != QueryKey([last][0]);
    }
  }

  lemma {:induction false} NothingAttributed(tenants: seq<string>)
    ensures Attributed([], tenants) == 0
  {
    if tenants != [] {
      NothingAttributed(tenants[1..]);
    }
  }

  lemma {:induction false} AttributedAll(queries: seq<QueryStat>, tenants: seq<string>)
    requires Apart(queries, QueryKey) && forall q :: q in queries ==> q.tenant in tenants
    requires forall i, j :: 0 <= i < j < |tenants| ==> tenants[i] != tenants[j]
    ensures Attributed(queries, tenants) == Counted(queries)
  {
    hide Apart;
    if queries == [] {
      NothingAttributed(tenants);
    } else {
      var early, last := queries[..|queries| - 1], queries[|queries| - 1];
      assert queries == early + [last];
      ApartInit(early, last);
      AttributedAll(early, tenants);
      AttributedNext(early, last, tenants);
    }
  }

  lemma {:induction false} NoVolume(records: seq<UsageRecord>, dimension: string)
    requires dimension != V.QUERIES && forall r :: r in records ==> r.dimension == dimension
    ensures Reported(records) == 0.0
  {
    if records != [] {
      NoVolume(records[1..], dimension);
    }
  }

  lemma {:induction false} VolumeTotal(run: Run, queries: seq<QueryStat>, tenants: seq<string>)
    ensures Reported(QueryRecords(run, queries, tenants)) == Attributed(queries, tenants) as real
  {
    if tenants != [] {
      var records := QueryRecords(run, queries, tenants);
      assert records[1..] == QueryRecords(run, queries, tenants[1..]);
      VolumeTotal(run, queries, tenants[1..]);
      VolumeIs(run, queries, tenants[0]);
    }
  }

  lemma VolumeIs(run: Run, queries: seq<QueryStat>, tenant: string)
    ensures VolumeOf(QueryRecord(run, queries, tenant)) == QueriesOf(queries, tenant) as real
  {
    hide V.RecordIdOf, SortBy, QueryOf;
  }

  lemma ActivityDimension(run: Run, inputs: Inputs)
    ensures forall r :: r in ActivityRecords(run, inputs, Tenants(inputs)) ==> r.dimension == V.ACTIVE
  {
    hide ActivityRecord, Tenants;
    var tenants := Tenants(inputs);
    var records := ActivityRecords(run, inputs, tenants);
    forall r | r in records ensures r.dimension == V.ACTIVE {
      var i :| 0 <= i < |records| && records[i] == r;
      PlatformIdentity(run, inputs, tenants[i]);
    }
  }

  lemma TenantsCover(inputs: Inputs)
    ensures forall q :: q in inputs.queries ==> q.tenant in Tenants(inputs)
    ensures forall i, j :: 0 <= i < j < |Tenants(inputs)| ==> Tenants(inputs)[i] != Tenants(inputs)[j]
  {
    assert forall q :: q in inputs.queries ==> q.tenant in Known(inputs);
  }

  lemma ReportedUnsorted(run: Run, inputs: Inputs)
    ensures Reported(Unsorted(run, inputs)) == Reported(QueryRecords(run, inputs.queries, Tenants(inputs)))
  {
    EarlyDimensions(run, inputs);
    ActivityDimension(run, inputs);
    hide IngestRecords, RetentionRecords, ActivityRecords, QueryRecords, Tenants, InvoiceLaws.Total;
    var ingest, retention := IngestRecords(run, inputs.ingest), RetentionRecords(run, inputs.retentions);
    var activity, volume := ActivityRecords(run, inputs, Tenants(inputs)), QueryRecords(run, inputs.queries, Tenants(inputs));
    NoVolume(ingest, V.INGEST);
    NoVolume(retention, V.RETENTION);
    NoVolume(activity, V.ACTIVE);
    InvoiceLaws.TotalAppend(ingest, retention, VolumeOf);
    InvoiceLaws.TotalAppend(ingest + retention, activity, VolumeOf);
    InvoiceLaws.TotalAppend(ingest + retention + activity, volume, VolumeOf);
  }

  /** Every counted query is reported once, whichever tenants the other sources know. */
  lemma QueriesConserved(run: Run, inputs: Inputs)
    requires Apart(inputs.queries, QueryKey)
    ensures Reported(Build(run, inputs)) == Counted(inputs.queries) as real
  {
    hide Unsorted, SortBy, QueryRecords, Tenants, Apart, InvoiceLaws.Total, Attributed, Counted;
    TenantsCover(inputs);
    ReportedUnsorted(run, inputs);
    VolumeTotal(run, inputs.queries, Tenants(inputs));
    AttributedAll(inputs.queries, Tenants(inputs));
    InvoiceLaws.TotalPermuted(Unsorted(run, inputs), Build(run, inputs), VolumeOf);
  }
}
