/** Usage records for one day, built from what the sources report (commercialsvc:
    builder.py). Gigabytes are exact rationals rounded to six places, half to even. */
module UsageRecords {
  import opened Results
  import opened Ordering
  import Invoicing
  import V = UsageValidation

  datatype IngestStat = IngestStat(
    tenant: string, signal: string, bytes: int, documents: int, indices: seq<string>, digest: Option<string>)

  datatype Retention = Retention(tenant: string, logs: int, metrics: int, traces: int)

  datatype QueryStat = QueryStat(tenant: string, count: int, indices: seq<string>)

  /** A day, the day after it, and the day in the form index names carry. */
  datatype Window = Window(day: string, next: string, suffix: string)

  datatype Number = Whole(i: int) | Decimal(r: real)

  datatype Reference = Reference(
    sourceType: string, indices: Option<seq<string>>, count: Option<int>, digest: Option<string>, field: Option<string>)

  datatype UsageRecord = UsageRecord(
    id: string, tenant: string, dimension: string, signal: string, value: Number, unit: string,
    start: string, end: string, reference: Reference, collectedAt: string, version: string)

  /** What every record of one collection shares. */
  datatype Run = Run(window: Window, collectedAt: string, version: string)

  datatype Inputs = Inputs(ingest: seq<IngestStat>, retentions: seq<Retention>, queries: seq<QueryStat>)

  function WindowStart(w: Window): string {
    w.day + "T00:00:00Z"
  }

  function WindowEnd(w: Window): string {
    w.next + "T00:00:00Z"
  }

  function Record(run: Run, tenant: string, dimension: string, signal: string, value: Number, unit: string, reference: Reference): UsageRecord {
    UsageRecord(V.RecordIdOf(tenant, dimension, signal, run.window.day), tenant, dimension, signal, value, unit,
                WindowStart(run.window), WindowEnd(run.window), reference, run.collectedAt, run.version)
  }

  // ----- the four dimensions --------------------------------------------------------------------

  function Text(s: string): seq<string> {
    [s]
  }

  function IngestKey(s: IngestStat): seq<string> {
    [s.tenant, s.signal]
  }

  function RetentionKey(r: Retention): seq<string> {
    [r.tenant]
  }

  function QueryKey(q: QueryStat): seq<string> {
    [q.tenant]
  }

  function Gigabytes(bytes: int): real {
    Invoicing.RoundUnits(bytes as real / 1000000000.0)
  }

  function IngestRecord(run: Run, s: IngestStat): UsageRecord {
    Record(run, s.tenant, V.INGEST, s.signal, Decimal(Gigabytes(s.bytes)), "gb",
           Reference(V.AGGREGATION, Some(SortBy(s.indices, Text)), Some(s.documents), s.digest, None))
  }

  function RecordsOf(run: Run, stats: seq<IngestStat>): (records: seq<UsageRecord>)
    ensures |records| == |stats|
  {
    if stats == [] then [] else [IngestRecord(run, stats[0])] + RecordsOf(run, stats[1..])
  }

  /** `build_ingest_records`. */
  function IngestRecords(run: Run, stats: seq<IngestStat>): seq<UsageRecord> {
    RecordsOf(run, SortBy(stats, IngestKey))
  }

  const SIGNALS := ["logs", "metrics", "traces"]

  function DaysFor(r: Retention, signal: string): int {
    if signal == "logs" then r.logs else if signal == "metrics" then r.metrics else r.traces
  }

  function DescriptorField(signal: string): string {
    "quotas.retention." + signal + "_days"
  }

  function RetentionRecord(run: Run, r: Retention, signal: string): UsageRecord {
    Record(run, r.tenant, V.RETENTION, signal, Whole(DaysFor(r, signal)), "days",
           Reference(V.DESCRIPTOR, None, None, None, Some(DescriptorField(signal))))
  }

  function ThreeRecords(run: Run, r: Retention): seq<UsageRecord> {
    [RetentionRecord(run, r, "logs"), RetentionRecord(run, r, "metrics"), RetentionRecord(run, r, "traces")]
  }

  function RetentionsOf(run: Run, retentions: seq<Retention>): seq<UsageRecord> {
    if retentions == [] then [] else ThreeRecords(run, retentions[0]) + RetentionsOf(run, retentions[1..])
  }

  /** `build_retention_records`. */
  function RetentionRecords(run: Run, retentions: seq<Retention>): seq<UsageRecord> {
    RetentionsOf(run, SortBy(retentions, RetentionKey))
  }

  /** Every tenant any source reports. */
  function Known(inputs: Inputs): set<string> {
    (set s | s in inputs.ingest :: s.tenant) + (set r | r in inputs.retentions :: r.tenant) + (set q | q in inputs.queries :: q.tenant)
  }

  /** `{stat.tenant_id: stat for stat in stats}.get(tenant)`: the last one. */
  function QueryOf(queries: seq<QueryStat>, tenant: string): (r: Option<QueryStat>)
    ensures r.Some? ==> r.value in queries && r.value.tenant == tenant
    ensures r.None? ==> forall q :: q in queries ==> q.tenant != tenant
  {
    if queries == [] then None
    else
      var last := queries[|queries| - 1];
      if last.tenant == tenant then Some(last) else QueryOf(queries[..|queries| - 1], tenant)
  }

  function QueriesOf(queries: seq<QueryStat>, tenant: string): int {
    match QueryOf(queries, tenant)
    case Some(q) => q.count
    case None => 0
  }

  function DocumentsIn(s: IngestStat, tenant: string): int {
    if s.tenant == tenant then s.documents else 0
  }

  function DocumentsOf(stats: seq<IngestStat>, tenant: string): int {
    if stats == [] then 0 else DocumentsOf(stats[..|stats| - 1], tenant) + DocumentsIn(stats[|stats| - 1], tenant)
  }

  function AsSet(xs: seq<string>): set<string> {
    set x | x in xs
  }

  function IndicesOf(inputs: Inputs, tenant: string): set<string> {
    (set s, x | s in inputs.ingest && s.tenant == tenant && x in s.indices :: x)
    + match QueryOf(inputs.queries, tenant)
      case Some(q) => AsSet(q.indices)
      case None => {}
  }

  /** The activity marker: it cites what was read, or the pattern that was found empty. */
  function ActivityMarker(run: Run, tenant: string, count: int, found: set<string>): UsageRecord {
    var indices := if found == {} then ["tenant-" + tenant + "-*-" + run.window.suffix] else Sorted(found, false);
    Record(run, tenant, V.ACTIVE, "platform", Whole(if count > 0 then 1 else 0), "count",
           Reference(V.AGGREGATION, Some(indices), Some(count), None, None))
  }

  function ActivityRecord(run: Run, inputs: Inputs, tenant: string): UsageRecord {
    ActivityMarker(run, tenant, DocumentsOf(inputs.ingest, tenant) + QueriesOf(inputs.queries, tenant), IndicesOf(inputs, tenant))
  }

  function ActivityRecords(run: Run, inputs: Inputs, tenants: seq<string>): (records: seq<UsageRecord>)
    ensures |records| == |tenants|
  {
    seq(|tenants|, i requires 0 <= i < |tenants| => ActivityRecord(run, inputs, tenants[i]))
  }

  function AuditIndex(run: Run): string {
    "control-tenancy-audit-" + run.window.suffix
  }

  function VolumeRecord(run: Run, tenant: string, stat: Option<QueryStat>): UsageRecord {
    var indices := if stat.Some? && stat.value.indices != [] then SortBy(stat.value.indices, Text) else [AuditIndex(run)];
    var count := if stat.Some? then stat.value.count else 0;
    Record(run, tenant, V.QUERIES, "platform", Whole(count), "queries",
           Reference(V.AGGREGATION, Some(indices), Some(count), None, None))
  }

  function QueryRecord(run: Run, queries: seq<QueryStat>, tenant: string): UsageRecord {
    VolumeRecord(run, tenant, QueryOf(queries, tenant))
  }

  function QueryRecords(run: Run, queries: seq<QueryStat>, tenants: seq<string>): (records: seq<UsageRecord>)
    ensures |records| == |tenants|
  {
    seq(|tenants|, i requires 0 <= i < |tenants| => QueryRecord(run, queries, tenants[i]))
  }

  // ----- all of them ------------------------------------------------------------------------------

  function Tenants(inputs: Inputs): seq<string> {
    Sorted(Known(inputs), false)
  }

  function Unsorted(run: Run, inputs: Inputs): seq<UsageRecord> {
    IngestRecords(run, inputs.ingest) + RetentionRecords(run, inputs.retentions)
    + ActivityRecords(run, inputs, Tenants(inputs)) + QueryRecords(run, inputs.queries, Tenants(inputs))
  }

  function RecordKey(r: UsageRecord): seq<string> {
    [r.tenant, r.dimension, r.signal]
  }

  /** `build_usage_records`. */
  function Build(run: Run, inputs: Inputs): seq<UsageRecord> {
    SortBy(Unsorted(run, inputs), RecordKey)
  }

  // ----- the document form --------------------------------------------------------------------------

  function Texts(xs: seq<string>): seq<V.Any> {
    seq(|xs|, i requires 0 <= i < |xs| => V.Str(xs[i]))
  }

  /** `SourceReference.to_dict`. */
  function ReferenceDocument(r: Reference): map<string, V.Any> {
    map["source_type" := V.Str(r.sourceType)]
    + (if r.indices.Some? then map["indices" := V.List(Texts(r.indices.value))] else map[])
    + (if r.count.Some? then map["document_count" := V.Int(r.count.value)] else map[])
    + (if r.digest.Some? then map["content_digest" := V.Str(r.digest.value)] else map[])
    + (if r.field.Some? then map["descriptor_field" := V.Str(r.field.value)] else map[])
  }

  /** `UsageRecord.to_dict`. */
  function ToDocument(r: UsageRecord): V.Document {
    map["record_id" := V.Str(r.id), "tenant_id" := V.Str(r.tenant), "dimension" := V.Str(r.dimension), "signal" := V.Str(r.signal),
        "value" := (match r.value case Whole(i) => V.Int(i) case Decimal(d) => V.Float(d)), "unit" := V.Str(r.unit),
        "window_start" := V.Str(r.start), "window_end" := V.Str(r.end),
        "source_reference" := V.Mapping(ReferenceDocument(r.reference)),
        "collected_at" := V.Str(r.collectedAt), "collector_version" := V.Str(r.version)]
  }

  // ----- the builders as they run -----------------------------------------------------------------------

  method BuildIngestRecords(run: Run, stats: seq<IngestStat>) returns (records: seq<UsageRecord>)
    ensures records == IngestRecords(run, stats)
  {
    hide IngestRecord, SortBy;
    records := [];
    var sorted := SortBy(stats, IngestKey);
    var i := 0;
    while i < |sorted|
      invariant i <= |sorted|
      invariant records + RecordsOf(run, sorted[i..]) == RecordsOf(run, sorted)
    {
      var s := sorted[i];
      assert sorted[i..][1..] == sorted[i + 1..];
      records := records + [IngestRecord(run, s)];
      i := i + 1;
    }
  }

  method BuildRetentionRecords(run: Run, retentions: seq<Retention>) returns (records: seq<UsageRecord>)
    ensures records == RetentionRecords(run, retentions)
  {
    hide RetentionRecord, SortBy;
    records := [];
    var sorted := SortBy(retentions, RetentionKey);
    var i := 0;
    while i < |sorted|
      invariant i <= |sorted|
      invariant records + RetentionsOf(run, sorted[i..]) == RetentionsOf(run, sorted)
    {
      var three: seq<UsageRecord> := [];
      var k := 0;
      while k < |SIGNALS|
        invariant k <= 3 && |three| == k
        invariant forall n :: 0 <= n < k ==> three[n] == RetentionRecord(run, sorted[i], SIGNALS[n])
      {
        three := three + [RetentionRecord(run, sorted[i], SIGNALS[k])];
        k := k + 1;
      }
      assert three == ThreeRecords(run, sorted[i]);
      assert sorted[i..][1..] == sorted[i + 1..];
      records := records + three;
      i := i + 1;
    }
  }

  function Group(byTenant: map<string, seq<IngestStat>>, tenant: string): seq<IngestStat> {
    if tenant in byTenant then byTenant[tenant] else []
  }

  lemma GroupNext(byTenant: map<string, seq<IngestStat>>, stats: seq<IngestStat>, s: IngestStat)
    requires forall t :: Group(byTenant, t) == Own(stats, t)
    ensures forall t :: Group(byTenant[s.tenant := Group(byTenant, s.tenant) + [s]], t) == Own(stats + [s], t)
  {
    OwnNext(stats, s);
    hide Own;
    forall t ensures Group(byTenant[s.tenant := Group(byTenant, s.tenant) + [s]], t) == Own(stats + [s], t) {
      assert Group(byTenant, t) == Own(stats, t);
      assert Own(stats, t) + [] == Own(stats, t);
    }
  }

  method GroupByTenant(stats: seq<IngestStat>) returns (byTenant: map<string, seq<IngestStat>>)
    ensures forall t :: Group(byTenant, t) == Own(stats, t)
  {
    byTenant := map[];
    var i := 0;
    while i < |stats|
      invariant i <= |stats|
      invariant forall t :: Group(byTenant, t) == Own(stats[..i], t)
    {
      hide Own, Group;
      var s := stats[i];
      GroupNext(byTenant, stats[..i], s);
      assert stats[..i + 1] == stats[..i] + [s];
      byTenant := byTenant[s.tenant := Group(byTenant, s.tenant) + [s]];
      i := i + 1;
    }
    assert stats[..i] == stats;
  }

  method BuildActivityRecords(run: Run, inputs: Inputs) returns (records: seq<UsageRecord>)
    ensures records == ActivityRecords(run, inputs, Tenants(inputs))
  {
    hide Tenants, Own, ActivityMarker;
    var tenants := Tenants(inputs);
    var byTenant := GroupByTenant(inputs.ingest);
    records := [];
    var i := 0;
    while i < |tenants|
      invariant i <= |tenants| && |records| == i
      invariant forall k :: 0 <= k < i ==> records[k] == ActivityRecord(run, inputs, tenants[k])
    {
      var t := tenants[i];
      var count, found := Tally(inputs, t, Group(byTenant, t));
      records := records + [ActivityMarker(run, t, count, found)];
      i := i + 1;
    }
  }

  /** A tenant's own statistics, in order. */
  function Own(stats: seq<IngestStat>, tenant: string): seq<IngestStat> {
    if stats == [] then []
    else Own(stats[..|stats| - 1], tenant) + if stats[|stats| - 1].tenant == tenant then [stats[|stats| - 1]] else []
  }

  lemma OwnNext(stats: seq<IngestStat>, s: IngestStat)
    ensures forall t :: Own(stats + [s], t) == Own(stats, t) + if s.tenant == t then [s] else []
  {
    assert (stats + [s])[..|stats|] == stats;
  }

  function Documents(stats: seq<IngestStat>): int {
    if stats == [] then 0 else Documents(stats[..|stats| - 1]) + stats[|stats| - 1].documents
  }

  lemma {:induction false} OwnFacts(stats: seq<IngestStat>, tenant: string)
    ensures Documents(Own(stats, tenant)) == DocumentsOf(stats, tenant)
    ensures forall s :: s in Own(stats, tenant) <==> s in stats && s.tenant == tenant
  {
    if stats != [] {
      var early, last := stats[..|stats| - 1], stats[|stats| - 1];
      OwnFacts(early, tenant);
      assert stats == early + [last];
      assert (Own(early, tenant) + [last])[..|Own(early, tenant)|] == Own(early, tenant);
      assert Own(early, tenant) + [] == Own(early, tenant);
    }
  }

  /** The counts and the indices of one tenant. */
  method Tally(inputs: Inputs, tenant: string, own: seq<IngestStat>) returns (count: int, found: set<string>)
    requires own == Own(inputs.ingest, tenant)
    ensures count == DocumentsOf(inputs.ingest, tenant) + QueriesOf(inputs.queries, tenant)
    ensures found == IndicesOf(inputs, tenant)
  {
    OwnFacts(inputs.ingest, tenant);
    OwnIndices(inputs, tenant);
    hide Own, DocumentsOf, IndicesOf;
    count, found := 0, {};
    var i := 0;
    while i < |own|
      invariant i <= |own|
      invariant count == Documents(own[..i])
      invariant found == Indices(own[..i])
    {
      assert own[..i + 1][..i] == own[..i];
      count := count + own[i].documents;
      found := found + AsSet(own[i].indices);
      i := i + 1;
    }
    assert own[..i] == own;
    var stat := QueryOf(inputs.queries, tenant);
    if stat.Some? {
      count := count + stat.value.count;
      found := found + AsSet(stat.value.indices);
    }
  }

  function Indices(stats: seq<IngestStat>): set<string> {
    if stats == [] then {} else Indices(stats[..|stats| - 1]) + AsSet(stats[|stats| - 1].indices)
  }

  lemma {:induction false} IndicesMembers(stats: seq<IngestStat>, x: string)
    ensures x in Indices(stats) <==> exists s :: s in stats && x in s.indices
  {
    if stats != [] {
      var early, last := stats[..|stats| - 1], stats[|stats| - 1];
      IndicesMembers(early, x);
      assert stats == early + [last];
    }
  }

  lemma OwnIndices(inputs: Inputs, tenant: string)
    ensures var own := Indices(Own(inputs.ingest, tenant));
            IndicesOf(inputs, tenant) == match QueryOf(inputs.queries, tenant) case Some(q) => own + AsSet(q.indices) case None => own
  {
    hide Own, Indices, QueryOf;
    OwnFacts(inputs.ingest, tenant);
    var own := Own(inputs.ingest, tenant);
    forall x ensures x in Indices(own) <==> exists s :: s in inputs.ingest && s.tenant == tenant && x in s.indices {
      IndicesMembers(own, x);
      if s :| s in inputs.ingest && s.tenant == tenant && x in s.indices {
        assert s in own;
      }
    }
    assert Indices(own) == set s, x | s in inputs.ingest && s.tenant == tenant && x in s.indices :: x;
  }

  method BuildQueryVolumeRecords(run: Run, queries: seq<QueryStat>, tenants: seq<string>) returns (records: seq<UsageRecord>)
    ensures records == QueryRecords(run, queries, tenants)
  {
    hide SortBy, VolumeRecord;
    var byTenant: map<string, QueryStat> := map[];
    var i := 0;
    while i < |queries|
      invariant i <= |queries|
      invariant forall t :: (if t in byTenant then Some(byTenant[t]) else None) == QueryOf(queries[..i], t)
    {
      assert queries[..i + 1][..i] == queries[..i];
      byTenant := byTenant[queries[i].tenant := queries[i]];
      i := i + 1;
    }
    assert queries[..i] == queries;
    records := [];
    i := 0;
    while i < |tenants|
      invariant i <= |tenants| && |records| == i
      invariant forall k :: 0 <= k < i ==> records[k] == QueryRecord(run, queries, tenants[k])
    {
      hide QueryOf;
      var t := tenants[i];
      var stat := if t in byTenant then Some(byTenant[t]) else None;
      assert stat == QueryOf(queries, t);
      records := records + [VolumeRecord(run, t, stat)];
      i := i + 1;
    }
  }

  method BuildUsageRecords(run: Run, inputs: Inputs) returns (records: seq<UsageRecord>)
    ensures records == Build(run, inputs)
  {
    hide SortBy, IngestRecords, RetentionRecords, ActivityRecords, QueryRecords, Tenants;
    var ingest := BuildIngestRecords(run, inputs.ingest);
    var retention := BuildRetentionRecords(run, inputs.retentions);
    var activity := BuildActivityRecords(run, inputs);
    var volume := BuildQueryVolumeRecords(run, inputs.queries, Tenants(inputs));
    records := SortBy(ingest + retention + activity + volume, RecordKey);
  }
}
