/** What every usage record says about the source it was built from. */
module UsageMeaning {
  import opened Results
  import opened Ordering
  import opened UsageRecords
  import opened UsageLaws
  import Invoicing
  import InvoiceLaws
  import V = UsageValidation

  /** What all records of a run share, and the id made of tenant, dimension, signal and day. */
  predicate Stamped(run: Run, r: UsageRecord) {
    && r.id == r.tenant + ":" + r.dimension + ":" + r.signal + ":" + run.window.day
    && r.start == run.window.day + "T00:00:00Z" && r.end == run.window.next + "T00:00:00Z"
    && r.collectedAt == run.collectedAt && r.version == run.version
  }

  /** The same texts in ascending order. */
  ghost predicate SortedTexts(xs: seq<string>, sorted: seq<string>) {
    multiset(sorted) == multiset(xs) && forall i, j :: 0 <= i < j < |sorted| ==> Leq(sorted[i], sorted[j], false)
  }

  /** Bytes as gigabytes, to the nearest millionth. */
  predicate InGigabytes(bytes: int, value: Number) {
    value.Decimal? && InvoiceLaws.OnGrid(value.r)
    && -0.5 <= (value.r - bytes as real / 1000000000.0) * 1000000.0 <= 0.5
  }

  /** A record of one ingest statistic. */
  ghost predicate FromIngest(r: UsageRecord, s: IngestStat) {
    && r.dimension == "ingest_gb_per_day" && r.tenant == s.tenant && r.signal == s.signal && r.unit == "gb"
    && InGigabytes(s.bytes, r.value)
    && r.reference.sourceType == "opensearch-aggregation" && r.reference.field == None
    && r.reference.indices.Some? && SortedTexts(s.indices, r.reference.indices.value)
    && r.reference.count == Some(s.documents) && r.reference.digest == s.digest
  }

  predicate IsSignal(signal: string) {
    signal == "logs" || signal == "metrics" || signal == "traces"
  }

  /** A record of one signal's retention. */
  predicate FromRetention(r: UsageRecord, d: Retention, signal: string) {
    && r.dimension == "retention_days" && r.tenant == d.tenant && r.signal == signal && r.unit == "days"
    && ((signal == "logs" && r.value == Whole(d.logs) && r.reference.field == Some("quotas.retention.logs_days"))
        || (signal == "metrics" && r.value == Whole(d.metrics) && r.reference.field == Some("quotas.retention.metrics_days"))
        || (signal == "traces" && r.value == Whole(d.traces) && r.reference.field == Some("quotas.retention.traces_days")))
    && r.reference.sourceType == "tenant-descriptor" && r.reference.indices == None && r.reference.count == None && r.reference.digest == None
  }

  /** The indices a tenant's activity was read from: every index of its statistics and of its
      last query statistic. */
  ghost predicate Cited(inputs: Inputs, tenant: string, index: string) {
    || (exists s :: s in inputs.ingest && s.tenant == tenant && index in s.indices)
    || (QueryOf(inputs.queries, tenant).Some? && index in QueryOf(inputs.queries, tenant).value.indices)
  }

  /** A tenant's activity marker. */
  ghost predicate FromActivity(run: Run, r: UsageRecord, inputs: Inputs) {
    && r.tenant in Known(inputs) && r.dimension == "active_tenants" && r.signal == "platform" && r.unit == "count"
    && r.reference.sourceType == "opensearch-aggregation" && r.reference.digest == None && r.reference.field == None
    && r.reference.count == Some(DocumentsOf(inputs.ingest, r.tenant) + QueriesOf(inputs.queries, r.tenant))
    && r.value == Whole(if r.reference.count.value > 0 then 1 else 0)
    && r.reference.indices.Some?
    && (forall x :: Cited(inputs, r.tenant, x) ==> x in r.reference.indices.value)
    && (if exists x :: Cited(inputs, r.tenant, x) then
          (forall x :: x in r.reference.indices.value ==> Cited(inputs, r.tenant, x))
          && forall i, j :: 0 <= i < j < |r.reference.indices.value| ==>
               r.reference.indices.value[i] != r.reference.indices.value[j] && Leq(r.reference.indices.value[i], r.reference.indices.value[j], false)
        else r.reference.indices.value == ["tenant-" + r.tenant + "-*-" + run.window.suffix])
  }

  /** A tenant's query count: that of its last statistic, and zero without one. */
  ghost predicate FromQueries(run: Run, r: UsageRecord, inputs: Inputs) {
    && r.tenant in Known(inputs) && r.dimension == "query_volume" && r.signal == "platform" && r.unit == "queries"
    && r.reference.sourceType == "opensearch-aggregation" && r.reference.digest == None && r.reference.field == None
    && r.reference.indices.Some?
    && match QueryOf(inputs.queries, r.tenant)
       case Some(q) =>
         r.value == Whole(q.count) && r.reference.count == Some(q.count)
         && (if q.indices == [] then r.reference.indices.value == ["control-tenancy-audit-" + run.window.suffix]
             else SortedTexts(q.indices, r.reference.indices.value))
       case None =>
         r.value == Whole(0) && r.reference.count == Some(0) && r.reference.indices.value == ["control-tenancy-audit-" + run.window.suffix]
  }

  ghost predicate Says(run: Run, inputs: Inputs, r: UsageRecord) {
    && Stamped(run, r)
    && ((exists s :: s in inputs.ingest && FromIngest(r, s))
        || (exists d, signal :: d in inputs.retentions && FromRetention(r, d, signal))
        || FromActivity(run, r, inputs)
        || FromQueries(run, r, inputs))
  }

  // ----- the four builders -----------------------------------------------------------------------

  lemma TextsSorted(xs: seq<string>)
    ensures SortedTexts(xs, SortBy(xs, Text))
  {
    hide Leq;
    SortByAscends(xs, Text);
    var sorted := SortBy(xs, Text);
    forall i, j | 0 <= i < j < |sorted| ensures Leq(sorted[i], sorted[j], false) {
      assert TupleLeq(Text(sorted[i]), Text(sorted[j]));
      LeqTotal(sorted[i], sorted[i], false);
    }
  }

  lemma GigabytesNear(bytes: int)
    ensures InGigabytes(bytes, Decimal(Gigabytes(bytes)))
  {
    hide Invoicing.RoundUnits;
    InvoiceLaws.RoundingFacts(bytes as real / 1000000000.0);
  }

  lemma IngestSays(run: Run, s: IngestStat)
    ensures Stamped(run, IngestRecord(run, s)) && FromIngest(IngestRecord(run, s), s)
  {
    hide SortBy, Gigabytes, InGigabytes, SortedTexts;
    TextsSorted(s.indices);
    GigabytesNear(s.bytes);
  }

  lemma RetentionSays(run: Run, d: Retention, signal: string)
    requires IsSignal(signal)
    ensures Stamped(run, RetentionRecord(run, d, signal)) && FromRetention(RetentionRecord(run, d, signal), d, signal)
  {
    assert "quotas.retention." + "logs" + "_days" == "quotas.retention.logs_days";
    assert "quotas.retention." + "metrics" + "_days" == "quotas.retention.metrics_days";
    assert "quotas.retention." + "traces" + "_days" == "quotas.retention.traces_days";
  }

  lemma CitedIff(inputs: Inputs, tenant: string)
    ensures forall x :: x in IndicesOf(inputs, tenant) <==> Cited(inputs, tenant, x)
  {
  }

  lemma ActivitySays(run: Run, inputs: Inputs, tenant: string)
    requires tenant in Known(inputs)
    ensures Stamped(run, ActivityRecord(run, inputs, tenant)) && FromActivity(run, ActivityRecord(run, inputs, tenant), inputs)
  {
    hide Known, DocumentsOf, QueriesOf, IndicesOf, Cited, Leq;
    CitedIff(inputs, tenant);
    var found := IndicesOf(inputs, tenant);
    assert (exists x :: Cited(inputs, tenant, x)) <==> found != {} by {
      if found != {} {
        var x :| x in found;
        assert Cited(inputs, tenant, x);
      }
    }
  }

  lemma QueriesSay(run: Run, inputs: Inputs, tenant: string)
    requires tenant in Known(inputs)
    ensures Stamped(run, QueryRecord(run, inputs.queries, tenant)) && FromQueries(run, QueryRecord(run, inputs.queries, tenant), inputs)
  {
    hide Known, QueryOf, SortBy, SortedTexts;
    var stat := QueryOf(inputs.queries, tenant);
    if stat.Some? {
      TextsSorted(stat.value.indices);
    }
  }

  lemma {:induction false} RecordOfStat(run: Run, stats: seq<IngestStat>)
    ensures forall r :: r in RecordsOf(run, stats) <==> exists s :: s in stats && r == IngestRecord(run, s)
  {
    hide IngestRecord;
    if stats != [] {
      RecordOfStat(run, stats[1..]);
      assert stats == [stats[0]] + stats[1..];
    }
  }

  /** A record of one of the three signals of a descriptor. */
  ghost predicate OfSignal(run: Run, d: Retention, r: UsageRecord) {
    exists signal :: IsSignal(signal) && r == RetentionRecord(run, d, signal)
  }

  lemma {:induction false} RecordOfRetention(run: Run, retentions: seq<Retention>)
    ensures forall r :: r in RetentionsOf(run, retentions) <==> exists d :: d in retentions && OfSignal(run, d, r)
  {
    hide RetentionRecord, OfSignal;
    if retentions != [] {
      RecordOfRetention(run, retentions[1..]);
      assert retentions == [retentions[0]] + retentions[1..];
      ThreeSignals(run, retentions[0]);
    }
  }

  lemma ThreeSignals(run: Run, d: Retention)
    ensures forall r :: r in ThreeRecords(run, d) <==> OfSignal(run, d, r)
  {
    hide RetentionRecord;
  }

  // ----- all of them -----------------------------------------------------------------------------

  /** Every record says its source's figures, in its source's units, for the day. */
  lemma EveryRecordSays(run: Run, inputs: Inputs, r: UsageRecord)
    requires r in Build(run, inputs)
    ensures Says(run, inputs, r)
  {
    hide Stamped, FromIngest, FromRetention, FromActivity, FromQueries, Build, SortBy, RecordsOf, RetentionsOf, IngestRecord, RetentionRecord,
         ActivityRecord, QueryRecord, Known;
    BuildMember(run, inputs, r);
    SortByMembers(inputs.ingest, IngestKey);
    SortByMembers(inputs.retentions, RetentionKey);
    RecordOfStat(run, SortBy(inputs.ingest, IngestKey));
    RecordOfRetention(run, SortBy(inputs.retentions, RetentionKey));
    if r in IngestRecords(run, inputs.ingest) {
      var s :| s in SortBy(inputs.ingest, IngestKey) && r == IngestRecord(run, s);
      IngestSays(run, s);
    } else if r in RetentionRecords(run, inputs.retentions) {
      var d :| d in SortBy(inputs.retentions, RetentionKey) && OfSignal(run, d, r);
      var signal :| IsSignal(signal) && r == RetentionRecord(run, d, signal);
      RetentionSays(run, d, signal);
    } else {
      var t :| t in Known(inputs) && (r == ActivityRecord(run, inputs, t) || r == QueryRecord(run, inputs.queries, t));
      ActivitySays(run, inputs, t);
      QueriesSay(run, inputs, t);
    }
  }

  lemma BuiltFrom(run: Run, inputs: Inputs, r: UsageRecord)
    requires r in IngestRecords(run, inputs.ingest) || r in RetentionRecords(run, inputs.retentions)
    ensures r in Build(run, inputs)
  {
    hide IngestRecords, RetentionRecords, ActivityRecords, QueryRecords, Tenants, SortBy;
    SortByMembers(Unsorted(run, inputs), RecordKey);
  }

  /** And every statistic has its record, and every descriptor one for each of its signals. */
  lemma EverySourceReported(run: Run, inputs: Inputs)
    ensures forall s :: s in inputs.ingest ==> exists r :: r in Build(run, inputs) && Stamped(run, r) && FromIngest(r, s)
    ensures forall d, signal :: d in inputs.retentions && IsSignal(signal) ==>
              exists r :: r in Build(run, inputs) && Stamped(run, r) && FromRetention(r, d, signal)
  {
    hide Stamped, FromIngest, FromRetention, Build, SortBy, RecordsOf, RetentionsOf, IngestRecord, RetentionRecord;
    SortByMembers(inputs.ingest, IngestKey);
    SortByMembers(inputs.retentions, RetentionKey);
    RecordOfStat(run, SortBy(inputs.ingest, IngestKey));
    RecordOfRetention(run, SortBy(inputs.retentions, RetentionKey));
    forall s | s in inputs.ingest ensures exists r :: r in Build(run, inputs) && Stamped(run, r) && FromIngest(r, s) {
      IngestSays(run, s);
      BuiltFrom(run, inputs, IngestRecord(run, s));
    }
    forall d, signal | d in inputs.retentions && IsSignal(signal)
      ensures exists r :: r in Build(run, inputs) && Stamped(run, r) && FromRetention(r, d, signal)
    {
      RetentionSays(run, d, signal);
      assert OfSignal(run, d, RetentionRecord(run, d, signal));
      BuiltFrom(run, inputs, RetentionRecord(run, d, signal));
    }
  }
}
