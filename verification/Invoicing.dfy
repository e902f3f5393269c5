/** Invoice construction (commercialsvc/invoicing.py) in exact rationals: quantities and
    units are reals, and rounding is to six places, half to even. */
module Invoicing {
  import opened Results
  import opened Ordering

  const PRECISION: real := 1000000.0
  const BLOCK: real := 1000.0

  // ----- rounding -------------------------------------------------------------------

  /** The nearest integer, halves to the even one. */
  function HalfEven(x: real): int {
    var low := x.Floor;
    var rest := x - low as real;
    if rest < 0.5 then low
    else if rest > 0.5 then low + 1
    else if low % 2 == 0 then low
    else low + 1
  }

  /** `_round_units`. */
  function RoundUnits(x: real): real {
    HalfEven(x * PRECISION) as real / PRECISION
  }

  /** `math.ceil`. */
  function Ceil(x: real): int {
    if x.Floor as real == x then x.Floor else x.Floor + 1
  }

  // ----- records and plans ---------------------------------------------------------------

  datatype Record = Record(tenant: string, dimension: string, signal: string, value: real, windowStart: string, windowEnd: string)

  datatype Plan = Plan(id: string, tier: string, base: real, ingestMax: real, retentionMax: map<string, real>, rates: map<string, real>)

  datatype InvoiceError = BadTimestamp | EmptyPeriod | NoRecords | ForeignTenant | OutsidePeriod | UnknownKey

  /** Parser of timestamps. */
  type Clock = string -> Option<int>

  type Key = (string, string)

  function KeyOf(r: Record): Key {
    (r.dimension, r.signal)
  }

  function UnitOf(dimension: string): Option<string> {
    if dimension == "ingest_gb_per_day" then Some("gb")
    else if dimension == "retention_days" then Some("days")
    else if dimension == "active_tenants" then Some("count")
    else if dimension == "query_volume" then Some("queries")
    else None
  }

  // ----- aggregation --------------------------------------------------------------------------

  function Sum(values: seq<real>): real {
    if values == [] then 0.0 else Sum(values[..|values| - 1]) + values[|values| - 1]
  }

  function Over(value: real, bound: real): real {
    if value - bound > 0.0 then value - bound else 0.0
  }

  function SumOver(values: seq<real>, bound: real): real {
    if values == [] then 0.0 else SumOver(values[..|values| - 1], bound) + Over(values[|values| - 1], bound)
  }

  function Charge(quantity: real, rate: real): real {
    quantity * rate
  }

  /** Every started block of a thousand queries. */
  function Blocks(queries: real): int {
    Ceil(queries / BLOCK)
  }

  /** The exact overage of one line, before rounding. */
  function ExactOverage(plan: Plan, key: Key, values: seq<real>): Option<real> {
    if key.0 !in plan.rates then None
    else
      var rate := plan.rates[key.0];
      if key.0 == "ingest_gb_per_day" then Some(Charge(SumOver(values, plan.ingestMax), rate))
      else if key.0 == "retention_days" then
        if key.1 !in plan.retentionMax then None else Some(Charge(SumOver(values, plan.retentionMax[key.1]), rate))
      else if key.0 == "active_tenants" then Some(Charge(Sum(values), rate))
      else Some(Charge(Blocks(Sum(values)) as real, rate))
  }

  datatype Line = Line(dimension: string, signal: string, quantity: real, unit: string, overage: real, count: nat)

  function LineFor(plan: Plan, key: Key, values: seq<real>): Result<Line, InvoiceError> {
    if ExactOverage(plan, key, values).None? || UnitOf(key.0).None? then Err(UnknownKey)
    else Ok(Line(key.0, key.1, RoundUnits(Sum(values)), UnitOf(key.0).value, RoundUnits(ExactOverage(plan, key, values).value), |values|))
  }

  /** The keys of the grouped records, in the order they first appear. */
  function Keys(records: seq<Record>): (keys: seq<Key>)
    ensures forall k :: k in keys <==> exists i :: 0 <= i < |records| && KeyOf(records[i]) == k
    ensures forall i, j :: 0 <= i < j < |keys| ==> keys[i] != keys[j]
  {
    if records == [] then []
    else
      var last := records[|records| - 1];
      var before := Keys(records[..|records| - 1]);
      assert records == records[..|records| - 1] + [last];
      if KeyOf(last) in before then before else before + [KeyOf(last)]
  }

  /** The values of one group, in record order. */
  function Values(records: seq<Record>, key: Key): seq<real> {
    if records == [] then []
    else
      var last := records[|records| - 1];
      Values(records[..|records| - 1], key) + if KeyOf(last) == key then [last.value] else []
  }

  function SortKey(key: Key): seq<string> {
    [key.0, key.1]
  }

  function Lines(plan: Plan, records: seq<Record>, keys: seq<Key>): (r: Result<seq<Line>, InvoiceError>)
    ensures r.Ok? ==> |r.value| == |keys|
  {
    if keys == [] then Ok([])
    else
      var before :- Lines(plan, records, keys[..|keys| - 1]);
      var line :- LineFor(plan, keys[|keys| - 1], Values(records, keys[|keys| - 1]));
      Ok(before + [line])
  }

  function SumOverage(lines: seq<Line>): real {
    if lines == [] then 0.0 else SumOverage(lines[..|lines| - 1]) + lines[|lines| - 1].overage
  }

  // ----- invoices -----------------------------------------------------------------------------------

  datatype Invoice = Invoice(
    tenant: string, planId: string, tier: string, periodStart: string, periodEnd: string,
    lines: seq<Line>, base: real, overage: real, total: real)

  function CheckRecord(clock: Clock, tenant: string, start: int, end: int, r: Record): Option<InvoiceError> {
    if r.tenant != tenant then Some(ForeignTenant)
    else if clock(r.windowStart).None? || clock(r.windowEnd).None? then Some(BadTimestamp)
    else if clock(r.windowStart).value < start || clock(r.windowEnd).value > end then Some(OutsidePeriod)
    else None
  }

  /** The first record that is refused decides the error. */
  function CheckRecords(clock: Clock, tenant: string, start: int, end: int, records: seq<Record>): Option<InvoiceError> {
    if records == [] then None
    else
      var first := CheckRecords(clock, tenant, start, end, records[..|records| - 1]);
      if first.Some? then first else CheckRecord(clock, tenant, start, end, records[|records| - 1])
  }

  /** `build_invoice`. */
  function Build(clock: Clock, tenant: string, plan: Plan, records: seq<Record>, periodStart: string, periodEnd: string): Result<Invoice, InvoiceError> {
    var start, end := clock(periodStart), clock(periodEnd);
    if start.None? || end.None? then Err(BadTimestamp)
    else if end.value <= start.value then Err(EmptyPeriod)
    else if records == [] then Err(NoRecords)
    else
      var refused := CheckRecords(clock, tenant, start.value, end.value, records);
      if refused.Some? then Err(refused.value)
      else
        var lines :- Lines(plan, records, SortBy(Keys(records), SortKey));
        var overage := RoundUnits(SumOverage(lines));
        Ok(Invoice(tenant, plan.id, plan.tier, periodStart, periodEnd, lines, plan.base, overage, RoundUnits(plan.base + overage)))
  }

  /** `ensure_invoice_consistent`, for a document of the right shape. */
  predicate Consistent(i: Invoice) {
    && i.tenant != ""
    && i.lines != []
    && RoundUnits(i.overage) == RoundUnits(SumOverage(i.lines))
    && RoundUnits(i.total) == RoundUnits(i.base + RoundUnits(SumOverage(i.lines)))
  }

  // ----- as it runs ----------------------------------------------------------------------------------------

  /** Records grouped by dimension and signal, as an insertion-ordered dict holds them. */
  method Group(records: seq<Record>) returns (order: seq<Key>, grouped: map<Key, seq<Record>>)
    ensures order == Keys(records)
    ensures grouped.Keys == set k | k in order
    ensures forall k :: k in order ==> ValuesOf(grouped[k]) == Values(records, k)
  {
    order, grouped := [], map[];
    var i := 0;
    while i < |records|
      invariant 0 <= i <= |records|
      invariant order == Keys(records[..i])
      invariant grouped.Keys == set k | k in order
      invariant forall k :: k in order ==> ValuesOf(grouped[k]) == Values(records[..i], k)
    {
      var record := records[i];
      var key := KeyOf(record);
      assert records[..i + 1][..i] == records[..i];
      NoValues(records[..i], key);
      if key in grouped {
        ValuesAppend(grouped[key], record);
        grouped := grouped[key := grouped[key] + [record]];
      } else {
        order := order + [key];
        ValuesAppend([], record);
        grouped := grouped[key := [record]];
      }
      i := i + 1;
    }
    assert records[..i] == records;
  }

  function ValuesOf(records: seq<Record>): (values: seq<real>)
    ensures |values| == |records|
  {
    seq(|records|, i requires 0 <= i < |records| => records[i].value)
  }

  lemma ValuesAppend(records: seq<Record>, record: Record)
    ensures ValuesOf(records + [record]) == ValuesOf(records) + [record.value]
    ensures ValuesOf([record]) == [record.value]
  {
  }

  lemma {:induction false} NoValues(records: seq<Record>, key: Key)
    ensures key !in Keys(records) ==> Values(records, key) == []
  {
    if records != [] {
      NoValues(records[..|records| - 1], key);
    }
  }

  method CheckAll(clock: Clock, tenant: string, start: int, end: int, records: seq<Record>) returns (refused: Option<InvoiceError>)
    ensures refused == CheckRecords(clock, tenant, start, end, records)
  {
    var i := 0;
    while i < |records|
      invariant 0 <= i <= |records|
      invariant CheckRecords(clock, tenant, start, end, records[..i]).None?
    {
      assert records[..i + 1][..i] == records[..i];
      var first := CheckRecord(clock, tenant, start, end, records[i]);
      if first.Some? {
        FirstRefusal(clock, tenant, start, end, records, i + 1);
        return first;
      }
      i := i + 1;
    }
    assert records[..i] == records;
    refused := None;
  }

  lemma {:induction false} FirstRefusal(clock: Clock, tenant: string, start: int, end: int, records: seq<Record>, n: nat)
    requires n <= |records| && CheckRecords(clock, tenant, start, end, records[..n]).Some?
    ensures CheckRecords(clock, tenant, start, end, records) == CheckRecords(clock, tenant, start, end, records[..n])
    decreases |records|
  {
    if n < |records| {
      var before := records[..|records| - 1];
      assert before[..n] == records[..n];
      FirstRefusal(clock, tenant, start, end, before, n);
    } else {
      assert records[..n] == records;
    }
  }

  /** `build_invoice`: group, then one line per key in sorted order. */
  method BuildInvoice(clock: Clock, tenant: string, plan: Plan, records: seq<Record>, periodStart: string, periodEnd: string)
      returns (r: Result<Invoice, InvoiceError>)
    ensures r == Build(clock, tenant, plan, records, periodStart, periodEnd)
  {
    hide LineFor, CheckRecords, Keys, Values, RoundUnits, SumOverage, SortBy;
    var start, end := clock(periodStart), clock(periodEnd);
    if start.None? || end.None? {
      return Err(BadTimestamp);
    }
    if end.value <= start.value {
      return Err(EmptyPeriod);
    }
    if records == [] {
      return Err(NoRecords);
    }
    var refused := CheckAll(clock, tenant, start.value, end.value, records);
    if refused.Some? {
      return Err(refused.value);
    }
    var lines := BuildLines(plan, records);
    if lines.Err? {
      return Err(lines.error);
    }
    var overage := RoundUnits(SumOverage(lines.value));
    r := Ok(Invoice(tenant, plan.id, plan.tier, periodStart, periodEnd, lines.value, plan.base, overage, RoundUnits(plan.base + overage)));
  }

  method BuildLines(plan: Plan, records: seq<Record>) returns (r: Result<seq<Line>, InvoiceError>)
    ensures r == Lines(plan, records, SortBy(Keys(records), SortKey))
  {
    hide LineFor, Keys, Values, SortBy;
    var order, grouped := Group(records);
    var sorted := SortBy(order, SortKey);
    SortByMembers(order, SortKey);
    var lines: seq<Line> := [];
    var i := 0;
    while i < |sorted|
      invariant 0 <= i <= |sorted|
      invariant Lines(plan, records, sorted[..i]) == Ok(lines)
    {
      var key := sorted[i];
      assert sorted[..i + 1][..i] == sorted[..i];
      assert key in sorted;
      var line := LineFor(plan, key, ValuesOf(grouped[key]));
      if line.Err? {
        LinesStop(plan, records, sorted, i + 1);
        return Err(line.error);
      }
      lines := lines + [line.value];
      i := i + 1;
    }
    assert sorted[..i] == sorted;
    r := Ok(lines);
  }

  lemma {:induction false} LinesStop(plan: Plan, records: seq<Record>, keys: seq<Key>, n: nat)
    requires n <= |keys| && Lines(plan, records, keys[..n]).Err?
    ensures Lines(plan, records, keys) == Lines(plan, records, keys[..n])
    decreases |keys|
  {
    if n < |keys| {
      var before := keys[..|keys| - 1];
      assert before[..n] == keys[..n];
      LinesStop(plan, records, before, n);
    } else {
      assert keys[..n] == keys;
    }
  }
}
