/** What an invoice charges, line by line, and for which records one is built. */
module InvoiceCharges {
  import opened Ordering
  import opened Invoicing
  import opened InvoiceLaws

  // ----- amounts, over all records --------------------------------------------------------

  /** The value of a record of the line. */
  function Amount(dimension: string, signal: string): Record -> real {
    (r: Record) => if r.dimension == dimension && r.signal == signal then r.value else 0.0
  }

  /** What a record of the line has above a bound. */
  function Excess(dimension: string, signal: string, bound: real): Record -> real {
    (r: Record) => if r.dimension == dimension && r.signal == signal && r.value > bound then r.value - bound else 0.0
  }

  /** One for every record of the line. */
  function One(dimension: string, signal: string): Record -> real {
    (r: Record) => if r.dimension == dimension && r.signal == signal then 1.0 else 0.0
  }

  lemma {:induction false} TotalAlike(records: seq<Record>, f: Record -> real, g: Record -> real)
    requires forall r :: f(r) == g(r)
    ensures Total(records, f) == Total(records, g)
  {
    if records != [] {
      TotalAlike(records[1..], f, g);
    }
  }

  lemma GroupAmounts(records: seq<Record>, key: Key, bound: real)
    ensures Sum(Values(records, key)) == Total(records, Amount(key.0, key.1))
    ensures SumOver(Values(records, key), bound) == Total(records, Excess(key.0, key.1, bound))
    ensures |Values(records, key)| as real == Total(records, One(key.0, key.1))
  {
    hide Total, Values, Sum, SumOver;
    GroupTotals(records, key, bound);
    TotalAlike(records, ValueIn(key), Amount(key.0, key.1));
    TotalAlike(records, OverIn(key, bound), Excess(key.0, key.1, bound));
    TotalAlike(records, OneIn(key), One(key.0, key.1));
  }

  /** The least number of blocks of a thousand that reaches a total. */
  predicate IsBlocks(n: int, total: real) {
    n as real * 1000.0 >= total && (n - 1) as real * 1000.0 < total
  }

  /** The exact charge of a line: ingest and retention by what every single record has above
      the plan's bound, active tenants by amount, queries by started blocks of a thousand. */
  ghost predicate Charged(plan: Plan, records: seq<Record>, dimension: string, signal: string, charge: real) {
    dimension in plan.rates
    && match dimension
       case "ingest_gb_per_day" => charge == Total(records, Excess(dimension, signal, plan.ingestMax)) * plan.rates[dimension]
       case "retention_days" =>
         signal in plan.retentionMax && charge == Total(records, Excess(dimension, signal, plan.retentionMax[signal])) * plan.rates[dimension]
       case "active_tenants" => charge == Total(records, Amount(dimension, signal)) * plan.rates[dimension]
       case "query_volume" => exists n :: IsBlocks(n, Total(records, Amount(dimension, signal))) && charge == n as real * plan.rates[dimension]
       case _ => false
  }

  lemma BlocksReach(total: real)
    ensures IsBlocks(Blocks(total), total)
  {
    BlocksAreLeast(total, Blocks(total) - 1);
  }

  lemma ChargedExactly(plan: Plan, records: seq<Record>, key: Key)
    requires ExactOverage(plan, key, Values(records, key)).Some? && UnitOf(key.0).Some?
    ensures Charged(plan, records, key.0, key.1, ExactOverage(plan, key, Values(records, key)).value)
  {
    hide Total, Values, Sum, SumOver, IsBlocks, Blocks;
    var bound := if key.0 == "ingest_gb_per_day" then plan.ingestMax else if key.1 in plan.retentionMax then plan.retentionMax[key.1] else 0.0;
    GroupAmounts(records, key, bound);
    if key.0 == "query_volume" {
      BlocksReach(Sum(Values(records, key)));
    }
  }

  /** A line is the rounded quantity, the rounded charge, and the number of its records. */
  ghost predicate LineSays(plan: Plan, records: seq<Record>, line: Line) {
    && line.quantity == RoundUnits(Total(records, Amount(line.dimension, line.signal)))
    && line.unit == (match line.dimension
                     case "ingest_gb_per_day" => "gb"
                     case "retention_days" => "days"
                     case "active_tenants" => "count"
                     case _ => "queries")
    && (exists charge :: Charged(plan, records, line.dimension, line.signal, charge) && line.overage == RoundUnits(charge))
    && line.count as real == Total(records, One(line.dimension, line.signal))
  }

  lemma LineIs(plan: Plan, records: seq<Record>, key: Key)
    requires LineFor(plan, key, Values(records, key)).Ok?
    ensures var line := LineFor(plan, key, Values(records, key)).value;
            (line.dimension, line.signal) == key && LineSays(plan, records, line)
  {
    hide Total, Values, Sum, SumOver, ExactOverage, Charged, RoundUnits;
    GroupAmounts(records, key, 0.0);
    ChargedExactly(plan, records, key);
  }

  lemma {:induction false} LinesAre(plan: Plan, records: seq<Record>, keys: seq<Key>)
    requires Lines(plan, records, keys).Ok?
    ensures var lines := Lines(plan, records, keys).value;
            forall i :: 0 <= i < |keys| ==> (lines[i].dimension, lines[i].signal) == keys[i] && LineSays(plan, records, lines[i])
  {
    hide LineFor, LineSays, Values;
    if keys != [] {
      var n := |keys| - 1;
      LinesAre(plan, records, keys[..n]);
      LineIs(plan, records, keys[n]);
      var lines := Lines(plan, records, keys).value;
      assert lines[..n] == Lines(plan, records, keys[..n]).value;
    }
  }

  // ----- the invoice -------------------------------------------------------------------------

  /** Every line of a built invoice charges its records by the plan's bounds and rates; the
      lines stand in order, one for every dimension and signal of the records. */
  lemma LinesCharge(clock: Clock, tenant: string, plan: Plan, records: seq<Record>, start: string, end: string)
    requires Build(clock, tenant, plan, records, start, end).Ok?
    ensures var invoice := Build(clock, tenant, plan, records, start, end).value;
            && (forall i :: 0 <= i < |invoice.lines| ==> LineSays(plan, records, invoice.lines[i]))
            && (forall r :: r in records ==> exists i :: 0 <= i < |invoice.lines| && KeyOf(r) == (invoice.lines[i].dimension, invoice.lines[i].signal))
            && (forall i, j :: 0 <= i < j < |invoice.lines| ==>
                  && (invoice.lines[i].dimension, invoice.lines[i].signal) != (invoice.lines[j].dimension, invoice.lines[j].signal)
                  && TupleLeq([invoice.lines[i].dimension, invoice.lines[i].signal], [invoice.lines[j].dimension, invoice.lines[j].signal]))
  {
    hide CheckRecords, Lines, RoundUnits, SumOverage, SortBy, LineSays, TupleLeq, Build;
    BuiltParts(clock, tenant, plan, records, start, end);
    var invoice := Build(clock, tenant, plan, records, start, end).value;
    var sorted := SortBy(Keys(records), SortKey);
    SortByMembers(Keys(records), SortKey);
    SortByAscends(Keys(records), SortKey);
    SortedDistinct(Keys(records));
    LinesAre(plan, records, sorted);
    forall r | r in records ensures exists i :: 0 <= i < |invoice.lines| && KeyOf(r) == (invoice.lines[i].dimension, invoice.lines[i].signal) {
      var k :| 0 <= k < |records| && records[k] == r;
      assert KeyOf(records[k]) in Keys(records);
      var i :| 0 <= i < |sorted| && sorted[i] == KeyOf(r);
    }
    forall i, j | 0 <= i < j < |invoice.lines|
      ensures TupleLeq([invoice.lines[i].dimension, invoice.lines[i].signal], [invoice.lines[j].dimension, invoice.lines[j].signal])
    {
      assert TupleLeq(SortKey(sorted[i]), SortKey(sorted[j]));
    }
  }

  /** The exact sum of the lines' overages. */
  function Overages(lines: seq<Line>): real {
    if lines == [] then 0.0 else lines[0].overage + Overages(lines[1..])
  }

  lemma {:induction false} OveragesAre(lines: seq<Line>)
    ensures SumOverage(lines) == Overages(lines)
  {
    if lines != [] {
      var n := |lines| - 1;
      OveragesAre(lines[..n]);
      OveragesSnoc(lines[..n], lines[n]);
      assert lines == lines[..n] + [lines[n]];
    }
  }

  lemma {:induction false} OveragesSnoc(lines: seq<Line>, last: Line)
    ensures Overages(lines + [last]) == Overages(lines) + last.overage
  {
    var all := lines + [last];
    if lines == [] {
      assert all[1..] == [];
    } else {
      assert all[1..] == lines[1..] + [last];
      OveragesSnoc(lines[1..], last);
    }
  }

  /** An invoice names its tenant, plan and period; its overage is the rounded sum of its lines'
      and its total that sum and the plan's base. */
  lemma InvoiceSays(clock: Clock, tenant: string, plan: Plan, records: seq<Record>, start: string, end: string)
    requires Build(clock, tenant, plan, records, start, end).Ok?
    ensures var i := Build(clock, tenant, plan, records, start, end).value;
            && i.tenant == tenant && i.planId == plan.id && i.tier == plan.tier && i.base == plan.base
            && i.periodStart == start && i.periodEnd == end
            && Near(i.overage, Overages(i.lines), 1) && OnGrid(i.overage)
            && Near(i.total, plan.base + i.overage, 1) && OnGrid(i.total)
  {
    hide CheckRecords, Lines, RoundUnits, SumOverage, SortBy, Keys, Near, OnGrid;
    BuiltParts(clock, tenant, plan, records, start, end);
    var i := Build(clock, tenant, plan, records, start, end).value;
    OveragesAre(i.lines);
    RoundingFacts(SumOverage(i.lines));
    RoundingFacts(plan.base + i.overage);
  }

  /** A record the invoice of a tenant and period can bill under a plan. */
  ghost predicate Billable(clock: Clock, tenant: string, plan: Plan, start: int, end: int, r: Record) {
    && r.tenant == tenant
    && clock(r.windowStart).Some? && clock(r.windowEnd).Some? && start <= clock(r.windowStart).value && clock(r.windowEnd).value <= end
    && r.dimension in {"ingest_gb_per_day", "retention_days", "active_tenants", "query_volume"} && r.dimension in plan.rates
    && (r.dimension == "retention_days" ==> r.signal in plan.retentionMax)
  }

  lemma LineIff(plan: Plan, key: Key, values: seq<real>)
    ensures LineFor(plan, key, values).Ok? <==>
            key.0 in {"ingest_gb_per_day", "retention_days", "active_tenants", "query_volume"} && key.0 in plan.rates
            && (key.0 == "retention_days" ==> key.1 in plan.retentionMax)
  {
    assert "ingest_gb_per_day"[0] != "retention_days"[0];
  }

  lemma {:induction false} LinesIff(plan: Plan, records: seq<Record>, keys: seq<Key>)
    ensures Lines(plan, records, keys).Ok? <==> forall k :: k in keys ==> LineFor(plan, k, Values(records, k)).Ok?
  {
    hide LineFor, Values;
    if keys != [] {
      var n := |keys| - 1;
      var last := keys[n];
      LinesIff(plan, records, keys[..n]);
      assert keys == keys[..n] + [last];
      assert (forall k :: k in keys ==> LineFor(plan, k, Values(records, k)).Ok?) <==>
             (forall k :: k in keys[..n] ==> LineFor(plan, k, Values(records, k)).Ok?) && LineFor(plan, last, Values(records, last)).Ok?;
    }
  }

  /** An invoice is built exactly for a period of positive length and at least one record, all
      of them billable. */
  lemma BuiltIff(clock: Clock, tenant: string, plan: Plan, records: seq<Record>, start: string, end: string)
    ensures Build(clock, tenant, plan, records, start, end).Ok? <==>
            && clock(start).Some? && clock(end).Some? && clock(start).value < clock(end).value && records != []
            && forall r :: r in records ==> Billable(clock, tenant, plan, clock(start).value, clock(end).value, r)
  {
    hide CheckRecords, Lines, RoundUnits, SumOverage, SortBy, LineFor, Keys;
    if clock(start).Some? && clock(end).Some? {
      RefusedIff(clock, tenant, clock(start).value, clock(end).value, records);
      SortByMembers(Keys(records), SortKey);
      var sorted := SortBy(Keys(records), SortKey);
      LinesIff(plan, records, sorted);
      KeysBillable(plan, records, sorted);
    }
  }

  lemma KeysBillable(plan: Plan, records: seq<Record>, sorted: seq<Key>)
    requires forall k :: k in sorted <==> k in Keys(records)
    ensures (forall k :: k in sorted ==> LineFor(plan, k, Values(records, k)).Ok?) <==>
            forall r :: r in records ==>
              r.dimension in {"ingest_gb_per_day", "retention_days", "active_tenants", "query_volume"} && r.dimension in plan.rates
              && (r.dimension == "retention_days" ==> r.signal in plan.retentionMax)
  {
    hide LineFor, Values;
    forall k ensures LineFor(plan, k, Values(records, k)).Ok? <==>
            k.0 in {"ingest_gb_per_day", "retention_days", "active_tenants", "query_volume"} && k.0 in plan.rates
            && (k.0 == "retention_days" ==> k.1 in plan.retentionMax)
    {
      LineIff(plan, k, Values(records, k));
    }
    forall r | r in records ensures KeyOf(r) in sorted {
      var i :| 0 <= i < |records| && records[i] == r;
      assert KeyOf(records[i]) in Keys(records);
    }
    forall k | k in sorted ensures exists r :: r in records && KeyOf(r) == k {
      var i :| 0 <= i < |records| && KeyOf(records[i]) == k;
      assert records[i] in records;
    }
  }

  /** A half is rounded to the even neighbour. */
  lemma HalvesToEven(x: real)
    ensures HalfEven(x) as real - x == 0.5 || x - HalfEven(x) as real == 0.5 ==> HalfEven(x) % 2 == 0
  {
  }

  /** A consistent invoice does not survive a change of its total or of its overage by a
      millionth or more. */
  lemma TamperingShows(i: Invoice, other: real)
    requires Consistent(i) && OnGrid(other)
    ensures OnGrid(i.total) && other != i.total ==> !Consistent(i.(total := other))
    ensures OnGrid(i.overage) && other != i.overage ==> !Consistent(i.(overage := other))
    ensures OnGrid(i.base) && OnGrid(i.total) && other != i.base ==> !Consistent(i.(base := other))
    ensures i.tenant != "" && i.lines != []
  {
    hide RoundUnits, OnGrid, SumOverage;
    var sum := RoundUnits(SumOverage(i.lines));
    RoundingFacts(other);
    RoundingFacts(i.total);
    RoundingFacts(i.overage);
    RoundingFacts(SumOverage(i.lines));
    RoundingFacts(i.base + sum);
    if OnGrid(i.base) {
      GridSum(i.base, sum);
      GridSum(other, sum);
      RoundingFacts(other + sum);
    }
  }
}
