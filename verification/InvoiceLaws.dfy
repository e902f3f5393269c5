/** Invoice arithmetic: rounding bounds, conservation of counts, independence of record
    order, and consistency of every built document. */
module InvoiceLaws {
  import opened Results
  import opened Ordering
  import opened Invoicing

  // ----- rounding -----------------------------------------------------------------------

  lemma HalfEvenNear(x: real)
    ensures -0.5 <= HalfEven(x) as real - x <= 0.5
    ensures x == x.Floor as real ==> HalfEven(x) as real == x
  {
  }

  /** The distance from y to x, in millionths. */
  function Off(x: real, y: real): real {
    (x - y) * 1000000.0
  }

  predicate Near(x: real, y: real, halves: nat) {
    -(0.5 * halves as real) <= Off(x, y) <= 0.5 * halves as real
  }

  /** Error bounds add up. */
  lemma NearAdd(a: real, x: real, n: nat, b: real, y: real, m: nat)
    requires Near(a, x, n) && Near(b, y, m)
    ensures Near(a + b, x + y, n + m)
  {
    assert Off(a + b, x + y) == Off(a, x) + Off(b, y);
  }

  predicate OnGrid(x: real) {
    (x * 1000000.0).Floor as real == x * 1000000.0
  }

  /** Rounding moves a value by at most half of a millionth, onto the grid of millionths,
      and leaves the grid alone. */
  lemma RoundingFacts(x: real)
    ensures Near(RoundUnits(x), x, 1)
    ensures OnGrid(RoundUnits(x))
    ensures OnGrid(x) ==> RoundUnits(x) == x
  {
    var n := HalfEven(x * 1000000.0);
    HalfEvenNear(x * 1000000.0);
    assert RoundUnits(x) * 1000000.0 == n as real;
    assert (n as real).Floor == n;
  }

  lemma RoundTwice(x: real)
    ensures RoundUnits(RoundUnits(x)) == RoundUnits(x)
  {
    hide RoundUnits, OnGrid, Near;
    RoundingFacts(x);
    RoundingFacts(RoundUnits(x));
  }

  lemma GridSum(x: real, y: real)
    requires OnGrid(x) && OnGrid(y)
    ensures OnGrid(x + y)
  {
    var n, m := (x * 1000000.0).Floor, (y * 1000000.0).Floor;
    assert (x + y) * 1000000.0 == (n + m) as real;
    assert ((n + m) as real).Floor == n + m;
  }

  // ----- query blocks ---------------------------------------------------------------------

  /** The billed blocks are the least number of thousands that reaches the total. */
  lemma BlocksAreLeast(total: real, n: int)
    ensures Blocks(total) as real * 1000.0 >= total
    ensures n as real * 1000.0 >= total ==> n >= Blocks(total)
  {
    if n as real * 1000.0 >= total {
      assert n as real >= total / 1000.0;
    }
  }

  // ----- order independence --------------------------------------------------------------------

  function Total<T>(xs: seq<T>, f: T -> real): real {
    if xs == [] then 0.0 else f(xs[0]) + Total(xs[1..], f)
  }

  lemma {:induction false} TotalAppend<T>(a: seq<T>, b: seq<T>, f: T -> real)
    ensures Total(a + b, f) == Total(a, f) + Total(b, f)
  {
    if a == [] {
      assert a + b == b;
    } else {
      assert (a + b)[0] == a[0] && (a + b)[1..] == a[1..] + b;
      TotalAppend(a[1..], b, f);
    }
  }

  function Without<T>(xs: seq<T>, i: nat): seq<T>
    requires i < |xs|
  {
    xs[..i] + xs[i + 1..]
  }

  lemma WithoutMultiset<T>(xs: seq<T>, i: nat)
    requires i < |xs|
    ensures multiset(Without(xs, i)) == multiset(xs) - multiset{xs[i]}
  {
    var a, b := xs[..i], xs[i + 1..];
    assert xs == a + [xs[i]] + b;
    assert multiset(xs) == multiset(a) + multiset{xs[i]} + multiset(b);
  }

  lemma WithoutTotal<T>(xs: seq<T>, i: nat, f: T -> real)
    requires i < |xs|
    ensures Total(xs, f) == f(xs[i]) + Total(Without(xs, i), f)
  {
    var a, b := xs[..i], xs[i + 1..];
    assert xs == (a + [xs[i]]) + b;
    TotalAppend(a, b, f);
    TotalAppend(a + [xs[i]], b, f);
    TotalSnoc(a, xs[i], f);
  }

  lemma TotalSnoc<T>(xs: seq<T>, x: T, f: T -> real)
    ensures Total(xs + [x], f) == Total(xs, f) + f(x)
  {
    TotalAppend(xs, [x], f);
    assert [x][1..] == [];
  }

  lemma {:induction false} TotalPermuted<T>(xs: seq<T>, ys: seq<T>, f: T -> real)
    requires multiset(xs) == multiset(ys)
    ensures Total(xs, f) == Total(ys, f)
    decreases |xs|
  {
    assert |multiset(xs)| == |multiset(ys)|;
    if xs != [] {
      assert xs[0] in multiset(ys);
      var i :| 0 <= i < |ys| && ys[i] == xs[0];
      WithoutMultiset(xs, 0);
      WithoutMultiset(ys, i);
      WithoutTotal(xs, 0, f);
      WithoutTotal(ys, i, f);
      hide Total, Without;
      TotalPermuted(Without(xs, 0), Without(ys, i), f);
    }
  }

  function ValueIn(key: Key): Record -> real {
    (r: Record) => if KeyOf(r) == key then r.value else 0.0
  }

  function OverIn(key: Key, bound: real): Record -> real {
    (r: Record) => if KeyOf(r) == key then Over(r.value, bound) else 0.0
  }

  function OneIn(key: Key): Record -> real {
    (r: Record) => if KeyOf(r) == key then 1.0 else 0.0
  }

  /** The sums of a group as sums over all records. */
  lemma GroupTotals(records: seq<Record>, key: Key, bound: real)
    ensures Sum(Values(records, key)) == Total(records, ValueIn(key))
    ensures SumOver(Values(records, key), bound) == Total(records, OverIn(key, bound))
    ensures |Values(records, key)| as real == Total(records, OneIn(key))
  {
    GroupSum(records, key);
    GroupOver(records, key, bound);
    GroupCount(records, key);
  }

  lemma {:induction false} GroupSum(records: seq<Record>, key: Key)
    ensures Sum(Values(records, key)) == Total(records, ValueIn(key))
  {
    hide Values;
    if records == [] {
      NoGroup(key);
    } else {
      var n := |records| - 1;
      assert records == records[..n] + [records[n]];
      GroupSum(records[..n], key);
      TotalSnoc(records[..n], records[n], ValueIn(key));
      ValuesNext(records[..n], records[n], key);
      SumNext(Values(records[..n], key), records[n].value, 0.0);
    }
  }

  lemma {:induction false} GroupOver(records: seq<Record>, key: Key, bound: real)
    ensures SumOver(Values(records, key), bound) == Total(records, OverIn(key, bound))
  {
    hide Values, Over;
    if records == [] {
      NoGroup(key);
    } else {
      var n := |records| - 1;
      assert records == records[..n] + [records[n]];
      GroupOver(records[..n], key, bound);
      TotalSnoc(records[..n], records[n], OverIn(key, bound));
      ValuesNext(records[..n], records[n], key);
      SumNext(Values(records[..n], key), records[n].value, bound);
    }
  }

  lemma {:induction false} GroupCount(records: seq<Record>, key: Key)
    ensures |Values(records, key)| as real == Total(records, OneIn(key))
  {
    hide Values;
    if records == [] {
      NoGroup(key);
    } else {
      var n := |records| - 1;
      assert records == records[..n] + [records[n]];
      GroupCount(records[..n], key);
      TotalSnoc(records[..n], records[n], OneIn(key));
      ValuesNext(records[..n], records[n], key);
    }
  }

  lemma NoGroup(key: Key)
    ensures Values([], key) == []
  {
  }

  lemma ValuesNext(early: seq<Record>, last: Record, key: Key)
    ensures Values(early + [last], key) == if KeyOf(last) == key then Values(early, key) + [last.value] else Values(early, key)
  {
    assert (early + [last])[..|early|] == early;
    assert Values(early, key) + [] == Values(early, key);
  }

  lemma SumNext(values: seq<real>, value: real, bound: real)
    ensures Sum(values + [value]) == Sum(values) + value
    ensures SumOver(values + [value], bound) == SumOver(values, bound) + Over(value, bound)
  {
    assert (values + [value])[..|values|] == values;
  }

  lemma SameLine(plan: Plan, records: seq<Record>, shuffled: seq<Record>, key: Key)
    requires multiset(records) == multiset(shuffled)
    ensures LineFor(plan, key, Values(records, key)) == LineFor(plan, key, Values(shuffled, key))
  {
    hide RoundUnits, Values, Ceil, Charge, Blocks;
    var bound := if key.0 == "ingest_gb_per_day" then plan.ingestMax else if key.1 in plan.retentionMax then plan.retentionMax[key.1] else 0.0;
    GroupTotals(records, key, bound);
    GroupTotals(shuffled, key, bound);
    TotalPermuted(records, shuffled, ValueIn(key));
    TotalPermuted(records, shuffled, OverIn(key, bound));
    TotalPermuted(records, shuffled, OneIn(key));
    SameOverage(plan, key, Values(records, key), Values(shuffled, key), bound);
  }

  lemma SameOverage(plan: Plan, key: Key, a: seq<real>, b: seq<real>, bound: real)
    requires Sum(a) == Sum(b) && SumOver(a, bound) == SumOver(b, bound)
    requires key.0 == "ingest_gb_per_day" ==> bound == plan.ingestMax
    requires key.0 != "ingest_gb_per_day" && key.1 in plan.retentionMax ==> bound == plan.retentionMax[key.1]
    ensures ExactOverage(plan, key, a) == ExactOverage(plan, key, b)
  {
    hide Charge, Blocks;
  }

  lemma {:induction false} SameLines(plan: Plan, records: seq<Record>, shuffled: seq<Record>, keys: seq<Key>)
    requires multiset(records) == multiset(shuffled)
    ensures Lines(plan, records, keys) == Lines(plan, shuffled, keys)
  {
    hide LineFor, Values;
    if keys != [] {
      SameLines(plan, records, shuffled, keys[..|keys| - 1]);
      SameLine(plan, records, shuffled, keys[|keys| - 1]);
    }
  }

  lemma SameMembers<T>(xs: seq<T>, ys: seq<T>)
    requires multiset(xs) == multiset(ys)
    ensures forall x :: x in xs <==> x in ys
    ensures xs == [] <==> ys == []
  {
    assert |multiset(xs)| == |multiset(ys)|;
    forall x ensures x in xs <==> x in ys {
      assert x in multiset(xs) <==> x in multiset(ys);
    }
  }

  /** Sequences without repetition and with the same members are permutations. */
  lemma {:induction false} DistinctPermutation<T>(xs: seq<T>, ys: seq<T>)
    requires forall i, j :: 0 <= i < j < |xs| ==> xs[i] != xs[j]
    requires forall i, j :: 0 <= i < j < |ys| ==> ys[i] != ys[j]
    requires forall x :: x in xs <==> x in ys
    ensures multiset(xs) == multiset(ys)
  {
    forall x ensures multiset(xs)[x] == multiset(ys)[x] {
      OnceEach(xs, x);
      OnceEach(ys, x);
    }
  }

  lemma {:induction false} OnceEach<T>(xs: seq<T>, x: T)
    requires forall i, j :: 0 <= i < j < |xs| ==> xs[i] != xs[j]
    ensures multiset(xs)[x] == if x in xs then 1 else 0
  {
    if xs != [] {
      assert xs == [xs[0]] + xs[1..];
      OnceEach(xs[1..], x);
    }
  }

  lemma SameKeys(records: seq<Record>, shuffled: seq<Record>)
    requires multiset(records) == multiset(shuffled)
    ensures SortBy(Keys(records), SortKey) == SortBy(Keys(shuffled), SortKey)
  {
    SameMembers(records, shuffled);
    forall k ensures k in Keys(records) <==> k in Keys(shuffled) {
      if k in Keys(records) {
        var i :| 0 <= i < |records| && KeyOf(records[i]) == k;
        assert records[i] in shuffled;
      }
      if k in Keys(shuffled) {
        var i :| 0 <= i < |shuffled| && KeyOf(shuffled[i]) == k;
        assert shuffled[i] in records;
      }
    }
    DistinctPermutation(Keys(records), Keys(shuffled));
    SortKeysApart(Keys(records));
    SortForgetsOrder(Keys(records), Keys(shuffled), SortKey);
  }

  lemma SortKeysApart(keys: seq<Key>)
    ensures KeysApart(keys, SortKey)
  {
    forall x, y | x in keys && y in keys && SortKey(x) == SortKey(y) ensures x == y {
      assert SortKey(x)[0] == SortKey(y)[0] && SortKey(x)[1] == SortKey(y)[1];
    }
  }

  lemma {:induction false} RefusedIff(clock: Clock, tenant: string, start: int, end: int, records: seq<Record>)
    ensures CheckRecords(clock, tenant, start, end, records).None? <==>
            forall r :: r in records ==> CheckRecord(clock, tenant, start, end, r).None?
  {
    if records != [] {
      var n := |records| - 1;
      RefusedIff(clock, tenant, start, end, records[..n]);
      assert records == records[..n] + [records[n]];
    }
  }

  /** The document does not depend on the order of the records: it is built from one
      order exactly when it is from another, and is the same. */
  lemma OrderIrrelevant(clock: Clock, tenant: string, plan: Plan, records: seq<Record>, shuffled: seq<Record>, start: string, end: string)
    requires multiset(records) == multiset(shuffled)
    ensures Build(clock, tenant, plan, records, start, end).Ok? <==> Build(clock, tenant, plan, shuffled, start, end).Ok?
    ensures Build(clock, tenant, plan, records, start, end).Ok? ==>
              Build(clock, tenant, plan, shuffled, start, end) == Build(clock, tenant, plan, records, start, end)
  {
    hide CheckRecords, CheckRecord, Lines, Keys, RoundUnits, SumOverage, SortBy;
    SameMembers(records, shuffled);
    if clock(start).Some? && clock(end).Some? {
      RefusedIff(clock, tenant, clock(start).value, clock(end).value, records);
      RefusedIff(clock, tenant, clock(start).value, clock(end).value, shuffled);
    }
    SameKeys(records, shuffled);
    SameLines(plan, records, shuffled, SortBy(Keys(records), SortKey));
  }

  // ----- counts ---------------------------------------------------------------------------------------

  function CountIn(records: seq<Record>, keys: seq<Key>): nat {
    if keys == [] then 0 else CountIn(records, keys[..|keys| - 1]) + |Values(records, keys[|keys| - 1])|
  }

  lemma {:induction false} OneRecordMore(records: seq<Record>, r: Record, keys: seq<Key>)
    requires forall i, j :: 0 <= i < j < |keys| ==> keys[i] != keys[j]
    ensures CountIn(records + [r], keys) == CountIn(records, keys) + if KeyOf(r) in keys then 1 else 0
  {
    if keys != [] {
      var n := |keys| - 1;
      OneRecordMore(records, r, keys[..n]);
      assert (records + [r])[..|records|] == records;
      assert keys == keys[..n] + [keys[n]];
      assert KeyOf(r) in keys[..n] ==> KeyOf(r) != keys[n];
    }
  }

  lemma {:induction false} NothingCounted(keys: seq<Key>)
    ensures CountIn([], keys) == 0
  {
    if keys != [] {
      NothingCounted(keys[..|keys| - 1]);
    }
  }

  lemma {:induction false} AllCounted(records: seq<Record>, keys: seq<Key>)
    requires forall i, j :: 0 <= i < j < |keys| ==> keys[i] != keys[j]
    requires forall r :: r in records ==> KeyOf(r) in keys
    ensures CountIn(records, keys) == |records|
  {
    if records == [] {
      NothingCounted(keys);
    } else {
      var n := |records| - 1;
      assert records == records[..n] + [records[n]];
      AllCounted(records[..n], keys);
      OneRecordMore(records[..n], records[n], keys);
    }
  }

  function SourceCount(lines: seq<Line>): nat {
    if lines == [] then 0 else SourceCount(lines[..|lines| - 1]) + lines[|lines| - 1].count
  }

  lemma {:induction false} LineCounts(plan: Plan, records: seq<Record>, keys: seq<Key>)
    requires Lines(plan, records, keys).Ok?
    ensures SourceCount(Lines(plan, records, keys).value) == CountIn(records, keys)
  {
    hide RoundUnits, ExactOverage;
    if keys != [] {
      var n := |keys| - 1;
      LineCounts(plan, records, keys[..n]);
      var lines := Lines(plan, records, keys).value;
      assert lines[..n] == Lines(plan, records, keys[..n]).value;
    }
  }

  lemma SortedDistinct(keys: seq<Key>)
    requires forall i, j :: 0 <= i < j < |keys| ==> keys[i] != keys[j]
    ensures var sorted := SortBy(keys, SortKey); forall i, j :: 0 <= i < j < |sorted| ==> sorted[i] != sorted[j]
  {
    var sorted := SortBy(keys, SortKey);
    forall i, j | 0 <= i < j < |sorted| ensures sorted[i] != sorted[j] {
      if sorted[i] == sorted[j] {
        OnceEach(keys, sorted[i]);
        TwiceMore(sorted, i, j);
      }
    }
  }

  lemma TwiceMore<T>(xs: seq<T>, i: nat, j: nat)
    requires i < j < |xs| && xs[i] == xs[j]
    ensures multiset(xs)[xs[i]] >= 2
  {
    assert xs == xs[..i] + [xs[i]] + xs[i + 1..j] + [xs[j]] + xs[j + 1..];
  }

  /** Every record is counted in exactly one line. */
  lemma CountsConserved(clock: Clock, tenant: string, plan: Plan, records: seq<Record>, start: string, end: string)
    requires Build(clock, tenant, plan, records, start, end).Ok?
    ensures SourceCount(Build(clock, tenant, plan, records, start, end).value.lines) == |records|
  {
    hide CheckRecords, Lines, RoundUnits, SumOverage, SortBy, CountIn, SourceCount;
    var sorted := SortBy(Keys(records), SortKey);
    SortedDistinct(Keys(records));
    SortByMembers(Keys(records), SortKey);
    LineCounts(plan, records, sorted);
    forall r | r in records ensures KeyOf(r) in sorted {
      var i :| 0 <= i < |records| && records[i] == r;
      assert KeyOf(records[i]) in Keys(records);
    }
    AllCounted(records, sorted);
  }

  // ----- totals ---------------------------------------------------------------------------------------------

  /** The exact overage of all lines, before any rounding. */
  function ExactTotal(plan: Plan, records: seq<Record>, keys: seq<Key>): real {
    if keys == [] then 0.0
    else
      var key := keys[|keys| - 1];
      var exact := ExactOverage(plan, key, Values(records, key));
      ExactTotal(plan, records, keys[..|keys| - 1]) + if exact.Some? then exact.value else 0.0
  }

  lemma {:induction false} SumOverageNear(plan: Plan, records: seq<Record>, keys: seq<Key>)
    requires Lines(plan, records, keys).Ok?
    ensures var lines := Lines(plan, records, keys).value;
            OnGrid(SumOverage(lines)) && Near(SumOverage(lines), ExactTotal(plan, records, keys), |lines|)
  {
    hide RoundUnits, ExactOverage, LineFor, Values, OnGrid, Near, Off;
    if keys == [] {
      NothingNear();
    } else {
      var n := |keys| - 1;
      SumOverageNear(plan, records, keys[..n]);
      var lines := Lines(plan, records, keys).value;
      assert lines[..n] == Lines(plan, records, keys[..n]).value;
      var values := Values(records, keys[n]);
      LineOverage(plan, keys[n], values);
      var exact := ExactOverage(plan, keys[n], values).value;
      RoundingFacts(exact);
      GridSum(SumOverage(lines[..n]), lines[n].overage);
      NearAdd(SumOverage(lines[..n]), ExactTotal(plan, records, keys[..n]), n, lines[n].overage, exact, 1);
    }
  }

  lemma NothingNear()
    ensures OnGrid(0.0) && Near(0.0, 0.0, 0)
  {
  }

  lemma LineOverage(plan: Plan, key: Key, values: seq<real>)
    requires LineFor(plan, key, values).Ok?
    ensures ExactOverage(plan, key, values).Some?
    ensures LineFor(plan, key, values).value.overage == RoundUnits(ExactOverage(plan, key, values).value)
  {
    hide RoundUnits, ExactOverage;
  }

  /** The parts of a built document. */
  lemma BuiltParts(clock: Clock, tenant: string, plan: Plan, records: seq<Record>, start: string, end: string)
    requires Build(clock, tenant, plan, records, start, end).Ok?
    ensures var i := Build(clock, tenant, plan, records, start, end).value;
            var lines := Lines(plan, records, SortBy(Keys(records), SortKey));
            && records != [] && lines == Ok(i.lines) && i.tenant == tenant && i.base == plan.base
            && i.overage == RoundUnits(SumOverage(i.lines)) && i.total == RoundUnits(plan.base + i.overage)
  {
    hide CheckRecords, Lines, RoundUnits, SumOverage, SortBy, Keys;
  }

  lemma RestNear(sum: real, exact: real, n: nat, total: real, base: real)
    requires Near(sum, exact, n) && Near(total, base + sum, 1)
    ensures Near(total, base + exact, n + 1)
  {
    assert Off(total, base + exact) == Off(total, base + sum) + Off(sum, exact);
  }

  /** The total is within half a millionth for each line, and one half more, of the exact
      total in rationals. */
  lemma TotalNear(clock: Clock, tenant: string, plan: Plan, records: seq<Record>, start: string, end: string)
    requires Build(clock, tenant, plan, records, start, end).Ok?
    ensures var invoice := Build(clock, tenant, plan, records, start, end).value;
            var exact := plan.base + ExactTotal(plan, records, SortBy(Keys(records), SortKey));
            Near(invoice.total, exact, |invoice.lines| + 1)
  {
    hide Build, Lines, RoundUnits, SumOverage, SortBy, OnGrid, Near, Off, ExactTotal;
    BuiltParts(clock, tenant, plan, records, start, end);
    var keys := SortBy(Keys(records), SortKey);
    SumOverageNear(plan, records, keys);
    var lines := Lines(plan, records, keys).value;
    var sum := SumOverage(lines);
    RoundingFacts(sum);
    RoundingFacts(plan.base + sum);
    RestNear(sum, ExactTotal(plan, records, keys), |lines|, RoundUnits(plan.base + sum), plan.base);
  }

  /** A built document passes the consistency check exactly when it names its tenant. */
  lemma BuiltConsistentIff(clock: Clock, tenant: string, plan: Plan, records: seq<Record>, start: string, end: string)
    requires Build(clock, tenant, plan, records, start, end).Ok?
    ensures Consistent(Build(clock, tenant, plan, records, start, end).value) <==> tenant != ""
  {
    hide Build, Lines, RoundUnits, SumOverage, SortBy;
    BuiltParts(clock, tenant, plan, records, start, end);
    SortByMembers(Keys(records), SortKey);
    assert KeyOf(records[0]) in Keys(records);
    var invoice := Build(clock, tenant, plan, records, start, end).value;
    RoundTwice(SumOverage(invoice.lines));
    RoundTwice(plan.base + invoice.overage);
  }

  /** An invoice for the empty tenant id is built and does not pass, whatever the clock that
      reads its four timestamps in order. */
  lemma NamelessInvoiceFails(clock: Clock, rate: real, base: real, start: string, end: string, from: string, to: string)
    requires clock(start).Some? && clock(end).Some? && clock(from).Some? && clock(to).Some?
    requires clock(start).value < clock(end).value && clock(start).value <= clock(from).value && clock(to).value <= clock(end).value
    ensures var plan := Plan("p", "t", base, 0.0, map[], map["active_tenants" := rate]);
            var built := Build(clock, "", plan, [Record("", "active_tenants", "", 1.0, from, to)], start, end);
            built.Ok? && !Consistent(built.value)
  {
    var plan := Plan("p", "t", base, 0.0, map[], map["active_tenants" := rate]);
    var record := Record("", "active_tenants", "", 1.0, from, to);
    var records := [record];
    assert records[..0] == [];
    assert CheckRecords(clock, "", clock(start).value, clock(end).value, records) == None;
    assert Keys(records) == [KeyOf(record)];
    var keys := SortBy(Keys(records), SortKey);
    SortByMembers(Keys(records), SortKey);
    assert |keys| == 1 && keys[0] in keys && keys == [KeyOf(record)];
    assert keys[..0] == [] && Lines(plan, records, []) == Ok([]);
    assert Lines(plan, records, keys).Ok?;
    BuiltConsistentIff(clock, "", plan, records, start, end);
  }
}
