/** Documents up to the order of their keys, which canonical emission forgets
    (`json.dumps(..., sort_keys=True)`). */
module JsonKeys {
  import opened Json
  import opened Ordering

  function FieldKey(): Field -> seq<string> {
    (f: Field) => [f.key]
  }

  /** The document with the keys of every object in ascending order. */
  function SortedKeys(j: Json): Json {
    match j
    case Arr(elements) => Arr(seq(|elements|, i requires 0 <= i < |elements| => SortedKeys(elements[i])))
    case Obj(fields) => Obj(SortBy(SortedValues(fields), FieldKey()))
    case _ => j
  }

  function SortedValues(fields: seq<Field>): (r: seq<Field>)
    ensures |r| == |fields| && forall i :: 0 <= i < |r| ==> r[i].key == fields[i].key && r[i].value == SortedKeys(fields[i].value)
  {
    seq(|fields|, i requires 0 <= i < |fields| => Field(fields[i].key, SortedKeys(fields[i].value)))
  }

  // ----- an object as a map ------------------------------------------------------------------

  /** The value of every key. */
  function Members(fields: seq<Field>): (m: map<string, Json>)
    ensures forall k :: k in m <==> HasKey(fields, k)
    ensures forall k :: k in m ==> m[k] == Get(fields, k).value
  {
    var keys := set f | f in fields :: f.key;
    assert forall k :: k in keys <==> HasKey(fields, k) by {
      forall k ensures k in keys <==> HasKey(fields, k) {
        if i :| 0 <= i < |fields| && fields[i].key == k {
          assert fields[i] in fields;
        }
      }
    }
    map k | k in keys :: Get(fields, k).value
  }

  lemma MemberIs(fields: seq<Field>, i: nat)
    requires UniqueKeys(fields) && i < |fields|
    ensures fields[i].key in Members(fields) && Members(fields)[fields[i].key] == fields[i].value
  {
    var k := IndexOf(fields, fields[i].key).value;
    assert k == i;
  }

  lemma FieldOf(fields: seq<Field>, key: string)
    requires key in Members(fields)
    ensures Field(key, Members(fields)[key]) in fields
  {
    var i :| 0 <= i < |fields| && fields[i] == Field(key, Get(fields, key).value);
  }

  lemma SameMembers(a: seq<Field>, b: seq<Field>)
    requires UniqueKeys(a) && UniqueKeys(b) && Members(a) == Members(b)
    ensures forall f :: f in a <==> f in b
  {
    forall f ensures f in a <==> f in b {
      if f in a {
        var i :| 0 <= i < |a| && a[i] == f;
        MemberIs(a, i);
        FieldOf(b, f.key);
      }
      if f in b {
        var i :| 0 <= i < |b| && b[i] == f;
        MemberIs(b, i);
        FieldOf(a, f.key);
      }
    }
  }

  lemma MembersBySet(a: seq<Field>, b: seq<Field>)
    requires UniqueKeys(a) && UniqueKeys(b) && forall f :: f in a <==> f in b
    ensures Members(a) == Members(b)
  {
    forall k ensures k in Members(a) <==> k in Members(b) {
      if k in Members(a) {
        FieldOf(a, k);
        var i :| 0 <= i < |b| && b[i] == Field(k, Members(a)[k]);
        MemberIs(b, i);
      }
      if k in Members(b) {
        FieldOf(b, k);
        var i :| 0 <= i < |a| && a[i] == Field(k, Members(b)[k]);
        MemberIs(a, i);
      }
    }
    forall k | k in Members(a) ensures Members(a)[k] == Members(b)[k] {
      FieldOf(a, k);
      var i :| 0 <= i < |b| && b[i] == Field(k, Members(a)[k]);
      MemberIs(b, i);
    }
  }

  // ----- sorting keeps the map ---------------------------------------------------------------------

  lemma {:induction false} InsertUnique(x: Field, xs: seq<Field>)
    requires UniqueKeys(xs) && forall f :: f in xs ==> f.key != x.key
    ensures UniqueKeys(Insert(x, xs, FieldKey()))
  {
    if xs != [] && !TupleLeq([x.key], [xs[0].key]) {
      InsertUnique(x, xs[1..]);
      var rest := Insert(x, xs[1..], FieldKey());
      forall f | f in rest ensures f.key != xs[0].key {
        InsertMember(x, xs[1..], FieldKey(), f);
        if f != x {
          var i :| 0 <= i < |xs[1..]| && xs[1..][i] == f;
          assert xs[i + 1] == f;
        } else {
          assert xs[0] in xs;
        }
      }
      UniqueCons(xs[0], rest);
    } else {
      UniqueCons(x, xs);
    }
  }

  lemma UniqueCons(x: Field, xs: seq<Field>)
    requires UniqueKeys(xs) && forall f :: f in xs ==> f.key != x.key
    ensures UniqueKeys([x] + xs)
  {
    var all := [x] + xs;
    forall i, j | 0 <= i < j < |all| ensures all[i].key != all[j].key {
      assert all[j] in xs;
    }
  }

  lemma {:induction false} SortByUnique(xs: seq<Field>)
    requires UniqueKeys(xs)
    ensures UniqueKeys(SortBy(xs, FieldKey()))
  {
    if xs != [] {
      SortByUnique(xs[1..]);
      var rest := SortBy(xs[1..], FieldKey());
      SortByMembers(xs[1..], FieldKey());
      forall f | f in rest ensures f.key != xs[0].key {
        var i :| 0 <= i < |xs[1..]| && xs[1..][i] == f;
        assert xs[i + 1] == f;
      }
      InsertUnique(xs[0], rest);
    }
  }

  lemma SortedFields(fields: seq<Field>)
    requires UniqueKeys(fields)
    ensures var sorted := SortBy(SortedValues(fields), FieldKey());
            && UniqueKeys(sorted) && AscendingBy(sorted, FieldKey())
            && Members(sorted) == Members(SortedValues(fields))
  {
    var values := SortedValues(fields);
    assert UniqueKeys(values);
    SortByUnique(values);
    SortByAscends(values, FieldKey());
    SortByMembers(values, FieldKey());
    MembersBySet(SortBy(values, FieldKey()), values);
  }

  lemma SortedMember(fields: seq<Field>, key: string)
    requires UniqueKeys(fields)
    ensures key in Members(SortedValues(fields)) <==> key in Members(fields)
    ensures key in Members(fields) ==> Members(SortedValues(fields))[key] == SortedKeys(Members(fields)[key])
  {
    hide SortedKeys;
    var values := SortedValues(fields);
    assert UniqueKeys(values);
    if key in Members(fields) {
      FieldOf(fields, key);
      var i :| 0 <= i < |fields| && fields[i] == Field(key, Members(fields)[key]);
      MemberIs(values, i);
    }
    if key in Members(values) {
      FieldOf(values, key);
      var i :| 0 <= i < |values| && values[i] == Field(key, Members(values)[key]);
      assert fields[i].key == key;
    }
  }

  lemma {:induction false} AscendingFieldsUnique(a: seq<Field>, b: seq<Field>)
    requires UniqueKeys(a) && UniqueKeys(b) && AscendingBy(a, FieldKey()) && AscendingBy(b, FieldKey())
    requires forall f :: f in a <==> f in b
    ensures a == b
  {
    if a == [] {
      HeadMember(b);
    } else {
      HeadMember(a);
      HeadMember(b);
      assert b != [];
      LeastHead(a, b[0], FieldKey());
      LeastHead(b, a[0], FieldKey());
      TupleAntisymmetric([a[0].key], [b[0].key]);
      assert [a[0].key][0] == [b[0].key][0];
      var i :| 0 <= i < |a| && a[i] == b[0];
      assert a[0] == b[0];
      forall f ensures f in a[1..] <==> f in b[1..] {
        TailMember(a, f);
        TailMember(b, f);
      }
      AscendingFieldsUnique(a[1..], b[1..]);
    }
  }

  lemma HeadMember(fields: seq<Field>)
    ensures fields != [] ==> fields[0] in fields
  {
  }

  lemma TailMember(fields: seq<Field>, f: Field)
    requires fields != [] && UniqueKeys(fields)
    ensures f in fields[1..] <==> f in fields && f != fields[0]
  {
    if f in fields[1..] {
      var i :| 0 <= i < |fields[1..]| && fields[1..][i] == f;
      assert fields[i + 1] == f;
    }
    if f in fields && f != fields[0] {
      var i :| 0 <= i < |fields| && fields[i] == f;
      assert fields[1..][i - 1] == f;
    }
  }

  lemma SortsTo(fields: seq<Field>)
    ensures SortedKeys(Obj(fields)) == Obj(SortBy(SortedValues(fields), FieldKey()))
  {
  }

  /** Two objects sort alike exactly when every key has values that sort alike. */
  lemma SortAlikeIff(a: seq<Field>, b: seq<Field>)
    requires UniqueKeys(a) && UniqueKeys(b)
    ensures SortedKeys(Obj(a)) == SortedKeys(Obj(b)) <==> Members(SortedValues(a)) == Members(SortedValues(b))
  {
    hide SortBy, Members, UniqueKeys, AscendingBy, SortedKeys, SortedValues;
    SortsTo(a);
    SortsTo(b);
    SortedFields(a);
    SortedFields(b);
    var x, y := SortBy(SortedValues(a), FieldKey()), SortBy(SortedValues(b), FieldKey());
    if Members(x) == Members(y) {
      SameMembers(x, y);
      AscendingFieldsUnique(x, y);
    }
  }

  // ----- sorting a document -------------------------------------------------------------------------

  lemma ProperMember(floats: real -> bool, fields: seq<Field>, key: string)
    requires Proper(floats, Obj(fields)) && key in Members(fields)
    ensures Proper(floats, Members(fields)[key])
  {
    FieldOf(fields, key);
    var i :| 0 <= i < |fields| && fields[i] == Field(key, Members(fields)[key]);
  }

  lemma ProperFields(floats: real -> bool, fields: seq<Field>)
    requires UniqueKeys(fields) && forall f :: f in fields ==> Proper(floats, f.value)
    ensures Proper(floats, Obj(fields))
  {
    forall i | 0 <= i < |fields| ensures Proper(floats, fields[i].value) {
      assert fields[i] in fields;
    }
  }

  /** A proper document stays one. */
  lemma {:induction false} SortedProper(floats: real -> bool, j: Json)
    requires Proper(floats, j)
    ensures Proper(floats, SortedKeys(j))
    decreases j
  {
    match j {
      case Arr(elements) =>
        forall i | 0 <= i < |elements| ensures Proper(floats, SortedKeys(elements[i])) {
          SortedProper(floats, elements[i]);
        }
      case Obj(fields) =>
        var sorted := SortBy(SortedValues(fields), FieldKey());
        SortedFields(fields);
        SortByMembers(SortedValues(fields), FieldKey());
        forall f | f in sorted ensures Proper(floats, f.value) {
          var i :| 0 <= i < |fields| && SortedValues(fields)[i] == f;
          SortedProper(floats, fields[i].value);
        }
        ProperFields(floats, sorted);
      case _ =>
    }
  }

  lemma ValuesFixed(fields: seq<Field>)
    requires UniqueKeys(fields) && forall i :: 0 <= i < |fields| ==> SortedKeys(SortedKeys(fields[i].value)) == SortedKeys(fields[i].value)
    ensures SortedKeys(SortedKeys(Obj(fields))) == SortedKeys(Obj(fields))
  {
    hide SortedKeys, UniqueKeys, AscendingBy, Members;
    var values := SortedValues(fields);
    var sorted := SortBy(values, FieldKey());
    SortsTo(fields);
    SortedFields(fields);
    SortByMembers(values, FieldKey());
    forall f | f in sorted ensures SortedKeys(f.value) == f.value {
      var i :| 0 <= i < |fields| && values[i] == f;
    }
    AlreadySorted(sorted);
  }

  /** Sorting is idempotent. */
  lemma {:induction false} SortedTwice(floats: real -> bool, j: Json)
    requires Proper(floats, j)
    ensures SortedKeys(SortedKeys(j)) == SortedKeys(j)
    decreases j
  {
    match j {
      case Arr(elements) =>
        forall i | 0 <= i < |elements| ensures SortedKeys(SortedKeys(elements[i])) == SortedKeys(elements[i]) {
          SortedTwice(floats, elements[i]);
        }
      case Obj(fields) =>
        forall i | 0 <= i < |fields| ensures SortedKeys(SortedKeys(fields[i].value)) == SortedKeys(fields[i].value) {
          SortedTwice(floats, fields[i].value);
        }
        ValuesFixed(fields);
      case _ =>
    }
  }

  /** Fields in ascending order, with sorted values, stay as they are. */
  lemma AlreadySorted(fields: seq<Field>)
    requires UniqueKeys(fields) && AscendingBy(fields, FieldKey()) && forall f :: f in fields ==> SortedKeys(f.value) == f.value
    ensures SortedKeys(Obj(fields)) == Obj(fields)
  {
    var values := SortedValues(fields);
    forall i | 0 <= i < |fields| ensures values[i] == fields[i] {
      assert fields[i] in fields;
    }
    assert values == fields;
    SortByMembers(fields, FieldKey());
    SortByUnique(fields);
    SortByAscends(fields, FieldKey());
    AscendingFieldsUnique(SortBy(fields, FieldKey()), fields);
  }

  // ----- documents that differ in key order only -----------------------------------------------------

  /** The same document but for key order. */
  predicate Alike(a: Json, b: Json) {
    SortedKeys(a) == SortedKeys(b)
  }

  lemma AlikeKinds(a: Json, b: Json)
    requires Alike(a, b)
    ensures a.Obj? == b.Obj? && a.Arr? == b.Arr? && (a.Arr? ==> |a.elements| == |b.elements|)
    ensures a.Arr? ==> forall i :: 0 <= i < |a.elements| ==> Alike(a.elements[i], b.elements[i])
  {
    if a.Arr? && b.Arr? {
      forall i | 0 <= i < |a.elements| ensures Alike(a.elements[i], b.elements[i]) {
        assert SortedKeys(a).elements[i] == SortedKeys(a.elements[i]);
        assert SortedKeys(b).elements[i] == SortedKeys(b.elements[i]);
      }
    }
  }

  lemma MembersAre(fields: seq<Field>, m: map<string, Json>)
    requires UniqueKeys(fields) && forall i :: 0 <= i < |fields| ==> fields[i].key in m && m[fields[i].key] == fields[i].value
    requires forall k :: k in m ==> HasKey(fields, k)
    ensures Members(fields) == m
  {
    hide Get, UniqueKeys;
    forall k | k in Members(fields) ensures k in m && m[k] == Members(fields)[k] {
      FieldOf(fields, k);
      var i :| 0 <= i < |fields| && fields[i] == Field(k, Members(fields)[k]);
    }
  }

  /** Replacing one member, seen as maps. */
  lemma ReplacedMember(fields: seq<Field>, k: nat, child: Json)
    requires UniqueKeys(fields) && k < |fields|
    ensures UniqueKeys(fields[k := Field(fields[k].key, child)])
    ensures Members(fields[k := Field(fields[k].key, child)]) == Members(fields)[fields[k].key := child]
  {
    var fields' := fields[k := Field(fields[k].key, child)];
    var m := Members(fields)[fields[k].key := child];
    assert UniqueKeys(fields');
    hide Members, Get;
    forall i | 0 <= i < |fields'| ensures fields'[i].key in m && m[fields'[i].key] == fields'[i].value {
      MemberIs(fields, i);
    }
    MemberIs(fields, k);
    forall key | key in m ensures HasKey(fields', key) {
      FieldOf(fields, key);
      var i :| 0 <= i < |fields| && fields[i] == Field(key, Members(fields)[key]);
      assert fields'[i].key == key;
    }
    MembersAre(fields', m);
  }

  lemma WithMember(fields: seq<Field>, k: nat, child: Json)
    requires UniqueKeys(fields) && k < |fields|
    ensures UniqueKeys(fields[k := Field(fields[k].key, child)])
    ensures Members(SortedValues(fields[k := Field(fields[k].key, child)]))
         == Members(SortedValues(fields))[fields[k].key := SortedKeys(child)]
  {
    hide SortedKeys, Members;
    var values := SortedValues(fields);
    ReplacedMember(fields, k, child);
    assert UniqueKeys(values);
    ReplacedMember(values, k, SortedKeys(child));
    assert SortedValues(fields[k := Field(fields[k].key, child)]) == values[k := Field(values[k].key, SortedKeys(child))];
  }

  lemma AlikeElements(a: Json, b: Json, k: nat, x: Json, y: Json)
    requires a.Arr? && b.Arr? && |a.elements| == |b.elements| && k < |a.elements| && Alike(x, y)
    requires forall i :: 0 <= i < |a.elements| ==> Alike(a.elements[i], b.elements[i])
    ensures Alike(Arr(a.elements[k := x]), Arr(b.elements[k := y]))
  {
    var s, t := SortedKeys(Arr(a.elements[k := x])).elements, SortedKeys(Arr(b.elements[k := y])).elements;
    forall i | 0 <= i < |s| ensures s[i] == t[i] {
      assert i != k ==> Alike(a.elements[i], b.elements[i]);
    }
  }

  // ----- fields written in order -----------------------------------------------------------------------

  /** Keys that first differ at a position. */
  lemma {:induction false} KeyBefore(a: string, b: string, n: nat)
    requires n < |a| && n < |b| && a[..n] == b[..n] && a[n] < b[n]
    ensures Leq(a, b, false) && a != b && TupleLeq([a], [b])
    decreases n
  {
    assert a[n] != b[n];
    if n > 0 {
      assert a[0] == a[..n][0] == b[0];
      assert a[1..][..n - 1] == a[..n][1..] && b[1..][..n - 1] == b[..n][1..];
      KeyBefore(a[1..], b[1..], n - 1);
    }
  }

  /** Each key before the next. */
  lemma {:induction false} OrderedFields(fields: seq<Field>)
    requires forall i :: 0 <= i < |fields| - 1 ==> fields[i].key != fields[i + 1].key && Leq(fields[i].key, fields[i + 1].key, false)
    ensures UniqueKeys(fields) && AscendingBy(fields, FieldKey())
    ensures forall i :: 0 < i < |fields| ==> fields[0].key != fields[i].key && Leq(fields[0].key, fields[i].key, false)
  {
    if |fields| > 1 {
      var rest := fields[1..];
      forall i | 0 <= i < |rest| - 1 ensures rest[i].key != rest[i + 1].key && Leq(rest[i].key, rest[i + 1].key, false) {
        assert rest[i] == fields[i + 1] && rest[i + 1] == fields[i + 2];
      }
      OrderedFields(rest);
      var head := fields[0].key;
      assert Leq(head, rest[0].key, false) && head != rest[0].key;
      forall i | 0 <= i < |rest| ensures head != rest[i].key && Leq(head, rest[i].key, false) {
        if i > 0 {
          LeqTransitive(head, rest[0].key, rest[i].key, false);
          if head == rest[i].key {
            LeqAntisymmetric(head, rest[0].key, false);
          }
        }
      }
      forall i | 0 < i < |fields| ensures head != fields[i].key && Leq(head, fields[i].key, false) {
        assert fields[i] == rest[i - 1];
      }
      forall f | f in rest ensures TupleLeq([head], [f.key]) {
        var i :| 0 <= i < |rest| && rest[i] == f;
        assert head != rest[i].key && Leq(head, rest[i].key, false);
      }
      assert fields == [fields[0]] + rest;
      AscendingCons(fields[0], rest, FieldKey());
      forall f | f in rest ensures f.key != head {
        var i :| 0 <= i < |rest| && rest[i] == f;
      }
      UniqueCons(fields[0], rest);
    }
  }
}
