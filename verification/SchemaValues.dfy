/** What the values of a schema mean: when two values are the same, and what a reference
    points at. */
module SchemaValues {
  import opened Results
  import opened Json
  import opened JsonKeys
  import opened Text
  import opened SchemaValidator

  // ----- equality ------------------------------------------------------------------------

  /** A value up to what equality sees: numbers by amount, objects by what their keys hold. */
  datatype Meaning =
    | Nothing
    | Amount(r: real)
    | Word(s: string)
    | Row(items: seq<Meaning>)
    | Table(entries: map<string, Meaning>)

  ghost function MeaningOf(j: Json): Meaning
    decreases j
  {
    match j
    case Null => Nothing
    case Bool(true) => Amount(1.0)
    case Bool(false) => Amount(0.0)
    case Int(i) => Amount(i as real)
    case Float(r) => Amount(r)
    case Str(s) => Word(s)
    case Arr(elements) => Row(seq(|elements|, i requires 0 <= i < |elements| => MeaningOf(elements[i])))
    case Obj(fields) => Table(Entries(fields))
  }

  ghost function Entries(fields: seq<Field>): map<string, Meaning>
    decreases fields
  {
    if fields == [] then map[] else Entries(fields[1..])[fields[0].key := MeaningOf(fields[0].value)]
  }

  lemma {:induction false} EntriesAre(fields: seq<Field>)
    requires UniqueKeys(fields)
    ensures forall key :: key in Entries(fields) <==> HasKey(fields, key)
    ensures forall i :: 0 <= i < |fields| ==> fields[i].key in Entries(fields) && Entries(fields)[fields[i].key] == MeaningOf(fields[i].value)
    ensures |Entries(fields)| == |fields|
  {
    hide MeaningOf;
    if fields != [] {
      var rest := fields[1..];
      EntriesAre(rest);
      assert forall i :: 0 <= i < |rest| ==> rest[i] == fields[i + 1];
      assert fields[0].key !in Entries(rest);
      forall key ensures key in Entries(fields) <==> HasKey(fields, key) {
        if HasKey(fields, key) && key != fields[0].key {
          var i :| 0 <= i < |fields| && fields[i].key == key;
          assert rest[i - 1].key == key;
        }
      }
      forall i | 0 <= i < |fields| ensures fields[i].key in Entries(fields) && Entries(fields)[fields[i].key] == MeaningOf(fields[i].value) {
        if i > 0 {
          assert rest[i - 1] == fields[i];
        }
      }
    }
  }

  lemma GetUnique(fields: seq<Field>, i: nat)
    requires UniqueKeys(fields) && i < |fields|
    ensures Get(fields, fields[i].key) == Some(fields[i].value)
  {
    MemberIs(fields, i);
  }

  lemma SameEntries(a: map<string, Meaning>, b: map<string, Meaning>)
    requires |a| == |b| && forall key :: key in a ==> key in b && a[key] == b[key]
    ensures a == b
  {
    assert a.Keys <= b.Keys;
    assert b.Keys == a.Keys + (b.Keys - a.Keys);
    assert b.Keys - a.Keys == {};
  }

  /** Two tables are the same exactly when they have as many keys and each key of one means the
      same in the other. */
  lemma EntriesEqualIff(fs: seq<Field>, gs: seq<Field>)
    requires UniqueKeys(fs) && UniqueKeys(gs)
    ensures Entries(fs) == Entries(gs) <==>
            |fs| == |gs| && forall i :: 0 <= i < |fs| ==> Get(gs, fs[i].key).Some? && MeaningOf(fs[i].value) == MeaningOf(Get(gs, fs[i].key).value)
  {
    hide MeaningOf, Entries, UniqueKeys;
    EntriesAre(fs);
    EntriesAre(gs);
    var left, right := Entries(fs), Entries(gs);
    forall i | 0 <= i < |fs| && Get(gs, fs[i].key).Some?
      ensures fs[i].key in right && right[fs[i].key] == MeaningOf(Get(gs, fs[i].key).value)
    {
      var m :| 0 <= m < |gs| && gs[m] == Field(fs[i].key, Get(gs, fs[i].key).value);
    }
    if left == right {
      forall i | 0 <= i < |fs| ensures Get(gs, fs[i].key).Some? {
        assert fs[i].key in right;
      }
    } else if |fs| == |gs| && forall i :: 0 <= i < |fs| ==> Get(gs, fs[i].key).Some? && MeaningOf(fs[i].value) == MeaningOf(Get(gs, fs[i].key).value) {
      forall key | key in left ensures key in right && left[key] == right[key] {
        var i :| 0 <= i < |fs| && fs[i].key == key;
      }
      SameEntries(left, right);
    }
  }

  /** Two values are equal exactly when they mean the same. */
  lemma {:induction false} EqualIff(a: Json, b: Json)
    requires WellFormed(a) && WellFormed(b)
    ensures PyEqual(a, b) <==> MeaningOf(a) == MeaningOf(b)
    decreases a
  {
    match (a, b) {
      case (Arr(xs), Arr(ys)) => EqualRows(xs, ys);
      case (Obj(fs), Obj(gs)) => EqualTables(fs, gs);
      case _ =>
    }
  }

  lemma {:induction false} EqualRows(xs: seq<Json>, ys: seq<Json>)
    requires WellFormed(Arr(xs)) && WellFormed(Arr(ys))
    ensures PyEqual(Arr(xs), Arr(ys)) <==> MeaningOf(Arr(xs)) == MeaningOf(Arr(ys))
    decreases Arr(xs), 0
  {
    var left, right := MeaningOf(Arr(xs)).items, MeaningOf(Arr(ys)).items;
    if |xs| == |ys| {
      forall i | 0 <= i < |xs| ensures PyEqual(xs[i], ys[i]) <==> left[i] == right[i] {
        EqualIff(xs[i], ys[i]);
      }
    }
  }

  lemma {:induction false} EqualTables(fs: seq<Field>, gs: seq<Field>)
    requires WellFormed(Obj(fs)) && WellFormed(Obj(gs))
    ensures PyEqual(Obj(fs), Obj(gs)) <==> MeaningOf(Obj(fs)) == MeaningOf(Obj(gs))
    decreases Obj(fs), 0
  {
    EntriesEqualIff(fs, gs);
    forall i | 0 <= i < |fs| && Get(gs, fs[i].key).Some?
      ensures PyEqual(fs[i].value, Get(gs, fs[i].key).value) <==> MeaningOf(fs[i].value) == MeaningOf(Get(gs, fs[i].key).value)
    {
      var m :| 0 <= m < |gs| && gs[m] == Field(fs[i].key, Get(gs, fs[i].key).value);
      EqualIff(fs[i].value, gs[m].value);
    }
  }

  /** The equality of `enum` and `const`: a boolean never equals a number, and otherwise
      numbers compare by amount and objects whatever the order of their keys. */
  lemma StrictEqualIff(instance: Json, expected: Json)
    requires WellFormed(instance) && WellFormed(expected)
    ensures StrictEqual(instance, expected) <==>
            (instance.Bool? <==> expected.Bool?) && MeaningOf(instance) == MeaningOf(expected)
  {
    hide PyEqual, MeaningOf, WellFormed;
    EqualIff(instance, expected);
  }

  // ----- references -----------------------------------------------------------------------

  /** The value at a path of keys. */
  function ValueAt(node: Json, keys: seq<string>): Option<Json>
    decreases |keys|
  {
    if keys == [] then Some(node)
    else if !node.Obj? || Get(node.fields, keys[0]).None? then None
    else ValueAt(Get(node.fields, keys[0]).value, keys[1..])
  }

  /** A key as a pointer spells it. */
  function Escaped(key: string): string {
    if key == "" then ""
    else (if key[0] == '~' then "~0" else if key[0] == '/' then "~1" else [key[0]]) + Escaped(key[1..])
  }

  function PointerTo(keys: seq<string>): string {
    if keys == [] then "#" else PointerTo(keys[..|keys| - 1]) + "/" + Escaped(keys[|keys| - 1])
  }

  /** The key with only its tildes escaped. */
  function Tilded(key: string): string {
    if key == "" then "" else (if key[0] == '~' then "~0" else [key[0]]) + Tilded(key[1..])
  }

  lemma {:induction false} SlashesBack(key: string)
    ensures Unescape(Escaped(key), '1', '/') == Tilded(key)
    decreases |key|
  {
    if key != "" {
      SlashesBack(key[1..]);
      var rest := Escaped(key[1..]);
      if key[0] == '~' {
        assert ("~0" + rest)[1..] == "0" + rest;
        assert ("0" + rest)[1..] == rest;
        UnescapeStep("0" + rest, '1', '/');
      } else if key[0] == '/' {
        assert ("~1" + rest)[2..] == rest;
      } else {
        assert ([key[0]] + rest)[1..] == rest;
        UnescapeStep([key[0]] + rest, '1', '/');
      }
    }
  }

  lemma UnescapeStep(token: string, digit: char, c: char)
    requires token != "" && token[0] != '~'
    ensures Unescape(token, digit, c) == [token[0]] + Unescape(token[1..], digit, c)
  {
    if |token| == 1 {
      assert token[1..] == "";
      assert token == [token[0]];
    }
  }

  lemma {:induction false} TildesBack(key: string)
    ensures Unescape(Tilded(key), '0', '~') == key
    decreases |key|
  {
    if key != "" {
      TildesBack(key[1..]);
      var rest := Tilded(key[1..]);
      if key[0] == '~' {
        assert ("~0" + rest)[2..] == rest;
      } else {
        assert ([key[0]] + rest)[1..] == rest;
        UnescapeStep([key[0]] + rest, '0', '~');
      }
    }
  }

  lemma {:induction false} EscapedNoSlash(key: string)
    ensures '/' !in Escaped(key)
    decreases |key|
  {
    if key != "" {
      EscapedNoSlash(key[1..]);
    }
  }

  function EscapedKeys(keys: seq<string>): (r: seq<string>)
    ensures |r| == |keys| && forall i :: 0 <= i < |r| ==> r[i] == Escaped(keys[i])
  {
    seq(|keys|, i requires 0 <= i < |keys| => Escaped(keys[i]))
  }

  lemma {:induction false} SplitLast(s: string, last: string, separator: char)
    requires separator !in last
    ensures SplitOn(s + [separator] + last, separator) == SplitOn(s, separator) + [last]
    decreases |s|
  {
    var text := s + [separator] + last;
    if s == "" {
      assert text[1..] == last;
      SplitWhole(last, separator);
      assert text[0] == separator;
    } else {
      assert text[1..] == s[1..] + [separator] + last;
      SplitLast(s[1..], last, separator);
      var rest := SplitOn(s[1..], separator);
      assert (rest + [last])[0] == rest[0] && (rest + [last])[1..] == rest[1..] + [last];
    }
  }

  lemma {:induction false} SplitWhole(s: string, separator: char)
    requires separator !in s
    ensures SplitOn(s, separator) == [s]
  {
    if s != "" {
      SplitWhole(s[1..], separator);
      assert s == [s[0]] + s[1..];
    }
  }

  /** The tokens of a pointer are the escaped keys. */
  lemma {:induction false} PointerTokens(keys: seq<string>)
    requires keys != []
    ensures "#/" <= PointerTo(keys) && SplitOn(PointerTo(keys)[2..], '/') == EscapedKeys(keys)
    decreases |keys|
  {
    hide SplitOn, Escaped;
    var n := |keys| - 1;
    var last := Escaped(keys[n]);
    EscapedNoSlash(keys[n]);
    if n == 0 {
      assert keys[..n] == [];
      assert PointerTo(keys) == "#" + "/" + last;
      assert PointerTo(keys)[2..] == last;
      SplitWhole(last, '/');
    } else {
      PointerTokens(keys[..n]);
      var before := PointerTo(keys[..n]);
      assert PointerTo(keys)[2..] == before[2..] + ['/'] + last;
      SplitLast(before[2..], last, '/');
      assert EscapedKeys(keys) == EscapedKeys(keys[..n]) + [last];
    }
  }

  lemma {:induction false} FollowsKeys(node: Json, keys: seq<string>)
    ensures Follow(node, EscapedKeys(keys)) == ValueAt(node, keys)
    decreases |keys|
  {
    if keys != [] {
      var tokens := EscapedKeys(keys);
      SlashesBack(keys[0]);
      TildesBack(keys[0]);
      assert tokens[1..] == EscapedKeys(keys[1..]);
      if node.Obj? && Get(node.fields, keys[0]).Some? {
        FollowsKeys(Get(node.fields, keys[0]).value, keys[1..]);
      }
    }
  }

  /** The pointer of a path of keys resolves to the object at that path, and to nothing when
      there is no object. */
  lemma PointerResolves(root: Json, keys: seq<string>)
    requires keys != []
    ensures ResolveRef(PointerTo(keys), root) ==
              match ValueAt(root, keys) case Some(Obj(fields)) => Some(Obj(fields)) case _ => None
  {
    hide SplitOn, Follow;
    PointerTokens(keys);
    FollowsKeys(root, keys);
  }
}
