/** Setting a locator path in a JSON document (patch.py: json_path_patch). */
module JsonPatch {
  import opened Results
  import opened Json
  import opened JsonKeys
  import opened YamlLines
  import opened Text

  /** `json.loads` and `canonical_json`, with the floats of the machine. Parsing gives
      documents of Python values; emission sorts the keys of every object, so a document
      comes back with its keys in order, key order does not show in the text, and a carriage
      return is only ever written as an escape. */
  datatype Codec = Codec(parse: string -> Option<Json>, emit: Json -> string, floats: real -> bool) {
    ghost predicate Lawful() {
      && (forall text :: parse(text).Some? ==> Proper(floats, parse(text).value))
      && (forall j: Json :: j.Obj? && Proper(floats, j) ==> parse(emit(j)) == Some(SortedKeys(j)))
      && (forall a: Json, b: Json :: Proper(floats, a) && Proper(floats, b) && Alike(a, b) ==> emit(a) == emit(b))
      && (forall j: Json :: '\r' !in emit(j))
    }
  }

  // ----- locators ----------------------------------------------------------------

  datatype Segment = Name(name: string) | Index(index: nat)

  predicate IsWord(c: char) {
    IsAlnum(c) || c == '_'
  }

  function RunLength(s: string, p: char -> bool): (n: nat)
    ensures n <= |s|
  {
    if s != "" && p(s[0]) then 1 + RunLength(s[1..], p) else 0
  }

  function Decimal(digits: string): nat
    requires forall i :: 0 <= i < |digits| ==> IsDigit(digits[i])
  {
    if digits == "" then 0
    else
      assert IsDigit(digits[|digits| - 1]);
      10 * Decimal(digits[..|digits| - 1]) + (digits[|digits| - 1] as int - '0' as int)
  }

  /** The `[n]` suffixes of one part; a final newline passes the pattern's `$`. */
  function ParseIndices(s: string): Option<seq<Segment>> {
    if s == "" || s == "\n" then Some([])
    else if s[0] != '[' then None
    else
      var n := RunLength(s[1..], IsDigit);
      if n == 0 || 1 + n >= |s| || s[1 + n] != ']' || !(forall i :: 1 <= i < 1 + n ==> IsDigit(s[i])) then None
      else
        match ParseIndices(s[n + 2..])
        case None => None
        case Some(rest) => Some([Index(Decimal(s[1..1 + n]))] + rest)
  }

  function ParseParts(parts: seq<string>): Option<seq<Segment>> {
    if parts == [] then Some([])
    else
      var n := RunLength(parts[0], IsWord);
      if n == 0 then None
      else
        match (ParseIndices(parts[0][n..]), ParseParts(parts[1..]))
        case (Some(indices), Some(rest)) => Some([Name(parts[0][..n])] + indices + rest)
        case _ => None
  }

  /** `_parse_json_locator`. */
  function ParseLocator(locator: string): (r: Option<seq<Segment>>)
    ensures r.Some? ==> r.value != []
  {
    ParseParts(SplitOn(locator, '.'))
  }

  // ----- the patch ------------------------------------------------------------------

  /** The child a segment names, by position in the node's fields or elements. */
  function ChildIndex(node: Json, segment: Segment): (k: Option<nat>)
    ensures k.Some? && node.Obj? ==> k.value < |node.fields|
    ensures k.Some? && !node.Obj? ==> node.Arr? && k.value < |node.elements|
  {
    match segment
    case Name(name) => if node.Obj? then IndexOf(node.fields, name) else None
    case Index(i) => if node.Arr? && i < |node.elements| then Some(i) else None
  }

  function Child(node: Json, k: nat): (child: Json)
    requires (node.Obj? && k < |node.fields|) || (node.Arr? && k < |node.elements|)
  {
    if node.Obj? then node.fields[k].value else node.elements[k]
  }

  function WithChild(node: Json, k: nat, child: Json): Json
    requires (node.Obj? && k < |node.fields|) || (node.Arr? && k < |node.elements|)
  {
    if node.Obj? then Obj(node.fields[k := Field(node.fields[k].key, child)]) else Arr(node.elements[k := child])
  }

  function GetAt(node: Json, path: seq<Segment>): Option<Json>
    decreases |path|
  {
    if path == [] then Some(node)
    else
      match ChildIndex(node, path[0])
      case None => None
      case Some(k) => GetAt(Child(node, k), path[1..])
  }

  /** The document with the value at a path replaced; the path must exist. */
  function SetAt(node: Json, path: seq<Segment>, value: Json): Option<Json>
    decreases |path|
  {
    if path == [] then Some(value)
    else
      match ChildIndex(node, path[0])
      case None => None
      case Some(k) =>
        match SetAt(Child(node, k), path[1..], value)
        case None => None
        case Some(child) => Some(WithChild(node, k, child))
  }

  /** `json_path_patch`, with the locator already parsed. */
  function PatchJson(codec: Codec, text: string, path: Option<seq<Segment>>, value: Json): Result<string, PatchError>
    requires path.Some? ==> path.value != []
  {
    match codec.parse(text)
    case None => Err(InvalidJson)
    case Some(data) =>
      if !data.Obj? then Err(RootNotObject)
      else if path.None? then Err(Unresolved)
      else
        match SetAt(data, path.value, value)
        case None => Err(Unresolved)
        case Some(patched) => Ok(codec.emit(patched))
  }

  // ----- laws ---------------------------------------------------------------------------

  /** Neither path is a prefix of the other. */
  predicate Diverge(p: seq<Segment>, q: seq<Segment>) {
    p != [] && q != [] && (p[0] != q[0] || Diverge(p[1..], q[1..]))
  }

  lemma WithChildFacts(node: Json, k: nat, child: Json, segment: Segment)
    requires (node.Obj? && k < |node.fields|) || (node.Arr? && k < |node.elements|)
    ensures ChildIndex(WithChild(node, k, child), segment) == ChildIndex(node, segment)
  {
    if node.Obj? && segment.Name? {
      var fields' := WithChild(node, k, child).fields;
      assert forall i :: 0 <= i < |fields'| ==> fields'[i].key == node.fields[i].key;
    }
  }

  lemma WithChildTwice(node: Json, k: nat, a: Json, b: Json)
    requires (node.Obj? && k < |node.fields|) || (node.Arr? && k < |node.elements|)
    ensures var node' := WithChild(node, k, a);
            && node'.Obj? == node.Obj? && node'.Arr? == node.Arr?
            && (node.Obj? ==> |node'.fields| == |node.fields|) && (node.Arr? ==> |node'.elements| == |node.elements|)
            && Child(node', k) == a && WithChild(node', k, b) == WithChild(node, k, b)
  {
  }

  lemma WithChildSwap(node: Json, k: nat, m: nat, a: Json, b: Json)
    requires k != m
    requires (node.Obj? && k < |node.fields|) || (node.Arr? && k < |node.elements|)
    requires (node.Obj? && m < |node.fields|) || (node.Arr? && m < |node.elements|)
    ensures Child(WithChild(node, k, a), m) == Child(node, m) && Child(WithChild(node, m, b), k) == Child(node, k)
    ensures WithChild(WithChild(node, k, a), m, b) == WithChild(WithChild(node, m, b), k, a)
  {
  }

  /** A path can be set exactly when it can be read; setting then reading gives
      the value. */
  lemma {:induction false} SetGet(node: Json, path: seq<Segment>, value: Json)
    ensures SetAt(node, path, value).Some? <==> GetAt(node, path).Some?
    ensures SetAt(node, path, value).Some? ==> GetAt(SetAt(node, path, value).value, path) == Some(value)
    decreases |path|
  {
    hide ChildIndex, WithChild, Child;
    if path != [] && ChildIndex(node, path[0]).Some? {
      var k := ChildIndex(node, path[0]).value;
      SetGet(Child(node, k), path[1..], value);
      if SetAt(Child(node, k), path[1..], value).Some? {
        WithChildFacts(node, k, SetAt(Child(node, k), path[1..], value).value, path[0]);
        WithChildTwice(node, k, SetAt(Child(node, k), path[1..], value).value, value);
      }
    }
  }

  lemma {:induction false} SetSet(node: Json, path: seq<Segment>, first: Json, second: Json)
    requires SetAt(node, path, first).Some?
    ensures SetAt(SetAt(node, path, first).value, path, second) == SetAt(node, path, second)
    decreases |path|
  {
    hide ChildIndex, WithChild, Child;
    if path != [] {
      var k := ChildIndex(node, path[0]).value;
      var child := SetAt(Child(node, k), path[1..], first).value;
      SetSet(Child(node, k), path[1..], first, second);
      WithChildFacts(node, k, child, path[0]);
      SetGet(Child(node, k), path[1..], first);
      SetGet(Child(node, k), path[1..], second);
      WithChildTwice(node, k, child, SetAt(Child(node, k), path[1..], second).value);
    }
  }

  lemma ChildIndexInjective(node: Json, s: Segment, t: Segment)
    requires s != t && ChildIndex(node, s).Some? && ChildIndex(node, t).Some?
    ensures ChildIndex(node, s) != ChildIndex(node, t)
  {
  }

  /** Diverging paths do not see each other: each stays settable, and the two
      writes commute. */
  lemma {:induction false} SetsCommute(node: Json, p: seq<Segment>, v: Json, q: seq<Segment>, w: Json)
    requires Diverge(p, q) && SetAt(node, p, v).Some?
    ensures SetAt(SetAt(node, p, v).value, q, w).Some? <==> SetAt(node, q, w).Some?
    ensures SetAt(node, q, w).Some? ==>
              SetAt(SetAt(node, p, v).value, q, w) == SetAt(SetAt(node, q, w).value, p, v)
    decreases |p|
  {
    hide ChildIndex, WithChild, Child;
    var k := ChildIndex(node, p[0]).value;
    var child := SetAt(Child(node, k), p[1..], v).value;
    var node1 := WithChild(node, k, child);
    WithChildFacts(node, k, child, q[0]);
    if ChildIndex(node, q[0]).Some? {
      var m := ChildIndex(node, q[0]).value;
      if p[0] == q[0] {
        SetsCommute(Child(node, k), p[1..], v, q[1..], w);
        WithChildTwice(node, k, child, child);
        if SetAt(node, q, w).Some? {
          var other := SetAt(Child(node, k), q[1..], w).value;
          WithChildFacts(node, k, other, p[0]);
          var both := SetAt(child, q[1..], w).value;
          WithChildTwice(node, k, child, both);
          WithChildTwice(node, k, other, both);
        }
      } else {
        ChildIndexInjective(node, p[0], q[0]);
        WithChildSwap(node, k, m, child, child);
        if SetAt(node, q, w).Some? {
          var other := SetAt(Child(node, m), q[1..], w).value;
          WithChildFacts(node, m, other, p[0]);
          WithChildSwap(node, k, m, child, other);
        }
      }
    }
  }

  /** The root stays an object: a path that starts with a name replaces a field. */
  lemma SetKeepsObject(node: Json, path: seq<Segment>, value: Json)
    requires path != [] && node.Obj? && SetAt(node, path, value).Some?
    ensures SetAt(node, path, value).value.Obj?
  {
  }

  // ----- settings and key order ------------------------------------------------------------

  lemma AlikeIndex(a: Json, b: Json, segment: Segment)
    requires Alike(a, b) && (a.Obj? && b.Obj? ==> UniqueKeys(a.fields) && UniqueKeys(b.fields))
    ensures ChildIndex(a, segment).Some? == ChildIndex(b, segment).Some?
    ensures ChildIndex(a, segment).Some? ==>
              Alike(Child(a, ChildIndex(a, segment).value), Child(b, ChildIndex(b, segment).value))
  {
    hide SortedKeys;
    AlikeKinds(a, b);
    if a.Obj? && segment.Name? {
      SortAlikeIff(a.fields, b.fields);
      SortedMember(a.fields, segment.name);
      SortedMember(b.fields, segment.name);
      if ChildIndex(a, segment).Some? && ChildIndex(b, segment).Some? {
        MemberIs(a.fields, ChildIndex(a, segment).value);
        MemberIs(b.fields, ChildIndex(b, segment).value);
      }
    }
  }

  lemma AlikeWithChild(a: Json, b: Json, segment: Segment, x: Json, y: Json)
    requires Alike(a, b) && Alike(x, y) && ChildIndex(a, segment).Some? && ChildIndex(b, segment).Some?
    requires a.Obj? && b.Obj? ==> UniqueKeys(a.fields) && UniqueKeys(b.fields)
    ensures Alike(WithChild(a, ChildIndex(a, segment).value, x), WithChild(b, ChildIndex(b, segment).value, y))
  {
    AlikeKinds(a, b);
    var k, m := ChildIndex(a, segment).value, ChildIndex(b, segment).value;
    if a.Obj? {
      hide SortedKeys;
      SortAlikeIff(a.fields, b.fields);
      WithMember(a.fields, k, x);
      WithMember(b.fields, m, y);
      SortAlikeIff(WithChild(a, k, x).fields, WithChild(b, m, y).fields);
    } else {
      AlikeElements(a, b, k, x, y);
    }
  }

  lemma ProperChild(floats: real -> bool, j: Json, k: nat)
    requires Proper(floats, j) && ((j.Obj? && k < |j.fields|) || (j.Arr? && k < |j.elements|))
    ensures Proper(floats, Child(j, k))
  {
  }

  /** Key order decides neither whether a path can be set nor, up to key order, what the
      setting gives. */
  lemma {:induction false} SetsAlike(floats: real -> bool, a: Json, b: Json, path: seq<Segment>, v: Json, w: Json)
    requires Proper(floats, a) && Proper(floats, b) && Alike(a, b) && Alike(v, w)
    ensures SetAt(a, path, v).Some? == SetAt(b, path, w).Some?
    ensures SetAt(a, path, v).Some? ==> Alike(SetAt(a, path, v).value, SetAt(b, path, w).value)
    decreases |path|
  {
    hide SortedKeys, Child, ChildIndex, WithChild, Alike;
    if path != [] {
      AlikeIndex(a, b, path[0]);
      if ChildIndex(a, path[0]).Some? {
        var k, m := ChildIndex(a, path[0]).value, ChildIndex(b, path[0]).value;
        ProperChild(floats, a, k);
        ProperChild(floats, b, m);
        SetsAlike(floats, Child(a, k), Child(b, m), path[1..], v, w);
        if SetAt(Child(a, k), path[1..], v).Some? {
          AlikeWithChild(a, b, path[0], SetAt(Child(a, k), path[1..], v).value, SetAt(Child(b, m), path[1..], w).value);
        }
      }
    }
  }

  /** Setting a proper value in a proper document leaves one. */
  lemma {:induction false} SetProper(floats: real -> bool, j: Json, path: seq<Segment>, value: Json)
    requires Proper(floats, j) && Proper(floats, value) && SetAt(j, path, value).Some?
    ensures Proper(floats, SetAt(j, path, value).value)
    decreases |path|
  {
    hide SortedKeys;
    if path != [] {
      var k := ChildIndex(j, path[0]).value;
      ProperChild(floats, j, k);
      SetProper(floats, Child(j, k), path[1..], value);
    }
  }

  /** What setting a path in a document makes of its text. */
  function EmittedSet(codec: Codec, data: Json, path: seq<Segment>, value: Json): Result<string, PatchError> {
    match SetAt(data, path, value) case None => Err(Unresolved) case Some(patched) => Ok(codec.emit(patched))
  }

  lemma PatchIs(codec: Codec, text: string)
    requires codec.Lawful() && codec.parse(text).Some? && codec.parse(text).value.Obj?
    ensures Proper(codec.floats, codec.parse(text).value)
    ensures forall path, value :: path != [] ==> PatchJson(codec, text, Some(path), value) == EmittedSet(codec, codec.parse(text).value, path, value)
  {
    hide SetAt;
  }

  /** A patch on the text a patch left is a patch on the document that patch set. */
  lemma PatchAgain(codec: Codec, data: Json, path: seq<Segment>, value: Json)
    requires codec.Lawful() && Proper(codec.floats, data) && data.Obj? && Proper(codec.floats, value) && path != []
    ensures PatchJson(codec, codec.emit(data), Some(path), value) == EmittedSet(codec, data, path, value)
  {
    var sorted := SortedKeys(data);
    assert codec.parse(codec.emit(data)) == Some(sorted);
    SortedProper(codec.floats, data);
    SortedTwice(codec.floats, data);
    SetsAlike(codec.floats, sorted, data, path, value, value);
    if SetAt(data, path, value).Some? {
      SetProper(codec.floats, data, path, value);
      SetProper(codec.floats, sorted, path, value);
    }
  }

  /** The second of two patches at one place decides. */
  lemma PatchTwice(codec: Codec, text: string, path: seq<Segment>, first: Json, second: Json)
    requires codec.Lawful() && path != [] && Proper(codec.floats, first) && Proper(codec.floats, second)
    requires PatchJson(codec, text, Some(path), first).Ok?
    ensures PatchJson(codec, PatchJson(codec, text, Some(path), first).value, Some(path), second) == PatchJson(codec, text, Some(path), second)
  {
    var data := codec.parse(text).value;
    PatchIs(codec, text);
    hide PatchJson, SetAt, Codec.Lawful;
    SetKeepsObject(data, path, first);
    SetProper(codec.floats, data, path, first);
    SetSet(data, path, first, second);
    PatchAgain(codec, SetAt(data, path, first).value, path, second);
  }

  /** Patches at diverging places commute, and neither decides whether the other succeeds. */
  lemma PatchesCommute(codec: Codec, text: string, p: seq<Segment>, v: Json, q: seq<Segment>, w: Json)
    requires codec.Lawful() && Diverge(p, q) && q != [] && Proper(codec.floats, v) && Proper(codec.floats, w)
    requires PatchJson(codec, text, Some(p), v).Ok?
    ensures var after := PatchJson(codec, PatchJson(codec, text, Some(p), v).value, Some(q), w);
            && after.Ok? == PatchJson(codec, text, Some(q), w).Ok?
            && (after.Ok? ==> after == PatchJson(codec, PatchJson(codec, text, Some(q), w).value, Some(p), v))
  {
    var data := codec.parse(text).value;
    PatchIs(codec, text);
    hide PatchJson, SetAt, Codec.Lawful;
    SetKeepsObject(data, p, v);
    SetProper(codec.floats, data, p, v);
    SetsCommute(data, p, v, q, w);
    PatchAgain(codec, SetAt(data, p, v).value, q, w);
    if SetAt(data, q, w).Some? {
      SetKeepsObject(data, q, w);
      SetProper(codec.floats, data, q, w);
      PatchAgain(codec, SetAt(data, q, w).value, p, v);
    }
  }
}
