/** What a tool response shows: everything of the original outside its restricted objects, in
    order, with the mask fields masked, and of every list the first 500 items. */
module RedactionMeaning {
  import opened Json
  import opened JsonPatch
  import opened Redaction

  // ----- a tree as the list of its entries -------------------------------------------------

  /** One node of a tree in document order: the keys that lead to it, with "[]" for a list
      item, and the node itself, containers without their contents. */
  datatype Entry = Entry(path: seq<string>, node: Json)

  ghost function Entries(node: Json, path: seq<string>): seq<Entry>
    decreases node, 1
  {
    match node
    case Obj(fields) => [Entry(path, Obj([]))] + FieldEntries(fields, path)
    case Arr(elements) => [Entry(path, Arr([]))] + ItemEntries(elements, path)
    case _ => [Entry(path, node)]
  }

  ghost function FieldEntries(fields: seq<Field>, path: seq<string>): seq<Entry>
    decreases fields, 0
  {
    if fields == [] then [] else Entries(fields[0].value, path + [fields[0].key]) + FieldEntries(fields[1..], path)
  }

  ghost function ItemEntries(elements: seq<Json>, path: seq<string>): seq<Entry>
    decreases elements, 0
  {
    if elements == [] then [] else Entries(elements[0], path + ["[]"]) + ItemEntries(elements[1..], path)
  }

  /** An object of one of the three restricted domains. */
  predicate Restricted(node: Json) {
    node.Obj? && HasKey(node.fields, "domain")
    && Get(node.fields, "domain").value in {Str("pii.raw"), Str("credentials"), Str("key_material")}
  }

  predicate IsSecret(key: string) {
    key == "secret" || key == "api_key" || key == "password" || key == "token"
  }

  /** The entries to be shown. */
  ghost function Shown(node: Json, path: seq<string>): seq<Entry>
    decreases node, 1
  {
    if Restricted(node) then []
    else
      match node
      case Obj(fields) => [Entry(path, Obj([]))] + ShownFields(fields, path)
      case Arr(elements) => [Entry(path, Arr([]))] + ShownItems(elements, path)
      case _ => [Entry(path, node)]
  }

  ghost function ShownFields(fields: seq<Field>, path: seq<string>): seq<Entry>
    decreases fields, 0
  {
    if fields == [] then []
    else
      var below := path + [fields[0].key];
      (if IsSecret(fields[0].key) then [Entry(below, Str("***redacted***"))] else Shown(fields[0].value, below)) + ShownFields(fields[1..], path)
  }

  ghost function ShownItems(elements: seq<Json>, path: seq<string>): seq<Entry>
    decreases elements, 0
  {
    if elements == [] then [] else Shown(elements[0], path + ["[]"]) + ShownItems(elements[1..], path)
  }

  lemma RestrictedIs(node: Json)
    ensures DomainOf(node).Some? <==> Restricted(node)
  {
  }

  lemma FirstField(field: Field, rest: seq<Field>, path: seq<string>)
    ensures FieldEntries([field] + rest, path) == Entries(field.value, path + [field.key]) + FieldEntries(rest, path)
  {
    assert ([field] + rest)[1..] == rest;
  }

  lemma FirstItem(item: Json, rest: seq<Json>, path: seq<string>)
    ensures ItemEntries([item] + rest, path) == Entries(item, path + ["[]"]) + ItemEntries(rest, path)
  {
    assert ([item] + rest)[1..] == rest;
  }

  /** Redaction keeps a tree unless it is restricted, and shows exactly what is to be shown,
      nothing more and nothing less. */
  lemma {:induction false} RedactedShows(node: Json, path: seq<string>)
    ensures Redacted(node).Some? <==> !Restricted(node)
    ensures Redacted(node).Some? ==> Entries(Redacted(node).value, path) == Shown(node, path)
    ensures Redacted(node).None? ==> Shown(node, path) == []
    decreases node, 1
  {
    RestrictedIs(node);
    if !Restricted(node) {
      match node {
        case Obj(fields) => FieldsShow(fields, path);
        case Arr(elements) => ItemsShow(elements, path);
        case _ =>
      }
    }
  }

  lemma {:induction false} FieldsShow(fields: seq<Field>, path: seq<string>)
    ensures FieldEntries(RedactedFields(fields), path) == ShownFields(fields, path)
    decreases fields, 0
  {
    if fields != [] {
      var field, rest := fields[0], RedactedFields(fields[1..]);
      FieldsShow(fields[1..], path);
      RedactedShows(field.value, path + [field.key]);
      assert field.key in MASK_FIELDS <==> IsSecret(field.key);
      if IsSecret(field.key) {
        FirstField(Field(field.key, MASK), rest, path);
      } else if Redacted(field.value).Some? {
        FirstField(Field(field.key, Redacted(field.value).value), rest, path);
      }
    }
  }

  lemma {:induction false} ItemsShow(elements: seq<Json>, path: seq<string>)
    ensures ItemEntries(RedactedElements(elements), path) == ShownItems(elements, path)
    decreases elements, 0
  {
    if elements != [] {
      ItemsShow(elements[1..], path);
      RedactedShows(elements[0], path + ["[]"]);
      if Redacted(elements[0]).Some? {
        FirstItem(Redacted(elements[0]).value, RedactedElements(elements[1..]), path);
      }
    }
  }

  // ----- truncation ------------------------------------------------------------------------------

  /** The path keeps to the first 500 items of every list. */
  predicate Early(path: seq<Segment>) {
    forall i :: 0 <= i < |path| && path[i].Index? ==> path[i].index < 500
  }

  lemma TruncatedChild(node: Json, segment: Segment)
    ensures ChildIndex(Truncated(node), segment).Some? <==>
            ChildIndex(node, segment).Some? && (segment.Index? ==> segment.index < 500)
    ensures ChildIndex(Truncated(node), segment).Some? ==>
              ChildIndex(Truncated(node), segment) == ChildIndex(node, segment)
              && Child(Truncated(node), ChildIndex(node, segment).value) == Truncated(Child(node, ChildIndex(node, segment).value))
  {
    if node.Obj? && segment.Name? {
      SameIndex(node.fields, Truncated(node).fields, segment.name);
    }
  }

  lemma SameIndex(a: seq<Field>, b: seq<Field>, key: string)
    requires |a| == |b| && forall i :: 0 <= i < |a| ==> a[i].key == b[i].key
    ensures IndexOf(a, key) == IndexOf(b, key)
  {
  }

  /** A value is in the bounded tree exactly when its path keeps to the first 500 items of
      every list, and it is the bounded value of the original. */
  lemma {:induction false} TruncatedAt(node: Json, path: seq<Segment>)
    ensures GetAt(Truncated(node), path).Some? <==> GetAt(node, path).Some? && Early(path)
    ensures GetAt(Truncated(node), path).Some? ==>
              GetAt(Truncated(node), path).value == Truncated(GetAt(node, path).value)
              && (!GetAt(node, path).value.Obj? && !GetAt(node, path).value.Arr? ==> GetAt(Truncated(node), path) == GetAt(node, path))
              && (GetAt(node, path).value.Arr? ==>
                    |GetAt(Truncated(node), path).value.elements| ==
                      if |GetAt(node, path).value.elements| < 500 then |GetAt(node, path).value.elements| else 500)
    decreases |path|
  {
    hide ChildIndex;
    if path != [] {
      TruncatedChild(node, path[0]);
      if ChildIndex(node, path[0]).Some? {
        TruncatedAt(Child(node, ChildIndex(node, path[0]).value), path[1..]);
      }
      assert Early(path) <==> (path[0].Index? ==> path[0].index < 500) && Early(path[1..]) by {
        assert path == [path[0]] + path[1..];
      }
    }
  }

  /** The lengths of the lists of a tree, those of the first 500 items of a longer list. */
  ghost function Lengths(node: Json): seq<nat>
    decreases node, 1
  {
    match node
    case Obj(fields) => FieldLengths(fields)
    case Arr(elements) => [|elements|] + ItemLengths(elements, if |elements| < 500 then |elements| else 500)
    case _ => []
  }

  ghost function FieldLengths(fields: seq<Field>): seq<nat>
    decreases fields, 0
  {
    if fields == [] then [] else Lengths(fields[0].value) + FieldLengths(fields[1..])
  }

  ghost function ItemLengths(elements: seq<Json>, n: nat): seq<nat>
    requires n <= |elements|
    decreases elements, 0, n
  {
    if n == 0 then [] else ItemLengths(elements, n - 1) + Lengths(elements[n - 1])
  }

  /** How many of them exceed 500. */
  ghost function TooLong(lengths: seq<nat>): nat {
    if lengths == [] then 0 else (if lengths[0] > 500 then 1 else 0) + TooLong(lengths[1..])
  }

  lemma {:induction false} TooLongAppend(a: seq<nat>, b: seq<nat>)
    ensures TooLong(a + b) == TooLong(a) + TooLong(b)
  {
    if a == [] {
      assert a + b == b;
    } else {
      assert (a + b)[1..] == a[1..] + b;
      TooLongAppend(a[1..], b);
    }
  }

  /** The count of cut lists is the number of visible lists with more than 500 items. */
  lemma {:induction false} CutsCounted(node: Json)
    ensures CutLists(node) == TooLong(Lengths(node))
    decreases node, 1
  {
    match node {
      case Obj(fields) => FieldCutsCounted(fields);
      case Arr(elements) =>
        var n := if |elements| < 500 then |elements| else 500;
        ItemCutsCounted(elements, n);
        TooLongAppend([|elements|], ItemLengths(elements, n));
      case _ =>
    }
  }

  lemma {:induction false} FieldCutsCounted(fields: seq<Field>)
    ensures CutFields(fields) == TooLong(FieldLengths(fields))
    decreases fields, 0
  {
    if fields != [] {
      CutsCounted(fields[0].value);
      FieldCutsCounted(fields[1..]);
      TooLongAppend(Lengths(fields[0].value), FieldLengths(fields[1..]));
    }
  }

  lemma {:induction false} ItemCutsCounted(elements: seq<Json>, n: nat)
    requires n <= |elements|
    ensures CutElements(elements, n) == TooLong(ItemLengths(elements, n))
    decreases elements, 0, n
  {
    if n > 0 {
      ItemCutsCounted(elements, n - 1);
      CutsCounted(elements[n - 1]);
      TooLongAppend(ItemLengths(elements, n - 1), Lengths(elements[n - 1]));
    }
  }
}
