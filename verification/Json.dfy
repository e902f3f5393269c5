/** JSON documents as the programs hold them: Python dicts keep their insertion
    order, so an object is a sequence of fields. */
module Json {
  import opened Results

  datatype Field = Field(key: string, value: Json)

  datatype Json =
    | Null
    | Bool(b: bool)
    | Int(i: int)
    | Float(r: real)
    | Str(s: string)
    | Arr(elements: seq<Json>)
    | Obj(fields: seq<Field>)

  /** Position of a key among the fields of an object. */
  function IndexOf(fields: seq<Field>, key: string): (k: Option<nat>)
    ensures k.Some? ==> k.value < |fields| && fields[k.value].key == key
    ensures k.Some? ==> forall i :: 0 <= i < k.value ==> fields[i].key != key
    ensures k.None? <==> forall i :: 0 <= i < |fields| ==> fields[i].key != key
  {
    if fields == [] then None
    else if fields[0].key == key then Some(0)
    else match IndexOf(fields[1..], key)
         case Some(k) => Some(k + 1)
         case None => None
  }

  /** `obj.get(key)`. */
  function Get(fields: seq<Field>, key: string): (r: Option<Json>)
    ensures r.Some? <==> HasKey(fields, key)
    ensures r.Some? ==> exists i :: 0 <= i < |fields| && fields[i] == Field(key, r.value)
  {
    match IndexOf(fields, key)
    case Some(k) =>
      assert fields[k] == Field(key, fields[k].value);
      Some(fields[k].value)
    case None => None
  }

  predicate HasKey(fields: seq<Field>, key: string) {
    exists i :: 0 <= i < |fields| && fields[i].key == key
  }

  /** No object of the document repeats a key. */
  predicate UniqueKeys(fields: seq<Field>) {
    forall i, j :: 0 <= i < j < |fields| ==> fields[i].key != fields[j].key
  }

  predicate WellFormed(j: Json) {
    match j
    case Arr(elements) => forall i :: 0 <= i < |elements| ==> WellFormed(elements[i])
    case Obj(fields) => UniqueKeys(fields) && forall i :: 0 <= i < |fields| ==> WellFormed(fields[i].value)
    case _ => true
  }

  /** A document of Python values: no repeated keys, and floats the machine has. */
  predicate Proper(floats: real -> bool, j: Json) {
    match j
    case Float(r) => floats(r)
    case Arr(elements) => forall i :: 0 <= i < |elements| ==> Proper(floats, elements[i])
    case Obj(fields) => UniqueKeys(fields) && forall i :: 0 <= i < |fields| ==> Proper(floats, fields[i].value)
    case _ => true
  }
}
