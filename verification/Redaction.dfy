/** Redacting a tool response and bounding its lists (policy.py: redact; gateway.py:
    _truncate_lists and the response path). */
module Redaction {
  import opened Results
  import opened Json

  const MASK := Str("***redacted***")
  const MASK_FIELDS: set<string> := {"secret", "api_key", "password", "token"}
  const DENY_LIST: set<string> := {"pii.raw", "credentials", "key_material"}
  const MAX_ITEMS := 500

  /** The restricted domain an object carries, if any. */
  function DomainOf(node: Json): Option<string> {
    if !node.Obj? then None
    else
      match Get(node.fields, "domain")
      case Some(Str(domain)) => if domain in DENY_LIST then Some(domain) else None
      case _ => None
  }

  // ----- redaction ---------------------------------------------------------------------

  /** What `walk` returns; `None` tells the parent to drop the node. */
  function Redacted(node: Json): Option<Json>
    decreases node, 1
  {
    if DomainOf(node).Some? then None
    else
      match node
      case Obj(fields) => Some(Obj(RedactedFields(fields)))
      case Arr(elements) => Some(Arr(RedactedElements(elements)))
      case _ => Some(node)
  }

  function RedactedFields(fields: seq<Field>): seq<Field>
    decreases fields, 0
  {
    if fields == [] then []
    else
      var field := fields[0];
      var rest := RedactedFields(fields[1..]);
      if field.key in MASK_FIELDS then [Field(field.key, MASK)] + rest
      else
        match Redacted(field.value)
        case None => rest
        case Some(child) => [Field(field.key, child)] + rest
  }

  function RedactedElements(elements: seq<Json>): seq<Json>
    decreases elements, 0
  {
    if elements == [] then []
    else
      var rest := RedactedElements(elements[1..]);
      match Redacted(elements[0])
      case None => rest
      case Some(child) => [child] + rest
  }

  /** The keys `walk` masks, in the order it meets them. */
  function Masked(node: Json): seq<string>
    decreases node, 1
  {
    if DomainOf(node).Some? then []
    else
      match node
      case Obj(fields) => MaskedFields(fields)
      case Arr(elements) => MaskedElements(elements)
      case _ => []
  }

  function MaskedFields(fields: seq<Field>): seq<string>
    decreases fields, 0
  {
    if fields == [] then []
    else
      (if fields[0].key in MASK_FIELDS then [fields[0].key] else Masked(fields[0].value)) + MaskedFields(fields[1..])
  }

  function MaskedElements(elements: seq<Json>): seq<string>
    decreases elements, 0
  {
    if elements == [] then [] else Masked(elements[0]) + MaskedElements(elements[1..])
  }

  /** The restricted domains `walk` drops, in the order it meets them. */
  function Denied(node: Json): seq<string>
    decreases node, 1
  {
    if DomainOf(node).Some? then [DomainOf(node).value]
    else
      match node
      case Obj(fields) => DeniedFields(fields)
      case Arr(elements) => DeniedElements(elements)
      case _ => []
  }

  function DeniedFields(fields: seq<Field>): seq<string>
    decreases fields, 0
  {
    if fields == [] then []
    else (if fields[0].key in MASK_FIELDS then [] else Denied(fields[0].value)) + DeniedFields(fields[1..])
  }

  function DeniedElements(elements: seq<Json>): seq<string>
    decreases elements, 0
  {
    if elements == [] then [] else Denied(elements[0]) + DeniedElements(elements[1..])
  }

  /** `redact`: a dropped root becomes null. */
  function RedactedRoot(node: Json): Json {
    match Redacted(node) case Some(kept) => kept case None => Null
  }

  // ----- truncation -----------------------------------------------------------------------

  /** `_truncate_lists`. */
  function Truncated(node: Json): Json
    decreases node
  {
    match node
    case Obj(fields) => Obj(seq(|fields|, i requires 0 <= i < |fields| => Field(fields[i].key, Truncated(fields[i].value))))
    case Arr(elements) =>
      var n := if |elements| > MAX_ITEMS then MAX_ITEMS else |elements|;
      Arr(seq(n, i requires 0 <= i < n => Truncated(elements[i])))
    case _ => node
  }

  /** How many lists it cuts. */
  function CutLists(node: Json): nat
    decreases node, 1
  {
    match node
    case Obj(fields) => CutFields(fields)
    case Arr(elements) =>
      if |elements| > MAX_ITEMS then 1 + CutElements(elements, MAX_ITEMS) else CutElements(elements, |elements|)
    case _ => 0
  }

  function CutFields(fields: seq<Field>): nat
    decreases fields, 0
  {
    if fields == [] then 0 else CutLists(fields[0].value) + CutFields(fields[1..])
  }

  function CutElements(elements: seq<Json>, n: nat): nat
    requires n <= |elements|
    decreases elements, 0, n
  {
    if n == 0 then 0 else CutElements(elements, n - 1) + CutLists(elements[n - 1])
  }

  /** The structured data a response carries. */
  function Response(node: Json): Json {
    Truncated(RedactedRoot(node))
  }

  // ----- what redaction leaves ------------------------------------------------------------------

  /** No restricted object at any depth, and every mask field masked. */
  predicate Clean(node: Json) {
    && DomainOf(node).None?
    && match node
       case Obj(fields) =>
         forall i :: 0 <= i < |fields| ==> if fields[i].key in MASK_FIELDS then fields[i].value == MASK else Clean(fields[i].value)
       case Arr(elements) => forall i :: 0 <= i < |elements| ==> Clean(elements[i])
       case _ => true
  }

  predicate CleanFields(fields: seq<Field>) {
    forall i :: 0 <= i < |fields| ==> if fields[i].key in MASK_FIELDS then fields[i].value == MASK else Clean(fields[i].value)
  }

  predicate CleanElements(elements: seq<Json>) {
    forall i :: 0 <= i < |elements| ==> Clean(elements[i])
  }

  /** The domain an object carries survives redaction as it was. */
  lemma {:induction false} DomainKept(fields: seq<Field>)
    ensures Get(fields, "domain").Some? && Get(fields, "domain").value.Str? ==>
              Get(RedactedFields(fields), "domain") == Get(fields, "domain")
    ensures !(Get(fields, "domain").Some? && Get(fields, "domain").value.Str?) && UniqueKeys(fields) ==>
              !(Get(RedactedFields(fields), "domain").Some? && Get(RedactedFields(fields), "domain").value.Str?)
  {
    if fields != [] {
      UniqueTail(fields);
      DomainKept(fields[1..]);
      GetHead(fields, "domain");
      var rest := RedactedFields(fields[1..]);
      if fields[0].key != "domain" {
        if fields[0].key in MASK_FIELDS {
          GetCons(Field(fields[0].key, MASK), rest, "domain");
        } else if Redacted(fields[0].value).Some? {
          GetCons(Field(fields[0].key, Redacted(fields[0].value).value), rest, "domain");
        }
      } else {
        assert "domain" !in MASK_FIELDS;
        if Redacted(fields[0].value).Some? {
          GetCons(Field("domain", Redacted(fields[0].value).value), rest, "domain");
        } else if UniqueKeys(fields) {
          NoKey(fields[1..], "domain");
        }
      }
    }
  }

  lemma UniqueTail(fields: seq<Field>)
    requires fields != []
    ensures UniqueKeys(fields) ==> UniqueKeys(fields[1..]) && !HasKey(fields[1..], fields[0].key)
  {
  }

  lemma GetHead(fields: seq<Field>, key: string)
    requires fields != []
    ensures Get(fields, key) == if fields[0].key == key then Some(fields[0].value) else Get(fields[1..], key)
  {
  }

  lemma GetCons(field: Field, rest: seq<Field>, key: string)
    ensures Get([field] + rest, key) == if field.key == key then Some(field.value) else Get(rest, key)
  {
    assert ([field] + rest)[1..] == rest;
  }

  lemma {:induction false} NoKey(fields: seq<Field>, key: string)
    requires !HasKey(fields, key)
    ensures Get(RedactedFields(fields), key).None?
  {
    if fields != [] {
      assert fields[0].key != key;
      assert !HasKey(fields[1..], key) by {
        assert forall i :: 0 <= i < |fields[1..]| ==> fields[1..][i] == fields[i + 1];
      }
      NoKey(fields[1..], key);
      var rest := RedactedFields(fields[1..]);
      if fields[0].key in MASK_FIELDS {
        GetCons(Field(fields[0].key, MASK), rest, key);
      } else if Redacted(fields[0].value).Some? {
        GetCons(Field(fields[0].key, Redacted(fields[0].value).value), rest, key);
      }
    }
  }

  /** Nothing unmasked and nothing restricted is left at any depth. */
  lemma {:induction false} RedactedIsClean(node: Json)
    requires WellFormed(node)
    ensures Redacted(node).Some? ==> Clean(Redacted(node).value)
    decreases node, 1
  {
    if DomainOf(node).None? {
      match node {
        case Obj(fields) =>
          DomainKept(fields);
          FieldsClean(fields);
        case Arr(elements) => ElementsClean(elements);
        case _ =>
      }
    }
  }

  lemma {:induction false} FieldsClean(fields: seq<Field>)
    requires forall i :: 0 <= i < |fields| ==> WellFormed(fields[i].value)
    ensures CleanFields(RedactedFields(fields))
    decreases fields, 0
  {
    if fields != [] {
      FieldsClean(fields[1..]);
      RedactedIsClean(fields[0].value);
    }
  }

  lemma {:induction false} ElementsClean(elements: seq<Json>)
    requires forall i :: 0 <= i < |elements| ==> WellFormed(elements[i])
    ensures CleanElements(RedactedElements(elements))
    decreases elements, 0
  {
    if elements != [] {
      ElementsClean(elements[1..]);
      RedactedIsClean(elements[0]);
    }
  }

  /** A clean tree redacts to itself: redaction is idempotent. */
  lemma {:induction false} CleanStays(node: Json)
    requires Clean(node)
    ensures Redacted(node) == Some(node) && Denied(node) == []
    decreases node, 1
  {
    match node {
      case Obj(fields) => FieldsStay(fields);
      case Arr(elements) => ElementsStay(elements);
      case _ =>
    }
  }

  lemma {:induction false} FieldsStay(fields: seq<Field>)
    requires CleanFields(fields)
    ensures RedactedFields(fields) == fields && DeniedFields(fields) == []
    decreases fields, 0
  {
    if fields != [] {
      assert CleanFields(fields[1..]);
      FieldsStay(fields[1..]);
      if fields[0].key !in MASK_FIELDS {
        CleanStays(fields[0].value);
      }
      assert fields == [fields[0]] + fields[1..];
    }
  }

  lemma {:induction false} ElementsStay(elements: seq<Json>)
    requires CleanElements(elements)
    ensures RedactedElements(elements) == elements && DeniedElements(elements) == []
    decreases elements, 0
  {
    if elements != [] {
      assert CleanElements(elements[1..]);
      ElementsStay(elements[1..]);
      CleanStays(elements[0]);
      assert elements == [elements[0]] + elements[1..];
    }
  }

  // ----- what the metadata counts ---------------------------------------------------------------------

  /** The mask fields of a tree, in order. */
  function MaskKeys(node: Json): seq<string>
    decreases node, 1
  {
    match node
    case Obj(fields) => MaskKeysOf(fields)
    case Arr(elements) => MaskKeysIn(elements)
    case _ => []
  }

  function MaskKeysOf(fields: seq<Field>): seq<string>
    decreases fields, 0
  {
    if fields == [] then []
    else (if fields[0].key in MASK_FIELDS then [fields[0].key] else MaskKeys(fields[0].value)) + MaskKeysOf(fields[1..])
  }

  function MaskKeysIn(elements: seq<Json>): seq<string>
    decreases elements, 0
  {
    if elements == [] then [] else MaskKeys(elements[0]) + MaskKeysIn(elements[1..])
  }

  /** `masked_fields` lists exactly the mask fields of the redacted tree. */
  lemma {:induction false} MaskedAreMaskKeys(node: Json)
    ensures Masked(node) == if Redacted(node).Some? then MaskKeys(Redacted(node).value) else []
    decreases node, 1
  {
    match node {
      case Obj(fields) => MaskedFieldsAre(fields);
      case Arr(elements) => MaskedElementsAre(elements);
      case _ =>
    }
  }

  lemma {:induction false} MaskedFieldsAre(fields: seq<Field>)
    ensures MaskedFields(fields) == MaskKeysOf(RedactedFields(fields))
    decreases fields, 0
  {
    if fields != [] {
      MaskedFieldsAre(fields[1..]);
      MaskedAreMaskKeys(fields[0].value);
      var rest := RedactedFields(fields[1..]);
      if fields[0].key in MASK_FIELDS {
        assert ([Field(fields[0].key, MASK)] + rest)[1..] == rest;
      } else if Redacted(fields[0].value).Some? {
        assert ([Field(fields[0].key, Redacted(fields[0].value).value)] + rest)[1..] == rest;
      }
    }
  }

  lemma {:induction false} MaskedElementsAre(elements: seq<Json>)
    ensures MaskedElements(elements) == MaskKeysIn(RedactedElements(elements))
    decreases elements, 0
  {
    if elements != [] {
      MaskedElementsAre(elements[1..]);
      MaskedAreMaskKeys(elements[0]);
      var rest := RedactedElements(elements[1..]);
      if Redacted(elements[0]).Some? {
        assert ([Redacted(elements[0]).value] + rest)[1..] == rest;
      }
    }
  }

  /** The child at a position, unless a mask field hides it. */
  function ChildAt(node: Json, k: nat): Option<Json> {
    match node
    case Obj(fields) => if k < |fields| && fields[k].key !in MASK_FIELDS then Some(fields[k].value) else None
    case Arr(elements) => if k < |elements| then Some(elements[k]) else None
    case _ => None
  }

  /** The path leads to a restricted object, through no restricted object and no mask field. */
  predicate Outermost(node: Json, path: seq<nat>, domain: string)
    decreases |path|
  {
    if path == [] then DomainOf(node) == Some(domain)
    else DomainOf(node).None? && ChildAt(node, path[0]).Some? && Outermost(ChildAt(node, path[0]).value, path[1..], domain)
  }

  datatype Drop = Drop(path: seq<nat>, domain: string)

  /** The places of the dropped objects, in order. */
  function Drops(node: Json): seq<Drop>
    decreases node, 1
  {
    if DomainOf(node).Some? then [Drop([], DomainOf(node).value)]
    else
      match node
      case Obj(fields) => DropsOf(fields, |fields|)
      case Arr(elements) => DropsIn(elements, |elements|)
      case _ => []
  }

  function Under(k: nat, drops: seq<Drop>): (r: seq<Drop>)
    ensures |r| == |drops| && forall i :: 0 <= i < |r| ==> r[i] == Drop([k] + drops[i].path, drops[i].domain)
  {
    seq(|drops|, i requires 0 <= i < |drops| => Drop([k] + drops[i].path, drops[i].domain))
  }

  function DropsOf(fields: seq<Field>, n: nat): seq<Drop>
    requires n <= |fields|
    decreases fields, 0, n
  {
    if n == 0 then []
    else DropsOf(fields, n - 1) + if fields[n - 1].key in MASK_FIELDS then [] else Under(n - 1, Drops(fields[n - 1].value))
  }

  function DropsIn(elements: seq<Json>, n: nat): seq<Drop>
    requires n <= |elements|
    decreases elements, 0, n
  {
    if n == 0 then [] else DropsIn(elements, n - 1) + Under(n - 1, Drops(elements[n - 1]))
  }

  function DomainsOf(drops: seq<Drop>): (r: seq<string>)
    ensures |r| == |drops|
  {
    seq(|drops|, i requires 0 <= i < |drops| => drops[i].domain)
  }

  ghost predicate Distinct(drops: seq<Drop>) {
    forall i, j :: 0 <= i < j < |drops| ==> drops[i].path != drops[j].path
  }

  ghost predicate HeadsBelow(drops: seq<Drop>, n: nat) {
    forall i :: 0 <= i < |drops| ==> drops[i].path != [] && drops[i].path[0] < n
  }

  lemma UnderDistinct(k: nat, drops: seq<Drop>)
    requires Distinct(drops)
    ensures Distinct(Under(k, drops)) && HeadsBelow(Under(k, drops), k + 1)
  {
    var r := Under(k, drops);
    forall i, j | 0 <= i < j < |r| ensures r[i].path != r[j].path {
      assert r[i].path[1..] == drops[i].path && r[j].path[1..] == drops[j].path;
    }
  }

  lemma AppendDistinct(a: seq<Drop>, b: seq<Drop>, k: nat)
    requires Distinct(a) && Distinct(b) && HeadsBelow(a, k)
    requires forall i :: 0 <= i < |b| ==> b[i].path != [] && b[i].path[0] == k
    ensures Distinct(a + b) && HeadsBelow(a + b, k + 1)
  {
  }

  /** The dropped objects are exactly the outermost restricted ones, each once. */
  lemma {:induction false} DropsAreOutermost(node: Json)
    ensures Distinct(Drops(node))
    ensures forall path, domain :: Drop(path, domain) in Drops(node) <==> Outermost(node, path, domain)
    decreases node, 1
  {
    if DomainOf(node).None? {
      match node {
        case Obj(fields) => DropsOfFields(node, fields, |fields|);
        case Arr(elements) => DropsInElements(node, elements, |elements|);
        case _ =>
      }
      forall path, domain ensures Drop(path, domain) in Drops(node) <==> Outermost(node, path, domain) {
      }
    }
  }

  lemma UnderMembers(k: nat, drops: seq<Drop>, path: seq<nat>, domain: string)
    ensures Drop(path, domain) in Under(k, drops) <==> path != [] && path[0] == k && Drop(path[1..], domain) in drops
  {
    var r := Under(k, drops);
    if Drop(path, domain) in r {
      var i :| 0 <= i < |r| && r[i] == Drop(path, domain);
      assert path[1..] == drops[i].path;
    }
    if path != [] && path[0] == k && Drop(path[1..], domain) in drops {
      var i :| 0 <= i < |drops| && drops[i] == Drop(path[1..], domain);
      assert r[i] == Drop([k] + path[1..], domain) && [k] + path[1..] == path;
    }
  }

  lemma {:induction false} DropsOfFields(node: Json, fields: seq<Field>, n: nat)
    requires node == Obj(fields) && DomainOf(node).None? && n <= |fields|
    ensures Distinct(DropsOf(fields, n)) && HeadsBelow(DropsOf(fields, n), n)
    ensures forall path, domain :: Drop(path, domain) in DropsOf(fields, n) <==>
              path != [] && path[0] < n && Outermost(node, path, domain)
    decreases fields, 0, n
  {
    hide Drops, DropsOf, DomainOf, Outermost, Distinct, HeadsBelow;
    if n == 0 {
      NoDrops(fields, []);
    } else {
      DropsOfFields(node, fields, n - 1);
      var last := if fields[n - 1].key in MASK_FIELDS then [] else Under(n - 1, Drops(fields[n - 1].value));
      DropsStep(fields, n);
      NoDrops(fields, []);
      if fields[n - 1].key !in MASK_FIELDS {
        DropsAreOutermost(fields[n - 1].value);
        UnderDistinct(n - 1, Drops(fields[n - 1].value));
      }
      AppendDistinct(DropsOf(fields, n - 1), last, n - 1);
      forall path, domain ensures Drop(path, domain) in DropsOf(fields, n) <==> path != [] && path[0] < n && Outermost(node, path, domain) {
        OneFieldMore(node, fields, n, path, domain);
      }
    }
  }

  lemma NoDrops(fields: seq<Field>, elements: seq<Json>)
    ensures DropsOf(fields, 0) == [] && DropsIn(elements, 0) == []
    ensures Distinct([]) && HeadsBelow([], 0)
  {
  }

  lemma DropsStep(fields: seq<Field>, n: nat)
    requires 0 < n <= |fields|
    ensures DropsOf(fields, n) ==
            DropsOf(fields, n - 1) + if fields[n - 1].key in MASK_FIELDS then [] else Under(n - 1, Drops(fields[n - 1].value))
  {
  }

  lemma ElementDropsStep(elements: seq<Json>, n: nat)
    requires 0 < n <= |elements|
    ensures DropsIn(elements, n) == DropsIn(elements, n - 1) + Under(n - 1, Drops(elements[n - 1]))
  {
  }

  lemma OneFieldMore(node: Json, fields: seq<Field>, n: nat, path: seq<nat>, domain: string)
    requires node == Obj(fields) && DomainOf(node).None? && 0 < n <= |fields|
    requires Drop(path, domain) in DropsOf(fields, n - 1) <==> path != [] && path[0] < n - 1 && Outermost(node, path, domain)
    requires fields[n - 1].key !in MASK_FIELDS && path != [] ==>
               (Drop(path[1..], domain) in Drops(fields[n - 1].value) <==> Outermost(fields[n - 1].value, path[1..], domain))
    ensures Drop(path, domain) in DropsOf(fields, n) <==> path != [] && path[0] < n && Outermost(node, path, domain)
  {
    hide Drops, DomainOf;
    if fields[n - 1].key !in MASK_FIELDS {
      UnderMembers(n - 1, Drops(fields[n - 1].value), path, domain);
    }
  }

  lemma {:induction false} DropsInElements(node: Json, elements: seq<Json>, n: nat)
    requires node == Arr(elements) && n <= |elements|
    ensures Distinct(DropsIn(elements, n)) && HeadsBelow(DropsIn(elements, n), n)
    ensures forall path, domain :: Drop(path, domain) in DropsIn(elements, n) <==>
              path != [] && path[0] < n && Outermost(node, path, domain)
    decreases elements, 0, n
  {
    hide Drops, DropsIn, Outermost, Distinct, HeadsBelow;
    if n == 0 {
      NoDrops([], elements);
    } else {
      DropsInElements(node, elements, n - 1);
      var last := Under(n - 1, Drops(elements[n - 1]));
      ElementDropsStep(elements, n);
      DropsAreOutermost(elements[n - 1]);
      UnderDistinct(n - 1, Drops(elements[n - 1]));
      AppendDistinct(DropsIn(elements, n - 1), last, n - 1);
      forall path, domain ensures Drop(path, domain) in DropsIn(elements, n) <==> path != [] && path[0] < n && Outermost(node, path, domain) {
        OneElementMore(node, elements, n, path, domain);
      }
    }
  }

  lemma OneElementMore(node: Json, elements: seq<Json>, n: nat, path: seq<nat>, domain: string)
    requires node == Arr(elements) && 0 < n <= |elements|
    requires Drop(path, domain) in DropsIn(elements, n - 1) <==> path != [] && path[0] < n - 1 && Outermost(node, path, domain)
    requires path != [] ==> (Drop(path[1..], domain) in Drops(elements[n - 1]) <==> Outermost(elements[n - 1], path[1..], domain))
    ensures Drop(path, domain) in DropsIn(elements, n) <==> path != [] && path[0] < n && Outermost(node, path, domain)
  {
    hide Drops;
    UnderMembers(n - 1, Drops(elements[n - 1]), path, domain);
  }

  lemma {:induction false} DeniedAppend(a: seq<Field>, b: seq<Field>)
    ensures DeniedFields(a + b) == DeniedFields(a) + DeniedFields(b)
  {
    if a == [] {
      assert a + b == b;
    } else {
      assert (a + b)[0] == a[0] && (a + b)[1..] == a[1..] + b;
      DeniedAppend(a[1..], b);
    }
  }

  lemma {:induction false} DeniedElementsAppend(a: seq<Json>, b: seq<Json>)
    ensures DeniedElements(a + b) == DeniedElements(a) + DeniedElements(b)
  {
    if a == [] {
      assert a + b == b;
    } else {
      assert (a + b)[0] == a[0] && (a + b)[1..] == a[1..] + b;
      DeniedElementsAppend(a[1..], b);
    }
  }

  /** `denied_domains` lists the domains of exactly the outermost restricted objects, in
      order; so it counts them. */
  lemma {:induction false} DeniedAreDrops(node: Json)
    ensures Denied(node) == DomainsOf(Drops(node))
    decreases node, 1
  {
    if DomainOf(node).None? {
      match node {
        case Obj(fields) =>
          DeniedOfFields(fields, |fields|);
          assert fields[..|fields|] == fields;
        case Arr(elements) =>
          DeniedInElements(elements, |elements|);
          assert elements[..|elements|] == elements;
        case _ =>
      }
    }
  }

  lemma UnderDomains(k: nat, drops: seq<Drop>)
    ensures DomainsOf(Under(k, drops)) == DomainsOf(drops)
  {
  }

  lemma {:induction false} DeniedOfFields(fields: seq<Field>, n: nat)
    requires n <= |fields|
    ensures DeniedFields(fields[..n]) == DomainsOf(DropsOf(fields, n))
    decreases fields, 0, n
  {
    hide Denied, DeniedFields, Drops, DropsOf, Under;
    if n == 0 {
      NoDrops(fields, []);
      NothingDenied(fields[..n], []);
    } else {
      DeniedOfFields(fields, n - 1);
      var last := fields[n - 1];
      DeniedAreDrops(last.value);
      assert fields[..n] == fields[..n - 1] + [last];
      DeniedAppend(fields[..n - 1], [last]);
      OneDenied(last, Null);
      DropsStep(fields, n);
      UnderDomains(n - 1, Drops(last.value));
    }
  }

  lemma NothingDenied(fields: seq<Field>, elements: seq<Json>)
    ensures fields == [] ==> DeniedFields(fields) == []
    ensures elements == [] ==> DeniedElements(elements) == []
  {
  }

  lemma OneDenied(field: Field, element: Json)
    ensures DeniedFields([field]) == if field.key in MASK_FIELDS then [] else Denied(field.value)
    ensures DeniedElements([element]) == Denied(element)
  {
    assert [field][1..] == [] && [element][1..] == [];
  }

  lemma {:induction false} DeniedInElements(elements: seq<Json>, n: nat)
    requires n <= |elements|
    ensures DeniedElements(elements[..n]) == DomainsOf(DropsIn(elements, n))
    decreases elements, 0, n
  {
    hide Denied, DeniedElements, Drops, DropsIn, Under;
    if n == 0 {
      NoDrops([], elements);
      NothingDenied([], elements[..n]);
    } else {
      DeniedInElements(elements, n - 1);
      DeniedAreDrops(elements[n - 1]);
      assert elements[..n] == elements[..n - 1] + [elements[n - 1]];
      DeniedElementsAppend(elements[..n - 1], [elements[n - 1]]);
      OneDenied(Field("", Null), elements[n - 1]);
      ElementDropsStep(elements, n);
      UnderDomains(n - 1, Drops(elements[n - 1]));
    }
  }

  // ----- truncation ------------------------------------------------------------------------------------------

  /** Every list has at most 500 items. */
  predicate Bounded(node: Json) {
    match node
    case Obj(fields) => forall i :: 0 <= i < |fields| ==> Bounded(fields[i].value)
    case Arr(elements) => |elements| <= MAX_ITEMS && forall i :: 0 <= i < |elements| ==> Bounded(elements[i])
    case _ => true
  }

  lemma {:induction false} TruncatedIsBounded(node: Json)
    ensures Bounded(Truncated(node))
  {
    match node {
      case Obj(fields) =>
        forall i | 0 <= i < |fields| ensures Bounded(Truncated(fields[i].value)) {
          TruncatedIsBounded(fields[i].value);
        }
      case Arr(elements) =>
        forall i | 0 <= i < |elements| ensures Bounded(Truncated(elements[i])) {
          TruncatedIsBounded(elements[i]);
        }
      case _ =>
    }
  }

  /** A tree is left as it is exactly when every list is within the bound, and exactly
      then no list is counted. */
  lemma {:induction false} TruncationIff(node: Json)
    ensures Bounded(node) <==> Truncated(node) == node
    ensures Bounded(node) <==> CutLists(node) == 0
    decreases node, 1
  {
    match node {
      case Obj(fields) =>
        forall i | 0 <= i < |fields| ensures Bounded(fields[i].value) <==> Truncated(fields[i].value) == fields[i].value {
          TruncationIff(fields[i].value);
        }
        CutFieldsIff(fields);
        ObjectStays(fields);
      case Arr(elements) =>
        forall i | 0 <= i < |elements| ensures Bounded(elements[i]) <==> Truncated(elements[i]) == elements[i] {
          TruncationIff(elements[i]);
        }
        if |elements| <= MAX_ITEMS {
          CutElementsIff(elements, |elements|);
          ListStays(elements);
        }
      case _ =>
    }
  }

  lemma ObjectStays(fields: seq<Field>)
    ensures Truncated(Obj(fields)) == Obj(fields) <==> forall i :: 0 <= i < |fields| ==> Truncated(fields[i].value) == fields[i].value
  {
    var after := Truncated(Obj(fields)).fields;
    assert forall i :: 0 <= i < |fields| ==> after[i] == Field(fields[i].key, Truncated(fields[i].value));
    if forall i :: 0 <= i < |fields| ==> Truncated(fields[i].value) == fields[i].value {
      assert after == fields;
    } else {
      var i :| 0 <= i < |fields| && Truncated(fields[i].value) != fields[i].value;
      assert after[i] != fields[i];
    }
  }

  lemma ListStays(elements: seq<Json>)
    requires |elements| <= MAX_ITEMS
    ensures Truncated(Arr(elements)) == Arr(elements) <==> forall i :: 0 <= i < |elements| ==> Truncated(elements[i]) == elements[i]
  {
    var after := Truncated(Arr(elements)).elements;
    assert forall i :: 0 <= i < |elements| ==> after[i] == Truncated(elements[i]);
    if forall i :: 0 <= i < |elements| ==> Truncated(elements[i]) == elements[i] {
      assert after == elements;
    } else {
      var i :| 0 <= i < |elements| && Truncated(elements[i]) != elements[i];
      assert after[i] != elements[i];
    }
  }

  lemma {:induction false} CutFieldsIff(fields: seq<Field>)
    ensures CutFields(fields) == 0 <==> forall i :: 0 <= i < |fields| ==> Bounded(fields[i].value)
    decreases fields, 0
  {
    if fields != [] {
      TruncationIff(fields[0].value);
      CutFieldsIff(fields[1..]);
      assert forall i :: 0 < i < |fields| ==> fields[i] == fields[1..][i - 1];
    }
  }

  lemma {:induction false} CutElementsIff(elements: seq<Json>, n: nat)
    requires n <= |elements|
    ensures CutElements(elements, n) == 0 <==> forall i :: 0 <= i < n ==> Bounded(elements[i])
    decreases elements, 0, n
  {
    if n > 0 {
      CutElementsIff(elements, n - 1);
      TruncationIff(elements[n - 1]);
    }
  }

  lemma TruncatedGet(fields: seq<Field>, key: string)
    ensures var after := Truncated(Obj(fields)).fields;
            Get(after, key) == if Get(fields, key).Some? then Some(Truncated(Get(fields, key).value)) else None
  {
    var after := Truncated(Obj(fields)).fields;
    assert forall i :: 0 <= i < |fields| ==> after[i] == Field(fields[i].key, Truncated(fields[i].value));
    IndexKept(fields, after, key);
  }

  lemma {:induction false} IndexKept(a: seq<Field>, b: seq<Field>, key: string)
    requires |a| == |b| && forall i :: 0 <= i < |a| ==> a[i].key == b[i].key
    ensures IndexOf(a, key) == IndexOf(b, key)
  {
    if a != [] {
      IndexKept(a[1..], b[1..], key);
    }
  }

  /** Truncation keeps a clean tree clean. */
  lemma {:induction false} TruncatedStaysClean(node: Json)
    requires Clean(node)
    ensures Clean(Truncated(node))
  {
    match node {
      case Obj(fields) =>
        TruncatedGet(fields, "domain");
        StringStays(fields);
        forall i | 0 <= i < |fields| && fields[i].key !in MASK_FIELDS ensures Clean(Truncated(fields[i].value)) {
          TruncatedStaysClean(fields[i].value);
        }
      case Arr(elements) =>
        forall i | 0 <= i < |elements| ensures Clean(Truncated(elements[i])) {
          TruncatedStaysClean(elements[i]);
        }
      case _ =>
    }
  }

  lemma StringStays(fields: seq<Field>)
    ensures DomainOf(Truncated(Obj(fields))) == DomainOf(Obj(fields))
  {
    TruncatedGet(fields, "domain");
    if Get(fields, "domain").Some? {
      var value := Get(fields, "domain").value;
      assert Truncated(value).Str? <==> value.Str?;
      assert value.Str? ==> Truncated(value) == value;
    }
  }

  /** The response carries no unmasked mask field, no restricted object and no list over
      500 items at any depth, and treating it once more changes nothing and drops or cuts
      nothing. */
  lemma ResponseLaws(node: Json)
    requires WellFormed(node)
    ensures var response := Response(node);
            && Clean(response) && Bounded(response)
            && Response(response) == response
            && Denied(response) == [] && CutLists(response) == 0
            && Masked(response) == MaskKeys(response)
  {
    RedactedIsClean(node);
    var redacted := RedactedRoot(node);
    TruncatedStaysClean(redacted);
    TruncatedIsBounded(redacted);
    CleanStays(Truncated(redacted));
    TruncationIff(Truncated(redacted));
    MaskedAreMaskKeys(Truncated(redacted));
  }

  lemma NextField(fields: seq<Field>, i: nat)
    requires i < |fields|
    ensures var field := fields[i];
            && RedactedFields(fields[i..]) ==
                 (if field.key in MASK_FIELDS then [Field(field.key, MASK)]
                  else match Redacted(field.value) case None => [] case Some(child) => [Field(field.key, child)])
                 + RedactedFields(fields[i + 1..])
            && MaskedFields(fields[i..]) ==
                 (if field.key in MASK_FIELDS then [field.key] else Masked(field.value)) + MaskedFields(fields[i + 1..])
            && DeniedFields(fields[i..]) ==
                 (if field.key in MASK_FIELDS then [] else Denied(field.value)) + DeniedFields(fields[i + 1..])
  {
    assert fields[i..][1..] == fields[i + 1..];
  }

  lemma NoFieldLeft(fields: seq<Field>)
    ensures RedactedFields(fields[|fields|..]) == [] && MaskedFields(fields[|fields|..]) == [] && DeniedFields(fields[|fields|..]) == []
  {
  }

  lemma NextElement(elements: seq<Json>, i: nat)
    requires i < |elements|
    ensures RedactedElements(elements[i..]) ==
            (match Redacted(elements[i]) case None => [] case Some(child) => [child]) + RedactedElements(elements[i + 1..])
    ensures MaskedElements(elements[i..]) == Masked(elements[i]) + MaskedElements(elements[i + 1..])
    ensures DeniedElements(elements[i..]) == Denied(elements[i]) + DeniedElements(elements[i + 1..])
  {
    assert elements[i..][1..] == elements[i + 1..];
  }

  lemma NoElementLeft(elements: seq<Json>)
    ensures RedactedElements(elements[|elements|..]) == []
    ensures MaskedElements(elements[|elements|..]) == [] && DeniedElements(elements[|elements|..]) == []
  {
  }

  // ----- as it runs ----------------------------------------------------------------------------------------------

  /** `redact`'s closure: the walk appends to two lists. */
  class Walker {
    var masked: seq<string>
    var denied: seq<string>

    constructor ()
      ensures masked == [] && denied == []
    {
      masked, denied := [], [];
    }

    method Walk(node: Json) returns (kept: Option<Json>)
      modifies this
      ensures kept == Redacted(node)
      ensures masked == old(masked) + Masked(node) && denied == old(denied) + Denied(node)
      decreases node, 1
    {
      var domain := DomainOf(node);
      if domain.Some? {
        denied := denied + [domain.value];
        return None;
      }
      if node.Obj? {
        var fields := WalkFields(node.fields);
        return Some(Obj(fields));
      }
      if node.Arr? {
        var elements := WalkElements(node.elements);
        return Some(Arr(elements));
      }
      kept := Some(node);
    }

    method WalkFields(fields: seq<Field>) returns (result: seq<Field>)
      modifies this
      ensures result == RedactedFields(fields)
      ensures masked == old(masked) + MaskedFields(fields) && denied == old(denied) + DeniedFields(fields)
      decreases fields, 0
    {
      hide RedactedFields, MaskedFields, DeniedFields, Redacted, Masked, Denied;
      result := [];
      var i := 0;
      assert fields[0..] == fields;
      NoFieldLeft(fields);
      while i < |fields|
        invariant 0 <= i <= |fields|
        invariant RedactedFields(fields) == result + RedactedFields(fields[i..])
        invariant old(masked) + MaskedFields(fields) == masked + MaskedFields(fields[i..])
        invariant old(denied) + DeniedFields(fields) == denied + DeniedFields(fields[i..])
      {
        var field := fields[i];
        NextField(fields, i);
        if field.key in MASK_FIELDS {
          masked := masked + [field.key];
          result := result + [Field(field.key, MASK)];
        } else {
          var child := Walk(field.value);
          if child.Some? {
            result := result + [Field(field.key, child.value)];
          }
        }
        i := i + 1;
      }
    }

    method WalkElements(elements: seq<Json>) returns (children: seq<Json>)
      modifies this
      ensures children == RedactedElements(elements)
      ensures masked == old(masked) + MaskedElements(elements) && denied == old(denied) + DeniedElements(elements)
      decreases elements, 0
    {
      hide RedactedElements, MaskedElements, DeniedElements, Redacted, Masked, Denied;
      children := [];
      var i := 0;
      assert elements[0..] == elements;
      NoElementLeft(elements);
      while i < |elements|
        invariant 0 <= i <= |elements|
        invariant RedactedElements(elements) == children + RedactedElements(elements[i..])
        invariant old(masked) + MaskedElements(elements) == masked + MaskedElements(elements[i..])
        invariant old(denied) + DeniedElements(elements) == denied + DeniedElements(elements[i..])
      {
        NextElement(elements, i);
        var child := Walk(elements[i]);
        if child.Some? {
          children := children + [child.value];
        }
        i := i + 1;
      }
    }
  }

  /** `_truncate_lists`: the bounded copy and the number of lists cut. */
  method TruncateLists(node: Json) returns (bounded: Json, truncated: nat)
    ensures bounded == Truncated(node) && truncated == CutLists(node)
    decreases node
  {
    truncated := 0;
    if node.Obj? {
      var fields := node.fields;
      var result: seq<Field> := [];
      var i := 0;
      assert fields[0..] == fields;
      while i < |fields|
        invariant 0 <= i <= |fields| && |result| == i
        invariant forall k :: 0 <= k < i ==> result[k] == Field(fields[k].key, Truncated(fields[k].value))
        invariant CutFields(fields) == truncated + CutFields(fields[i..])
      {
        var child, cut := TruncateLists(fields[i].value);
        assert fields[i..][1..] == fields[i + 1..];
        truncated := truncated + cut;
        result := result + [Field(fields[i].key, child)];
        i := i + 1;
      }
      assert result == Truncated(node).fields;
      return Obj(result), truncated;
    }
    if node.Arr? {
      var elements := node.elements;
      var n := |elements|;
      if n > MAX_ITEMS {
        n := MAX_ITEMS;
        truncated := 1;
      }
      var children: seq<Json> := [];
      var i := 0;
      while i < n
        invariant 0 <= i <= n && |children| == i
        invariant forall k :: 0 <= k < i ==> children[k] == Truncated(elements[k])
        invariant truncated == (if |elements| > MAX_ITEMS then 1 else 0) + CutElements(elements, i)
      {
        var child, cut := TruncateLists(elements[i]);
        truncated := truncated + cut;
        children := children + [child];
        i := i + 1;
      }
      assert children == Truncated(node).elements;
      return Arr(children), truncated;
    }
    bounded := node;
  }
}
