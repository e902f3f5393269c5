/** The JSON-Schema subset validator (install/contract.py). One schema node breaks
    down into tasks; running them in order is what `_validate` does. */
module SchemaValidator {
  import opened Results
  import opened Json
  import opened Text

  // ----- values ------------------------------------------------------------------

  /** The numeric reading of a value; Python's booleans are numbers too. */
  function Number(j: Json): Option<real> {
    match j
    case Bool(b) => Some(if b then 1.0 else 0.0)
    case Int(i) => Some(i as real)
    case Float(r) => Some(r)
    case _ => None
  }

  /** Python's `==` on JSON values: numbers by value, objects regardless of order. */
  predicate PyEqual(a: Json, b: Json)
    decreases a
  {
    if Number(a).Some? then Number(a) == Number(b)
    else
      match (a, b)
      case (Null, Null) => true
      case (Str(s), Str(t)) => s == t
      case (Arr(xs), Arr(ys)) => |xs| == |ys| && forall i :: 0 <= i < |xs| ==> PyEqual(xs[i], ys[i])
      case (Obj(fs), Obj(gs)) =>
        && |fs| == |gs|
        && forall i :: 0 <= i < |fs| ==> Get(gs, fs[i].key).Some? && PyEqual(fs[i].value, Get(gs, fs[i].key).value)
      case _ => false
  }

  /** `_strict_equal`: booleans only equal booleans, at the top level. */
  predicate StrictEqual(instance: Json, expected: Json) {
    instance.Bool? == expected.Bool? && PyEqual(instance, expected)
  }

  /** What a `for` loop over the value sees; `None` when it cannot be iterated. */
  function Iterate(j: Json): Option<seq<Json>> {
    match j
    case Arr(elements) => Some(elements)
    case Str(s) => Some(seq(|s|, i requires 0 <= i < |s| => Str([s[i]])))
    case Obj(fields) => Some(seq(|fields|, i requires 0 <= i < |fields| => Str(fields[i].key)))
    case _ => None
  }

  predicate HasType(j: Json, name: string)
    requires KnownType(name)
  {
    match j
    case Null => false
    case Bool(_) => name == "boolean"
    case Int(_) => name == "integer" || name == "number"
    case Float(_) => name == "number"
    case Str(_) => name == "string"
    case Arr(_) => name == "array"
    case Obj(_) => name == "object"
  }

  predicate KnownType(name: string) {
    name in {"object", "string", "array", "boolean", "integer", "number"}
  }

  // ----- keywords ------------------------------------------------------------------------

  const ANNOTATIONS: set<string> := {"$schema", "$id", "title", "description", "$defs"}
  const KEYWORDS: set<string> :=
    {"type", "required", "properties", "additionalProperties", "enum", "pattern", "minLength", "allOf", "if", "then",
     "$ref", "const", "minimum", "maximum", "minItems", "minProperties", "items"}

  /** `_assert_supported`. */
  predicate Supported(fields: seq<Field>) {
    forall i :: 0 <= i < |fields| ==> fields[i].key in KEYWORDS + ANNOTATIONS
  }

  predicate OnlyConditional(fields: seq<Field>) {
    forall i :: 0 <= i < |fields| ==> fields[i].key in {"if", "then"}
  }

  // ----- outcomes ---------------------------------------------------------------------------

  datatype Step = Key(name: string) | At(index: nat)

  datatype Reason =
    | WrongType(name: string)
    | NotInEnum
    | NotConstant
    | BelowMinimum
    | AboveMaximum
    | TooFewItems
    | NoMatch
    | TooShort
    | TooFewProperties
    | MissingProperty(key: Json)
    | ExtraProperties(keys: set<string>)

  /** A violation, at a location relative to the node that reports it. */
  datatype Violation = Violation(at: seq<Step>, reason: Reason)

  /** Why the validator raises: a `$ref` cycle, a keyword or type it does not
      implement, a pointer that does not resolve, or a malformed keyword value. */
  datatype Fault = Cycle | Unsupported | BadRef | Malformed

  type Verdict = Result<seq<Violation>, Fault>

  const Fine: Verdict := Ok([])

  function Fails(reason: Reason): Verdict {
    Ok([Violation([], reason)])
  }

  function Check(holds: bool, reason: Reason): Verdict {
    if holds then Fine else Fails(reason)
  }

  /** The violations of two checks in order; the first fault stops. */
  function Then(a: Verdict, b: Verdict): Verdict {
    if a.Err? then a else if b.Err? then b else Ok(a.value + b.value)
  }

  function Below(at: seq<Step>, verdict: Verdict): Verdict {
    match verdict
    case Err(fault) => Err(fault)
    case Ok(violations) => Ok(Prefixed(at, violations))
  }

  function Prefixed(at: seq<Step>, violations: seq<Violation>): (r: seq<Violation>)
    ensures |r| == |violations|
  {
    seq(|violations|, i requires 0 <= i < |violations| => Violation(at + violations[i].at, violations[i].reason))
  }

  // ----- $ref ----------------------------------------------------------------------------------

  /** The escapes of a pointer token: `~1` is a slash and `~0` a tilde. */
  function Unescape(token: string, digit: char, c: char): string {
    if |token| < 2 then token
    else if token[0] == '~' && token[1] == digit then [c] + Unescape(token[2..], digit, c)
    else [token[0]] + Unescape(token[1..], digit, c)
  }

  function Follow(node: Json, tokens: seq<string>): Option<Json>
    decreases |tokens|
  {
    if tokens == [] then Some(node)
    else if !node.Obj? then None
    else
      match Get(node.fields, Unescape(Unescape(tokens[0], '1', '/'), '0', '~'))
      case None => None
      case Some(child) => Follow(child, tokens[1..])
  }

  /** `_resolve_ref`: a pointer into the schema document that names an object. */
  function ResolveRef(reference: string, root: Json): Option<Json> {
    if !("#/" <= reference) then None
    else
      match Follow(root, SplitOn(reference[2..], '/'))
      case Some(Obj(fields)) => Some(Obj(fields))
      case _ => None
  }

  // ----- one schema node --------------------------------------------------------------------------

  /** `re.search`; `None` for a pattern that does not compile. */
  type Search = (string, string) -> Option<bool>

  /** The checks one schema node asks of an instance, in the order they run. */
  datatype Task =
    | Local(verdict: Verdict)
    | Expand(reference: string)
    | Child(instance: Json, schema: Json, at: seq<Step>)
    | Same(schema: Json, at: seq<Step>)
    | Cond(test: Json, consequence: Option<Json>, at: seq<Step>)

  function RefTasks(fields: seq<Field>): seq<Task> {
    match Get(fields, "$ref")
    case None => []
    case Some(Str(reference)) => [Expand(reference)]
    case Some(_) => [Local(Err(Malformed))]
  }

  /** `_check_type`. */
  function TypeVerdict(instance: Json, fields: seq<Field>): (r: Verdict)
    ensures r != Err(Cycle)
  {
    match Get(fields, "type")
    case None => Fine
    case Some(Str(name)) =>
      if !KnownType(name) then Err(Unsupported) else Check(HasType(instance, name), WrongType(name))
    case Some(other) => if other.Arr? || other.Obj? then Err(Malformed) else Err(Unsupported)
  }

  function EnumVerdict(instance: Json, fields: seq<Field>): (r: Verdict)
    ensures r != Err(Cycle)
  {
    match Get(fields, "enum")
    case None => Fine
    case Some(options) =>
      match Iterate(options)
      case None => Err(Malformed)
      case Some(all) => Check(exists i :: 0 <= i < |all| && StrictEqual(instance, all[i]), NotInEnum)
  }

  function ConstVerdict(instance: Json, fields: seq<Field>): (r: Verdict)
    ensures r != Err(Cycle)
  {
    match Get(fields, "const")
    case None => Fine
    case Some(expected) => Check(StrictEqual(instance, expected), NotConstant)
  }

  /** A bound of the schema against a measure of the instance. */
  function BoundVerdict(measure: real, fields: seq<Field>, keyword: string, upper: bool, reason: Reason): (r: Verdict)
    ensures r != Err(Cycle)
  {
    match Get(fields, keyword)
    case None => Fine
    case Some(bound) =>
      match Number(bound)
      case None => Err(Malformed)
      case Some(limit) => Check(if upper then measure <= limit else limit <= measure, reason)
  }

  function RangeVerdict(instance: Json, fields: seq<Field>): (r: Verdict)
    ensures r != Err(Cycle)
  {
    if instance.Bool? || Number(instance).None? then Fine
    else
      var value := Number(instance).value;
      Then(BoundVerdict(value, fields, "minimum", false, BelowMinimum), BoundVerdict(value, fields, "maximum", true, AboveMaximum))
  }

  function ElementTasks(elements: seq<Json>, schema: Json): seq<Task> {
    seq(|elements|, i requires 0 <= i < |elements| => Child(elements[i], schema, [At(i)]))
  }

  function ArrayTasks(elements: seq<Json>, fields: seq<Field>): seq<Task> {
    [Local(BoundVerdict(|elements| as real, fields, "minItems", false, TooFewItems))]
    + match Get(fields, "items")
      case None => []
      case Some(schema) => ElementTasks(elements, schema)
  }

  function PatternVerdict(search: Search, text: string, fields: seq<Field>): (r: Verdict)
    ensures r != Err(Cycle)
  {
    match Get(fields, "pattern")
    case None => Fine
    case Some(Str(pattern)) =>
      (match search(pattern, text)
       case None => Err(Malformed)
       case Some(found) => Check(found, NoMatch))
    case Some(_) => Err(Malformed)
  }

  function StringVerdict(search: Search, text: string, fields: seq<Field>): (r: Verdict)
    ensures r != Err(Cycle)
  {
    Then(PatternVerdict(search, text, fields), BoundVerdict(|text| as real, fields, "minLength", false, TooShort))
  }

  /** A required key against the members: unhashable keys raise, and only strings
      can be present. */
  function PresenceVerdict(members: seq<Field>, key: Json): (r: Verdict)
    ensures r != Err(Cycle)
  {
    match key
    case Arr(_) => Err(Malformed)
    case Obj(_) => Err(Malformed)
    case Str(name) => Check(HasKey(members, name), MissingProperty(key))
    case _ => Fails(MissingProperty(key))
  }

  function RequiredTasks(members: seq<Field>, fields: seq<Field>): seq<Task> {
    match Get(fields, "required")
    case None => []
    case Some(required) =>
      match Iterate(required)
      case None => [Local(Err(Malformed))]
      case Some(keys) => seq(|keys|, i requires 0 <= i < |keys| => Local(PresenceVerdict(members, keys[i])))
  }

  function PropertyTasks(members: seq<Field>, properties: seq<Field>): seq<Task> {
    if properties == [] then []
    else
      var property := properties[0];
      var rest := PropertyTasks(members, properties[1..]);
      match Get(members, property.key)
      case None => rest
      case Some(member) => [Child(member, property.value, [Key(property.key)])] + rest
  }

  function KeySet(fields: seq<Field>): set<string> {
    set i | 0 <= i < |fields| :: fields[i].key
  }

  function ExtraVerdict(members: seq<Field>, properties: seq<Field>, fields: seq<Field>): (r: Verdict)
    ensures r != Err(Cycle)
  {
    if Get(fields, "additionalProperties") == Some(Bool(false)) then
      var extra := KeySet(members) - KeySet(properties);
      Check(extra == {}, ExtraProperties(extra))
    else Fine
  }

  function ObjectTasks(members: seq<Field>, fields: seq<Field>): seq<Task> {
    [Local(BoundVerdict(|members| as real, fields, "minProperties", false, TooFewProperties))]
    + RequiredTasks(members, fields)
    + match Properties(fields)
      case None => [Local(Err(Malformed))]
      case Some(properties) => PropertyTasks(members, properties) + [Local(ExtraVerdict(members, properties, fields))]
  }

  function Properties(fields: seq<Field>): Option<seq<Field>> {
    match Get(fields, "properties")
    case None => Some([])
    case Some(Obj(properties)) => Some(properties)
    case Some(_) => None
  }

  /** The keywords that only look at an instance of the declared type. */
  function ShapeTasks(search: Search, instance: Json, fields: seq<Field>): seq<Task> {
    if TypeVerdict(instance, fields) != Fine then []
    else
      match instance
      case Arr(elements) => ArrayTasks(elements, fields)
      case Str(text) => [Local(StringVerdict(search, text, fields))]
      case Obj(members) => ObjectTasks(members, fields)
      case _ => []
  }

  /** One branch of `allOf`; a conditional branch may hold nothing else. */
  function BranchTask(branch: Json, index: nat): Task {
    if !branch.Obj? then Local(Err(Malformed))
    else if !Supported(branch.fields) then Local(Err(Unsupported))
    else
      match Get(branch.fields, "if")
      case None => Same(branch, [Key("allOf"), At(index)])
      case Some(test) =>
        if !OnlyConditional(branch.fields) then Local(Err(Unsupported))
        else Cond(test, Get(branch.fields, "then"), [Key("allOf"), At(index), Key("then")])
  }

  function AllOfTasks(fields: seq<Field>): seq<Task> {
    match Get(fields, "allOf")
    case None => []
    case Some(list) =>
      match Iterate(list)
      case None => [Local(Err(Malformed))]
      case Some(branches) => seq(|branches|, i requires 0 <= i < |branches| => BranchTask(branches[i], i))
  }

  function IfTasks(fields: seq<Field>): seq<Task> {
    match Get(fields, "if")
    case None => []
    case Some(test) => [Cond(test, Get(fields, "then"), [Key("then")])]
  }

  function ValueTasks(instance: Json, fields: seq<Field>): seq<Task> {
    [Local(TypeVerdict(instance, fields)), Local(EnumVerdict(instance, fields)), Local(ConstVerdict(instance, fields)),
     Local(RangeVerdict(instance, fields))]
  }

  function Tasks(search: Search, instance: Json, fields: seq<Field>): seq<Task> {
    RefTasks(fields) + ValueTasks(instance, fields) + ShapeTasks(search, instance, fields) + AllOfTasks(fields) + IfTasks(fields)
  }

  // ----- the validator -----------------------------------------------------------------------------------

  /** Every string value inside a document: the references a schema can hold. */
  function Strings(j: Json): set<string> {
    match j
    case Str(s) => {s}
    case Arr(elements) => set i, t | 0 <= i < |elements| && t in Strings(elements[i]) :: t
    case Obj(fields) => set i, t | 0 <= i < |fields| && t in Strings(fields[i].value) :: t
    case _ => {}
  }

  /** What keeps the recursion finite: a task looks at a part of the instance, or at
      the same instance through a part of the schema, or follows a reference the
      schema document spells out. */
  ghost predicate Bounded(task: Task, instance: Json, schema: Json, root: Json) {
    match task
    case Local(verdict) => verdict != Err(Cycle)
    case Expand(reference) => reference in Strings(root)
    case Child(child, part, _) => child < instance && Strings(part) <= Strings(root)
    case Same(part, _) => part < schema && Strings(part) <= Strings(root)
    case Cond(test, consequence, _) =>
      && test < schema && Strings(test) <= Strings(root)
      && (consequence.Some? ==> consequence.value < schema && Strings(consequence.value) <= Strings(root))
  }

  lemma MemberBound(fields: seq<Field>, key: string)
    requires Get(fields, key).Some?
    ensures Get(fields, key).value < Obj(fields) && Strings(Get(fields, key).value) <= Strings(Obj(fields))
  {
    var value := Get(fields, key).value;
    var i :| 0 <= i < |fields| && fields[i] == Field(key, value);
    assert fields[i].value < Obj(fields);
    forall t | t in Strings(value) ensures t in Strings(Obj(fields)) {
      assert 0 <= i < |fields| && t in Strings(fields[i].value);
    }
  }

  lemma ElementBound(elements: seq<Json>, i: nat)
    requires i < |elements|
    ensures elements[i] < Arr(elements) && Strings(elements[i]) <= Strings(Arr(elements))
  {
    forall t | t in Strings(elements[i]) ensures t in Strings(Arr(elements)) {
      assert 0 <= i < |elements| && t in Strings(elements[i]);
    }
  }

  lemma {:induction false} FollowBound(node: Json, tokens: seq<string>)
    requires Follow(node, tokens).Some?
    ensures Strings(Follow(node, tokens).value) <= Strings(node)
    decreases |tokens|
  {
    if tokens != [] {
      var token := Unescape(Unescape(tokens[0], '1', '/'), '0', '~');
      MemberBound(node.fields, token);
      FollowBound(Get(node.fields, token).value, tokens[1..]);
    }
  }

  lemma ResolveBound(reference: string, root: Json)
    requires ResolveRef(reference, root).Some?
    ensures Strings(ResolveRef(reference, root).value) <= Strings(root)
  {
    FollowBound(root, SplitOn(reference[2..], '/'));
  }

  ghost predicate AllBounded(tasks: seq<Task>, instance: Json, schema: Json, root: Json) {
    forall i :: 0 <= i < |tasks| ==> Bounded(tasks[i], instance, schema, root)
  }

  lemma {:induction false} PropertiesBounded(members: seq<Field>, properties: seq<Field>, schema: Json, root: Json)
    requires Strings(Obj(properties)) <= Strings(root)
    ensures AllBounded(PropertyTasks(members, properties), Obj(members), schema, root)
    decreases |properties|
  {
    if properties != [] {
      var property := properties[0];
      var rest := properties[1..];
      forall t | t in Strings(Obj(rest)) ensures t in Strings(root) {
        var i :| 0 <= i < |rest| && t in Strings(rest[i].value);
        assert properties[i + 1] == rest[i];
        assert t in Strings(Obj(properties));
      }
      PropertiesBounded(members, rest, schema, root);
      assert property == properties[0];
      forall t | t in Strings(property.value) ensures t in Strings(root) {
        assert t in Strings(Obj(properties));
      }
      if Get(members, property.key).Some? {
        MemberBound(members, property.key);
      }
    }
  }

  lemma AppendBounded(a: seq<Task>, b: seq<Task>, instance: Json, schema: Json, root: Json)
    requires AllBounded(a, instance, schema, root) && AllBounded(b, instance, schema, root)
    ensures AllBounded(a + b, instance, schema, root)
  {
    hide Bounded;
  }

  lemma LocalBounded(verdict: Verdict, instance: Json, schema: Json, root: Json)
    requires verdict != Err(Cycle)
    ensures AllBounded([Local(verdict)], instance, schema, root)
  {
  }

  lemma ArrayBounded(elements: seq<Json>, fields: seq<Field>, root: Json)
    requires Strings(Obj(fields)) <= Strings(root)
    ensures AllBounded(ArrayTasks(elements, fields), Arr(elements), Obj(fields), root)
  {
    hide Strings, BoundVerdict;
    if Get(fields, "items").Some? {
      MemberBound(fields, "items");
      var part := Get(fields, "items").value;
      forall i | 0 <= i < |elements| ensures elements[i] < Arr(elements) {
        ElementBound(elements, i);
      }
      assert AllBounded(ElementTasks(elements, part), Arr(elements), Obj(fields), root);
    }
    var verdict := BoundVerdict(|elements| as real, fields, "minItems", false, TooFewItems);
    LocalBounded(verdict, Arr(elements), Obj(fields), root);
  }

  lemma RequiredBounded(members: seq<Field>, fields: seq<Field>, instance: Json, root: Json)
    ensures AllBounded(RequiredTasks(members, fields), instance, Obj(fields), root)
  {
    hide Strings, Iterate, PresenceVerdict;
  }

  lemma ObjectBounded(members: seq<Field>, fields: seq<Field>, root: Json)
    requires Strings(Obj(fields)) <= Strings(root)
    ensures AllBounded(ObjectTasks(members, fields), Obj(members), Obj(fields), root)
  {
    hide Strings, BoundVerdict, ExtraVerdict, AllBounded, RequiredTasks, PropertyTasks;
    var instance := Obj(members);
    var count := BoundVerdict(|members| as real, fields, "minProperties", false, TooFewProperties);
    LocalBounded(count, instance, Obj(fields), root);
    RequiredBounded(members, fields, instance, root);
    AppendBounded([Local(count)], RequiredTasks(members, fields), instance, Obj(fields), root);
    var first := [Local(count)] + RequiredTasks(members, fields);
    if Properties(fields).None? {
      LocalBounded(Err(Malformed), instance, Obj(fields), root);
      AppendBounded(first, [Local(Err(Malformed))], instance, Obj(fields), root);
    } else {
      var properties := Properties(fields).value;
      PropertiesAreInside(fields, root);
      PropertiesBounded(members, properties, Obj(fields), root);
      var extra := ExtraVerdict(members, properties, fields);
      LocalBounded(extra, instance, Obj(fields), root);
      AppendBounded(PropertyTasks(members, properties), [Local(extra)], instance, Obj(fields), root);
      AppendBounded(first, PropertyTasks(members, properties) + [Local(extra)], instance, Obj(fields), root);
    }
  }

  lemma PropertiesAreInside(fields: seq<Field>, root: Json)
    requires Strings(Obj(fields)) <= Strings(root) && Properties(fields).Some?
    ensures Strings(Obj(Properties(fields).value)) <= Strings(root)
  {
    if Get(fields, "properties").Some? {
      hide Strings;
      MemberBound(fields, "properties");
    }
  }

  lemma ShapeBounded(search: Search, instance: Json, fields: seq<Field>, root: Json)
    requires Strings(Obj(fields)) <= Strings(root)
    ensures AllBounded(ShapeTasks(search, instance, fields), instance, Obj(fields), root)
  {
    hide StringVerdict, Strings, TypeVerdict, ArrayTasks, ObjectTasks, AllBounded;
    match instance {
      case Arr(elements) => ArrayBounded(elements, fields, root);
      case Str(text) => LocalBounded(StringVerdict(search, text, fields), instance, Obj(fields), root);
      case Obj(members) => ObjectBounded(members, fields, root);
      case _ =>
    }
    assert AllBounded([], instance, Obj(fields), root) by {
      NoTasks(instance, Obj(fields), root);
    }
  }

  lemma NoTasks(instance: Json, schema: Json, root: Json)
    ensures AllBounded([], instance, schema, root)
  {
  }

  lemma ConditionalBounded(fields: seq<Field>, at: seq<Step>, instance: Json, schema: Json, root: Json)
    requires Get(fields, "if").Some?
    requires (Obj(fields) == schema || Obj(fields) < schema) && Strings(Obj(fields)) <= Strings(root)
    ensures Bounded(Cond(Get(fields, "if").value, Get(fields, "then"), at), instance, schema, root)
  {
    hide Strings, Get;
    MemberBound(fields, "if");
    if Get(fields, "then").Some? {
      MemberBound(fields, "then");
    }
  }

  lemma PlainBounded(fault: Fault, instance: Json, schema: Json, root: Json)
    requires fault != Cycle
    ensures Bounded(Local(Err(fault)), instance, schema, root)
  {
  }

  lemma BranchBounded(branch: Json, index: nat, instance: Json, schema: Json, root: Json)
    requires branch.Obj? ==> branch < schema && Strings(branch) <= Strings(root)
    ensures Bounded(BranchTask(branch, index), instance, schema, root)
  {
    hide Strings, Supported, OnlyConditional, Get;
    if branch.Obj? {
      assert branch == Obj(branch.fields);
      if Get(branch.fields, "if").Some? {
        hide Bounded;
        ConditionalBounded(branch.fields, [Key("allOf"), At(index), Key("then")], instance, schema, root);
        PlainBounded(Malformed, instance, schema, root);
        PlainBounded(Unsupported, instance, schema, root);
      }
    }
  }

  lemma AllOfBounded(instance: Json, fields: seq<Field>, root: Json)
    requires Strings(Obj(fields)) <= Strings(root)
    ensures AllBounded(AllOfTasks(fields), instance, Obj(fields), root)
  {
    hide Strings, BranchTask, Bounded;
    if Get(fields, "allOf").Some? {
      MemberBound(fields, "allOf");
      var list := Get(fields, "allOf").value;
      if Iterate(list).Some? {
        var branches := Iterate(list).value;
        forall i | 0 <= i < |branches| ensures Bounded(BranchTask(branches[i], i), instance, Obj(fields), root) {
          if list.Arr? {
            ElementBound(list.elements, i);
          }
          BranchBounded(branches[i], i, instance, Obj(fields), root);
        }
      } else {
        LocalBounded(Err(Malformed), instance, Obj(fields), root);
      }
    }
  }

  lemma RefIfBounded(instance: Json, fields: seq<Field>, root: Json)
    requires Strings(Obj(fields)) <= Strings(root)
    ensures AllBounded(IfTasks(fields), instance, Obj(fields), root)
    ensures AllBounded(RefTasks(fields), instance, Obj(fields), root)
  {
    hide Strings;
    if Get(fields, "if").Some? {
      ConditionalBounded(fields, [Key("then")], instance, Obj(fields), root);
    }
    if Get(fields, "$ref").Some? && Get(fields, "$ref").value.Str? {
      MemberBound(fields, "$ref");
      OwnString(Get(fields, "$ref").value.s);
    }
  }

  lemma OwnString(s: string)
    ensures s in Strings(Str(s))
  {
  }

  lemma TasksBounded(search: Search, instance: Json, fields: seq<Field>, root: Json)
    requires Strings(Obj(fields)) <= Strings(root)
    ensures AllBounded(Tasks(search, instance, fields), instance, Obj(fields), root)
  {
    hide AllBounded, Strings, RefTasks, ShapeTasks, AllOfTasks, IfTasks, TypeVerdict, EnumVerdict, ConstVerdict, RangeVerdict;
    var schema := Obj(fields);
    AllOfBounded(instance, fields, root);
    RefIfBounded(instance, fields, root);
    ShapeBounded(search, instance, fields, root);
    assert AllBounded(ValueTasks(instance, fields), instance, schema, root) by {
      ValuesBounded(instance, fields, root);
    }
    AppendBounded(RefTasks(fields), ValueTasks(instance, fields), instance, schema, root);
    AppendBounded(RefTasks(fields) + ValueTasks(instance, fields), ShapeTasks(search, instance, fields), instance, schema, root);
    AppendBounded(RefTasks(fields) + ValueTasks(instance, fields) + ShapeTasks(search, instance, fields), AllOfTasks(fields), instance, schema, root);
    AppendBounded(RefTasks(fields) + ValueTasks(instance, fields) + ShapeTasks(search, instance, fields) + AllOfTasks(fields),
                  IfTasks(fields), instance, schema, root);
  }

  lemma ValuesBounded(instance: Json, fields: seq<Field>, root: Json)
    ensures AllBounded(ValueTasks(instance, fields), instance, Obj(fields), root)
  {
  }

  /** `_validate`: `active` holds the references being expanded at this instance. */
  function Validate(search: Search, root: Json, instance: Json, schema: Json, active: set<string>): Verdict
    requires Strings(schema) <= Strings(root)
    decreases instance, Strings(root) - active, schema, 2, 0
  {
    if !schema.Obj? then Err(Malformed)
    else if !Supported(schema.fields) then Err(Unsupported)
    else
      TasksBounded(search, instance, schema.fields, root);
      RunTasks(search, root, instance, schema, active, Tasks(search, instance, schema.fields))
  }

  function RunTasks(search: Search, root: Json, instance: Json, schema: Json, active: set<string>, tasks: seq<Task>): Verdict
    requires AllBounded(tasks, instance, schema, root)
    decreases instance, Strings(root) - active, schema, 1, |tasks|
  {
    if tasks == [] then Fine
    else Then(RunTask(search, root, instance, schema, active, tasks[0]), RunTasks(search, root, instance, schema, active, tasks[1..]))
  }

  function RunTask(search: Search, root: Json, instance: Json, schema: Json, active: set<string>, task: Task): Verdict
    requires Bounded(task, instance, schema, root)
    decreases instance, Strings(root) - active, schema, 0, 0
  {
    match task
    case Local(verdict) => verdict
    case Expand(reference) =>
      if reference in active then Err(Cycle)
      else if ResolveRef(reference, root).None? then Err(BadRef)
      else
        ResolveBound(reference, root);
        Validate(search, root, instance, ResolveRef(reference, root).value, active + {reference})
    case Child(child, part, at) => Below(at, Validate(search, root, child, part, {}))
    case Same(part, at) => Below(at, Validate(search, root, instance, part, active))
    case Cond(test, consequence, at) =>
      var probe := Validate(search, root, instance, test, active);
      if probe.Err? then probe
      else if probe.value != [] || consequence.None? then Fine
      else Below(at, Validate(search, root, instance, consequence.value, active))
  }

  /** `validate_answers`. */
  function ValidateAnswers(search: Search, mapping: Json, schema: Json): Verdict {
    Validate(search, schema, mapping, schema, {})
  }
}
