/** When the validator raises on a node, keyword by keyword. */
module SchemaFaults {
  import opened Results
  import opened Json
  import opened SchemaValidator
  import opened SchemaLaws
  import opened SchemaMeaning
  import opened SchemaReports

  // ----- malformed keywords ------------------------------------------------------------------

  /** The keywords the validator knows, annotations included. */
  predicate KnownKeyword(key: string) {
    key in {"type", "required", "properties", "additionalProperties", "enum", "pattern", "minLength", "allOf", "if", "then", "$ref", "const",
            "minimum", "maximum", "minItems", "minProperties", "items", "$schema", "$id", "title", "description", "$defs"}
  }

  predicate AllKnown(fields: seq<Field>) {
    forall i :: 0 <= i < |fields| ==> KnownKeyword(fields[i].key)
  }

  /** A bound that is given and is no number. */
  predicate NoNumber(fields: seq<Field>, keyword: string) {
    match Get(fields, keyword)
    case Some(bound) => !(bound.Int? || bound.Float? || bound.Bool?)
    case None => false
  }

  /** A list keyword that is given and cannot be read. */
  predicate NoList(fields: seq<Field>, keyword: string) {
    Get(fields, keyword).Some? && !Listed(fields, keyword)
  }

  predicate BadType(fields: seq<Field>) {
    match Get(fields, "type")
    case None => false
    case Some(Str(name)) => name !in {"object", "string", "array", "boolean", "integer", "number"}
    case Some(_) => true
  }

  predicate BadPattern(c: Context, text: string, fields: seq<Field>) {
    match Get(fields, "pattern")
    case None => false
    case Some(Str(pattern)) => c.search(pattern, text).None?
    case Some(_) => true
  }

  /** A keyword of the node whose value the validator cannot use on the instance. */
  ghost predicate Malforms(c: Context, instance: Json, fields: seq<Field>) {
    || BadType(fields)
    || NoList(fields, "enum")
    || ((instance.Int? || instance.Float?) && (NoNumber(fields, "minimum") || NoNumber(fields, "maximum")))
    || (MeetsType(instance, fields)
        && ((instance.Arr? && NoNumber(fields, "minItems"))
            || (instance.Str? && (BadPattern(c, instance.s, fields) || NoNumber(fields, "minLength")))
            || (instance.Obj?
                && (NoNumber(fields, "minProperties") || NoList(fields, "required") || !ReadableProperties(fields)
                    || (Listed(fields, "required")
                        && exists key :: Offers(Get(fields, "required").value, key) && (key.Arr? || key.Obj?))))))
  }

  // ----- what a node raises -----------------------------------------------------------------------

  predicate Fails(c: Context, instance: Json, schema: Json, active: set<string>) {
    Strings(schema) <= Strings(c.root) && Validate(c.search, c.root, instance, schema, active).Err?
  }

  ghost predicate RefRaises(c: Context, instance: Json, fields: seq<Field>, active: set<string>) {
    match Get(fields, "$ref")
    case None => false
    case Some(Str(reference)) =>
      reference in active || Resolved(c, reference).None? || Fails(c, instance, Resolved(c, reference).value, active + {reference})
    case Some(_) => true
  }

  ghost predicate ItemsRaise(c: Context, instance: Json, fields: seq<Field>) {
    MeetsType(instance, fields) && instance.Arr? && Get(fields, "items").Some?
    && exists i :: 0 <= i < |instance.elements| && Fails(c, instance.elements[i], Get(fields, "items").value, {})
  }

  ghost predicate PropertiesRaise(c: Context, instance: Json, fields: seq<Field>) {
    MeetsType(instance, fields) && instance.Obj? && Get(fields, "properties").Some? && Get(fields, "properties").value.Obj?
    && exists p :: p in Get(fields, "properties").value.fields && Get(instance.fields, p.key).Some? && Fails(c, Get(instance.fields, p.key).value, p.value, {})
  }

  ghost predicate ThenRaises(c: Context, instance: Json, fields: seq<Field>, active: set<string>) {
    Get(fields, "if").Some?
    && (Fails(c, instance, Get(fields, "if").value, active)
        || (Found(c, instance, Get(fields, "if").value, active) == [] && Get(fields, "then").Some? && Fails(c, instance, Get(fields, "then").value, active)))
  }

  ghost predicate BranchRaises(c: Context, instance: Json, branch: Json, active: set<string>) {
    || !branch.Obj?
    || !AllKnown(branch.fields)
    || (Get(branch.fields, "if").Some?
        && ((exists i :: 0 <= i < |branch.fields| && branch.fields[i].key != "if" && branch.fields[i].key != "then")
            || ThenRaises(c, instance, branch.fields, active)))
    || (Get(branch.fields, "if").None? && Fails(c, instance, branch, active))
  }

  ghost predicate AllOfRaises(c: Context, instance: Json, fields: seq<Field>, active: set<string>) {
    NoList(fields, "allOf")
    || (Listed(fields, "allOf") && exists branch :: Offers(Get(fields, "allOf").value, branch) && BranchRaises(c, instance, branch, active))
  }

  ghost predicate Raises(c: Context, instance: Json, fields: seq<Field>, active: set<string>) {
    || !AllKnown(fields)
    || Malforms(c, instance, fields)
    || RefRaises(c, instance, fields, active)
    || ItemsRaise(c, instance, fields)
    || PropertiesRaise(c, instance, fields)
    || AllOfRaises(c, instance, fields, active)
    || ThenRaises(c, instance, fields, active)
  }

  // ----- tasks -----------------------------------------------------------------------------------------

  ghost predicate TaskRaises(c: Context, instance: Json, active: set<string>, task: Task) {
    match task
    case Local(verdict) => verdict.Err?
    case Expand(reference) =>
      reference in active || Resolved(c, reference).None? || Fails(c, instance, Resolved(c, reference).value, active + {reference})
    case Child(child, part, _) => Fails(c, child, part, {})
    case Same(part, _) => Fails(c, instance, part, active)
    case Cond(test, consequence, _) =>
      Fails(c, instance, test, active)
      || (Found(c, instance, test, active) == [] && consequence.Some? && Fails(c, instance, consequence.value, active))
  }

  ghost predicate SomeRaises(c: Context, instance: Json, active: set<string>, tasks: seq<Task>) {
    exists i :: 0 <= i < |tasks| && TaskRaises(c, instance, active, tasks[i])
  }

  lemma RaisesAppend(c: Context, instance: Json, active: set<string>, a: seq<Task>, b: seq<Task>)
    ensures SomeRaises(c, instance, active, a + b) <==> SomeRaises(c, instance, active, a) || SomeRaises(c, instance, active, b)
  {
    hide TaskRaises;
    if i :| 0 <= i < |a + b| && TaskRaises(c, instance, active, (a + b)[i]) {
      if i < |a| {
        assert TaskRaises(c, instance, active, a[i]);
      } else {
        assert TaskRaises(c, instance, active, b[i - |a|]);
      }
    }
    if i :| 0 <= i < |a| && TaskRaises(c, instance, active, a[i]) {
      assert TaskRaises(c, instance, active, (a + b)[i]);
    }
    if i :| 0 <= i < |b| && TaskRaises(c, instance, active, b[i]) {
      assert TaskRaises(c, instance, active, (a + b)[|a| + i]);
    }
  }

  lemma RaisesOne(c: Context, instance: Json, active: set<string>, task: Task)
    ensures SomeRaises(c, instance, active, [task]) <==> TaskRaises(c, instance, active, task)
  {
    hide TaskRaises;
    assert [task][0] == task;
  }

  lemma TaskRaisesIff(c: Context, instance: Json, schema: Json, active: set<string>, task: Task)
    requires Bounded(task, instance, schema, c.root)
    ensures RunTask(c.search, c.root, instance, schema, active, task).Err? <==> TaskRaises(c, instance, active, task)
  {
    hide Strings, Validate;
    if task.Expand? && Resolved(c, task.reference).Some? {
      ResolveBound(task.reference, c.root);
    }
  }

  lemma {:induction false} TasksRaiseIff(c: Context, instance: Json, schema: Json, active: set<string>, tasks: seq<Task>)
    requires AllBounded(tasks, instance, schema, c.root)
    ensures RunTasks(c.search, c.root, instance, schema, active, tasks).Err? <==> SomeRaises(c, instance, active, tasks)
    decreases |tasks|
  {
    hide Strings, Bounded, RunTask, TaskRaises;
    if tasks != [] {
      assert forall i :: 0 <= i < |tasks[1..]| ==> tasks[1..][i] == tasks[i + 1];
      TaskRaisesIff(c, instance, schema, active, tasks[0]);
      TasksRaiseIff(c, instance, schema, active, tasks[1..]);
      RaisesOne(c, instance, active, tasks[0]);
      RaisesAppend(c, instance, active, [tasks[0]], tasks[1..]);
      assert tasks == [tasks[0]] + tasks[1..];
    }
  }

  // ----- the keywords of a node -------------------------------------------------------------------------

  lemma KnownIs(fields: seq<Field>)
    ensures Supported(fields) <==> AllKnown(fields)
  {
    assert forall key :: key in KEYWORDS + ANNOTATIONS <==> KnownKeyword(key);
    hide KnownKeyword, KEYWORDS, ANNOTATIONS;
  }

  lemma BoundRaises(measure: real, fields: seq<Field>, keyword: string, upper: bool, reason: Reason)
    ensures BoundVerdict(measure, fields, keyword, upper, reason).Err? <==> NoNumber(fields, keyword)
  {
  }

  lemma ValuesRaise(c: Context, instance: Json, fields: seq<Field>, active: set<string>)
    ensures SomeRaises(c, instance, active, ValueTasks(instance, fields)) <==>
              BadType(fields) || NoList(fields, "enum")
              || ((instance.Int? || instance.Float?) && (NoNumber(fields, "minimum") || NoNumber(fields, "maximum")))
  {
    hide BoundVerdict, NoNumber, StrictEqual, NoList, BadType, ConstVerdict, EnumVerdict, TypeVerdict;
    var tasks := ValueTasks(instance, fields);
    assert SomeRaises(c, instance, active, tasks) <==>
      TaskRaises(c, instance, active, tasks[0]) || TaskRaises(c, instance, active, tasks[1]) || TaskRaises(c, instance, active, tasks[2])
      || TaskRaises(c, instance, active, tasks[3]);
    TypeRaises(instance, fields);
    EnumRaises(instance, fields);
    if instance.Int? || instance.Float? {
      BoundRaises(Number(instance).value, fields, "minimum", false, BelowMinimum);
      BoundRaises(Number(instance).value, fields, "maximum", true, AboveMaximum);
    }
  }

  lemma TypeRaises(instance: Json, fields: seq<Field>)
    ensures TypeVerdict(instance, fields).Err? <==> BadType(fields)
  {
  }

  lemma EnumRaises(instance: Json, fields: seq<Field>)
    ensures EnumVerdict(instance, fields).Err? <==> NoList(fields, "enum")
    ensures ConstVerdict(instance, fields).Ok?
  {
    hide StrictEqual;
  }

  lemma RefRaisesIff(c: Context, instance: Json, fields: seq<Field>, active: set<string>)
    ensures SomeRaises(c, instance, active, RefTasks(fields)) <==> RefRaises(c, instance, fields, active)
  {
    hide Fails;
    var tasks := RefTasks(fields);
    if tasks != [] {
      RaisesOne(c, instance, active, tasks[0]);
    }
  }

  lemma IfRaisesIff(c: Context, instance: Json, fields: seq<Field>, active: set<string>)
    ensures SomeRaises(c, instance, active, IfTasks(fields)) <==> ThenRaises(c, instance, fields, active)
  {
    hide Fails, Found;
    var tasks := IfTasks(fields);
    if tasks != [] {
      RaisesOne(c, instance, active, tasks[0]);
    }
  }

  lemma BranchRaisesIff(c: Context, instance: Json, branch: Json, i: nat, active: set<string>)
    ensures TaskRaises(c, instance, active, BranchTask(branch, i)) <==> BranchRaises(c, instance, branch, active)
  {
    hide Fails, Found, Supported, AllKnown;
    if branch.Obj? {
      KnownIs(branch.fields);
    }
  }

  lemma AllOfRaisesIff(c: Context, instance: Json, fields: seq<Field>, active: set<string>)
    ensures SomeRaises(c, instance, active, AllOfTasks(fields)) <==> AllOfRaises(c, instance, fields, active)
  {
    hide TaskRaises, BranchRaises, BranchTask, Offers;
    var tasks := AllOfTasks(fields);
    if Get(fields, "allOf").Some? {
      var list := Get(fields, "allOf").value;
      IterateOffers(list);
      if Iterate(list).None? {
        MalformedRaises(c, instance, active);
      } else {
        var branches := Iterate(list).value;
        forall i | 0 <= i < |branches|
          ensures tasks[i] == BranchTask(branches[i], i) && Offers(list, branches[i])
          ensures TaskRaises(c, instance, active, tasks[i]) <==> BranchRaises(c, instance, branches[i], active)
        {
          assert branches[i] in branches;
          BranchRaisesIff(c, instance, branches[i], i, active);
        }
        if branch :| Offers(list, branch) && BranchRaises(c, instance, branch, active) {
          var i :| 0 <= i < |branches| && branches[i] == branch;
          assert TaskRaises(c, instance, active, tasks[i]);
        }
      }
    }
  }

  lemma MalformedRaises(c: Context, instance: Json, active: set<string>)
    ensures SomeRaises(c, instance, active, [Local(Err(Malformed))])
  {
    RaisesOne(c, instance, active, Local(Err(Malformed)));
  }

  lemma ArrayRaises(c: Context, elements: seq<Json>, fields: seq<Field>, active: set<string>)
    requires MeetsType(Arr(elements), fields)
    ensures SomeRaises(c, Arr(elements), active, ArrayTasks(elements, fields)) <==> NoNumber(fields, "minItems") || ItemsRaise(c, Arr(elements), fields)
  {
    hide Fails, BoundVerdict, NoNumber;
    var count := Local(BoundVerdict(|elements| as real, fields, "minItems", false, TooFewItems));
    BoundRaises(|elements| as real, fields, "minItems", false, TooFewItems);
    RaisesOne(c, Arr(elements), active, count);
    if Get(fields, "items").Some? {
      var tasks := ElementTasks(elements, Get(fields, "items").value);
      RaisesAppend(c, Arr(elements), active, [count], tasks);
      assert forall i :: 0 <= i < |elements| ==> tasks[i] == Child(elements[i], Get(fields, "items").value, [At(i)]);
      if i :| 0 <= i < |elements| && Fails(c, elements[i], Get(fields, "items").value, {}) {
        assert TaskRaises(c, Arr(elements), active, tasks[i]);
      }
    } else {
      assert ArrayTasks(elements, fields) == [count];
    }
  }

  lemma TextRaises(c: Context, text: string, fields: seq<Field>)
    ensures StringVerdict(c.search, text, fields).Err? <==> BadPattern(c, text, fields) || NoNumber(fields, "minLength")
  {
    hide BoundVerdict, NoNumber;
    BoundRaises(|text| as real, fields, "minLength", false, TooShort);
  }

  lemma RequiredRaises(c: Context, members: seq<Field>, fields: seq<Field>, active: set<string>)
    ensures SomeRaises(c, Obj(members), active, RequiredTasks(members, fields)) <==>
              NoList(fields, "required")
              || (Listed(fields, "required") && exists key :: Offers(Get(fields, "required").value, key) && (key.Arr? || key.Obj?))
  {
    hide Iterate, Offers, HasKey;
    var tasks := RequiredTasks(members, fields);
    if Get(fields, "required").Some? {
      var list := Get(fields, "required").value;
      IterateOffers(list);
      if Iterate(list).None? {
        MalformedRaises(c, Obj(members), active);
      } else {
        var keys := Iterate(list).value;
        assert forall i :: 0 <= i < |keys| ==> tasks[i] == Local(PresenceVerdict(members, keys[i])) && keys[i] in keys;
        if key :| Offers(list, key) && (key.Arr? || key.Obj?) {
          var i :| 0 <= i < |keys| && keys[i] == key;
          assert TaskRaises(c, Obj(members), active, tasks[i]);
        }
      }
    }
  }

  lemma {:induction false} PropertyRaises(c: Context, members: seq<Field>, properties: seq<Field>, active: set<string>)
    ensures SomeRaises(c, Obj(members), active, PropertyTasks(members, properties)) <==>
              exists p :: p in properties && Get(members, p.key).Some? && Fails(c, Get(members, p.key).value, p.value, {})
    decreases |properties|
  {
    hide Fails;
    if properties != [] {
      var p, rest := properties[0], properties[1..];
      assert properties == [p] + rest;
      PropertyRaises(c, members, rest, active);
      if Get(members, p.key).Some? {
        var task := Child(Get(members, p.key).value, p.value, [Key(p.key)]);
        RaisesOne(c, Obj(members), active, task);
        RaisesAppend(c, Obj(members), active, [task], PropertyTasks(members, rest));
      }
    }
  }

  lemma ExtraFine(members: seq<Field>, properties: seq<Field>, fields: seq<Field>)
    ensures ExtraVerdict(members, properties, fields).Ok?
  {
  }

  lemma ObjectRaises(c: Context, members: seq<Field>, fields: seq<Field>, active: set<string>)
    requires MeetsType(Obj(members), fields)
    ensures SomeRaises(c, Obj(members), active, ObjectTasks(members, fields)) <==>
              NoNumber(fields, "minProperties") || NoList(fields, "required") || !ReadableProperties(fields)
              || (Listed(fields, "required") && exists key :: Offers(Get(fields, "required").value, key) && (key.Arr? || key.Obj?))
              || PropertiesRaise(c, Obj(members), fields)
  {
    hide Fails, BoundVerdict, RequiredTasks, PropertyTasks, ExtraVerdict, SomeRaises, MeetsType, Offers, HasKey, NoNumber, NoList, Listed;
    var instance := Obj(members);
    var count := Local(BoundVerdict(|members| as real, fields, "minProperties", false, TooFewProperties));
    var required := RequiredTasks(members, fields);
    var first := [count] + required;
    BoundRaises(|members| as real, fields, "minProperties", false, TooFewProperties);
    RaisesOne(c, instance, active, count);
    RaisesAppend(c, instance, active, [count], required);
    RequiredRaises(c, members, fields, active);
    if Properties(fields).None? {
      MalformedRaises(c, instance, active);
      RaisesAppend(c, instance, active, first, [Local(Err(Malformed))]);
    } else {
      var properties := Properties(fields).value;
      var extra := ExtraVerdict(members, properties, fields);
      var inner := PropertyTasks(members, properties);
      ExtraFine(members, properties, fields);
      RaisesOne(c, instance, active, Local(extra));
      RaisesAppend(c, instance, active, inner, [Local(extra)]);
      RaisesAppend(c, instance, active, first, inner + [Local(extra)]);
      PropertyRaises(c, members, properties, active);
    }
  }

  lemma ShapeRaises(c: Context, instance: Json, fields: seq<Field>, active: set<string>)
    requires TypeVerdict(instance, fields).Ok?
    ensures SomeRaises(c, instance, active, ShapeTasks(c.search, instance, fields)) <==>
              (MeetsType(instance, fields)
               && ((instance.Arr? && NoNumber(fields, "minItems"))
                   || (instance.Str? && (BadPattern(c, instance.s, fields) || NoNumber(fields, "minLength")))
                   || (instance.Obj?
                       && (NoNumber(fields, "minProperties") || NoList(fields, "required") || !ReadableProperties(fields)
                           || (Listed(fields, "required")
                               && exists key :: Offers(Get(fields, "required").value, key) && (key.Arr? || key.Obj?))))))
              || ItemsRaise(c, instance, fields) || PropertiesRaise(c, instance, fields)
  {
    hide Fails, SomeRaises, ArrayTasks, ObjectTasks, StringVerdict, TypeVerdict, MeetsType, Offers, NoNumber, NoList, Listed, BadPattern, ReadableProperties, Get;
    TypeIs(instance, fields);
    if MeetsType(instance, fields) {
      match instance {
        case Arr(elements) => ArrayRaises(c, elements, fields, active);
        case Str(text) =>
          RaisesOne(c, instance, active, Local(StringVerdict(c.search, text, fields)));
          TextRaises(c, text, fields);
        case Obj(members) => ObjectRaises(c, members, fields, active);
        case _ => NothingRaises(c, instance, active);
      }
    } else {
      NothingRaises(c, instance, active);
    }
  }

  lemma NothingRaises(c: Context, instance: Json, active: set<string>)
    ensures !SomeRaises(c, instance, active, [])
  {
  }

  /** The validator raises on a node exactly when it holds an unknown keyword, a keyword whose
      value it cannot use, a reference that is open or leads nowhere, or a part it raises on. */
  lemma RaisesIff(c: Context, instance: Json, schema: Json, active: set<string>)
    requires Strings(schema) <= Strings(c.root)
    ensures Validate(c.search, c.root, instance, schema, active).Err? <==> !schema.Obj? || Raises(c, instance, schema.fields, active)
  {
    hide Strings, Supported, RunTasks, SomeRaises, RefTasks, ValueTasks, ShapeTasks, AllOfTasks, IfTasks, RefRaises, ItemsRaise, PropertiesRaise,
         AllOfRaises, ThenRaises, AllBounded, AllKnown, BadType, NoList, NoNumber, BadPattern, Listed, Offers, MeetsType, ReadableProperties;
    if schema.Obj? {
      var fields := schema.fields;
      var a, b, s, all, cond := RefTasks(fields), ValueTasks(instance, fields), ShapeTasks(c.search, instance, fields), AllOfTasks(fields), IfTasks(fields);
      KnownIs(fields);
      TasksBounded(c.search, instance, fields, c.root);
      TasksRaiseIff(c, instance, schema, active, Tasks(c.search, instance, fields));
      RaisesAppend(c, instance, active, a, b);
      RaisesAppend(c, instance, active, a + b, s);
      RaisesAppend(c, instance, active, a + b + s, all);
      RaisesAppend(c, instance, active, a + b + s + all, cond);
      RefRaisesIff(c, instance, fields, active);
      ValuesRaise(c, instance, fields, active);
      TypeRaises(instance, fields);
      if !BadType(fields) {
        ShapeRaises(c, instance, fields, active);
      }
      AllOfRaisesIff(c, instance, fields, active);
      IfRaisesIff(c, instance, fields, active);
    }
  }
}
