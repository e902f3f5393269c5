/** Which violations the validator reports for a node, keyword by keyword, and where. */
module SchemaReports {
  import opened Results
  import opened Json
  import opened SchemaValidator
  import opened SchemaLaws
  import opened SchemaMeaning

  // ----- what a node reports ---------------------------------------------------------------

  /** What the validator reports of an instance under a part of the schema. */
  function Found(c: Context, instance: Json, schema: Json, active: set<string>): seq<Violation> {
    if Strings(schema) <= Strings(c.root) && Validate(c.search, c.root, instance, schema, active).Ok? then
      Validate(c.search, c.root, instance, schema, active).value
    else []
  }

  /** The violation is one of the list, moved to a place. */
  ghost predicate Placed(at: seq<Step>, found: seq<Violation>, v: Violation) {
    exists w :: w in found && v == Violation(at + w.at, w.reason)
  }

  /** A keyword the instance itself breaks, reported at the node. */
  ghost predicate Breaks(c: Context, instance: Json, fields: seq<Field>, v: Violation) {
    v.at == []
    && match v.reason
       case WrongType(name) => Get(fields, "type") == Some(Str(name)) && !IsOfType(instance, name)
       case NotInEnum => !MeetsEnum(instance, fields)
       case NotConstant => !MeetsConst(instance, fields)
       case BelowMinimum => (instance.Int? && !AtLeast(instance.i as real, fields, "minimum")) || (instance.Float? && !AtLeast(instance.r, fields, "minimum"))
       case AboveMaximum => (instance.Int? && !AtMost(instance.i as real, fields, "maximum")) || (instance.Float? && !AtMost(instance.r, fields, "maximum"))
       case TooFewItems => MeetsType(instance, fields) && instance.Arr? && !AtLeast(|instance.elements| as real, fields, "minItems")
       case NoMatch =>
         MeetsType(instance, fields) && instance.Str? && Get(fields, "pattern").Some? && Get(fields, "pattern").value.Str?
         && c.search(Get(fields, "pattern").value.s, instance.s) == Some(false)
       case TooShort => MeetsType(instance, fields) && instance.Str? && !AtLeast(|instance.s| as real, fields, "minLength")
       case TooFewProperties => MeetsType(instance, fields) && instance.Obj? && !AtLeast(|instance.fields| as real, fields, "minProperties")
       case MissingProperty(key) =>
         MeetsType(instance, fields) && instance.Obj? && Listed(fields, "required") && Offers(Get(fields, "required").value, key)
         && !(key.Str? && HasKey(instance.fields, key.s))
       case ExtraProperties(keys) =>
         MeetsType(instance, fields) && instance.Obj? && Get(fields, "additionalProperties") == Some(Bool(false)) && keys != {}
         && forall key :: key in keys <==> HasKey(instance.fields, key) && !Declares(fields, key)
  }

  ghost predicate FromRef(c: Context, instance: Json, fields: seq<Field>, active: set<string>, v: Violation) {
    match Get(fields, "$ref")
    case Some(Str(reference)) => Resolved(c, reference).Some? && v in Found(c, instance, Resolved(c, reference).value, active + {reference})
    case _ => false
  }

  ghost predicate FromItems(c: Context, instance: Json, fields: seq<Field>, v: Violation) {
    MeetsType(instance, fields) && instance.Arr? && Get(fields, "items").Some?
    && exists i :: 0 <= i < |instance.elements| && Placed([At(i)], Found(c, instance.elements[i], Get(fields, "items").value, {}), v)
  }

  ghost predicate FromProperties(c: Context, instance: Json, fields: seq<Field>, v: Violation) {
    MeetsType(instance, fields) && instance.Obj? && Get(fields, "properties").Some? && Get(fields, "properties").value.Obj?
    && exists p :: p in Get(fields, "properties").value.fields && Get(instance.fields, p.key).Some?
                   && Placed([Key(p.key)], Found(c, Get(instance.fields, p.key).value, p.value, {}), v)
  }

  /** A conditional: its consequence is validated when the test reports nothing. */
  ghost predicate FromThen(c: Context, instance: Json, fields: seq<Field>, active: set<string>, at: seq<Step>, v: Violation) {
    Get(fields, "if").Some? && Found(c, instance, Get(fields, "if").value, active) == [] && Get(fields, "then").Some?
    && Placed(at + [Key("then")], Found(c, instance, Get(fields, "then").value, active), v)
  }

  ghost predicate FromBranches(c: Context, instance: Json, fields: seq<Field>, active: set<string>, v: Violation) {
    Get(fields, "allOf").Some? && Get(fields, "allOf").value.Arr?
    && exists i :: 0 <= i < |Get(fields, "allOf").value.elements| && FromBranch(c, instance, Get(fields, "allOf").value.elements[i], i, active, v)
  }

  ghost predicate FromBranch(c: Context, instance: Json, branch: Json, i: nat, active: set<string>, v: Violation) {
    branch.Obj?
    && if Get(branch.fields, "if").Some? then FromThen(c, instance, branch.fields, active, [Key("allOf"), At(i)], v)
       else Placed([Key("allOf"), At(i)], Found(c, instance, branch, active), v)
  }

  ghost predicate Reports(c: Context, instance: Json, fields: seq<Field>, active: set<string>, v: Violation) {
    || Breaks(c, instance, fields, v)
    || FromRef(c, instance, fields, active, v)
    || FromItems(c, instance, fields, v)
    || FromProperties(c, instance, fields, v)
    || FromBranches(c, instance, fields, active, v)
    || FromThen(c, instance, fields, active, [], v)
  }

  // ----- tasks ----------------------------------------------------------------------------------

  ghost predicate Finds(c: Context, instance: Json, active: set<string>, task: Task, v: Violation) {
    match task
    case Local(verdict) => verdict.Ok? && v in verdict.value
    case Expand(reference) => Resolved(c, reference).Some? && v in Found(c, instance, Resolved(c, reference).value, active + {reference})
    case Child(child, part, at) => Placed(at, Found(c, child, part, {}), v)
    case Same(part, at) => Placed(at, Found(c, instance, part, active), v)
    case Cond(test, consequence, at) =>
      Found(c, instance, test, active) == [] && consequence.Some? && Placed(at, Found(c, instance, consequence.value, active), v)
  }

  ghost predicate SomeFinds(c: Context, instance: Json, active: set<string>, tasks: seq<Task>, v: Violation) {
    exists i :: 0 <= i < |tasks| && Finds(c, instance, active, tasks[i], v)
  }

  lemma SomeAppend(c: Context, instance: Json, active: set<string>, a: seq<Task>, b: seq<Task>, v: Violation)
    ensures SomeFinds(c, instance, active, a + b, v) <==> SomeFinds(c, instance, active, a, v) || SomeFinds(c, instance, active, b, v)
  {
    hide Finds;
    if i :| 0 <= i < |a + b| && Finds(c, instance, active, (a + b)[i], v) {
      if i < |a| {
        assert Finds(c, instance, active, a[i], v);
      } else {
        assert Finds(c, instance, active, b[i - |a|], v);
      }
    }
    if i :| 0 <= i < |a| && Finds(c, instance, active, a[i], v) {
      assert Finds(c, instance, active, (a + b)[i], v);
    }
    if i :| 0 <= i < |b| && Finds(c, instance, active, b[i], v) {
      assert Finds(c, instance, active, (a + b)[|a| + i], v);
    }
  }

  lemma SomeOne(c: Context, instance: Json, active: set<string>, task: Task, v: Violation)
    ensures SomeFinds(c, instance, active, [task], v) <==> Finds(c, instance, active, task, v)
  {
    hide Finds;
    assert [task][0] == task;
  }

  lemma PrefixedIs(at: seq<Step>, found: seq<Violation>, v: Violation)
    ensures v in Prefixed(at, found) <==> Placed(at, found, v)
  {
    if v in Prefixed(at, found) {
      var i :| 0 <= i < |found| && Prefixed(at, found)[i] == v;
      assert found[i] in found;
    }
    if w :| w in found && v == Violation(at + w.at, w.reason) {
      var i :| 0 <= i < |found| && found[i] == w;
      assert Prefixed(at, found)[i] == v;
    }
  }

  lemma TaskFinds(c: Context, instance: Json, schema: Json, active: set<string>, task: Task, v: Violation)
    requires Bounded(task, instance, schema, c.root) && RunTask(c.search, c.root, instance, schema, active, task).Ok?
    ensures v in RunTask(c.search, c.root, instance, schema, active, task).value <==> Finds(c, instance, active, task, v)
  {
    hide Strings, Validate, Placed;
    match task {
      case Local(_) =>
      case Expand(reference) =>
        ResolveBound(reference, c.root);
      case Child(child, part, at) => PrefixedIs(at, Found(c, child, part, {}), v);
      case Same(part, at) => PrefixedIs(at, Found(c, instance, part, active), v);
      case Cond(test, consequence, at) =>
        if consequence.Some? {
          PrefixedIs(at, Found(c, instance, consequence.value, active), v);
        }
    }
  }

  lemma {:induction false} TasksFind(c: Context, instance: Json, schema: Json, active: set<string>, tasks: seq<Task>, v: Violation)
    requires AllBounded(tasks, instance, schema, c.root) && RunTasks(c.search, c.root, instance, schema, active, tasks).Ok?
    ensures v in RunTasks(c.search, c.root, instance, schema, active, tasks).value <==> SomeFinds(c, instance, active, tasks, v)
    decreases |tasks|
  {
    hide Strings, Bounded, RunTask, Finds;
    if tasks != [] {
      assert forall i :: 0 <= i < |tasks[1..]| ==> tasks[1..][i] == tasks[i + 1];
      TaskFinds(c, instance, schema, active, tasks[0], v);
      TasksFind(c, instance, schema, active, tasks[1..], v);
      SomeOne(c, instance, active, tasks[0], v);
      SomeAppend(c, instance, active, [tasks[0]], tasks[1..], v);
      assert tasks == [tasks[0]] + tasks[1..];
    }
  }

  // ----- the keywords of a node ------------------------------------------------------------------

  lemma ValuesReport(c: Context, instance: Json, fields: seq<Field>, active: set<string>, v: Violation)
    requires Calm(ValueTasks(instance, fields))
    ensures SomeFinds(c, instance, active, ValueTasks(instance, fields), v) <==>
              (v.reason.WrongType? || v.reason.NotInEnum? || v.reason.NotConstant? || v.reason.BelowMinimum? || v.reason.AboveMaximum?)
              && Breaks(c, instance, fields, v)
  {
    hide TypeVerdict, EnumVerdict, ConstVerdict, RangeVerdict, Breaks;
    var tasks := ValueTasks(instance, fields);
    assert tasks[0].verdict.Ok? && tasks[1].verdict.Ok? && tasks[2].verdict.Ok? && tasks[3].verdict.Ok?;
    assert SomeFinds(c, instance, active, tasks, v) <==>
      Finds(c, instance, active, tasks[0], v) || Finds(c, instance, active, tasks[1], v) || Finds(c, instance, active, tasks[2], v)
      || Finds(c, instance, active, tasks[3], v);
    TypeReports(c, instance, fields, v);
    EnumReports(c, instance, fields, v);
    ConstReports(c, instance, fields, v);
    RangeBreaks(c, instance, fields, v);
  }

  lemma TypeReports(c: Context, instance: Json, fields: seq<Field>, v: Violation)
    requires TypeVerdict(instance, fields).Ok?
    ensures v in TypeVerdict(instance, fields).value <==> v.reason.WrongType? && Breaks(c, instance, fields, v)
  {
  }

  lemma EnumReports(c: Context, instance: Json, fields: seq<Field>, v: Violation)
    requires EnumVerdict(instance, fields).Ok?
    ensures v in EnumVerdict(instance, fields).value <==> v.reason.NotInEnum? && Breaks(c, instance, fields, v)
  {
    hide MeetsEnum, StrictEqual, Iterate;
    EnumMeets(instance, fields);
  }

  lemma ConstReports(c: Context, instance: Json, fields: seq<Field>, v: Violation)
    requires ConstVerdict(instance, fields).Ok?
    ensures v in ConstVerdict(instance, fields).value <==> v.reason.NotConstant? && Breaks(c, instance, fields, v)
  {
    hide StrictEqual;
  }

  lemma RangeBreaks(c: Context, instance: Json, fields: seq<Field>, v: Violation)
    requires RangeVerdict(instance, fields).Ok?
    ensures v in RangeVerdict(instance, fields).value <==> (v.reason.BelowMinimum? || v.reason.AboveMaximum?) && Breaks(c, instance, fields, v)
  {
    hide RangeVerdict, AtLeast, AtMost;
    RangeReports(instance, fields, v);
  }

  lemma BoundReports(measure: real, fields: seq<Field>, keyword: string, upper: bool, reason: Reason, v: Violation)
    requires BoundVerdict(measure, fields, keyword, upper, reason).Ok?
    ensures v in BoundVerdict(measure, fields, keyword, upper, reason).value <==>
              v == Violation([], reason) && !(if upper then AtMost(measure, fields, keyword) else AtLeast(measure, fields, keyword))
  {
  }

  lemma RangeReports(instance: Json, fields: seq<Field>, v: Violation)
    requires RangeVerdict(instance, fields).Ok?
    ensures v in RangeVerdict(instance, fields).value <==>
              (instance.Int? || instance.Float?)
              && var value := if instance.Int? then instance.i as real else instance.r;
                 || (v == Violation([], BelowMinimum) && !AtLeast(value, fields, "minimum"))
                 || (v == Violation([], AboveMaximum) && !AtMost(value, fields, "maximum"))
  {
    hide BoundVerdict, AtLeast, AtMost;
    if instance.Int? || instance.Float? {
      var value := if instance.Int? then instance.i as real else instance.r;
      BoundReports(value, fields, "minimum", false, BelowMinimum, v);
      BoundReports(value, fields, "maximum", true, AboveMaximum, v);
    }
  }

  lemma RefReports(c: Context, instance: Json, fields: seq<Field>, active: set<string>, v: Violation)
    requires Calm(RefTasks(fields))
    ensures SomeFinds(c, instance, active, RefTasks(fields), v) <==> FromRef(c, instance, fields, active, v)
  {
    hide Found;
    var tasks := RefTasks(fields);
    if tasks != [] {
      SomeOne(c, instance, active, tasks[0], v);
    }
  }

  lemma IfReports(c: Context, instance: Json, fields: seq<Field>, active: set<string>, v: Violation)
    ensures SomeFinds(c, instance, active, IfTasks(fields), v) <==> FromThen(c, instance, fields, active, [], v)
  {
    hide Found, Placed;
    var tasks := IfTasks(fields);
    assert [] + [Key("then")] == [Key("then")];
    if tasks != [] {
      SomeOne(c, instance, active, tasks[0], v);
    }
  }

  lemma BranchReports(c: Context, instance: Json, branch: Json, i: nat, active: set<string>, v: Violation)
    requires BranchTask(branch, i).Local? ==> BranchTask(branch, i).verdict.Ok?
    ensures Finds(c, instance, active, BranchTask(branch, i), v) <==> FromBranch(c, instance, branch, i, active, v)
  {
    hide Found, Placed, Supported, OnlyConditional;
    assert [Key("allOf"), At(i)] + [Key("then")] == [Key("allOf"), At(i), Key("then")];
  }

  lemma AllOfReports(c: Context, instance: Json, fields: seq<Field>, active: set<string>, v: Violation)
    requires Calm(AllOfTasks(fields))
    ensures SomeFinds(c, instance, active, AllOfTasks(fields), v) <==> FromBranches(c, instance, fields, active, v)
  {
    hide Finds, FromBranch, BranchTask;
    var tasks := AllOfTasks(fields);
    if Get(fields, "allOf").Some? {
      var list := Get(fields, "allOf").value;
      if Iterate(list).Some? {
        var branches := Iterate(list).value;
        forall i | 0 <= i < |branches|
          ensures tasks[i] == BranchTask(branches[i], i) && (Finds(c, instance, active, tasks[i], v) <==> FromBranch(c, instance, branches[i], i, active, v))
        {
          assert tasks[i] == BranchTask(branches[i], i);
          BranchReports(c, instance, branches[i], i, active, v);
        }
        if !list.Arr? {
          OnlyTexts(list);
          forall i | 0 <= i < |branches| ensures !FromBranch(c, instance, branches[i], i, active, v) {
            NoTextBranch(c, instance, branches[i], i, active, v);
          }
        }
      }
    }
  }

  lemma OnlyTexts(list: Json)
    requires Iterate(list).Some? && !list.Arr?
    ensures forall i :: 0 <= i < |Iterate(list).value| ==> Iterate(list).value[i].Str?
  {
  }

  lemma NoTextBranch(c: Context, instance: Json, branch: Json, i: nat, active: set<string>, v: Violation)
    requires branch.Str?
    ensures !FromBranch(c, instance, branch, i, active, v)
  {
  }

  lemma ArrayReports(c: Context, elements: seq<Json>, fields: seq<Field>, active: set<string>, v: Violation)
    requires Calm(ArrayTasks(elements, fields)) && MeetsType(Arr(elements), fields)
    ensures SomeFinds(c, Arr(elements), active, ArrayTasks(elements, fields), v) <==>
              (v.reason.TooFewItems? && Breaks(c, Arr(elements), fields, v)) || FromItems(c, Arr(elements), fields, v)
  {
    hide Found, Placed, BoundVerdict, AtLeast;
    var count := Local(BoundVerdict(|elements| as real, fields, "minItems", false, TooFewItems));
    assert ArrayTasks(elements, fields)[0] == count;
    BoundReports(|elements| as real, fields, "minItems", false, TooFewItems, v);
    SomeOne(c, Arr(elements), active, count, v);
    if Get(fields, "items").Some? {
      var tasks := ElementTasks(elements, Get(fields, "items").value);
      SomeAppend(c, Arr(elements), active, [count], tasks, v);
      assert forall i :: 0 <= i < |elements| ==> tasks[i] == Child(elements[i], Get(fields, "items").value, [At(i)]);
      if i :| 0 <= i < |elements| && Placed([At(i)], Found(c, elements[i], Get(fields, "items").value, {}), v) {
        assert Finds(c, Arr(elements), active, tasks[i], v);
      }
    } else {
      assert ArrayTasks(elements, fields) == [count];
    }
  }

  lemma TextReports(c: Context, text: string, fields: seq<Field>, active: set<string>, v: Violation)
    requires StringVerdict(c.search, text, fields).Ok? && MeetsType(Str(text), fields)
    ensures Finds(c, Str(text), active, Local(StringVerdict(c.search, text, fields)), v) <==>
              (v.reason.NoMatch? || v.reason.TooShort?) && Breaks(c, Str(text), fields, v)
  {
    hide BoundVerdict, AtLeast, MeetsType;
    BoundReports(|text| as real, fields, "minLength", false, TooShort, v);
  }

  lemma RequiredReports(c: Context, members: seq<Field>, fields: seq<Field>, active: set<string>, v: Violation)
    requires Calm(RequiredTasks(members, fields)) && MeetsType(Obj(members), fields)
    ensures SomeFinds(c, Obj(members), active, RequiredTasks(members, fields), v) <==>
              v.reason.MissingProperty? && Breaks(c, Obj(members), fields, v)
  {
    hide MeetsType, Iterate, Offers, HasKey;
    var tasks := RequiredTasks(members, fields);
    if Get(fields, "required").Some? {
      var list := Get(fields, "required").value;
      IterateOffers(list);
      if Iterate(list).Some? {
        var keys := Iterate(list).value;
        assert forall i :: 0 <= i < |keys| ==> tasks[i] == Local(PresenceVerdict(members, keys[i])) && tasks[i].verdict.Ok?;
        if i :| 0 <= i < |tasks| && Finds(c, Obj(members), active, tasks[i], v) {
          assert keys[i] in keys;
        }
        if v.reason.MissingProperty? && Breaks(c, Obj(members), fields, v) {
          var i :| 0 <= i < |keys| && keys[i] == v.reason.key;
          assert Finds(c, Obj(members), active, tasks[i], v);
        }
      }
    }
  }

  lemma {:induction false} PropertyReports(c: Context, members: seq<Field>, properties: seq<Field>, active: set<string>, v: Violation)
    ensures SomeFinds(c, Obj(members), active, PropertyTasks(members, properties), v) <==>
              exists p :: p in properties && Get(members, p.key).Some? && Placed([Key(p.key)], Found(c, Get(members, p.key).value, p.value, {}), v)
    decreases |properties|
  {
    hide Found, Placed;
    if properties != [] {
      var p, rest := properties[0], properties[1..];
      assert properties == [p] + rest;
      PropertyReports(c, members, rest, active, v);
      if Get(members, p.key).Some? {
        var task := Child(Get(members, p.key).value, p.value, [Key(p.key)]);
        SomeOne(c, Obj(members), active, task, v);
        SomeAppend(c, Obj(members), active, [task], PropertyTasks(members, rest), v);
      }
    }
  }

  lemma ExtraReports(c: Context, members: seq<Field>, properties: seq<Field>, fields: seq<Field>, active: set<string>, v: Violation)
    requires Properties(fields) == Some(properties) && MeetsType(Obj(members), fields)
    ensures Finds(c, Obj(members), active, Local(ExtraVerdict(members, properties, fields)), v) <==>
              v.reason.ExtraProperties? && Breaks(c, Obj(members), fields, v)
  {
    hide MeetsType, HasKey;
    KeySetHas(members);
    KeySetHas(properties);
    assert forall key :: Declares(fields, key) <==> HasKey(properties, key) by {
      DeclaresIs(fields, properties);
    }
    var extra := KeySet(members) - KeySet(properties);
    assert forall key :: key in extra <==> HasKey(members, key) && !Declares(fields, key);
    if v.reason.ExtraProperties? && Breaks(c, Obj(members), fields, v) {
      assert v.reason.keys == extra;
    }
  }

  lemma DeclaresIs(fields: seq<Field>, properties: seq<Field>)
    requires Properties(fields) == Some(properties)
    ensures forall key :: Declares(fields, key) <==> HasKey(properties, key)
  {
  }

  lemma ObjectReports(c: Context, members: seq<Field>, fields: seq<Field>, active: set<string>, v: Violation)
    requires Calm(ObjectTasks(members, fields)) && MeetsType(Obj(members), fields)
    ensures SomeFinds(c, Obj(members), active, ObjectTasks(members, fields), v) <==>
              ((v.reason.TooFewProperties? || v.reason.MissingProperty? || v.reason.ExtraProperties?) && Breaks(c, Obj(members), fields, v))
              || FromProperties(c, Obj(members), fields, v)
  {
    hide Found, Placed, BoundVerdict, AtLeast, RequiredTasks, PropertyTasks, ExtraVerdict, SomeFinds, MeetsType, Offers, HasKey, Calm;
    var instance := Obj(members);
    var count := Local(BoundVerdict(|members| as real, fields, "minProperties", false, TooFewProperties));
    var required := RequiredTasks(members, fields);
    var first := [count] + required;
    if Properties(fields).None? {
      AllMetAppend(0, c, instance, first, [Local(Err(Malformed))]);
      AllMetOne(0, c, instance, Err(Malformed));
    } else {
      var properties := Properties(fields).value;
      var extra := ExtraVerdict(members, properties, fields);
      var inner := PropertyTasks(members, properties);
      AllMetAppend(0, c, instance, [count], required);
      AllMetAppend(0, c, instance, first, inner + [Local(extra)]);
      AllMetOne(0, c, instance, count.verdict);
      BoundReports(|members| as real, fields, "minProperties", false, TooFewProperties, v);
      SomeOne(c, instance, active, count, v);
      SomeOne(c, instance, active, Local(extra), v);
      SomeAppend(c, instance, active, [count], required, v);
      SomeAppend(c, instance, active, inner, [Local(extra)], v);
      SomeAppend(c, instance, active, first, inner + [Local(extra)], v);
      RequiredReports(c, members, fields, active, v);
      PropertyReports(c, members, properties, active, v);
      ExtraReports(c, members, properties, fields, active, v);
    }
  }

  lemma ShapeReports(c: Context, instance: Json, fields: seq<Field>, active: set<string>, v: Violation)
    requires Calm(ShapeTasks(c.search, instance, fields)) && TypeVerdict(instance, fields).Ok?
    ensures SomeFinds(c, instance, active, ShapeTasks(c.search, instance, fields), v) <==>
              ((v.reason.TooFewItems? || v.reason.NoMatch? || v.reason.TooShort? || v.reason.TooFewProperties? || v.reason.MissingProperty?
                || v.reason.ExtraProperties?) && Breaks(c, instance, fields, v))
              || FromItems(c, instance, fields, v) || FromProperties(c, instance, fields, v)
  {
    hide Found, Placed, SomeFinds, ArrayTasks, ObjectTasks, StringVerdict, TypeVerdict, MeetsType, AtLeast, Offers, HasKey, Get;
    TypeIs(instance, fields);
    if MeetsType(instance, fields) {
      match instance {
        case Arr(elements) => ArrayReports(c, elements, fields, active, v);
        case Str(text) =>
          SomeOne(c, instance, active, Local(StringVerdict(c.search, text, fields)), v);
          AllMetOne(0, c, instance, StringVerdict(c.search, text, fields));
          TextReports(c, text, fields, active, v);
        case Obj(members) => ObjectReports(c, members, fields, active, v);
        case _ => NothingFound(c, instance, active, v);
      }
    } else {
      NothingFound(c, instance, active, v);
    }
  }

  lemma NothingFound(c: Context, instance: Json, active: set<string>, v: Violation)
    ensures !SomeFinds(c, instance, active, [], v)
  {
  }

  /** When the validator does not raise, it reports of a node exactly the keywords the instance
      breaks there, and what it reports of the parts, each at its place. */
  lemma ReportsExactly(c: Context, instance: Json, schema: Json, active: set<string>, v: Violation)
    requires Strings(schema) <= Strings(c.root) && Validate(c.search, c.root, instance, schema, active).Ok?
    ensures schema.Obj? && (v in Validate(c.search, c.root, instance, schema, active).value <==> Reports(c, instance, schema.fields, active, v))
  {
    hide Strings, Supported, RunTasks, SomeFinds, RefTasks, ValueTasks, ShapeTasks, AllOfTasks, IfTasks, Breaks, FromRef, FromItems, FromProperties,
         FromBranches, FromThen, AllBounded, Calm;
    var fields := schema.fields;
    var a, b, s, all, cond := RefTasks(fields), ValueTasks(instance, fields), ShapeTasks(c.search, instance, fields), AllOfTasks(fields), IfTasks(fields);
    TasksBounded(c.search, instance, fields, c.root);
    RunIsCalm(c, instance, schema, active, Tasks(c.search, instance, fields));
    TasksFind(c, instance, schema, active, Tasks(c.search, instance, fields), v);
    AllMetAppend(0, c, instance, a, b);
    AllMetAppend(0, c, instance, a + b, s);
    AllMetAppend(0, c, instance, a + b + s, all);
    AllMetAppend(0, c, instance, a + b + s + all, cond);
    SomeAppend(c, instance, active, a, b, v);
    SomeAppend(c, instance, active, a + b, s, v);
    SomeAppend(c, instance, active, a + b + s, all, v);
    SomeAppend(c, instance, active, a + b + s + all, cond, v);
    RefReports(c, instance, fields, active, v);
    ValuesReport(c, instance, fields, active, v);
    TypeCalm(instance, fields, b);
    ShapeReports(c, instance, fields, active, v);
    AllOfReports(c, instance, fields, active, v);
    IfReports(c, instance, fields, active, v);
  }

  lemma TypeCalm(instance: Json, fields: seq<Field>, tasks: seq<Task>)
    requires tasks == ValueTasks(instance, fields) && Calm(tasks)
    ensures TypeVerdict(instance, fields).Ok?
  {
    assert tasks[0].verdict.Ok?;
  }
}
