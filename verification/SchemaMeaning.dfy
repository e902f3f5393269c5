/** A declarative reading of the supported keywords, and the proof that the validator
    decides it. */
module SchemaMeaning {
  import opened Results
  import opened Json
  import opened SchemaValidator
  import opened SchemaLaws

  // ----- what each keyword asks, with no order, probes or guards -----------------------

  /** What a type name says of a value. */
  predicate IsOfType(instance: Json, name: string) {
    || (name == "object" && instance.Obj?)
    || (name == "array" && instance.Arr?)
    || (name == "string" && instance.Str?)
    || (name == "boolean" && instance.Bool?)
    || (name == "integer" && instance.Int?)
    || (name == "number" && (instance.Int? || instance.Float?))
  }

  predicate MeetsType(instance: Json, fields: seq<Field>) {
    match Get(fields, "type")
    case Some(Str(name)) => IsOfType(instance, name)
    case _ => true
  }

  /** What a list keyword offers: the elements of a list, the letters of a text, the keys of a
      mapping. */
  predicate Offers(list: Json, x: Json) {
    match list
    case Arr(elements) => x in elements
    case Str(s) => x.Str? && |x.s| == 1 && x.s[0] in s
    case Obj(fields) => x.Str? && HasKey(fields, x.s)
    case _ => false
  }

  /** A list keyword that can be read. */
  predicate Listed(fields: seq<Field>, keyword: string) {
    match Get(fields, keyword)
    case Some(list) => list.Arr? || list.Str? || list.Obj?
    case None => false
  }

  ghost predicate MeetsEnum(instance: Json, fields: seq<Field>) {
    Listed(fields, "enum") ==> exists option :: Offers(Get(fields, "enum").value, option) && StrictEqual(instance, option)
  }

  predicate MeetsConst(instance: Json, fields: seq<Field>) {
    Get(fields, "const").Some? ==> StrictEqual(instance, Get(fields, "const").value)
  }

  predicate AtLeast(measure: real, fields: seq<Field>, keyword: string) {
    match Get(fields, keyword)
    case Some(Int(i)) => i as real <= measure
    case Some(Float(r)) => r <= measure
    case Some(Bool(b)) => (if b then 1.0 else 0.0) <= measure
    case _ => true
  }

  predicate AtMost(measure: real, fields: seq<Field>, keyword: string) {
    match Get(fields, keyword)
    case Some(Int(i)) => measure <= i as real
    case Some(Float(r)) => measure <= r
    case Some(Bool(b)) => measure <= if b then 1.0 else 0.0
    case _ => true
  }

  predicate MeetsRange(instance: Json, fields: seq<Field>) {
    match instance
    case Int(i) => AtLeast(i as real, fields, "minimum") && AtMost(i as real, fields, "maximum")
    case Float(r) => AtLeast(r, fields, "minimum") && AtMost(r, fields, "maximum")
    case _ => true
  }

  predicate MeetsText(c: Context, instance: Json, fields: seq<Field>) {
    instance.Str? ==>
      && AtLeast(|instance.s| as real, fields, "minLength")
      && (match Get(fields, "pattern") case Some(Str(pattern)) => c.search(pattern, instance.s) == Some(true) case _ => true)
  }

  /** A property the schema declares. */
  predicate Declares(fields: seq<Field>, key: string) {
    match Get(fields, "properties")
    case Some(Obj(properties)) => HasKey(properties, key)
    case _ => false
  }

  predicate ReadableProperties(fields: seq<Field>) {
    match Get(fields, "properties")
    case Some(properties) => properties.Obj?
    case None => true
  }

  /** Every required name is a member, and no member is extra where that is forbidden. */
  ghost predicate MeetsMembers(instance: Json, fields: seq<Field>) {
    instance.Obj? ==>
      && AtLeast(|instance.fields| as real, fields, "minProperties")
      && (Listed(fields, "required") ==>
            forall key :: Offers(Get(fields, "required").value, key) ==> key.Str? && HasKey(instance.fields, key.s))
      && (Get(fields, "additionalProperties") == Some(Bool(false)) && ReadableProperties(fields) ==>
            forall i :: 0 <= i < |instance.fields| ==> Declares(fields, instance.fields[i].key))
  }

  predicate MeetsSize(instance: Json, fields: seq<Field>) {
    instance.Arr? ==> AtLeast(|instance.elements| as real, fields, "minItems")
  }

  ghost predicate MeetsRef(fuel: nat, c: Context, instance: Json, fields: seq<Field>)
    decreases fuel, 1
  {
    match Get(fields, "$ref")
    case Some(Str(reference)) =>
      Resolved(c, reference).Some? && Satisfies(fuel, c, instance, Resolved(c, reference).value)
    case _ => true
  }

  ghost predicate MeetsItems(fuel: nat, c: Context, instance: Json, fields: seq<Field>)
    decreases fuel, 1
  {
    instance.Arr? && Get(fields, "items").Some? ==>
      forall i :: 0 <= i < |instance.elements| ==> Satisfies(fuel, c, instance.elements[i], Get(fields, "items").value)
  }

  ghost predicate MeetsProperties(fuel: nat, c: Context, instance: Json, fields: seq<Field>)
    decreases fuel, 1
  {
    instance.Obj? && Get(fields, "properties").Some? && Get(fields, "properties").value.Obj? ==>
      var properties := Get(fields, "properties").value.fields;
      forall i :: 0 <= i < |properties| ==>
        Get(instance.fields, properties[i].key).Some? ==>
          Satisfies(fuel, c, Get(instance.fields, properties[i].key).value, properties[i].value)
  }

  ghost predicate MeetsAll(fuel: nat, c: Context, instance: Json, fields: seq<Field>)
    decreases fuel, 1
  {
    Listed(fields, "allOf") ==>
      forall branch :: Offers(Get(fields, "allOf").value, branch) ==> Satisfies(fuel, c, instance, branch)
  }

  ghost predicate MeetsConditional(fuel: nat, c: Context, instance: Json, fields: seq<Field>)
    decreases fuel, 1
  {
    Get(fields, "if").Some? && Satisfies(fuel, c, instance, Get(fields, "if").value) ==>
      Get(fields, "then").Some? ==> Satisfies(fuel, c, instance, Get(fields, "then").value)
  }

  /** The instance satisfies the schema, looking `fuel` references and nestings deep. */
  ghost predicate Satisfies(fuel: nat, c: Context, instance: Json, schema: Json)
    decreases fuel, 0
  {
    && fuel > 0
    && schema.Obj?
    && MeetsType(instance, schema.fields)
    && MeetsEnum(instance, schema.fields)
    && MeetsConst(instance, schema.fields)
    && MeetsRange(instance, schema.fields)
    && MeetsText(c, instance, schema.fields)
    && MeetsSize(instance, schema.fields)
    && MeetsMembers(instance, schema.fields)
    && MeetsRef(fuel - 1, c, instance, schema.fields)
    && MeetsItems(fuel - 1, c, instance, schema.fields)
    && MeetsProperties(fuel - 1, c, instance, schema.fields)
    && MeetsAll(fuel - 1, c, instance, schema.fields)
    && MeetsConditional(fuel - 1, c, instance, schema.fields)
  }

  // ----- keywords as tasks -------------------------------------------------------------

  /** The task's part of the instance satisfies its part of the schema. The condition of
      an `allOf` branch is one node deeper. */
  ghost predicate Met(fuel: nat, c: Context, instance: Json, task: Task) {
    match task
    case Local(verdict) => verdict == Fine
    case Expand(reference) => Resolved(c, reference).Some? && Satisfies(fuel, c, instance, Resolved(c, reference).value)
    case Child(child, part, _) => Satisfies(fuel, c, child, part)
    case Same(part, _) => Satisfies(fuel, c, instance, part)
    case Cond(test, consequence, at) =>
      var inner := if |at| == 1 then fuel else if fuel == 0 then 0 else fuel - 1;
      Satisfies(inner, c, instance, test) ==> consequence.Some? ==> Satisfies(inner, c, instance, consequence.value)
  }

  ghost predicate AllMet(fuel: nat, c: Context, instance: Json, tasks: seq<Task>) {
    forall i :: 0 <= i < |tasks| ==> Met(fuel, c, instance, tasks[i])
  }

  /** No local check raises. */
  predicate Calm(tasks: seq<Task>) {
    forall i :: 0 <= i < |tasks| ==> tasks[i].Local? ==> tasks[i].verdict.Ok?
  }

  lemma AllMetAppend(fuel: nat, c: Context, instance: Json, a: seq<Task>, b: seq<Task>)
    ensures AllMet(fuel, c, instance, a + b) <==> AllMet(fuel, c, instance, a) && AllMet(fuel, c, instance, b)
    ensures Calm(a + b) <==> Calm(a) && Calm(b)
  {
    hide Met;
    if AllMet(fuel, c, instance, a + b) {
      forall i | 0 <= i < |a| ensures Met(fuel, c, instance, a[i]) {
        assert (a + b)[i] == a[i];
      }
      forall i | 0 <= i < |b| ensures Met(fuel, c, instance, b[i]) {
        assert (a + b)[|a| + i] == b[i];
      }
    }
    if Calm(a + b) {
      forall i | 0 <= i < |a| && a[i].Local? ensures a[i].verdict.Ok? {
        assert (a + b)[i] == a[i];
      }
      forall i | 0 <= i < |b| && b[i].Local? ensures b[i].verdict.Ok? {
        assert (a + b)[|a| + i] == b[i];
      }
    }
  }

  lemma AllMetOne(fuel: nat, c: Context, instance: Json, verdict: Verdict)
    ensures AllMet(fuel, c, instance, [Local(verdict)]) <==> verdict == Fine
    ensures Calm([Local(verdict)]) <==> verdict.Ok?
  {
    assert [Local(verdict)][0] == Local(verdict);
  }

  /** What a loop over a value sees is what it offers. */
  lemma IterateOffers(list: Json)
    ensures Iterate(list).Some? <==> list.Arr? || list.Str? || list.Obj?
    ensures Iterate(list).Some? ==> forall x :: x in Iterate(list).value <==> Offers(list, x)
  {
    match list {
      case Str(s) =>
        var all := Iterate(list).value;
        forall x ensures x in all <==> Offers(list, x) {
          if Offers(list, x) {
            var i :| 0 <= i < |s| && s[i] == x.s[0];
            assert x.s == [s[i]];
            assert all[i] == x;
          }
        }
      case Obj(fields) =>
        var all := Iterate(list).value;
        forall x ensures x in all <==> Offers(list, x) {
          if Offers(list, x) {
            var i :| 0 <= i < |fields| && fields[i].key == x.s;
            assert all[i] == x;
          }
        }
      case _ =>
    }
  }

  lemma EnumMeets(instance: Json, fields: seq<Field>)
    requires EnumVerdict(instance, fields).Ok?
    ensures EnumVerdict(instance, fields) == Fine <==> MeetsEnum(instance, fields)
  {
    hide StrictEqual, Iterate;
    if Get(fields, "enum").Some? {
      var list := Get(fields, "enum").value;
      IterateOffers(list);
      var all := Iterate(list).value;
      if option :| Offers(list, option) && StrictEqual(instance, option) {
        var i :| 0 <= i < |all| && all[i] == option;
      }
      if i :| 0 <= i < |all| && StrictEqual(instance, all[i]) {
        assert all[i] in all;
      }
    }
  }

  lemma RangeMeets(instance: Json, fields: seq<Field>)
    requires RangeVerdict(instance, fields).Ok?
    ensures RangeVerdict(instance, fields) == Fine <==> MeetsRange(instance, fields)
  {
    if instance.Int? || instance.Float? {
      var value := Number(instance).value;
      ThenFine(BoundVerdict(value, fields, "minimum", false, BelowMinimum), BoundVerdict(value, fields, "maximum", true, AboveMaximum));
    }
  }

  lemma ValuesMeet(fuel: nat, c: Context, instance: Json, fields: seq<Field>)
    requires Calm(ValueTasks(instance, fields))
    ensures AllMet(fuel, c, instance, ValueTasks(instance, fields)) <==>
            && MeetsType(instance, fields) && MeetsEnum(instance, fields)
            && MeetsConst(instance, fields) && MeetsRange(instance, fields)
  {
    hide StrictEqual, KnownType, HasType, EnumVerdict, RangeVerdict, MeetsEnum, MeetsRange;
    var tasks := ValueTasks(instance, fields);
    assert tasks[0].verdict.Ok? && tasks[1].verdict.Ok? && tasks[2].verdict.Ok? && tasks[3].verdict.Ok?;
    assert AllMet(fuel, c, instance, tasks) <==>
      Met(fuel, c, instance, tasks[0]) && Met(fuel, c, instance, tasks[1]) && Met(fuel, c, instance, tasks[2]) && Met(fuel, c, instance, tasks[3]);
    TypeIs(instance, fields);
    EnumMeets(instance, fields);
    RangeMeets(instance, fields);
  }

  /** The type keyword holds exactly for the instances its name stands for. */
  lemma TypeIs(instance: Json, fields: seq<Field>)
    requires TypeVerdict(instance, fields).Ok?
    ensures TypeVerdict(instance, fields) == Fine <==> MeetsType(instance, fields)
  {
  }

  lemma RefMeets(fuel: nat, c: Context, instance: Json, fields: seq<Field>)
    requires Calm(RefTasks(fields))
    ensures AllMet(fuel, c, instance, RefTasks(fields)) <==> MeetsRef(fuel, c, instance, fields)
  {
    hide Satisfies;
    var tasks := RefTasks(fields);
    if tasks != [] {
      assert AllMet(fuel, c, instance, tasks) <==> Met(fuel, c, instance, tasks[0]);
      AllMetOne(fuel, c, instance, Err(Malformed));
    }
  }

  lemma ArrayMeets(fuel: nat, c: Context, elements: seq<Json>, fields: seq<Field>)
    requires Calm(ArrayTasks(elements, fields))
    ensures AllMet(fuel, c, Arr(elements), ArrayTasks(elements, fields)) <==>
            MeetsSize(Arr(elements), fields) && MeetsItems(fuel, c, Arr(elements), fields)
  {
    hide Satisfies;
    var tasks := ArrayTasks(elements, fields);
    assert tasks[0].verdict.Ok?;
    assert Met(fuel, c, Arr(elements), tasks[0]) <==> MeetsSize(Arr(elements), fields);
    if Get(fields, "items").Some? {
      var part := Get(fields, "items").value;
      assert forall i :: 0 <= i < |elements| ==> tasks[i + 1] == Child(elements[i], part, [At(i)]);
      if AllMet(fuel, c, Arr(elements), tasks) {
        forall i | 0 <= i < |elements| ensures Satisfies(fuel, c, elements[i], part) {
          assert Met(fuel, c, Arr(elements), tasks[i + 1]);
        }
      }
    }
  }

  lemma TextMeets(fuel: nat, c: Context, text: string, fields: seq<Field>)
    requires StringVerdict(c.search, text, fields).Ok?
    ensures StringVerdict(c.search, text, fields) == Fine <==> MeetsText(c, Str(text), fields)
  {
  }

  lemma RequiredMeets(fuel: nat, c: Context, members: seq<Field>, fields: seq<Field>)
    requires Calm(RequiredTasks(members, fields))
    ensures AllMet(fuel, c, Obj(members), RequiredTasks(members, fields)) <==>
            (Listed(fields, "required") ==>
              forall key :: Offers(Get(fields, "required").value, key) ==> key.Str? && HasKey(members, key.s))
  {
    hide Satisfies, Iterate, Offers;
    var tasks := RequiredTasks(members, fields);
    if Get(fields, "required").Some? {
      var list := Get(fields, "required").value;
      IterateOffers(list);
      if Iterate(list).None? {
        AllMetOne(fuel, c, Obj(members), Err(Malformed));
      } else {
        var keys := Iterate(list).value;
        assert forall i :: 0 <= i < |keys| ==> tasks[i] == Local(PresenceVerdict(members, keys[i])) && tasks[i].verdict.Ok?;
        if AllMet(fuel, c, Obj(members), tasks) {
          forall key | key in keys ensures key.Str? && HasKey(members, key.s) {
            var i :| 0 <= i < |keys| && keys[i] == key;
            assert Met(fuel, c, Obj(members), tasks[i]);
          }
        }
        assert forall i :: 0 <= i < |keys| ==> keys[i] in keys;
      }
    }
  }

  lemma {:induction false} PropertiesMeet(fuel: nat, c: Context, members: seq<Field>, properties: seq<Field>)
    ensures Calm(PropertyTasks(members, properties))
    ensures AllMet(fuel, c, Obj(members), PropertyTasks(members, properties)) <==>
            forall i :: 0 <= i < |properties| ==>
              Get(members, properties[i].key).Some? ==>
                Satisfies(fuel, c, Get(members, properties[i].key).value, properties[i].value)
  {
    hide Satisfies;
    if properties != [] {
      var property := properties[0];
      var rest := properties[1..];
      PropertiesMeet(fuel, c, members, rest);
      assert forall i :: 0 <= i < |rest| ==> rest[i] == properties[i + 1];
      if Get(members, property.key).Some? {
        var first := Child(Get(members, property.key).value, property.value, [Key(property.key)]);
        AllMetAppend(fuel, c, Obj(members), [first], PropertyTasks(members, rest));
        assert AllMet(fuel, c, Obj(members), [first]) <==> Met(fuel, c, Obj(members), [first][0]);
      }
      HeadAndRest(fuel, c, members, properties);
    }
  }

  lemma HeadAndRest(fuel: nat, c: Context, members: seq<Field>, properties: seq<Field>)
    requires properties != []
    ensures (forall i :: 0 <= i < |properties| ==>
              Get(members, properties[i].key).Some? ==>
                Satisfies(fuel, c, Get(members, properties[i].key).value, properties[i].value)) <==>
            (Get(members, properties[0].key).Some? ==>
              Satisfies(fuel, c, Get(members, properties[0].key).value, properties[0].value))
            && forall i :: 0 <= i < |properties[1..]| ==>
                 Get(members, properties[1..][i].key).Some? ==>
                   Satisfies(fuel, c, Get(members, properties[1..][i].key).value, properties[1..][i].value)
  {
    hide Satisfies;
    var rest := properties[1..];
    assert forall i :: 1 <= i < |properties| ==> properties[i] == rest[i - 1];
  }

  lemma ExtraMeets(members: seq<Field>, properties: seq<Field>, fields: seq<Field>)
    requires Properties(fields) == Some(properties)
    ensures ExtraVerdict(members, properties, fields) == Fine <==>
            (Get(fields, "additionalProperties") == Some(Bool(false)) ==>
              forall i :: 0 <= i < |members| ==> Declares(fields, members[i].key))
  {
    assert forall key :: Declares(fields, key) <==> HasKey(properties, key);
    KeySetHas(members);
    KeySetHas(properties);
    var extra := KeySet(members) - KeySet(properties);
    if extra == {} {
      forall i | 0 <= i < |members| ensures HasKey(properties, members[i].key) {
        assert members[i].key in KeySet(members) && members[i].key !in extra;
      }
    } else {
      var key :| key in extra;
      var i :| 0 <= i < |members| && members[i].key == key;
    }
  }

  lemma KeySetHas(fields: seq<Field>)
    ensures forall key :: key in KeySet(fields) <==> HasKey(fields, key)
  {
  }

  lemma ObjectMeets(fuel: nat, c: Context, members: seq<Field>, fields: seq<Field>)
    requires Calm(ObjectTasks(members, fields))
    ensures AllMet(fuel, c, Obj(members), ObjectTasks(members, fields)) <==>
            MeetsMembers(Obj(members), fields) && MeetsProperties(fuel, c, Obj(members), fields)
  {
    hide Satisfies, AllMet, Calm, RequiredTasks, PropertyTasks, ExtraVerdict;
    var instance := Obj(members);
    var count := BoundVerdict(|members| as real, fields, "minProperties", false, TooFewProperties);
    var required := RequiredTasks(members, fields);
    AllMetOne(fuel, c, instance, count);
    AllMetAppend(fuel, c, instance, [Local(count)], required);
    var first := [Local(count)] + required;
    if Properties(fields).None? {
      AllMetOne(fuel, c, instance, Err(Malformed));
      AllMetAppend(fuel, c, instance, first, [Local(Err(Malformed))]);
    } else {
      var properties := Properties(fields).value;
      var extra := ExtraVerdict(members, properties, fields);
      AllMetOne(fuel, c, instance, extra);
      AllMetAppend(fuel, c, instance, PropertyTasks(members, properties), [Local(extra)]);
      AllMetAppend(fuel, c, instance, first, PropertyTasks(members, properties) + [Local(extra)]);
      PropertiesMeet(fuel, c, members, properties);
      ExtraMeets(members, properties, fields);
      RequiredMeets(fuel, c, members, fields);
    }
  }

  /** With a matching type, the tasks of an instance's own shape are the keywords of
      that shape; the keywords of other shapes hold of it anyway. */
  lemma ShapeMeets(fuel: nat, c: Context, instance: Json, fields: seq<Field>)
    requires Calm(ShapeTasks(c.search, instance, fields)) && TypeVerdict(instance, fields) == Fine
    ensures AllMet(fuel, c, instance, ShapeTasks(c.search, instance, fields)) <==>
            && MeetsText(c, instance, fields) && MeetsSize(instance, fields) && MeetsMembers(instance, fields)
            && MeetsItems(fuel, c, instance, fields) && MeetsProperties(fuel, c, instance, fields)
  {
    hide Satisfies, StringVerdict, ObjectTasks, ArrayTasks, AllMet, Calm, TypeVerdict, AtLeast, HasKey, Iterate;
    match instance {
      case Arr(elements) => ArrayMeets(fuel, c, elements, fields);
      case Str(text) =>
        AllMetOne(fuel, c, instance, StringVerdict(c.search, text, fields));
        TextMeets(fuel, c, text, fields);
      case Obj(members) => ObjectMeets(fuel, c, members, fields);
      case _ => NoneMet(fuel, c, instance);
    }
  }

  lemma NoneMet(fuel: nat, c: Context, instance: Json)
    ensures AllMet(fuel, c, instance, [])
  {
  }

  lemma NothingElse(fuel: nat, c: Context, instance: Json, fields: seq<Field>)
    requires OnlyConditional(fields)
    ensures MeetsType(instance, fields) && MeetsEnum(instance, fields) && MeetsConst(instance, fields) && MeetsRange(instance, fields)
    ensures MeetsText(c, instance, fields) && MeetsSize(instance, fields) && MeetsMembers(instance, fields)
    ensures MeetsRef(fuel, c, instance, fields) && MeetsItems(fuel, c, instance, fields)
    ensures MeetsProperties(fuel, c, instance, fields) && MeetsAll(fuel, c, instance, fields)
  {
    hide Satisfies, OnlyConditional;
    Absent(fields, "type");
    Absent(fields, "enum");
    Absent(fields, "const");
    Absent(fields, "minimum");
    Absent(fields, "maximum");
    Absent(fields, "minLength");
    Absent(fields, "pattern");
    Absent(fields, "minItems");
    Absent(fields, "minProperties");
    Absent(fields, "required");
    Absent(fields, "additionalProperties");
    Absent(fields, "$ref");
    Absent(fields, "items");
    Absent(fields, "properties");
    Absent(fields, "allOf");
  }

  /** A branch that is a pure conditional asks only for its condition. */
  lemma ConditionalBranch(fuel: nat, c: Context, instance: Json, branch: Json)
    requires branch.Obj? && OnlyConditional(branch.fields)
    ensures Satisfies(fuel, c, instance, branch) <==> fuel > 0 && MeetsConditional(fuel - 1, c, instance, branch.fields)
  {
    hide OnlyConditional, MeetsType, MeetsEnum, MeetsConst, MeetsRange, MeetsText, MeetsSize, MeetsMembers, MeetsRef, MeetsItems, MeetsProperties, MeetsAll, MeetsConditional;
    if fuel > 0 {
      NothingElse(fuel - 1, c, instance, branch.fields);
    }
  }

  lemma Absent(fields: seq<Field>, keyword: string)
    requires OnlyConditional(fields) && keyword !in {"if", "then"}
    ensures Get(fields, keyword).None?
  {
  }

  lemma BranchMeets(fuel: nat, c: Context, instance: Json, branch: Json, index: nat)
    requires BranchTask(branch, index).Local? ==> BranchTask(branch, index).verdict.Ok?
    requires fuel > 0
    ensures Met(fuel, c, instance, BranchTask(branch, index)) <==> Satisfies(fuel, c, instance, branch)
  {
    hide Satisfies, Supported;
    if BranchTask(branch, index).Cond? {
      ConditionalBranch(fuel, c, instance, branch);
    }
  }

  lemma AllOfMeets(fuel: nat, c: Context, instance: Json, fields: seq<Field>)
    requires Calm(AllOfTasks(fields)) && fuel > 0
    ensures AllMet(fuel, c, instance, AllOfTasks(fields)) <==> MeetsAll(fuel, c, instance, fields)
  {
    hide Satisfies, BranchTask, Met, Iterate, Offers;
    var tasks := AllOfTasks(fields);
    if Get(fields, "allOf").Some? {
      var list := Get(fields, "allOf").value;
      IterateOffers(list);
      if Iterate(list).None? {
        AllMetOne(fuel, c, instance, Err(Malformed));
      } else {
        var branches := Iterate(list).value;
        forall i | 0 <= i < |branches|
          ensures Offers(list, branches[i]) && (Met(fuel, c, instance, tasks[i]) <==> Satisfies(fuel, c, instance, branches[i]))
        {
          assert branches[i] in branches;
          assert tasks[i] == BranchTask(branches[i], i);
          BranchMeets(fuel, c, instance, branches[i], i);
        }
        if AllMet(fuel, c, instance, tasks) {
          forall branch | Offers(list, branch) ensures Satisfies(fuel, c, instance, branch) {
            var i :| 0 <= i < |branches| && branches[i] == branch;
            assert Met(fuel, c, instance, tasks[i]);
          }
        }
      }
    }
  }

  lemma IfMeets(fuel: nat, c: Context, instance: Json, fields: seq<Field>)
    ensures AllMet(fuel, c, instance, IfTasks(fields)) <==> MeetsConditional(fuel, c, instance, fields)
  {
    hide Satisfies;
    var tasks := IfTasks(fields);
    if tasks != [] {
      assert AllMet(fuel, c, instance, tasks) <==> Met(fuel, c, instance, tasks[0]);
    }
  }

  /** A node is satisfied exactly when all its tasks are. */
  lemma NodeMeets(fuel: nat, c: Context, instance: Json, fields: seq<Field>)
    requires fuel > 0 && Calm(Tasks(c.search, instance, fields))
    ensures Satisfies(fuel + 1, c, instance, Obj(fields)) <==> AllMet(fuel, c, instance, Tasks(c.search, instance, fields))
  {
    hide AllMet, Calm, RefTasks, ValueTasks, ShapeTasks, AllOfTasks, IfTasks, MeetsEnum, MeetsConst, MeetsRange, MeetsText, MeetsSize, MeetsMembers, MeetsRef, MeetsItems, MeetsProperties, MeetsAll, MeetsConditional;
    var a, b, s, all, cond := RefTasks(fields), ValueTasks(instance, fields), ShapeTasks(c.search, instance, fields), AllOfTasks(fields), IfTasks(fields);
    AllMetAppend(fuel, c, instance, a, b);
    AllMetAppend(fuel, c, instance, a + b, s);
    AllMetAppend(fuel, c, instance, a + b + s, all);
    AllMetAppend(fuel, c, instance, a + b + s + all, cond);
    RefMeets(fuel, c, instance, fields);
    ValuesMeet(fuel, c, instance, fields);
    AllOfMeets(fuel, c, instance, fields);
    IfMeets(fuel, c, instance, fields);
    TypeMeets(instance, fields, b);
    if MeetsType(instance, fields) {
      ShapeMeets(fuel, c, instance, fields);
    }
  }

  lemma TypeMeets(instance: Json, fields: seq<Field>, tasks: seq<Task>)
    requires tasks == ValueTasks(instance, fields) && Calm(tasks)
    ensures MeetsType(instance, fields) <==> TypeVerdict(instance, fields) == Fine
  {
    assert tasks[0].verdict.Ok?;
    TypeIs(instance, fields);
  }

  // ----- the validator decides the reading -------------------------------------------------------

  ghost predicate Decides(c: Context, instance: Json, schema: Json, floor: nat, holds: bool) {
    forall n: nat :: n >= floor ==> (Satisfies(n, c, instance, schema) <==> holds)
  }

  ghost predicate DecidesTasks(c: Context, instance: Json, tasks: seq<Task>, floor: nat, holds: bool) {
    forall n: nat :: n >= floor ==> (AllMet(n, c, instance, tasks) <==> holds)
  }

  ghost predicate DecidesTask(c: Context, instance: Json, task: Task, floor: nat, holds: bool) {
    forall n: nat :: n >= floor ==> (Met(n, c, instance, task) <==> holds)
  }

  lemma {:induction false} DecideNode(c: Context, instance: Json, schema: Json, active: set<string>) returns (floor: nat)
    requires Strings(schema) <= Strings(c.root) && Validate(c.search, c.root, instance, schema, active).Ok?
    ensures Decides(c, instance, schema, floor, Validate(c.search, c.root, instance, schema, active) == Fine)
    decreases instance, Strings(c.root) - active, schema, 2, 0
  {
    hide Tasks, Supported, Strings, RunTasks, Satisfies, AllMet;
    var tasks := Tasks(c.search, instance, schema.fields);
    TasksBounded(c.search, instance, schema.fields, c.root);
    RunIsCalm(c, instance, schema, active, tasks);
    var inner := DecideTasks(c, instance, schema, active, tasks);
    floor := inner + 2;
    forall n: nat | n >= floor
      ensures Satisfies(n, c, instance, schema) <==> Validate(c.search, c.root, instance, schema, active) == Fine
    {
      NodeMeets(n - 1, c, instance, schema.fields);
    }
  }

  lemma {:induction false} RunIsCalm(c: Context, instance: Json, schema: Json, active: set<string>, tasks: seq<Task>)
    requires AllBounded(tasks, instance, schema, c.root) && RunTasks(c.search, c.root, instance, schema, active, tasks).Ok?
    ensures Calm(tasks)
    decreases |tasks|
  {
    hide Strings, Bounded;
    if tasks != [] {
      RunIsCalm(c, instance, schema, active, tasks[1..]);
      assert forall i :: 1 <= i < |tasks| ==> tasks[i] == tasks[1..][i - 1];
    }
  }

  lemma {:induction false} DecideTasks(c: Context, instance: Json, schema: Json, active: set<string>, tasks: seq<Task>) returns (floor: nat)
    requires AllBounded(tasks, instance, schema, c.root) && RunTasks(c.search, c.root, instance, schema, active, tasks).Ok?
    ensures DecidesTasks(c, instance, tasks, floor, RunTasks(c.search, c.root, instance, schema, active, tasks) == Fine)
    decreases instance, Strings(c.root) - active, schema, 1, |tasks|
  {
    hide Strings, RunTask, Bounded, Met;
    floor := 0;
    if tasks != [] {
      var first := DecideTask(c, instance, schema, active, tasks[0]);
      var rest := DecideTasks(c, instance, schema, active, tasks[1..]);
      floor := if first > rest then first else rest;
      forall n: nat | n >= floor
        ensures AllMet(n, c, instance, tasks) <==> RunTasks(c.search, c.root, instance, schema, active, tasks) == Fine
      {
        AllMetAppend(n, c, instance, [tasks[0]], tasks[1..]);
        assert tasks == [tasks[0]] + tasks[1..];
        ThenFine(RunTask(c.search, c.root, instance, schema, active, tasks[0]), RunTasks(c.search, c.root, instance, schema, active, tasks[1..]));
        assert AllMet(n, c, instance, [tasks[0]]) <==> Met(n, c, instance, [tasks[0]][0]);
      }
    }
  }

  lemma ThenFine(a: Verdict, b: Verdict)
    requires Then(a, b).Ok?
    ensures Then(a, b) == Fine <==> a == Fine && b == Fine
  {
    assert a.value + b.value == [] <==> a.value == [] && b.value == [];
  }

  lemma {:induction false} DecideTask(c: Context, instance: Json, schema: Json, active: set<string>, task: Task) returns (floor: nat)
    requires Bounded(task, instance, schema, c.root) && RunTask(c.search, c.root, instance, schema, active, task).Ok?
    ensures DecidesTask(c, instance, task, floor, RunTask(c.search, c.root, instance, schema, active, task) == Fine)
    decreases instance, Strings(c.root) - active, schema, 0, 0
  {
    hide Strings, Satisfies, Validate;
    floor := 0;
    match task {
      case Local(_) =>
      case Expand(reference) =>
        ResolveBound(reference, c.root);
        floor := DecideNode(c, instance, ResolveRef(reference, c.root).value, active + {reference});
      case Child(child, part, _) =>
        floor := DecideNode(c, child, part, {});
      case Same(part, _) =>
        floor := DecideNode(c, instance, part, active);
      case Cond(test, consequence, _) =>
        var first := DecideNode(c, instance, test, active);
        floor := first + 1;
        if Validate(c.search, c.root, instance, test, active) == Fine && consequence.Some? {
          var second := DecideNode(c, instance, consequence.value, active);
          floor := if first > second then first + 1 else second + 1;
        }
    }
  }

  /** `validate_answers` returns no violation. */
  predicate Accepts(c: Context, mapping: Json) {
    ValidateAnswers(c.search, mapping, c.root) == Fine
  }

  /** Sound and complete: when the validator does not raise, it reports nothing exactly
      when the instance satisfies the schema. */
  lemma SoundAndComplete(c: Context, mapping: Json)
    requires ValidateAnswers(c.search, mapping, c.root).Ok?
    ensures exists floor: nat :: Decides(c, mapping, c.root, floor, Accepts(c, mapping))
  {
    hide Validate, Decides;
    var floor := DecideNode(c, mapping, c.root, {});
    assert Decides(c, mapping, c.root, floor, Accepts(c, mapping));
  }
}
