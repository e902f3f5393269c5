/** The validator as it runs: violations are appended to one shared list, probes use
    a list of their own, and a fault stops everything. */
module SchemaRun {
  import opened Results
  import opened Json
  import opened Text
  import opened SchemaValidator

  class ErrorList {
    var items: seq<Violation>

    constructor ()
      ensures items == []
    {
      items := [];
    }

    method Append(violation: Violation)
      modifies this
      ensures items == old(items) + [violation]
    {
      items := items + [violation];
    }
  }

  /** The list grew by exactly the violations of a verdict, placed at a location; after
      a fault it still starts with what it held. */
  ghost predicate Extended(before: seq<Violation>, after: seq<Violation>, at: seq<Step>, verdict: Verdict, fault: Option<Fault>) {
    match verdict
    case Ok(violations) => fault.None? && after == before + Prefixed(at, violations)
    case Err(error) => fault == Some(error) && before <= after
  }

  // ----- verdicts in sequence -------------------------------------------------------------

  lemma ExtendNothing(items: seq<Violation>, at: seq<Step>)
    ensures Extended(items, items, at, Fine, None)
  {
    assert items + Prefixed(at, []) == items;
  }

  lemma ExtendThen(before: seq<Violation>, mid: seq<Violation>, after: seq<Violation>, at: seq<Step>, a: Verdict, b: Verdict, fault: Option<Fault>)
    requires Extended(before, mid, at, a, None) && Extended(mid, after, at, b, fault)
    ensures Extended(before, after, at, Then(a, b), fault)
  {
    if b.Ok? {
      assert Prefixed(at, a.value + b.value) == Prefixed(at, a.value) + Prefixed(at, b.value);
    }
  }

  lemma ExtendFault(before: seq<Violation>, after: seq<Violation>, at: seq<Step>, a: Verdict, b: Verdict, fault: Fault)
    requires Extended(before, after, at, a, Some(fault))
    ensures Extended(before, after, at, Then(a, b), Some(fault))
  {
  }

  lemma ExtendBelow(before: seq<Violation>, after: seq<Violation>, at: seq<Step>, below: seq<Step>, verdict: Verdict, fault: Option<Fault>)
    requires Extended(before, after, at + below, verdict, fault)
    ensures Extended(before, after, at, Below(below, verdict), fault)
  {
    if verdict.Ok? {
      var violations := verdict.value;
      assert Prefixed(at + below, violations) == Prefixed(at, Prefixed(below, violations)) by {
        assert forall i :: 0 <= i < |violations| ==> (at + below) + violations[i].at == at + (below + violations[i].at);
      }
    }
  }

  lemma ThenAssociative(a: Verdict, b: Verdict, c: Verdict)
    ensures Then(Then(a, b), c) == Then(a, Then(b, c))
  {
    if a.Ok? && b.Ok? && c.Ok? {
      assert a.value + b.value + c.value == a.value + (b.value + c.value);
    }
  }

  lemma ThenUnit(a: Verdict)
    ensures Then(Fine, a) == a && Then(a, Fine) == a
  {
    if a.Ok? {
      assert [] + a.value == a.value && a.value + [] == a.value;
    }
  }

  /** The node at hand: what a list of tasks is run for. */
  datatype Node = Node(search: Search, root: Json, instance: Json, schema: Json, active: set<string>)

  ghost predicate Ready(node: Node, tasks: seq<Task>) {
    AllBounded(tasks, node.instance, node.schema, node.root)
  }

  ghost function Verdicts(node: Node, tasks: seq<Task>): Verdict
    requires Ready(node, tasks)
  {
    RunTasks(node.search, node.root, node.instance, node.schema, node.active, tasks)
  }

  ghost function VerdictOf(node: Node, task: Task): Verdict
    requires Bounded(task, node.instance, node.schema, node.root)
  {
    RunTask(node.search, node.root, node.instance, node.schema, node.active, task)
  }

  lemma {:induction false} RunAppend(node: Node, a: seq<Task>, b: seq<Task>)
    requires Ready(node, a + b)
    ensures Ready(node, a) && Ready(node, b)
    ensures Verdicts(node, a + b) == Then(Verdicts(node, a), Verdicts(node, b))
    decreases |a|
  {
    hide Bounded, RunTask;
    assert forall i :: 0 <= i < |a| ==> a[i] == (a + b)[i];
    assert forall i :: 0 <= i < |b| ==> b[i] == (a + b)[|a| + i];
    if a == [] {
      assert a + b == b;
      ThenUnit(Verdicts(node, b));
    } else {
      assert (a + b)[1..] == a[1..] + b;
      RunAppend(node, a[1..], b);
      ThenAssociative(VerdictOf(node, a[0]), Verdicts(node, a[1..]), Verdicts(node, b));
    }
  }

  lemma RunOne(node: Node, task: Task)
    requires Ready(node, [task])
    ensures Bounded(task, node.instance, node.schema, node.root)
    ensures Verdicts(node, [task]) == VerdictOf(node, task)
  {
    hide Bounded, RunTask;
    assert [task][0] == task && [task][1..] == [];
    assert Verdicts(node, []) == Fine;
    ThenUnit(VerdictOf(node, task));
  }

  /** One task more of a list. */
  lemma RunNext(node: Node, tasks: seq<Task>, i: nat)
    requires i < |tasks| && Ready(node, tasks)
    ensures Ready(node, tasks[..i]) && Ready(node, tasks[..i + 1]) && Bounded(tasks[i], node.instance, node.schema, node.root)
    ensures Verdicts(node, tasks[..i + 1]) == Then(Verdicts(node, tasks[..i]), VerdictOf(node, tasks[i]))
    ensures Verdicts(node, tasks[..i + 1]).Err? ==> Verdicts(node, tasks) == Verdicts(node, tasks[..i + 1])
  {
    hide Bounded, RunTask, RunTasks;
    assert tasks[..i + 1] == tasks[..i] + [tasks[i]];
    assert tasks == tasks[..i + 1] + tasks[i + 1..];
    RunAppend(node, tasks[..i + 1], tasks[i + 1..]);
    RunAppend(node, tasks[..i], [tasks[i]]);
    RunOne(node, tasks[i]);
  }

  // ----- references ----------------------------------------------------------------------------

  /** `_resolve_ref`. */
  method Resolve(reference: string, root: Json) returns (r: Option<Json>)
    ensures r == ResolveRef(reference, root)
  {
    hide Follow, SplitOn;
    if !("#/" <= reference) {
      return None;
    }
    var node := FollowTokens(root, SplitOn(reference[2..], '/'));
    r := if node.Some? && node.value.Obj? then node else None;
  }

  method FollowTokens(root: Json, tokens: seq<string>) returns (r: Option<Json>)
    ensures r == Follow(root, tokens)
  {
    hide Unescape, Get;
    var node := root;
    var i := 0;
    while i < |tokens|
      invariant 0 <= i <= |tokens|
      invariant Follow(root, tokens) == Follow(node, tokens[i..])
    {
      var token := Unescape(Unescape(tokens[i], '1', '/'), '0', '~');
      if !node.Obj? || Get(node.fields, token).None? {
        return None;
      }
      node := Get(node.fields, token).value;
      i := i + 1;
    }
    assert tokens[i..] == [];
    r := Some(node);
  }

  // ----- appending the verdicts of tasks ----------------------------------------------------

  /** Running the tasks turned one list into the other. */
  ghost predicate Ran(node: Node, tasks: seq<Task>, before: seq<Violation>, after: seq<Violation>, at: seq<Step>, fault: Option<Fault>) {
    Ready(node, tasks) && Extended(before, after, at, Verdicts(node, tasks), fault)
  }

  lemma RanNothing(node: Node, items: seq<Violation>, at: seq<Step>)
    ensures Ran(node, [], items, items, at, None)
  {
    ExtendNothing(items, at);
  }

  lemma RanOne(node: Node, task: Task, before: seq<Violation>, after: seq<Violation>, at: seq<Step>, fault: Option<Fault>)
    requires Bounded(task, node.instance, node.schema, node.root)
    requires Extended(before, after, at, VerdictOf(node, task), fault)
    ensures Ran(node, [task], before, after, at, fault)
  {
    hide Bounded, RunTask, Extended;
    RunOne(node, task);
  }

  lemma RanThen(node: Node, a: seq<Task>, b: seq<Task>, before: seq<Violation>, mid: seq<Violation>, after: seq<Violation>, at: seq<Step>,
                fault: Option<Fault>)
    requires Ready(node, a + b) && Ran(node, a, before, mid, at, None) && Ran(node, b, mid, after, at, fault)
    ensures Ran(node, a + b, before, after, at, fault)
  {
    hide Extended, Verdicts;
    RunAppend(node, a, b);
    ExtendThen(before, mid, after, at, Verdicts(node, a), Verdicts(node, b), fault);
  }

  /** After a fault the remaining tasks do not run. */
  lemma RanStop(node: Node, done: seq<Task>, tasks: seq<Task>, before: seq<Violation>, after: seq<Violation>, at: seq<Step>, fault: Fault)
    requires Ready(node, tasks) && done <= tasks && Ran(node, done, before, after, at, Some(fault))
    ensures Ran(node, tasks, before, after, at, Some(fault))
  {
    hide Extended, Verdicts;
    assert tasks == done + tasks[|done|..];
    RunAppend(node, done, tasks[|done|..]);
    ExtendFault(before, after, at, Verdicts(node, done), Verdicts(node, tasks[|done|..]), fault);
  }

  lemma ReadyPrefix(node: Node, done: seq<Task>, tasks: seq<Task>)
    requires Ready(node, tasks) && done <= tasks
    ensures Ready(node, done)
  {
    hide Bounded;
    assert forall i :: 0 <= i < |done| ==> done[i] == tasks[i];
  }

  lemma ReadyParts(node: Node, fields: seq<Field>)
    requires node.schema == Obj(fields) && Ready(node, Tasks(node.search, node.instance, fields))
    ensures Ready(node, RefTasks(fields)) && Ready(node, ValueTasks(node.instance, fields))
    ensures Ready(node, ShapeTasks(node.search, node.instance, fields)) && Ready(node, AllOfTasks(fields)) && Ready(node, IfTasks(fields))
  {
    hide Bounded, RefTasks, ValueTasks, ShapeTasks, AllOfTasks, IfTasks, RunTasks;
    var a, b, s, all := RefTasks(fields), ValueTasks(node.instance, fields), ShapeTasks(node.search, node.instance, fields), AllOfTasks(fields);
    RunAppend(node, a + b + s + all, IfTasks(fields));
    RunAppend(node, a + b + s, all);
    RunAppend(node, a + b, s);
    RunAppend(node, a, b);
  }

  /** A verdict of the node's own keywords, appended violation by violation. */
  method Report(verdict: Verdict, at: seq<Step>, errors: ErrorList) returns (fault: Option<Fault>)
    modifies errors
    ensures Extended(old(errors.items), errors.items, at, verdict, fault)
  {
    if verdict.Err? {
      return Some(verdict.error);
    }
    var violations := verdict.value;
    var i := 0;
    while i < |violations|
      invariant 0 <= i <= |violations|
      invariant errors.items == old(errors.items) + Prefixed(at, violations)[..i]
    {
      errors.Append(Violation(at + violations[i].at, violations[i].reason));
      i := i + 1;
    }
    assert Prefixed(at, violations)[..i] == Prefixed(at, violations);
    fault := None;
  }

  method ReportTask(node: Node, verdict: Verdict, at: seq<Step>, errors: ErrorList) returns (fault: Option<Fault>)
    requires verdict != Err(Cycle)
    modifies errors
    ensures Ran(node, [Local(verdict)], old(errors.items), errors.items, at, fault)
  {
    hide Extended;
    fault := Report(verdict, at, errors);
    RanOne(node, Local(verdict), old(errors.items), errors.items, at, fault);
  }

  // ----- one node -----------------------------------------------------------------------------------

  /** `_validate`. */
  method ValidateNode(node: Node, at: seq<Step>, errors: ErrorList) returns (fault: Option<Fault>)
    requires Strings(node.schema) <= Strings(node.root)
    modifies errors
    ensures Extended(old(errors.items), errors.items, at,
                     Validate(node.search, node.root, node.instance, node.schema, node.active), fault)
    decreases node.instance, Strings(node.root) - node.active, node.schema, 2
  {
    if !node.schema.Obj? {
      return Some(Malformed);
    }
    if !Supported(node.schema.fields) {
      return Some(Unsupported);
    }
    TasksBounded(node.search, node.instance, node.schema.fields, node.root);
    fault := CheckNode(node, node.schema.fields, at, errors);
  }

  method CheckNode(node: Node, fields: seq<Field>, at: seq<Step>, errors: ErrorList) returns (fault: Option<Fault>)
    requires node.schema == Obj(fields) && Strings(node.schema) <= Strings(node.root)
    requires Ready(node, Tasks(node.search, node.instance, fields))
    modifies errors
    ensures Ran(node, Tasks(node.search, node.instance, fields), old(errors.items), errors.items, at, fault)
    decreases node.instance, Strings(node.root) - node.active, node.schema, 1, 1
  {
    hide Strings, Ready, Ran, RefTasks, ValueTasks, ShapeTasks, AllOfTasks, IfTasks;
    ghost var tasks := Tasks(node.search, node.instance, fields);
    ReadyParts(node, fields);
    ghost var start := errors.items;
    ghost var done := RefTasks(fields);
    fault := ExpandReference(node, fields, at, errors);
    if fault.Some? {
      RanStop(node, done, tasks, start, errors.items, at, fault.value);
      return;
    }
    ghost var mid := errors.items;
    ReadyPrefix(node, done + ValueTasks(node.instance, fields), tasks);
    fault := CheckValue(node, fields, at, errors);
    RanThen(node, done, ValueTasks(node.instance, fields), start, mid, errors.items, at, fault);
    done := done + ValueTasks(node.instance, fields);
    if fault.Some? {
      RanStop(node, done, tasks, start, errors.items, at, fault.value);
      return;
    }
    mid := errors.items;
    ReadyPrefix(node, done + ShapeTasks(node.search, node.instance, fields), tasks);
    fault := CheckShape(node, fields, at, errors);
    RanThen(node, done, ShapeTasks(node.search, node.instance, fields), start, mid, errors.items, at, fault);
    done := done + ShapeTasks(node.search, node.instance, fields);
    if fault.Some? {
      RanStop(node, done, tasks, start, errors.items, at, fault.value);
      return;
    }
    mid := errors.items;
    ReadyPrefix(node, done + AllOfTasks(fields), tasks);
    fault := CheckAllOf(node, fields, at, errors);
    RanThen(node, done, AllOfTasks(fields), start, mid, errors.items, at, fault);
    done := done + AllOfTasks(fields);
    if fault.Some? {
      RanStop(node, done, tasks, start, errors.items, at, fault.value);
      return;
    }
    mid := errors.items;
    fault := CheckConditional(node, fields, at, errors);
    RanThen(node, done, IfTasks(fields), start, mid, errors.items, at, fault);
  }

  method ExpandReference(node: Node, fields: seq<Field>, at: seq<Step>, errors: ErrorList) returns (fault: Option<Fault>)
    requires node.schema == Obj(fields) && Ready(node, RefTasks(fields))
    modifies errors
    ensures Ran(node, RefTasks(fields), old(errors.items), errors.items, at, fault)
    decreases node.instance, Strings(node.root) - node.active, node.schema, 1, 0
  {
    hide Strings, Extended, Ran;
    var reference := Get(fields, "$ref");
    if reference.None? {
      RanNothing(node, errors.items, at);
      return None;
    }
    if !reference.value.Str? {
      fault := ReportTask(node, Err(Malformed), at, errors);
      return;
    }
    var name := reference.value.s;
    assert Bounded(RefTasks(fields)[0], node.instance, node.schema, node.root);
    if name in node.active {
      fault := Report(Err(Cycle), at, errors);
    } else {
      var resolved := Resolve(name, node.root);
      if resolved.None? {
        fault := Report(Err(BadRef), at, errors);
      } else {
        ResolveBound(name, node.root);
        fault := ValidateNode(node.(schema := resolved.value, active := node.active + {name}), at, errors);
      }
    }
    RanOne(node, Expand(name), old(errors.items), errors.items, at, fault);
  }

  method CheckValue(node: Node, fields: seq<Field>, at: seq<Step>, errors: ErrorList) returns (fault: Option<Fault>)
    requires Ready(node, ValueTasks(node.instance, fields))
    modifies errors
    ensures Ran(node, ValueTasks(node.instance, fields), old(errors.items), errors.items, at, fault)
  {
    var verdicts :=
      [TypeVerdict(node.instance, fields), EnumVerdict(node.instance, fields), ConstVerdict(node.instance, fields), RangeVerdict(node.instance, fields)];
    fault := ReportAll(node, verdicts, at, errors);
    assert Locals(verdicts) == ValueTasks(node.instance, fields);
  }

  function Locals(verdicts: seq<Verdict>): seq<Task> {
    seq(|verdicts|, i requires 0 <= i < |verdicts| => Local(verdicts[i]))
  }

  /** Several checks of the node's own, up to the first fault. */
  method ReportAll(node: Node, verdicts: seq<Verdict>, at: seq<Step>, errors: ErrorList) returns (fault: Option<Fault>)
    requires forall i :: 0 <= i < |verdicts| ==> verdicts[i] != Err(Cycle)
    modifies errors
    ensures Ran(node, Locals(verdicts), old(errors.items), errors.items, at, fault)
  {
    ghost var tasks := Locals(verdicts);
    assert Ready(node, tasks);
    hide Ran, Extended, Ready;
    RanNothing(node, errors.items, at);
    var i := 0;
    while i < |verdicts|
      invariant 0 <= i <= |verdicts|
      invariant Ran(node, tasks[..i], old(errors.items), errors.items, at, None)
    {
      ghost var mid := errors.items;
      fault := ReportTask(node, verdicts[i], at, errors);
      assert tasks[..i + 1] == tasks[..i] + [Local(verdicts[i])];
      ReadyPrefix(node, tasks[..i + 1], tasks);
      RanThen(node, tasks[..i], [Local(verdicts[i])], old(errors.items), mid, errors.items, at, fault);
      if fault.Some? {
        RanStop(node, tasks[..i + 1], tasks, old(errors.items), errors.items, at, fault.value);
        return;
      }
      i := i + 1;
    }
    assert tasks[..i] == tasks;
    fault := None;
  }

  method CheckShape(node: Node, fields: seq<Field>, at: seq<Step>, errors: ErrorList) returns (fault: Option<Fault>)
    requires node.schema == Obj(fields) && Strings(node.schema) <= Strings(node.root)
    requires Ready(node, ShapeTasks(node.search, node.instance, fields))
    modifies errors
    ensures Ran(node, ShapeTasks(node.search, node.instance, fields), old(errors.items), errors.items, at, fault)
    decreases node.instance, Strings(node.root) - node.active, node.schema, 1, 0
  {
    hide Strings, Ran, ArrayTasks, ObjectTasks, StringVerdict, TypeVerdict, Ready;
    if TypeVerdict(node.instance, fields) != Fine {
      RanNothing(node, errors.items, at);
      return None;
    }
    if node.instance.Arr? {
      fault := CheckArray(node, node.instance.elements, fields, at, errors);
    } else if node.instance.Str? {
      fault := ReportTask(node, StringVerdict(node.search, node.instance.s, fields), at, errors);
    } else if node.instance.Obj? {
      fault := CheckObject(node, node.instance.fields, fields, at, errors);
    } else {
      RanNothing(node, errors.items, at);
      fault := None;
    }
  }

  method CheckArray(node: Node, elements: seq<Json>, fields: seq<Field>, at: seq<Step>, errors: ErrorList) returns (fault: Option<Fault>)
    requires node.instance == Arr(elements) && node.schema == Obj(fields) && Strings(node.schema) <= Strings(node.root)
    requires Ready(node, ArrayTasks(elements, fields))
    modifies errors
    ensures Ran(node, ArrayTasks(elements, fields), old(errors.items), errors.items, at, fault)
    decreases node.instance, Strings(node.root) - node.active, node.schema, 0, 1
  {
    hide Strings, Ran, Ready, BoundVerdict, ElementTasks, Extended;
    ghost var tasks := ArrayTasks(elements, fields);
    var size := BoundVerdict(|elements| as real, fields, "minItems", false, TooFewItems);
    fault := ReportTask(node, size, at, errors);
    assert tasks[..1] == [Local(size)];
    if fault.Some? {
      RanStop(node, [Local(size)], tasks, old(errors.items), errors.items, at, fault.value);
      return;
    }
    var items := Get(fields, "items");
    if items.None? {
      assert tasks == [Local(size)];
      return;
    }
    ghost var mid := errors.items;
    MemberBound(fields, "items");
    RestReady(node, [Local(size)], ElementTasks(elements, items.value));
    fault := CheckElements(node, elements, items.value, at, errors);
    RanThen(node, [Local(size)], ElementTasks(elements, items.value), old(errors.items), mid, errors.items, at, fault);
  }

  lemma RestReady(node: Node, a: seq<Task>, b: seq<Task>)
    requires Ready(node, a + b)
    ensures Ready(node, a) && Ready(node, b)
  {
    hide RunTasks;
    RunAppend(node, a, b);
  }

  /** One child's turn in a loop over children; references start afresh below it. */
  method CheckChild(node: Node, child: Json, part: Json, step: Step, at: seq<Step>, errors: ErrorList,
                    ghost tasks: seq<Task>, ghost i: nat, ghost before: seq<Violation>)
      returns (fault: Option<Fault>)
    requires i < |tasks| && tasks[i] == Child(child, part, [step]) && Ready(node, tasks)
    requires child < node.instance && Strings(part) <= Strings(node.root)
    requires Ran(node, tasks[..i], before, errors.items, at, None)
    modifies errors
    ensures Ran(node, tasks[..i + 1], before, errors.items, at, fault)
    ensures fault.Some? ==> Ran(node, tasks, before, errors.items, at, fault)
    decreases node.instance, Strings(node.root) - node.active, node.schema, 0, 0, 0
  {
    hide Strings, Ran, Ready, Extended, Validate;
    ghost var mid := errors.items;
    fault := ValidateNode(Node(node.search, node.root, child, part, {}), at + [step], errors);
    ChildRan(node, tasks, i, before, mid, errors.items, at, fault);
    if fault.Some? {
      RanStop(node, tasks[..i + 1], tasks, before, errors.items, at, fault.value);
    }
  }

  /** Every element against `items`. */
  method CheckElements(node: Node, elements: seq<Json>, part: Json, at: seq<Step>, errors: ErrorList) returns (fault: Option<Fault>)
    requires node.instance == Arr(elements) && Strings(part) <= Strings(node.root)
    requires Ready(node, ElementTasks(elements, part))
    modifies errors
    ensures Ran(node, ElementTasks(elements, part), old(errors.items), errors.items, at, fault)
    decreases node.instance, Strings(node.root) - node.active, node.schema, 0, 0
  {
    hide Strings, Ran, Ready, Extended;
    ghost var tasks := ElementTasks(elements, part);
    RanNothing(node, errors.items, at);
    var i := 0;
    while i < |elements|
      invariant 0 <= i <= |elements|
      invariant Ran(node, tasks[..i], old(errors.items), errors.items, at, None)
    {
      ElementBound(elements, i);
      fault := CheckChild(node, elements[i], part, At(i), at, errors, tasks, i, old(errors.items));
      if fault.Some? {
        return;
      }
      i := i + 1;
    }
    assert tasks[..i] == tasks;
    fault := None;
  }

  /** One child more. */
  lemma ChildRan(node: Node, tasks: seq<Task>, i: nat, before: seq<Violation>, mid: seq<Violation>, after: seq<Violation>, at: seq<Step>,
                 fault: Option<Fault>)
    requires i < |tasks| && tasks[i].Child? && Ready(node, tasks) && Bounded(tasks[i], node.instance, node.schema, node.root)
    requires Ran(node, tasks[..i], before, mid, at, None)
    requires Extended(mid, after, at + tasks[i].at, Validate(node.search, node.root, tasks[i].instance, tasks[i].schema, {}), fault)
    ensures Ran(node, tasks[..i + 1], before, after, at, fault)
  {
    hide Extended, Validate, Below, Verdicts;
    var task := tasks[i];
    ExtendBelow(mid, after, at, task.at, Validate(node.search, node.root, task.instance, task.schema, {}), fault);
    assert tasks[..i + 1] == tasks[..i] + [task];
    ReadyPrefix(node, tasks[..i + 1], tasks);
    RanOne(node, task, mid, after, at, fault);
    RanThen(node, tasks[..i], [task], before, mid, after, at, fault);
  }

  method CheckObject(node: Node, members: seq<Field>, fields: seq<Field>, at: seq<Step>, errors: ErrorList) returns (fault: Option<Fault>)
    requires node.instance == Obj(members) && node.schema == Obj(fields) && Strings(node.schema) <= Strings(node.root)
    requires Ready(node, ObjectTasks(members, fields))
    modifies errors
    ensures Ran(node, ObjectTasks(members, fields), old(errors.items), errors.items, at, fault)
    decreases node.instance, Strings(node.root) - node.active, node.schema, 0, 1
  {
    hide Strings, Ran, Ready, BoundVerdict, RequiredTasks, PropertyTasks, ExtraVerdict, Properties;
    ghost var tasks := ObjectTasks(members, fields);
    var start := errors.items;
    var count := BoundVerdict(|members| as real, fields, "minProperties", false, TooFewProperties);
    ghost var done := [Local(count)];
    fault := ReportTask(node, count, at, errors);
    if fault.Some? {
      RanStop(node, done, tasks, start, errors.items, at, fault.value);
      return;
    }
    ghost var mid := errors.items;
    ReadyPrefix(node, done + RequiredTasks(members, fields), tasks);
    RestReady(node, done, RequiredTasks(members, fields));
    fault := CheckRequired(node, members, fields, at, errors);
    RanThen(node, done, RequiredTasks(members, fields), start, mid, errors.items, at, fault);
    done := done + RequiredTasks(members, fields);
    if fault.Some? {
      RanStop(node, done, tasks, start, errors.items, at, fault.value);
      return;
    }
    mid := errors.items;
    var properties := Properties(fields);
    if properties.None? {
      fault := ReportTask(node, Err(Malformed), at, errors);
      RanThen(node, done, [Local(Err(Malformed))], start, mid, errors.items, at, fault);
      return;
    }
    ghost var children := PropertyTasks(members, properties.value);
    var extra := ExtraVerdict(members, properties.value, fields);
    assert tasks == done + (children + [Local(extra)]) == (done + children) + [Local(extra)];
    ReadyPrefix(node, done + children, tasks);
    RestReady(node, done, children);
    PropertiesAreInside(fields, node.root);
    fault := CheckProperties(node, members, properties.value, at, errors);
    RanThen(node, done, children, start, mid, errors.items, at, fault);
    if fault.Some? {
      RanStop(node, done + children, tasks, start, errors.items, at, fault.value);
      return;
    }
    mid := errors.items;
    fault := ReportTask(node, extra, at, errors);
    RanThen(node, done + children, [Local(extra)], start, mid, errors.items, at, fault);
  }

  method CheckRequired(node: Node, members: seq<Field>, fields: seq<Field>, at: seq<Step>, errors: ErrorList) returns (fault: Option<Fault>)
    requires Ready(node, RequiredTasks(members, fields))
    modifies errors
    ensures Ran(node, RequiredTasks(members, fields), old(errors.items), errors.items, at, fault)
  {
    hide Ran, Ready, PresenceVerdict;
    var required := Get(fields, "required");
    if required.None? {
      RanNothing(node, errors.items, at);
      return None;
    }
    var keys := Iterate(required.value);
    if keys.None? {
      fault := ReportTask(node, Err(Malformed), at, errors);
      return;
    }
    var verdicts := seq(|keys.value|, i requires 0 <= i < |keys.value| => PresenceVerdict(members, keys.value[i]));
    fault := ReportAll(node, verdicts, at, errors);
    assert Locals(verdicts) == RequiredTasks(members, fields);
  }

  /** The members that `properties` describes, in the order it lists them. */
  method CheckProperties(node: Node, members: seq<Field>, properties: seq<Field>, at: seq<Step>, errors: ErrorList) returns (fault: Option<Fault>)
    requires node.instance == Obj(members) && Strings(Obj(properties)) <= Strings(node.root)
    requires Ready(node, PropertyTasks(members, properties))
    modifies errors
    ensures Ran(node, PropertyTasks(members, properties), old(errors.items), errors.items, at, fault)
    decreases node.instance, Strings(node.root) - node.active, node.schema, 0, 0
  {
    hide Strings, Ran, Ready, Extended, PropertyTasks;
    ghost var tasks := PropertyTasks(members, properties);
    RanNothing(node, errors.items, at);
    NoPropertyTasks(members, properties);
    var i := 0;
    while i < |properties|
      invariant 0 <= i <= |properties|
      invariant PropertyTasks(members, properties[..i]) <= tasks
      invariant Ran(node, PropertyTasks(members, properties[..i]), old(errors.items), errors.items, at, None)
    {
      var property := properties[i];
      ghost var done := PropertyTasks(members, properties[..i]);
      NextPropertyTask(members, properties, i);
      var member := Get(members, property.key);
      if member.Some? {
        PropertyInside(properties, i, node.root);
        MemberBound(members, property.key);
        assert tasks[..|done|] == done;
        fault := CheckChild(node, member.value, property.value, Key(property.key), at, errors, tasks, |done|, old(errors.items));
        assert tasks[..|done| + 1] == PropertyTasks(members, properties[..i + 1]);
        if fault.Some? {
          return;
        }
      }
      i := i + 1;
    }
    assert properties[..i] == properties;
    fault := None;
  }

  lemma PropertyInside(properties: seq<Field>, i: nat, root: Json)
    requires i < |properties| && Strings(Obj(properties)) <= Strings(root)
    ensures Strings(properties[i].value) <= Strings(root)
  {
    forall t | t in Strings(properties[i].value) ensures t in Strings(root) {
      assert t in Strings(Obj(properties));
    }
  }

  lemma {:induction false} PropertyTasksAppend(members: seq<Field>, a: seq<Field>, b: seq<Field>)
    ensures PropertyTasks(members, a + b) == PropertyTasks(members, a) + PropertyTasks(members, b)
  {
    if a == [] {
      assert a + b == b;
    } else {
      assert (a + b)[0] == a[0] && (a + b)[1..] == a[1..] + b;
      PropertyTasksAppend(members, a[1..], b);
    }
  }

  lemma NoPropertyTasks(members: seq<Field>, properties: seq<Field>)
    ensures PropertyTasks(members, properties[..0]) == []
  {
  }

  lemma NextPropertyTask(members: seq<Field>, properties: seq<Field>, i: nat)
    requires i < |properties|
    ensures var done := PropertyTasks(members, properties[..i]);
            var next := PropertyTasks(members, properties[..i + 1]);
            var all := PropertyTasks(members, properties);
            && next <= all
            && match Get(members, properties[i].key)
               case None => next == done
               case Some(member) => next == done + [Child(member, properties[i].value, [Key(properties[i].key)])]
  {
    assert properties[..i + 1] == properties[..i] + [properties[i]];
    assert properties == properties[..i + 1] + properties[i + 1..];
    PropertyTasksAppend(members, properties[..i], [properties[i]]);
    PropertyTasksAppend(members, properties[..i + 1], properties[i + 1..]);
    assert [properties[i]][1..] == [];
  }

  /** A conditional: the test is probed on a list of its own. */
  method CheckCondition(node: Node, test: Json, consequence: Option<Json>, below: seq<Step>, at: seq<Step>, errors: ErrorList)
      returns (fault: Option<Fault>)
    requires Bounded(Cond(test, consequence, below), node.instance, node.schema, node.root)
    modifies errors
    ensures Ran(node, [Cond(test, consequence, below)], old(errors.items), errors.items, at, fault)
    decreases node.instance, Strings(node.root) - node.active, node.schema, 0, 0
  {
    hide Strings, Ran, Validate, Prefixed;
    var probe := new ErrorList();
    fault := ValidateNode(node.(schema := test), [], probe);
    ghost var verdict := Validate(node.search, node.root, node.instance, test, node.active);
    ghost var task := Cond(test, consequence, below);
    ProbeEmpty(probe.items, verdict, fault);
    if fault.Some? {
      assert VerdictOf(node, task) == verdict;
    } else if probe.items == [] && consequence.Some? {
      fault := ValidateNode(node.(schema := consequence.value), at + below, errors);
      ExtendBelow(old(errors.items), errors.items, at, below,
                  Validate(node.search, node.root, node.instance, consequence.value, node.active), fault);
    } else {
      ExtendNothing(errors.items, at);
    }
    RanOne(node, task, old(errors.items), errors.items, at, fault);
  }

  lemma ProbeEmpty(items: seq<Violation>, verdict: Verdict, fault: Option<Fault>)
    requires Extended([], items, [], verdict, fault)
    ensures fault.Some? ==> verdict == Err(fault.value)
    ensures fault.None? ==> verdict.Ok? && (items == [] <==> verdict == Fine)
  {
    if verdict.Ok? {
      assert |items| == |verdict.value|;
    }
  }

  method CheckAllOf(node: Node, fields: seq<Field>, at: seq<Step>, errors: ErrorList) returns (fault: Option<Fault>)
    requires node.schema == Obj(fields) && Ready(node, AllOfTasks(fields))
    modifies errors
    ensures Ran(node, AllOfTasks(fields), old(errors.items), errors.items, at, fault)
    decreases node.instance, Strings(node.root) - node.active, node.schema, 1, 0
  {
    hide Strings, Ran, Bounded, BranchTask, Extended, Iterate;
    var list := Get(fields, "allOf");
    if list.None? {
      RanNothing(node, errors.items, at);
      return None;
    }
    var branches := Iterate(list.value);
    if branches.None? {
      fault := ReportTask(node, Err(Malformed), at, errors);
      return;
    }
    ghost var tasks := AllOfTasks(fields);
    RanNothing(node, errors.items, at);
    var i := 0;
    while i < |branches.value|
      invariant 0 <= i <= |branches.value|
      invariant Ran(node, tasks[..i], old(errors.items), errors.items, at, None)
    {
      ghost var mid := errors.items;
      assert tasks[i] == BranchTask(branches.value[i], i);
      fault := CheckBranch(node, branches.value[i], i, at, errors);
      assert tasks[..i + 1] == tasks[..i] + [tasks[i]];
      ReadyPrefix(node, tasks[..i + 1], tasks);
      RanThen(node, tasks[..i], [tasks[i]], old(errors.items), mid, errors.items, at, fault);
      if fault.Some? {
        RanStop(node, tasks[..i + 1], tasks, old(errors.items), errors.items, at, fault.value);
        return;
      }
      i := i + 1;
    }
    assert tasks[..i] == tasks;
    fault := None;
  }

  method CheckBranch(node: Node, branch: Json, index: nat, at: seq<Step>, errors: ErrorList) returns (fault: Option<Fault>)
    requires Bounded(BranchTask(branch, index), node.instance, node.schema, node.root)
    modifies errors
    ensures Ran(node, [BranchTask(branch, index)], old(errors.items), errors.items, at, fault)
    decreases node.instance, Strings(node.root) - node.active, node.schema, 0, 1
  {
    hide Strings, Ran, Extended, Validate;
    if !branch.Obj? {
      fault := ReportTask(node, Err(Malformed), at, errors);
      return;
    }
    if !Supported(branch.fields) {
      fault := ReportTask(node, Err(Unsupported), at, errors);
      return;
    }
    var test := Get(branch.fields, "if");
    if test.Some? {
      if !OnlyConditional(branch.fields) {
        fault := ReportTask(node, Err(Unsupported), at, errors);
        return;
      }
      fault := CheckCondition(node, test.value, Get(branch.fields, "then"), [Key("allOf"), At(index), Key("then")], at, errors);
      return;
    }
    var below := [Key("allOf"), At(index)];
    fault := ValidateNode(node.(schema := branch), at + below, errors);
    ExtendBelow(old(errors.items), errors.items, at, below, Validate(node.search, node.root, node.instance, branch, node.active), fault);
    RanOne(node, Same(branch, below), old(errors.items), errors.items, at, fault);
  }

  method CheckConditional(node: Node, fields: seq<Field>, at: seq<Step>, errors: ErrorList) returns (fault: Option<Fault>)
    requires node.schema == Obj(fields) && Ready(node, IfTasks(fields))
    modifies errors
    ensures Ran(node, IfTasks(fields), old(errors.items), errors.items, at, fault)
    decreases node.instance, Strings(node.root) - node.active, node.schema, 1, 0
  {
    hide Strings, Ran, Bounded;
    var test := Get(fields, "if");
    if test.None? {
      RanNothing(node, errors.items, at);
      return None;
    }
    assert IfTasks(fields)[0] == Cond(test.value, Get(fields, "then"), [Key("then")]);
    fault := CheckCondition(node, test.value, Get(fields, "then"), [Key("then")], at, errors);
  }

  /** `validate_answers`: every violation in order, or the exception. */
  method Answers(search: Search, mapping: Json, schema: Json) returns (r: Verdict)
    ensures r == ValidateAnswers(search, mapping, schema)
  {
    var errors := new ErrorList();
    hide Validate, Extended;
    var fault := ValidateNode(Node(search, schema, mapping, schema, {}), [], errors);
    WholeList(errors.items, ValidateAnswers(search, mapping, schema), fault);
    if fault.Some? {
      return Err(fault.value);
    }
    r := Ok(errors.items);
  }

  /** From an empty list at the root, the list is the verdict. */
  lemma WholeList(items: seq<Violation>, verdict: Verdict, fault: Option<Fault>)
    requires Extended([], items, [], verdict, fault)
    ensures verdict == if fault.Some? then Err(fault.value) else Ok(items)
  {
    if verdict.Ok? {
      assert items == Prefixed([], verdict.value);
      forall i | 0 <= i < |items| ensures items[i] == verdict.value[i] {
        assert [] + verdict.value[i].at == verdict.value[i].at;
      }
      assert items == verdict.value;
    }
  }
}
