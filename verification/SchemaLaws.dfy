/** What the validator means, and when its cycle guard fires. */
module SchemaLaws {
  import opened Results
  import opened Json
  import opened SchemaValidator

  /** The pattern engine and the schema document. */
  datatype Context = Context(search: Search, root: Json)

  function Resolved(c: Context, reference: string): Option<Json> {
    ResolveRef(reference, c.root)
  }

  // ----- the validator without its cycle guard -------------------------------------------

  datatype Run = Done(verdict: Verdict) | OutOfFuel

  /** The same recursion, with no record of the references being expanded: it ends
      for no fuel exactly when the program would recurse for ever. */
  function Unguarded(fuel: nat, c: Context, instance: Json, schema: Json): Run
    decreases fuel, 0, 0
  {
    if fuel == 0 then OutOfFuel
    else if !schema.Obj? then Done(Err(Malformed))
    else if !Supported(schema.fields) then Done(Err(Unsupported))
    else UnguardedTasks(fuel - 1, c, instance, Tasks(c.search, instance, schema.fields))
  }

  function UnguardedTasks(fuel: nat, c: Context, instance: Json, tasks: seq<Task>): Run
    decreases fuel, 2, |tasks|
  {
    if tasks == [] then Done(Fine)
    else
      var first := UnguardedTask(fuel, c, instance, tasks[0]);
      if first.OutOfFuel? || first.verdict.Err? then first
      else
        var rest := UnguardedTasks(fuel, c, instance, tasks[1..]);
        if rest.OutOfFuel? then rest else Done(Then(first.verdict, rest.verdict))
  }

  function UnguardedTask(fuel: nat, c: Context, instance: Json, task: Task): Run
    decreases fuel, 1, 0
  {
    match task
    case Local(verdict) => Done(verdict)
    case Expand(reference) =>
      if Resolved(c, reference).None? then Done(Err(BadRef))
      else Unguarded(fuel, c, instance, Resolved(c, reference).value)
    case Child(child, part, at) => RunBelow(at, Unguarded(fuel, c, child, part))
    case Same(part, at) => RunBelow(at, Unguarded(fuel, c, instance, part))
    case Cond(test, consequence, at) =>
      var probe := Unguarded(fuel, c, instance, test);
      if probe.OutOfFuel? || probe.verdict.Err? then probe
      else if probe.verdict.value != [] || consequence.None? then Done(Fine)
      else RunBelow(at, Unguarded(fuel, c, instance, consequence.value))
  }

  function RunBelow(at: seq<Step>, run: Run): Run {
    if run.OutOfFuel? then run else Done(Below(at, run.verdict))
  }

  // ----- more fuel never changes a finished run ------------------------------------------------

  lemma {:induction false} MoreFuel(n: nat, m: nat, c: Context, instance: Json, schema: Json)
    requires n <= m && Unguarded(n, c, instance, schema).Done?
    ensures Unguarded(m, c, instance, schema) == Unguarded(n, c, instance, schema)
    decreases n, 0, 0
  {
    hide Tasks, Supported;
    if schema.Obj? && Supported(schema.fields) {
      MoreFuelTasks(n - 1, m - 1, c, instance, Tasks(c.search, instance, schema.fields));
    }
  }

  lemma {:induction false} MoreFuelTasks(n: nat, m: nat, c: Context, instance: Json, tasks: seq<Task>)
    requires n <= m && UnguardedTasks(n, c, instance, tasks).Done?
    ensures UnguardedTasks(m, c, instance, tasks) == UnguardedTasks(n, c, instance, tasks)
    decreases n, 2, |tasks|
  {
    if tasks != [] {
      MoreFuelTask(n, m, c, instance, tasks[0]);
      if UnguardedTask(n, c, instance, tasks[0]).verdict.Ok? {
        MoreFuelTasks(n, m, c, instance, tasks[1..]);
      }
    }
  }

  lemma {:induction false} MoreFuelTask(n: nat, m: nat, c: Context, instance: Json, task: Task)
    requires n <= m && UnguardedTask(n, c, instance, task).Done?
    ensures UnguardedTask(m, c, instance, task) == UnguardedTask(n, c, instance, task)
    decreases n, 1, 0
  {
    hide Unguarded, Below, ResolveRef;
    match task {
      case Local(_) =>
      case Expand(reference) =>
        if Resolved(c, reference).Some? {
          MoreFuel(n, m, c, instance, Resolved(c, reference).value);
        }
      case Child(child, part, _) => MoreFuel(n, m, c, child, part);
      case Same(part, _) => MoreFuel(n, m, c, instance, part);
      case Cond(test, consequence, _) =>
        MoreFuel(n, m, c, instance, test);
        if Unguarded(n, c, instance, test).verdict == Fine && consequence.Some? {
          MoreFuel(n, m, c, instance, consequence.value);
        }
    }
  }

  // ----- the guard is exact ----------------------------------------------------------------------

  /** From `floor` on, the unguarded run gives this verdict. */
  ghost predicate Settles(c: Context, instance: Json, schema: Json, floor: nat, verdict: Verdict) {
    forall n: nat :: n >= floor ==> Unguarded(n, c, instance, schema) == Done(verdict)
  }

  ghost predicate Diverges(c: Context, instance: Json, schema: Json) {
    forall n: nat :: Unguarded(n, c, instance, schema).OutOfFuel?
  }

  ghost predicate TasksSettle(c: Context, instance: Json, tasks: seq<Task>, floor: nat, verdict: Verdict) {
    forall n: nat :: n >= floor ==> UnguardedTasks(n, c, instance, tasks) == Done(verdict)
  }

  ghost predicate TasksDiverge(c: Context, instance: Json, tasks: seq<Task>) {
    forall n: nat :: UnguardedTasks(n, c, instance, tasks).OutOfFuel?
  }

  ghost predicate TaskSettles(c: Context, instance: Json, task: Task, floor: nat, verdict: Verdict) {
    forall n: nat :: n >= floor ==> UnguardedTask(n, c, instance, task) == Done(verdict)
  }

  ghost predicate TaskDiverges(c: Context, instance: Json, task: Task) {
    forall n: nat :: UnguardedTask(n, c, instance, task).OutOfFuel?
  }

  /** Every reference being expanded waits for the node at hand: it ends with some
      fuel only if that node ends with no more. */
  ghost predicate Waits(c: Context, instance: Json, schema: Json, active: set<string>) {
    forall r :: r in active ==> Resolved(c, r).Some? && WaitsFor(c, instance, Resolved(c, r).value, schema)
  }

  ghost predicate WaitsFor(c: Context, instance: Json, node: Json, schema: Json) {
    forall n: nat :: Unguarded(n, c, instance, node).Done? ==> exists m: nat :: m <= n && Unguarded(m, c, instance, schema).Done?
  }

  ghost predicate WaitTasks(c: Context, instance: Json, tasks: seq<Task>, active: set<string>) {
    forall r, n: nat :: r in active && Resolved(c, r).Some? && Unguarded(n, c, instance, Resolved(c, r).value).Done? ==>
      exists m: nat :: m < n && UnguardedTasks(m, c, instance, tasks).Done?
  }

  ghost predicate WaitTask(c: Context, instance: Json, task: Task, active: set<string>) {
    forall r, n: nat :: r in active && Resolved(c, r).Some? && Unguarded(n, c, instance, Resolved(c, r).value).Done? ==>
      exists m: nat :: m < n && UnguardedTask(m, c, instance, task).Done?
  }

  ghost predicate AllResolve(c: Context, active: set<string>) {
    forall r :: r in active ==> Resolved(c, r).Some?
  }

  lemma SettledMeans(c: Context, instance: Json, schema: Json, floor: nat, verdict: Verdict, n: nat)
    requires Settles(c, instance, schema, floor, verdict) && Unguarded(n, c, instance, schema).Done?
    ensures Unguarded(n, c, instance, schema) == Done(verdict)
  {
    hide Unguarded;
    var m := if n > floor then n else floor;
    MoreFuel(n, m, c, instance, schema);
  }

  lemma TaskSettledMeans(c: Context, instance: Json, task: Task, floor: nat, verdict: Verdict, n: nat)
    requires TaskSettles(c, instance, task, floor, verdict) && UnguardedTask(n, c, instance, task).Done?
    ensures UnguardedTask(n, c, instance, task) == Done(verdict)
  {
    hide UnguardedTask;
    var m := if n > floor then n else floor;
    MoreFuelTask(n, m, c, instance, task);
  }

  /** A reference met again while it is being expanded never ends: an ending run of
      it would contain a shorter ending run of it. */
  lemma {:induction false} NoDescent(c: Context, instance: Json, reference: string, active: set<string>, n: nat)
    requires reference in active && Resolved(c, reference).Some?
    requires WaitTask(c, instance, Expand(reference), active)
    ensures Unguarded(n, c, instance, Resolved(c, reference).value).OutOfFuel?
    decreases n
  {
    hide Unguarded;
    if Unguarded(n, c, instance, Resolved(c, reference).value).Done? {
      var m: nat :| m < n && UnguardedTask(m, c, instance, Expand(reference)).Done?;
      NoDescent(c, instance, reference, active, m);
    }
  }

  lemma {:induction false} ExactNode(c: Context, instance: Json, schema: Json, active: set<string>) returns (floor: nat)
    requires Strings(schema) <= Strings(c.root) && Waits(c, instance, schema, active)
    ensures var verdict := Validate(c.search, c.root, instance, schema, active);
            if verdict == Err(Cycle) then Diverges(c, instance, schema) else Settles(c, instance, schema, floor, verdict)
    decreases instance, Strings(c.root) - active, schema, 2, 0
  {
    hide Tasks, Supported, Strings, RunTasks, UnguardedTasks;
    floor := 1;
    if schema.Obj? && Supported(schema.fields) {
      var tasks := Tasks(c.search, instance, schema.fields);
      TasksBounded(c.search, instance, schema.fields, c.root);
      NodeWaits(c, instance, schema, active);
      var inner := ExactTasks(c, instance, schema, active, tasks);
      floor := inner + 1;
      var verdict := RunTasks(c.search, c.root, instance, schema, active, tasks);
      if verdict == Err(Cycle) {
        forall n: nat ensures Unguarded(n, c, instance, schema).OutOfFuel? {
        }
      } else {
        forall n: nat | n >= floor ensures Unguarded(n, c, instance, schema) == Done(verdict) {
        }
      }
    }
  }

  lemma NodeWaits(c: Context, instance: Json, schema: Json, active: set<string>)
    requires schema.Obj? && Supported(schema.fields) && Waits(c, instance, schema, active)
    ensures WaitTasks(c, instance, Tasks(c.search, instance, schema.fields), active) && AllResolve(c, active)
  {
    hide Tasks, Supported, UnguardedTasks;
    var tasks := Tasks(c.search, instance, schema.fields);
    forall r, n: nat | r in active && Resolved(c, r).Some? && Unguarded(n, c, instance, Resolved(c, r).value).Done?
      ensures exists m: nat :: m < n && UnguardedTasks(m, c, instance, tasks).Done?
    {
      assert WaitsFor(c, instance, Resolved(c, r).value, schema);
      var m: nat :| m <= n && Unguarded(m, c, instance, schema).Done?;
      assert UnguardedTasks(m - 1, c, instance, tasks).Done?;
    }
  }

  lemma {:induction false} ExactTasks(c: Context, instance: Json, schema: Json, active: set<string>, tasks: seq<Task>) returns (floor: nat)
    requires AllBounded(tasks, instance, schema, c.root) && WaitTasks(c, instance, tasks, active) && AllResolve(c, active)
    ensures var verdict := RunTasks(c.search, c.root, instance, schema, active, tasks);
            if verdict == Err(Cycle) then TasksDiverge(c, instance, tasks) else TasksSettle(c, instance, tasks, floor, verdict)
    decreases instance, Strings(c.root) - active, schema, 1, |tasks|
  {
    hide Strings, RunTask, UnguardedTask, Bounded;
    floor := 0;
    if tasks != [] {
      FirstWaits(c, instance, tasks, active);
      var first := ExactTask(c, instance, schema, active, tasks[0]);
      var verdict := RunTask(c.search, c.root, instance, schema, active, tasks[0]);
      floor := first;
      if verdict.Err? {
        FirstStops(c, instance, tasks, first, verdict);
      } else {
        RestWaits(c, instance, tasks, active, first, verdict);
        var rest := ExactTasks(c, instance, schema, active, tasks[1..]);
        floor := if first > rest then first else rest;
        RestExact(c, instance, schema, active, tasks, first, floor);
      }
    }
  }

  lemma FirstStops(c: Context, instance: Json, tasks: seq<Task>, first: nat, verdict: Verdict)
    requires tasks != [] && verdict.Err?
    requires if verdict == Err(Cycle) then TaskDiverges(c, instance, tasks[0]) else TaskSettles(c, instance, tasks[0], first, verdict)
    ensures if verdict == Err(Cycle) then TasksDiverge(c, instance, tasks) else TasksSettle(c, instance, tasks, first, verdict)
  {
    hide UnguardedTask;
    if verdict == Err(Cycle) {
      forall n: nat ensures UnguardedTasks(n, c, instance, tasks).OutOfFuel? {
        assert UnguardedTask(n, c, instance, tasks[0]).OutOfFuel?;
      }
    } else {
      forall n: nat | n >= first ensures UnguardedTasks(n, c, instance, tasks) == Done(verdict) {
        assert UnguardedTask(n, c, instance, tasks[0]).Done?;
      }
    }
  }

  lemma RestExact(c: Context, instance: Json, schema: Json, active: set<string>, tasks: seq<Task>, first: nat, floor: nat)
    requires AllBounded(tasks, instance, schema, c.root) && tasks != [] && first <= floor
    requires RunTask(c.search, c.root, instance, schema, active, tasks[0]).Ok?
    requires TaskSettles(c, instance, tasks[0], first, RunTask(c.search, c.root, instance, schema, active, tasks[0]))
    requires var rest := RunTasks(c.search, c.root, instance, schema, active, tasks[1..]);
             if rest == Err(Cycle) then TasksDiverge(c, instance, tasks[1..]) else TasksSettle(c, instance, tasks[1..], floor, rest)
    ensures var verdict := RunTasks(c.search, c.root, instance, schema, active, tasks);
            if verdict == Err(Cycle) then TasksDiverge(c, instance, tasks) else TasksSettle(c, instance, tasks, floor, verdict)
  {
    hide Strings, RunTask, UnguardedTask, Bounded;
    var verdict := RunTasks(c.search, c.root, instance, schema, active, tasks);
    if verdict == Err(Cycle) {
      forall n: nat ensures UnguardedTasks(n, c, instance, tasks).OutOfFuel? {
        assert UnguardedTasks(n, c, instance, tasks[1..]).OutOfFuel?;
        if UnguardedTask(n, c, instance, tasks[0]).Done? {
          TaskSettledMeans(c, instance, tasks[0], first, RunTask(c.search, c.root, instance, schema, active, tasks[0]), n);
        }
      }
    } else {
      forall n: nat | n >= floor ensures UnguardedTasks(n, c, instance, tasks) == Done(verdict) {
        assert UnguardedTask(n, c, instance, tasks[0]).Done?;
      }
    }
  }

  lemma FirstWaits(c: Context, instance: Json, tasks: seq<Task>, active: set<string>)
    requires tasks != [] && WaitTasks(c, instance, tasks, active)
    ensures WaitTask(c, instance, tasks[0], active)
  {
    hide UnguardedTask, Unguarded;
    forall r, n: nat | r in active && Resolved(c, r).Some? && Unguarded(n, c, instance, Resolved(c, r).value).Done?
      ensures exists m: nat :: m < n && UnguardedTask(m, c, instance, tasks[0]).Done?
    {
      var m: nat :| m < n && UnguardedTasks(m, c, instance, tasks).Done?;
      assert UnguardedTask(m, c, instance, tasks[0]).Done?;
    }
  }

  lemma RestWaits(c: Context, instance: Json, tasks: seq<Task>, active: set<string>, floor: nat, verdict: Verdict)
    requires tasks != [] && WaitTasks(c, instance, tasks, active)
    requires verdict.Ok? && TaskSettles(c, instance, tasks[0], floor, verdict)
    ensures WaitTasks(c, instance, tasks[1..], active)
  {
    hide UnguardedTask, Unguarded;
    forall r, n: nat | r in active && Resolved(c, r).Some? && Unguarded(n, c, instance, Resolved(c, r).value).Done?
      ensures exists m: nat :: m < n && UnguardedTasks(m, c, instance, tasks[1..]).Done?
    {
      var m: nat :| m < n && UnguardedTasks(m, c, instance, tasks).Done?;
      TaskSettledMeans(c, instance, tasks[0], floor, verdict, m);
      assert UnguardedTasks(m, c, instance, tasks[1..]).Done?;
    }
  }

  lemma {:induction false} ExactTask(c: Context, instance: Json, schema: Json, active: set<string>, task: Task) returns (floor: nat)
    requires Bounded(task, instance, schema, c.root) && WaitTask(c, instance, task, active) && AllResolve(c, active)
    ensures var verdict := RunTask(c.search, c.root, instance, schema, active, task);
            if verdict == Err(Cycle) then TaskDiverges(c, instance, task) else TaskSettles(c, instance, task, floor, verdict)
    decreases instance, Strings(c.root) - active, schema, 0, 0
  {
    hide Strings, Unguarded, Validate, Below;
    floor := 0;
    match task {
      case Local(_) =>
      case Expand(reference) =>
        if reference in active {
          forall n: nat ensures UnguardedTask(n, c, instance, task).OutOfFuel? {
            NoDescent(c, instance, reference, active, n);
          }
          assert TaskDiverges(c, instance, task);
        } else if Resolved(c, reference).Some? {
          var node := Resolved(c, reference).value;
          ResolveBound(reference, c.root);
          ExpandWaits(c, instance, reference, active);
          floor := ExactNode(c, instance, node, active + {reference});
          NodeExact(c, instance, task, instance, node, floor, Validate(c.search, c.root, instance, node, active + {reference}));
        }
      case Child(child, part, _) =>
        floor := ExactNode(c, child, part, {});
        NodeExact(c, instance, task, child, part, floor, Validate(c.search, c.root, child, part, {}));
      case Same(part, _) =>
        PartWaits(c, instance, task, part, active);
        floor := ExactNode(c, instance, part, active);
        NodeExact(c, instance, task, instance, part, floor, Validate(c.search, c.root, instance, part, active));
      case Cond(test, consequence, _) =>
        PartWaits(c, instance, task, test, active);
        floor := ExactNode(c, instance, test, active);
        var probe := Validate(c.search, c.root, instance, test, active);
        if probe == Fine && consequence.Some? {
          ConsequenceWaits(c, instance, task, active, floor);
          var then_ := ExactNode(c, instance, consequence.value, active);
          CondExact(c, instance, schema, task, active, floor, then_);
          floor := if floor > then_ then floor else then_;
        } else {
          ProbeExact(c, instance, task, floor, probe);
          assert RunTask(c.search, c.root, instance, schema, active, task) == if probe.Err? then probe else Fine;
        }
    }
  }

  /** A task that runs one node ends exactly when that node does. */
  lemma NodeExact(c: Context, instance: Json, task: Task, inner: Json, part: Json, floor: nat, verdict: Verdict)
    requires match task
             case Expand(reference) => inner == instance && Resolved(c, reference) == Some(part)
             case Child(child, schema, _) => inner == child && part == schema
             case Same(schema, _) => inner == instance && part == schema
             case _ => false
    requires if verdict == Err(Cycle) then Diverges(c, inner, part) else Settles(c, inner, part, floor, verdict)
    ensures var result := if task.Expand? then verdict else Below(task.at, verdict);
            if result == Err(Cycle) then TaskDiverges(c, instance, task) else TaskSettles(c, instance, task, floor, result)
  {
    hide Unguarded, Prefixed;
    if verdict == Err(Cycle) {
      forall n: nat ensures UnguardedTask(n, c, instance, task).OutOfFuel? {
        assert Unguarded(n, c, inner, part).OutOfFuel?;
      }
    } else {
      var result := if task.Expand? then verdict else Below(task.at, verdict);
      forall n: nat | n >= floor ensures UnguardedTask(n, c, instance, task) == Done(result) {
        assert Unguarded(n, c, inner, part) == Done(verdict);
      }
    }
  }

  /** A conditional decided by its test alone. */
  lemma ProbeExact(c: Context, instance: Json, task: Task, floor: nat, probe: Verdict)
    requires task.Cond? && (probe == Fine ==> task.consequence.None?)
    requires if probe == Err(Cycle) then Diverges(c, instance, task.test) else Settles(c, instance, task.test, floor, probe)
    ensures var result := if probe.Err? then probe else Fine;
            if result == Err(Cycle) then TaskDiverges(c, instance, task) else TaskSettles(c, instance, task, floor, result)
  {
    hide Unguarded;
    if probe == Err(Cycle) {
      forall n: nat ensures UnguardedTask(n, c, instance, task).OutOfFuel? {
        assert Unguarded(n, c, instance, task.test).OutOfFuel?;
      }
    } else {
      forall n: nat | n >= floor ensures UnguardedTask(n, c, instance, task) == Done(if probe.Err? then probe else Fine) {
        assert Unguarded(n, c, instance, task.test) == Done(probe);
      }
    }
  }

  lemma CondExact(c: Context, instance: Json, schema: Json, task: Task, active: set<string>, test: nat, consequence: nat)
    requires task.Cond? && task.consequence.Some? && Bounded(task, instance, schema, c.root)
    requires Validate(c.search, c.root, instance, task.test, active) == Fine && Settles(c, instance, task.test, test, Fine)
    requires var verdict := Validate(c.search, c.root, instance, task.consequence.value, active);
             if verdict == Err(Cycle) then Diverges(c, instance, task.consequence.value)
             else Settles(c, instance, task.consequence.value, consequence, verdict)
    ensures var verdict := RunTask(c.search, c.root, instance, schema, active, task);
            if verdict == Err(Cycle) then TaskDiverges(c, instance, task)
            else TaskSettles(c, instance, task, if test > consequence then test else consequence, verdict)
  {
    hide Strings, Unguarded, Validate, Prefixed;
    var part := task.consequence.value;
    var verdict := Validate(c.search, c.root, instance, part, active);
    if verdict == Err(Cycle) {
      forall n: nat ensures UnguardedTask(n, c, instance, task).OutOfFuel? {
        assert Unguarded(n, c, instance, part).OutOfFuel?;
        if Unguarded(n, c, instance, task.test).Done? {
          SettledMeans(c, instance, task.test, test, Fine, n);
        }
      }
    } else {
      var result := Below(task.at, verdict);
      forall n: nat | n >= test && n >= consequence ensures UnguardedTask(n, c, instance, task) == Done(result) {
        assert Unguarded(n, c, instance, task.test) == Done(Fine);
        assert Unguarded(n, c, instance, part) == Done(verdict);
      }
    }
  }

  lemma ExpandWaits(c: Context, instance: Json, reference: string, active: set<string>)
    requires Resolved(c, reference).Some? && AllResolve(c, active)
    requires WaitTask(c, instance, Expand(reference), active)
    ensures Waits(c, instance, Resolved(c, reference).value, active + {reference})
  {
    hide Unguarded;
    var node := Resolved(c, reference).value;
    forall r | r in active + {reference} ensures Resolved(c, r).Some? && WaitsFor(c, instance, Resolved(c, r).value, node) {
      forall n: nat | Unguarded(n, c, instance, Resolved(c, r).value).Done?
        ensures exists m: nat :: m <= n && Unguarded(m, c, instance, node).Done?
      {
        if r == reference {
          assert n <= n && Unguarded(n, c, instance, node).Done?;
        } else {
          var m: nat :| m < n && UnguardedTask(m, c, instance, Expand(reference)).Done?;
          assert Unguarded(m, c, instance, node).Done?;
        }
      }
    }
  }

  lemma PartWaits(c: Context, instance: Json, task: Task, part: Json, active: set<string>)
    requires AllResolve(c, active) && WaitTask(c, instance, task, active)
    requires (task.Same? && part == task.schema) || (task.Cond? && part == task.test)
    ensures Waits(c, instance, part, active)
  {
    hide Unguarded;
    forall r | r in active ensures WaitsFor(c, instance, Resolved(c, r).value, part) {
      forall n: nat | Unguarded(n, c, instance, Resolved(c, r).value).Done?
        ensures exists m: nat :: m <= n && Unguarded(m, c, instance, part).Done?
      {
        var m: nat :| m < n && UnguardedTask(m, c, instance, task).Done?;
        assert Unguarded(m, c, instance, part).Done?;
      }
    }
  }

  lemma ConsequenceWaits(c: Context, instance: Json, task: Task, active: set<string>, floor: nat)
    requires task.Cond? && task.consequence.Some? && AllResolve(c, active) && WaitTask(c, instance, task, active)
    requires Settles(c, instance, task.test, floor, Fine)
    ensures Waits(c, instance, task.consequence.value, active)
  {
    hide Unguarded;
    var part := task.consequence.value;
    forall r | r in active ensures WaitsFor(c, instance, Resolved(c, r).value, part) {
      forall n: nat | Unguarded(n, c, instance, Resolved(c, r).value).Done?
        ensures exists m: nat :: m <= n && Unguarded(m, c, instance, part).Done?
      {
        var m: nat :| m < n && UnguardedTask(m, c, instance, task).Done?;
        SettledMeans(c, instance, task.test, floor, Fine, m);
        assert Unguarded(m, c, instance, part).Done?;
      }
    }
  }

  /** The cycle fault is exact: it is raised exactly when the recursion without the
      guard would never end; in every other case that recursion ends, with the very
      verdict the validator gives. */
  lemma CycleIffEndless(c: Context, mapping: Json)
    ensures var verdict := ValidateAnswers(c.search, mapping, c.root);
            && (verdict == Err(Cycle) <==> Diverges(c, mapping, c.root))
            && (verdict != Err(Cycle) ==> exists floor :: Settles(c, mapping, c.root, floor, verdict))
  {
    hide Validate, Unguarded;
    var floor := ExactNode(c, mapping, c.root, {});
    var verdict := ValidateAnswers(c.search, mapping, c.root);
    if verdict != Err(Cycle) {
      assert Settles(c, mapping, c.root, floor, verdict);
      assert Unguarded(floor, c, mapping, c.root) == Done(verdict);
    }
  }
}
