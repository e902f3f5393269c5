/** The renderer as it runs: bindings are handled one by one over mutable state, the
    plan is written file by file, and both are proved against the two-pass plan. */
module RenderRun {
  import opened Results
  import opened Text
  import opened Json
  import opened JsonPatch
  import opened Ordering
  import opened RenderOps
  import opened RenderPlan
  import opened YamlScalars
  import YamlLens
  import YamlTopLevel
  import SyncPolicy

  // ----- growing the two passes by one binding ---------------------------------------

  lemma {:induction false} WriteAllAppend(env: Env, tree: Tree, texts: map<string, string>, a: seq<Write>, b: seq<Write>)
    requires forall w :: w in a + b ==> ValidOp(w.op)
    ensures WriteAll(env, tree, texts, a).Ok? ==>
              WriteAll(env, tree, texts, a + b) == WriteAll(env, tree, WriteAll(env, tree, texts, a).value, b)
    ensures WriteAll(env, tree, texts, a).Err? ==> WriteAll(env, tree, texts, a + b) == WriteAll(env, tree, texts, a)
    decreases |a|
  {
    hide Apply, ValidOp;
    assert forall w :: w in a ==> w in a + b;
    assert forall w :: w in b ==> w in a + b;
    if a == [] {
      assert a + b == b;
    } else {
      var w := a[0];
      assert (a + b)[0] == w && (a + b)[1..] == a[1..] + b;
      var r := Apply(env.codec, w.op, w.path, Current(tree, texts, w.path));
      if r.Ok? && env.inScope(w.path) {
        assert forall x :: x in a[1..] + b ==> x in a + b;
        WriteAllAppend(env, tree, texts[w.path := r.value], a[1..], b);
      }
    }
  }

  lemma {:induction false} CollectStops(env: Env, config: Json, tree: Tree, bindings: seq<Binding>, n: nat)
    requires n <= |bindings| && Collect(env, config, tree, bindings[..n]).Err?
    ensures Collect(env, config, tree, bindings).Err?
    decreases |bindings|
  {
    hide JobOf;
    if n < |bindings| {
      var before := bindings[..|bindings| - 1];
      assert before[..n] == bindings[..n];
      CollectStops(env, config, tree, before, n);
    } else {
      assert bindings[..n] == bindings;
    }
  }

  /** A binding whose own patches fail on the texts so far fails the whole plan. */
  lemma {:induction false} WritesStop(env: Env, doc: Document, tree: Tree, bindings: seq<Binding>, n: nat)
    requires n <= |bindings| && Collect(env, doc.config, tree, bindings).Ok? && Collect(env, doc.config, tree, bindings[..n]).Ok?
    requires forall w :: w in FlatWrites(Collect(env, doc.config, tree, bindings).value) ==> ValidOp(w.op)
    requires forall w :: w in FlatWrites(Collect(env, doc.config, tree, bindings[..n]).value) ==> ValidOp(w.op)
    requires WriteAll(env, tree, map[], FlatWrites(Collect(env, doc.config, tree, bindings[..n]).value)).Err?
    ensures WriteAll(env, tree, map[], FlatWrites(Collect(env, doc.config, tree, bindings).value)).Err?
    decreases |bindings|
  {
    hide JobOf, ValidOp, WriteAll;
    if n < |bindings| {
      var m := |bindings| - 1;
      var before := bindings[..m];
      assert before[..n] == bindings[..n];
      var jobs := Collect(env, doc.config, tree, bindings).value;
      assert jobs[..m] == Collect(env, doc.config, tree, before).value;
      assert forall w :: w in FlatWrites(jobs[..m]) ==> w in FlatWrites(jobs);
      WritesStop(env, doc, tree, before, n);
      WriteAllAppend(env, tree, map[], FlatWrites(jobs[..m]), jobs[m].action.writes);
    } else {
      assert bindings[..n] == bindings;
    }
  }

  /** The text one patch makes, unless it fails or its path is out of scope. */
  function Patched(env: Env, tree: Tree, texts: map<string, string>, w: Write): Result<string, RenderError>
    requires ValidOp(w.op)
  {
    var text :- Apply(env.codec, w.op, w.path, Current(tree, texts, w.path));
    if env.inScope(w.path) then Ok(text) else Err(OutOfScope(w.path))
  }

  // ----- one binding -----------------------------------------------------------------------

  datatype State = State(texts: map<string, string>, contributions: seq<Contribution>, skipped: seq<Contribution>, recorded: map<string, string>)

  /** What a line patch of a file meets before it looks at its value: the file is missing, or
      cannot be adopted. */
  function Earlier(tree: Tree, texts: map<string, string>, target: string, transform: Transform): Option<RenderError> {
    if transform != TopLevelIsolation && transform != Identity then None
    else
      match Current(tree, texts, target)
      case None => Some(MissingTarget(target))
      case Some(text) =>
        if transform == TopLevelIsolation || YamlLens.Adopted(text).Ok? then None else Some(Patch(YamlLens.Adopted(text).error))
  }

  /** That, for a binding whose value was found. */
  function EarlierOf(config: Json, tree: Tree, texts: map<string, string>, binding: Binding, entry: StrategyEntry): Option<RenderError> {
    if entry.strategy == YamlLinePatch && LeafValue(config, binding.key).Ok? then Earlier(tree, texts, binding.target, entry.transform)
    else None
  }

  /** What handling a binding must have done, given the action it stands for, or the error it
      must have met first. */
  ghost predicate Handled(env: Env, tree: Tree, before: State, after: State, binding: Binding, entry: StrategyEntry,
                          action: Result<Action, RenderError>, earlier: Option<RenderError>, failure: Option<RenderError>)
  {
    match action
    case Err(e) => failure == Some(if earlier.Some? then earlier.value else e)
    case Ok(a) =>
      (forall w :: w in a.writes ==> ValidOp(w.op)) ==>
        match WriteAll(env, tree, before.texts, a.writes)
        case Err(e) => failure == Some(e)
        case Ok(texts) =>
          && failure.None?
          && after.texts == texts
          && after.contributions == before.contributions + Contributed(Job(binding, entry, a), a.writes)
          && after.skipped == before.skipped + (if a.skipped then [SkipOf(Job(binding, entry, a))] else [])
          && after.recorded == a.recorded + before.recorded
  }

  /** One patched file, written back. */
  lemma OneWrite(env: Env, tree: Tree, before: State, after: State, binding: Binding, entry: StrategyEntry,
                 action: Action, earlier: Option<RenderError>, failure: Option<RenderError>)
    requires |action.writes| == 1 && ValidOp(action.writes[0].op) && !action.skipped
    requires after.skipped == before.skipped
    requires after.recorded == if action.recorded == map[] then before.recorded else action.recorded + before.recorded
    requires match Patched(env, tree, before.texts, action.writes[0])
             case Err(e) => failure == Some(e)
             case Ok(text) =>
               && failure.None?
               && after.texts == before.texts[action.writes[0].path := text]
               && after.contributions == before.contributions
                    + [Contribution(action.writes[0].path, binding.key, binding.system, entry.strategy.Name())]
    ensures Handled(env, tree, before, after, binding, entry, Ok(action), earlier, failure)
  {
    hide Patched, ValidOp, WriteAll;
    var w := action.writes[0];
    assert map[] + before.recorded == before.recorded;
    assert action.writes == [w];
    var job := Job(binding, entry, action);
    assert Contributed(job, action.writes) == [Contribution(w.path, binding.key, binding.system, entry.strategy.Name())];
    SingleWrite(env, tree, before.texts, w);
  }

  lemma EmptyWrites(env: Env, tree: Tree, texts: map<string, string>, writes: seq<Write>)
    requires writes == []
    ensures WriteAll(env, tree, texts, writes) == Ok(texts)
  {
  }

  function SyncJob(applications: seq<string>, enabled: bool, binding: Binding, entry: StrategyEntry): Job {
    Job(binding, entry, Action(SyncWrites(applications, enabled), false, map[]))
  }

  lemma SyncOpsValid(applications: seq<string>, enabled: bool)
    ensures forall w :: w in SyncWrites(applications, enabled) ==> ValidOp(w.op)
  {
  }

  /** The manifests `applications[..n]` rendered from `start`. */
  ghost predicate Manifests(env: Env, tree: Tree, start: State, now: State, job: Job, applications: seq<string>, enabled: bool, n: nat)
    requires n <= |applications|
  {
    var writes := SyncWrites(applications, enabled)[..n];
    && (forall w :: w in writes ==> ValidOp(w.op))
    && WriteAll(env, tree, start.texts, writes) == Ok(now.texts)
    && now.contributions == start.contributions + Contributed(job, writes)
  }

  ghost predicate ManifestsFail(env: Env, tree: Tree, start: State, applications: seq<string>, enabled: bool, error: RenderError) {
    var writes := SyncWrites(applications, enabled);
    (forall w :: w in writes ==> ValidOp(w.op)) && WriteAll(env, tree, start.texts, writes) == Err(error)
  }

  function SyncPatched(env: Env, path: string, text: Option<string>, enabled: bool): Result<string, RenderError> {
    if text.None? then Err(MissingTarget(path))
    else
      match SyncPolicy.WithSyncPolicy(text.value, enabled)
      case Ok(patched) => if env.inScope(path) then Ok(patched) else Err(OutOfScope(path))
      case Err(e) => Err(Patch(e))
  }

  lemma PatchedSync(env: Env, tree: Tree, texts: map<string, string>, path: string, enabled: bool)
    requires ValidOp(SyncBlock(enabled))
    ensures Patched(env, tree, texts, Write(path, SyncBlock(enabled))) == SyncPatched(env, path, Current(tree, texts, path), enabled)
  {
    hide SyncPolicy.WithSyncPolicy;
  }

  lemma FirstManifest(env: Env, tree: Tree, start: State, job: Job, applications: seq<string>, enabled: bool)
    ensures Manifests(env, tree, start, start, job, applications, enabled, 0)
  {
    assert SyncWrites(applications, enabled)[..0] == [];
  }

  lemma NextManifest(env: Env, tree: Tree, start: State, now: State, job: Job, applications: seq<string>, enabled: bool, n: nat)
    requires n < |applications| && Manifests(env, tree, start, now, job, applications, enabled, n)
    ensures var path := applications[n];
            match SyncPatched(env, path, Current(tree, now.texts, path), enabled)
            case Ok(text) =>
              forall next: State ::
                next.texts == now.texts[path := text]
                && next.contributions == now.contributions
                     + [Contribution(path, job.binding.key, job.binding.system, job.entry.strategy.Name())]
                ==> Manifests(env, tree, start, next, job, applications, enabled, n + 1)
            case Err(e) => ManifestsFail(env, tree, start, applications, enabled, e)
  {
    hide WriteAll, Patched, SyncPatched, SyncWrites, Current, ValidOp;
    var writes := SyncWrites(applications, enabled);
    SyncOpsValid(applications, enabled);
    NextWrite(env, tree, start.texts, writes, n, now.texts);
    PatchedSync(env, tree, now.texts, applications[n], enabled);
    assert Contributed(job, writes[..n + 1]) ==
      Contributed(job, writes[..n]) + [Contribution(applications[n], job.binding.key, job.binding.system, job.entry.strategy.Name())];
  }

  function RecordedAmong(env: Env, tree: Tree, paths: seq<string>, owned: string): map<string, string> {
    map p | p in paths && p in tree.files && p != owned :: env.sha(tree.files[p])
  }

  /** `setdefault` over one path more. */
  lemma RecordNext(env: Env, tree: Tree, paths: seq<string>, path: string, owned: string, recorded: map<string, string>)
    requires path in tree.files
    ensures var now := RecordedAmong(env, tree, paths, owned) + recorded;
            RecordedAmong(env, tree, paths + [path], owned) + recorded ==
              if path == owned || path in now then now else now[path := env.sha(tree.files[path])]
  {
    var now := RecordedAmong(env, tree, paths, owned) + recorded;
    var next := RecordedAmong(env, tree, paths + [path], owned) + recorded;
    assert forall p :: p in paths + [path] <==> p in paths || p == path;
    assert next.Keys == if path == owned || path in now then now.Keys else now.Keys + {path};
  }

  lemma RecordNone(env: Env, tree: Tree, owned: string, recorded: map<string, string>)
    ensures RecordedAmong(env, tree, [], owned) + recorded == recorded
  {
  }

  lemma RecordAll(env: Env, tree: Tree, dir: string, owned: string)
    requires Listing(tree, dir).Ok?
    ensures RecordedAmong(env, tree, Listing(tree, dir).value, owned) == RecordedIn(env, tree, dir, owned)
    ensures forall p :: p in Listing(tree, dir).value ==> p in tree.files
  {
    hide Leq, StartsWith;
  }

  /** The fold over one write more. */
  lemma NextWrite(env: Env, tree: Tree, start: map<string, string>, writes: seq<Write>, i: nat, texts: map<string, string>)
    requires i < |writes| && forall w :: w in writes ==> ValidOp(w.op)
    requires WriteAll(env, tree, start, writes[..i]) == Ok(texts)
    ensures forall w :: w in writes[..i + 1] ==> ValidOp(w.op)
    ensures match Patched(env, tree, texts, writes[i])
            case Ok(text) => WriteAll(env, tree, start, writes[..i + 1]) == Ok(texts[writes[i].path := text])
            case Err(e) => WriteAll(env, tree, start, writes) == Err(e)
  {
    hide Patched, ValidOp, WriteAll;
    var w := writes[i];
    assert writes[..i + 1] == writes[..i] + [w];
    SingleWrite(env, tree, texts, w);
    WriteAllAppend(env, tree, start, writes[..i], [w]);
    assert writes == writes[..i + 1] + writes[i + 1..];
    WriteAllAppend(env, tree, start, writes[..i + 1], writes[i + 1..]);
  }

  lemma SingleWrite(env: Env, tree: Tree, texts: map<string, string>, w: Write)
    requires ValidOp(w.op)
    ensures match Patched(env, tree, texts, w)
            case Ok(text) => WriteAll(env, tree, texts, [w]) == Ok(texts[w.path := text])
            case Err(e) => WriteAll(env, tree, texts, [w]) == Err(e)
  {
    hide Apply, ValidOp;
    assert [w][1..] == [];
  }

  // ----- the mutable state ---------------------------------------------------------------

  class PlanState {
    const env: Env
    const tree: Tree
    var texts: map<string, string>
    var contributions: seq<Contribution>
    var skipped: seq<Contribution>
    var recorded: map<string, string>

    constructor (env: Env, tree: Tree)
      ensures this.env == env && this.tree == tree
      ensures texts == map[] && contributions == [] && skipped == [] && recorded == map[]
    {
      this.env := env;
      this.tree := tree;
      texts, contributions, skipped, recorded := map[], [], [], map[];
    }

    function View(): State
      reads this
    {
      State(texts, contributions, skipped, recorded)
    }

    method Load(path: string) returns (r: Result<string, RenderError>)
      ensures r == match Current(tree, texts, path) case Some(text) => Ok(text) case None => Err(MissingTarget(path))
    {
      if path in texts {
        return Ok(texts[path]);
      }
      if path !in tree.files {
        return Err(MissingTarget(path));
      }
      r := Ok(Translated(tree.files[path]));
    }

    /** The new state after one file was rendered for a binding. */
    method Contribute(path: string, content: string, binding: Binding, entry: StrategyEntry) returns (failure: Option<RenderError>)
      modifies this`texts, this`contributions
      ensures failure == if env.inScope(path) then None else Some(OutOfScope(path))
      ensures texts == if failure.None? then old(texts)[path := content] else old(texts)
      ensures contributions == if failure.None?
                then old(contributions) + [Contribution(path, binding.key, binding.system, entry.strategy.Name())]
                else old(contributions)
    {
      if !env.inScope(path) {
        return Some(OutOfScope(path));
      }
      texts := texts[path := content];
      contributions := contributions + [Contribution(path, binding.key, binding.system, entry.strategy.Name())];
      failure := None;
    }

    method RenderJsonPathPatch(binding: Binding, entry: StrategyEntry, value: Json) returns (failure: Option<RenderError>)
      modifies this
      ensures Handled(env, tree, old(View()), View(), binding, entry, JsonPathAction(env, binding, entry.transform, value), None, failure)
    {
      hide WriteAll, PatchJson;
      var patch := PatchValue(env, entry.transform, value);
      if patch.Err? {
        return Some(patch.error);
      }
      ghost var action := JsonPathAction(env, binding, entry.transform, value).value;
      var loaded := Load(binding.target);
      if loaded.Err? {
        failure := Some(loaded.error);
      } else {
        var patched := PatchJson(env.codec, loaded.value, ParseLocator(binding.locator), patch.value);
        if patched.Err? {
          failure := Some(Patch(patched.error));
        } else {
          failure := Contribute(binding.target, patched.value, binding, entry);
        }
      }
      OneWrite(env, tree, old(View()), View(), binding, entry, action, None, failure);
    }

    method RenderScalar(binding: Binding, entry: StrategyEntry, value: Json) returns (failure: Option<RenderError>)
      requires entry.transform == Identity
      modifies this
      ensures Handled(env, tree, old(View()), View(), binding, entry, YamlLineAction(env, tree, binding, entry.transform, value),
                      Earlier(tree, old(texts), binding.target, entry.transform), failure)
    {
      hide WriteAll, YamlLens.WithScalar, YamlLens.Adopted, YamlScalar;
      ghost var action := YamlLineAction(env, tree, binding, entry.transform, value);
      ghost var earlier := Earlier(tree, texts, binding.target, entry.transform);
      var loaded := Load(binding.target);
      if loaded.Err? {
        failure := Some(loaded.error);
        if action.Ok? {
          OneWrite(env, tree, old(View()), View(), binding, entry, action.value, earlier, failure);
        }
        return;
      }
      var adopted := YamlLens.Adopted(loaded.value);
      if adopted.Err? {
        failure := Some(Patch(adopted.error));
        if action.Ok? {
          OneWrite(env, tree, old(View()), View(), binding, entry, action.value, earlier, failure);
        }
        return;
      }
      var rendered := Rendered(env, value);
      if rendered.Err? {
        return Some(rendered.error);
      }
      var patched := YamlLens.SetYamlScalar(adopted.value, binding.locator, rendered.value);
      if patched.Err? {
        failure := Some(Patch(patched.error));
        OneWrite(env, tree, old(View()), View(), binding, entry, action.value, earlier, failure);
        return;
      }
      failure := Contribute(binding.target, patched.value, binding, entry);
      OneWrite(env, tree, old(View()), View(), binding, entry, action.value, earlier, failure);
    }

    method RenderTopLevel(binding: Binding, entry: StrategyEntry, value: Json) returns (failure: Option<RenderError>)
      requires entry.transform == TopLevelIsolation
      modifies this
      ensures Handled(env, tree, old(View()), View(), binding, entry, YamlLineAction(env, tree, binding, entry.transform, value),
                      Earlier(tree, old(texts), binding.target, entry.transform), failure)
    {
      hide WriteAll, YamlTopLevel.WithTopLevelScalar, YamlScalar;
      ghost var action := YamlLineAction(env, tree, binding, entry.transform, value);
      ghost var earlier := Earlier(tree, texts, binding.target, entry.transform);
      var loaded := Load(binding.target);
      if loaded.Err? {
        failure := Some(loaded.error);
        if action.Ok? {
          OneWrite(env, tree, old(View()), View(), binding, entry, action.value, earlier, failure);
        }
        return;
      }
      var rendered := Rendered(env, value);
      if rendered.Err? {
        return Some(rendered.error);
      }
      var patched := YamlTopLevel.SetTopLevelScalar(loaded.value, ISOLATION_KEY, rendered.value);
      if patched.Err? {
        failure := Some(Patch(patched.error));
        OneWrite(env, tree, old(View()), View(), binding, entry, action.value, earlier, failure);
        return;
      }
      failure := Contribute(binding.target, patched.value, binding, entry);
      OneWrite(env, tree, old(View()), View(), binding, entry, action.value, earlier, failure);
    }

    method RenderSyncPolicy(binding: Binding, entry: StrategyEntry, value: Json) returns (failure: Option<RenderError>)
      requires entry.transform == SyncPolicyBlock
      modifies this
      ensures Handled(env, tree, old(View()), View(), binding, entry, YamlLineAction(env, tree, binding, entry.transform, value),
                      Earlier(tree, old(texts), binding.target, entry.transform), failure)
    {
      hide WriteAll, Listing, Applications, Contributed, SyncWrites;
      if !value.Bool? {
        return Some(BadValue);
      }
      if !IsDirectory(binding.target) {
        return Some(BadTarget);
      }
      var listing := Listing(tree, binding.target);
      if listing.Err? {
        return Some(listing.error);
      }
      var applications := Applications(listing.value, binding.target);
      if applications == [] {
        return Some(NoManifests);
      }
      failure := RenderManifests(applications, value.b, binding, entry);
      SyncOpsValid(applications, value.b);
      assert SyncWrites(applications, value.b)[..|applications|] == SyncWrites(applications, value.b);
      assert map[] + recorded == recorded;
    }

    /** Every manifest of a directory, in path order. */
    method RenderManifests(applications: seq<string>, enabled: bool, binding: Binding, entry: StrategyEntry)
        returns (failure: Option<RenderError>)
      modifies this`texts, this`contributions
      ensures failure.None? ==>
        Manifests(env, tree, old(View()), View(), SyncJob(applications, enabled, binding, entry), applications, enabled, |applications|)
      ensures failure.Some? ==> ManifestsFail(env, tree, old(View()), applications, enabled, failure.value)
    {
      hide Manifests, ManifestsFail, SyncPolicy.WithSyncPolicy;
      ghost var job := SyncJob(applications, enabled, binding, entry);
      FirstManifest(env, tree, View(), job, applications, enabled);
      var i := 0;
      while i < |applications|
        invariant 0 <= i <= |applications|
        invariant Manifests(env, tree, old(View()), View(), job, applications, enabled, i)
      {
        var path := applications[i];
        NextManifest(env, tree, old(View()), View(), job, applications, enabled, i);
        var loaded := Load(path);
        if loaded.Err? {
          return Some(loaded.error);
        }
        var patched := SyncPolicy.ApplySyncPolicy(loaded.value, enabled);
        if patched.Err? {
          return Some(Patch(patched.error));
        }
        failure := Contribute(path, patched.value, binding, entry);
        if failure.Some? {
          return;
        }
        i := i + 1;
      }
      failure := None;
    }

    method RenderYamlLinePatch(binding: Binding, entry: StrategyEntry, value: Json) returns (failure: Option<RenderError>)
      modifies this
      ensures Handled(env, tree, old(View()), View(), binding, entry, YamlLineAction(env, tree, binding, entry.transform, value),
                      Earlier(tree, old(texts), binding.target, entry.transform), failure)
    {
      hide WriteAll;
      if entry.transform.SyncPolicyBlock? {
        failure := RenderSyncPolicy(binding, entry, value);
      } else if entry.transform.TopLevelIsolation? {
        failure := RenderTopLevel(binding, entry, value);
      } else if entry.transform.Identity? {
        failure := RenderScalar(binding, entry, value);
      } else {
        failure := Some(BadTransform);
      }
    }

    /** Digests of the other files of an owned directory; earlier digests stay. */
    method RecordDirectory(dir: string, owned: string) returns (failure: Option<RenderError>)
      modifies this`recorded
      ensures failure == match Listing(tree, dir) case Err(e) => Some(e) case Ok(_) => None
      ensures recorded == if failure.None? then RecordedIn(env, tree, dir, owned) + old(recorded) else old(recorded)
    {
      hide Listing, RecordedIn, RecordedAmong;
      var listed := Listing(tree, dir);
      if listed.Err? {
        return Some(listed.error);
      }
      RecordAll(env, tree, dir, owned);
      RecordFiles(listed.value, owned);
      failure := None;
    }

    method RecordFiles(listing: seq<string>, owned: string)
      requires forall p :: p in listing ==> p in tree.files
      modifies this`recorded
      ensures recorded == RecordedAmong(env, tree, listing, owned) + old(recorded)
    {
      RecordNone(env, tree, owned, recorded);
      hide RecordedAmong;
      var i := 0;
      while i < |listing|
        invariant 0 <= i <= |listing|
        invariant recorded == RecordedAmong(env, tree, listing[..i], owned) + old(recorded)
      {
        var path := listing[i];
        assert path in listing;
        assert listing[..i + 1] == listing[..i] + [path];
        RecordNext(env, tree, listing[..i], path, owned, old(recorded));
        if path != owned && path !in recorded {
          recorded := recorded[path := env.sha(tree.files[path])];
        }
        i := i + 1;
      }
      assert listing[..i] == listing;
    }

    method RenderOwnedArtifact(binding: Binding, entry: StrategyEntry, value: Json) returns (failure: Option<RenderError>)
      modifies this
      ensures Handled(env, tree, old(View()), View(), binding, entry, OwnedAction(env, tree, binding, entry.transform, value), None, failure)
    {
      hide Payload, Listing, RecordedIn, WriteAll;
      if !IsDirectory(binding.target) {
        return Some(BadTarget);
      }
      var filename := OwnedFilename(entry.transform);
      if filename.None? {
        return Some(BadTransform);
      }
      var payload := Payload(env, tree, binding.target, entry.transform, value);
      if payload.Err? {
        return Some(payload.error);
      }
      var content := env.codec.emit(Obj(payload.value + [Field("marker", Str(YamlLens.MARKER)), Field("schema_version", Str("v1"))]));
      var owned := binding.target + filename.value;
      failure := RecordDirectory(binding.target, owned);
      if failure.Some? {
        return;
      }
      failure := Contribute(owned, content, binding, entry);
      assert map[] + old(recorded) == old(recorded);
      OneWrite(env, tree, old(View()), View(), binding, entry, OwnedAction(env, tree, binding, entry.transform, value).value, None, failure);
    }

    method RenderPresenceGated(binding: Binding, entry: StrategyEntry, value: Json) returns (failure: Option<RenderError>)
      modifies this
      ensures Handled(env, tree, old(View()), View(), binding, entry, GatedAction(binding, value), None, failure)
    {
      hide YamlLens.Adopted;
      if !value.Bool? {
        return Some(BadValue);
      }
      if !value.b {
        skipped := skipped + [Contribution(binding.target, binding.key, binding.system, entry.strategy.Name())];
        return None;
      }
      ghost var action := GatedAction(binding, value).value;
      var loaded := Load(binding.target);
      if loaded.Err? {
        failure := Some(loaded.error);
        OneWrite(env, tree, old(View()), View(), binding, entry, action, None, failure);
        return;
      }
      var adopted := YamlLens.Adopted(loaded.value);
      if adopted.Err? {
        failure := Some(Patch(adopted.error));
        OneWrite(env, tree, old(View()), View(), binding, entry, action, None, failure);
        return;
      }
      failure := Contribute(binding.target, adopted.value, binding, entry);
      OneWrite(env, tree, old(View()), View(), binding, entry, action, None, failure);
    }

    /** One turn of the binding loop. */
    method Handle(config: Json, binding: Binding) returns (failure: Option<RenderError>)
      modifies this
      ensures (binding.key, binding.system) !in env.catalog ==> failure == Some(Uncataloged)
      ensures (binding.key, binding.system) in env.catalog ==>
                var entry := env.catalog[(binding.key, binding.system)];
                Handled(env, tree, old(View()), View(), binding, entry, ActionOf(env, config, tree, binding, entry),
                        EarlierOf(config, tree, old(texts), binding, entry), failure)
    {
      hide WriteAll, LeafValue, JsonPathAction, OwnedAction, GatedAction, YamlLineAction, Earlier;
      var pair := (binding.key, binding.system);
      if pair !in env.catalog {
        return Some(Uncataloged);
      }
      var entry := env.catalog[pair];
      if entry.strategy.Unimplemented? {
        failure := Some(Uncataloged);
        return;
      }
      var value := LeafValue(config, binding.key);
      if value.Err? {
        failure := Some(value.error);
        return;
      }
      match entry.strategy {
        case JsonPathPatch => failure := RenderJsonPathPatch(binding, entry, value.value);
        case YamlLinePatch => failure := RenderYamlLinePatch(binding, entry, value.value);
        case OwnedArtifact => failure := RenderOwnedArtifact(binding, entry, value.value);
        case PresenceGated => failure := RenderPresenceGated(binding, entry, value.value);
      }
    }
  }

  // ----- which error is met first -------------------------------------------------------------

  /** What one binding makes of the texts rendered so far, or the error it meets. */
  function BindingTexts(env: Env, config: Json, tree: Tree, texts: map<string, string>, binding: Binding): Result<map<string, string>, RenderError> {
    var pair := (binding.key, binding.system);
    if pair !in env.catalog then Err(Uncataloged)
    else
      var entry := env.catalog[pair];
      match ActionOf(env, config, tree, binding, entry)
      case Err(e) =>
        var earlier := EarlierOf(config, tree, texts, binding, entry);
        Err(if earlier.Some? then earlier.value else e)
      case Ok(action) =>
        JobOpsValid(env, config, tree, binding);
        WriteAll(env, tree, texts, action.writes)
  }

  /** The texts after the bindings in order, or the first binding's error. */
  function TextsAfter(env: Env, config: Json, tree: Tree, bindings: seq<Binding>): Result<map<string, string>, RenderError> {
    if bindings == [] then Ok(map[])
    else
      var texts :- TextsAfter(env, config, tree, bindings[..|bindings| - 1]);
      BindingTexts(env, config, tree, texts, bindings[|bindings| - 1])
  }

  lemma {:induction false} FirstErrorStays(env: Env, config: Json, tree: Tree, bindings: seq<Binding>, n: nat)
    requires n <= |bindings| && TextsAfter(env, config, tree, bindings[..n]).Err?
    ensures TextsAfter(env, config, tree, bindings) == TextsAfter(env, config, tree, bindings[..n])
    decreases |bindings|
  {
    hide BindingTexts;
    if n < |bindings| {
      var before := bindings[..|bindings| - 1];
      assert before[..n] == bindings[..n];
      FirstErrorStays(env, config, tree, before, n);
    } else {
      assert bindings[..n] == bindings;
    }
  }

  /** One turn of the loop, in those terms. */
  lemma HandledTexts(env: Env, config: Json, tree: Tree, bindings: seq<Binding>, n: nat, before: State, after: State, failure: Option<RenderError>)
    requires n < |bindings| && TextsAfter(env, config, tree, bindings[..n]) == Ok(before.texts)
    requires var pair := (bindings[n].key, bindings[n].system);
             if pair !in env.catalog then failure == Some(Uncataloged)
             else Handled(env, tree, before, after, bindings[n], env.catalog[pair], ActionOf(env, config, tree, bindings[n], env.catalog[pair]),
                          EarlierOf(config, tree, before.texts, bindings[n], env.catalog[pair]), failure)
    ensures failure.None? ==> TextsAfter(env, config, tree, bindings[..n + 1]) == Ok(after.texts)
    ensures failure.Some? ==> TextsAfter(env, config, tree, bindings) == Err(failure.value)
  {
    hide WriteAll, ActionOf, EarlierOf, ValidOp;
    var prefix := bindings[..n + 1];
    assert prefix[..n] == bindings[..n] && prefix[n] == bindings[n];
    var pair := (bindings[n].key, bindings[n].system);
    if pair in env.catalog && ActionOf(env, config, tree, bindings[n], env.catalog[pair]).Ok? {
      JobOpsValid(env, config, tree, bindings[n]);
    }
    if failure.Some? {
      FirstErrorStays(env, config, tree, bindings, n + 1);
    }
  }

  // ----- the binding loop ---------------------------------------------------------------------

  /** The state after the first `n` bindings. */
  ghost predicate Progress(env: Env, doc: Document, tree: Tree, bindings: seq<Binding>, n: nat, state: State)
    requires n <= |bindings|
  {
    var collected := Collect(env, doc.config, tree, bindings[..n]);
    && collected.Ok?
    && (forall w :: w in FlatWrites(collected.value) ==> ValidOp(w.op))
    && WriteAll(env, tree, map[], FlatWrites(collected.value)) == Ok(state.texts)
    && state.contributions == Contributions(collected.value)
    && state.skipped == Skips(collected.value)
    && state.recorded == Records(collected.value)
  }

  ghost predicate PlanFails(env: Env, doc: Document, tree: Tree, bindings: seq<Binding>) {
    var collected := Collect(env, doc.config, tree, bindings);
    collected.Err?
    || ((forall w :: w in FlatWrites(collected.value) ==> ValidOp(w.op))
        && WriteAll(env, tree, map[], FlatWrites(collected.value)).Err?)
  }

  lemma NoJobFails(env: Env, doc: Document, tree: Tree, bindings: seq<Binding>, n: nat)
    requires n < |bindings| && JobOf(env, doc.config, tree, bindings[n]).Err?
    ensures PlanFails(env, doc, tree, bindings)
  {
    hide JobOf, WriteAll, FlatWrites;
    var prefix := bindings[..n + 1];
    assert prefix[..n] == bindings[..n];
    assert Collect(env, doc.config, tree, prefix).Err?;
    CollectStops(env, doc.config, tree, bindings, n + 1);
  }

  lemma NextBinding(env: Env, doc: Document, tree: Tree, bindings: seq<Binding>, n: nat, before: State, after: State,
                    entry: StrategyEntry, earlier: Option<RenderError>, failure: Option<RenderError>)
    requires n < |bindings| && Progress(env, doc, tree, bindings, n, before)
    requires (bindings[n].key, bindings[n].system) in env.catalog && env.catalog[(bindings[n].key, bindings[n].system)] == entry
    requires Handled(env, tree, before, after, bindings[n], entry, ActionOf(env, doc.config, tree, bindings[n], entry), earlier, failure)
    ensures failure.None? ==> Progress(env, doc, tree, bindings, n + 1, after)
    ensures failure.Some? ==> PlanFails(env, doc, tree, bindings)
  {
    hide WriteAll, ActionOf, ValidOp;
    var binding := bindings[n];
    var action := ActionOf(env, doc.config, tree, binding, entry);
    if action.Err? {
      NoJobFails(env, doc, tree, bindings, n);
    } else {
      var prefix := bindings[..n + 1];
      assert prefix[..n] == bindings[..n] && prefix[n] == binding;
      var jobs := Collect(env, doc.config, tree, bindings[..n]).value;
      var job := Job(binding, entry, action.value);
      assert Collect(env, doc.config, tree, prefix) == Ok(jobs + [job]);
      assert (jobs + [job])[..n] == jobs;
      JobOpsValid(env, doc.config, tree, binding);
      WriteAllAppend(env, tree, map[], FlatWrites(jobs), action.value.writes);
      if failure.Some? && Collect(env, doc.config, tree, bindings).Ok? {
        OpsValid(env, doc.config, tree, bindings);
        OpsValid(env, doc.config, tree, prefix);
        WritesStop(env, doc, tree, bindings, n + 1);
      }
    }
  }

  lemma PlanFailsErr(env: Env, doc: Document, tree: Tree)
    requires PlanFails(env, doc, tree, Ordered(doc.bindings))
    ensures PlanRender(env, doc, tree).Err?
  {
    hide Collect, WriteAll, Finish, FlatWrites;
  }

  lemma ProgressDone(env: Env, doc: Document, tree: Tree, state: State)
    requires Progress(env, doc, tree, Ordered(doc.bindings), |Ordered(doc.bindings)|, state)
    ensures forall c :: c in state.contributions ==> c.path in state.texts
    ensures PlanRender(env, doc, tree) == Ok(Finish(env, doc, state.texts, state.contributions, state.skipped, state.recorded))
  {
    hide Collect, WriteAll, Finish, FlatWrites, Contributions, Skips, Records;
    var bindings := Ordered(doc.bindings);
    assert bindings[..|bindings|] == bindings;
    ContributionsIn(Collect(env, doc.config, tree, bindings).value);
  }

  /** `plan_render`: nothing is written; the first error a binding meets fails the plan. */
  method Plan(env: Env, doc: Document, tree: Tree) returns (r: Result<Plan, RenderError>)
    ensures r.Ok? == PlanRender(env, doc, tree).Ok?
    ensures r.Ok? ==> r == PlanRender(env, doc, tree)
    ensures r.Err? ==> TextsAfter(env, doc.config, tree, Ordered(doc.bindings)) == Err(r.error)
  {
    hide PlanRender, ActionOf, Handled, Collect, WriteAll, Finish, EarlierOf, BindingTexts;
    var state := new PlanState(env, tree);
    var ordered := Ordered(doc.bindings);
    var i := 0;
    assert Progress(env, doc, tree, ordered, 0, state.View()) by {
      Begin(env, doc, tree, ordered);
    }
    hide Progress, PlanFails;
    while i < |ordered|
      invariant 0 <= i <= |ordered|
      invariant state.env == env && state.tree == tree
      invariant Progress(env, doc, tree, ordered, i, state.View())
      invariant TextsAfter(env, doc.config, tree, ordered[..i]) == Ok(state.texts)
    {
      ghost var before := state.View();
      var failure := state.Handle(doc.config, ordered[i]);
      HandledTexts(env, doc.config, tree, ordered, i, before, state.View(), failure);
      if (ordered[i].key, ordered[i].system) in env.catalog {
        var entry := env.catalog[(ordered[i].key, ordered[i].system)];
        NextBinding(env, doc, tree, ordered, i, before, state.View(), entry, EarlierOf(doc.config, tree, before.texts, ordered[i], entry), failure);
      } else {
        NoJobFails(env, doc, tree, ordered, i);
      }
      if failure.Some? {
        PlanFailsErr(env, doc, tree);
        return Err(failure.value);
      }
      i := i + 1;
    }
    ProgressDone(env, doc, tree, state.View());
    r := Ok(Finish(env, doc, state.texts, state.contributions, state.skipped, state.recorded));
  }

  lemma Begin(env: Env, doc: Document, tree: Tree, bindings: seq<Binding>)
    ensures Progress(env, doc, tree, bindings, 0, State(map[], [], [], map[]))
  {
    assert bindings[..0] == [];
  }

  // ----- writing and comparing ------------------------------------------------------------------

  class Disk {
    var files: map<string, string>
    var dirs: set<string>

    function View(): Tree
      reads this
    {
      Tree(files, dirs)
    }

    constructor (tree: Tree)
      ensures View() == tree
    {
      files, dirs := tree.files, tree.dirs;
    }

    method Write(path: string, content: string)
      modifies this
      ensures View() == WriteFile(old(View()), path, content)
    {
      dirs := dirs + Parents(path);
      files := files[path := content];
    }

    /** `execute_plan`: each path once, the manifest last. */
    method ExecutePlan(plan: Plan) returns (written: seq<string>)
      modifies this
      ensures View() == Execute(plan, old(View()))
      ensures written == PathsOf(Unique(plan.artifacts)) + [plan.manifestPath]
    {
      hide Unique, PathsOf, Diverging, Parents;
      NothingDiverges(View());
      written := [];
      assert plan.artifacts[..0] == [];
      var seen: set<string> := {};
      var i := 0;
      while i < |plan.artifacts|
        invariant 0 <= i <= |plan.artifacts|
        invariant View() == WriteFiles(old(View()), Unique(plan.artifacts[..i]))
        invariant written == PathsOf(Unique(plan.artifacts[..i]))
        invariant forall p :: p in seen <==> p in written
      {
        var artifact := plan.artifacts[i];
        UniqueNext(plan.artifacts, i);
        if artifact.path !in seen {
          seen := seen + {artifact.path};
          WriteFilesNext(old(View()), Unique(plan.artifacts[..i]), artifact);
          Write(artifact.path, artifact.content);
          written := written + [artifact.path];
        }
        i := i + 1;
      }
      assert plan.artifacts[..i] == plan.artifacts;
      Write(plan.manifestPath, plan.manifest);
      written := written + [plan.manifestPath];
    }

    /** `changed_paths`. */
    method Changed(plan: Plan) returns (changed: seq<string>)
      ensures changed == ChangedPaths(plan, View())
    {
      hide Unique, Diverging, PathsOf;
      NothingDiverges(View());
      changed := [];
      assert plan.artifacts[..0] == [];
      var seen: set<string> := {};
      var i := 0;
      while i < |plan.artifacts|
        invariant 0 <= i <= |plan.artifacts|
        invariant changed == PathsOf(Diverging(Unique(plan.artifacts[..i]), View()))
        invariant forall p :: p in seen <==> p in PathsOf(Unique(plan.artifacts[..i]))
      {
        var artifact := plan.artifacts[i];
        UniqueNext(plan.artifacts, i);
        if artifact.path !in seen {
          seen := seen + {artifact.path};
          DivergingNext(Unique(plan.artifacts[..i]), artifact, View());
          if artifact.path !in files || files[artifact.path] != artifact.content {
            changed := changed + [artifact.path];
          }
        }
        i := i + 1;
      }
      assert plan.artifacts[..i] == plan.artifacts;
      if plan.manifestPath !in files || files[plan.manifestPath] != plan.manifest {
        changed := changed + [plan.manifestPath];
      }
    }
  }

  lemma NothingDiverges(tree: Tree)
    ensures PathsOf(Diverging(Unique([]), tree)) == [] && PathsOf(Unique([])) == [] && WriteFiles(tree, Unique([])) == tree
  {
  }

  lemma WriteFilesNext(tree: Tree, artifacts: seq<Artifact>, artifact: Artifact)
    ensures WriteFiles(tree, artifacts + [artifact]) == WriteFile(WriteFiles(tree, artifacts), artifact.path, artifact.content)
  {
    assert (artifacts + [artifact])[..|artifacts|] == artifacts;
  }

  lemma DivergingNext(artifacts: seq<Artifact>, artifact: Artifact, tree: Tree)
    ensures PathsOf(Diverging(artifacts + [artifact], tree)) ==
            PathsOf(Diverging(artifacts, tree)) + if tree.Get(artifact.path) == Some(artifact.content) then [] else [artifact.path]
  {
    assert (artifacts + [artifact])[..|artifacts|] == artifacts;
  }

  /** One artifact more: kept unless its path is already there. */
  lemma UniqueNext(artifacts: seq<Artifact>, i: nat)
    requires i < |artifacts|
    ensures var before := Unique(artifacts[..i]);
            Unique(artifacts[..i + 1]) == if artifacts[i].path in PathsOf(before) then before else before + [artifacts[i]]
    ensures var before := PathsOf(Unique(artifacts[..i]));
            PathsOf(Unique(artifacts[..i + 1])) == if artifacts[i].path in before then before else before + [artifacts[i].path]
  {
    var before := Unique(artifacts[..i]);
    assert artifacts[..i + 1][..i] == artifacts[..i];
    if artifacts[i].path in PathsOf(before) {
      var k :| 0 <= k < |before| && PathsOf(before)[k] == artifacts[i].path;
      assert before[k].path == artifacts[i].path;
    } else {
      forall k | 0 <= k < |before| ensures before[k].path != artifacts[i].path {
        assert PathsOf(before)[k] in PathsOf(before);
      }
    }
  }
}
