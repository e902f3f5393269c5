/** Planning a render in memory, writing it, and the two comparisons that re-run
    the plan (render.py, and the re-planning halves of drift.py and rollback.py).
    The plan is described in two passes: every binding becomes a list of patches,
    then the patches run file by file. The program interleaves the two. */
module RenderPlan {
  import opened Results
  import opened Json
  import opened JsonPatch
  import opened Ordering
  import opened YamlScalars
  import opened RenderOps
  import opened Text
  import YamlLens

  datatype Strategy = JsonPathPatch | YamlLinePatch | OwnedArtifact | PresenceGated | Unimplemented(name: string) {
    function Name(): string {
      match this
      case JsonPathPatch => "json-path-patch"
      case YamlLinePatch => "yaml-line-patch"
      case OwnedArtifact => "owned-artifact"
      case PresenceGated => "presence-gated"
      case Unimplemented(name) => name
    }
  }

  datatype Transform =
    | Identity
    | DaysToAge
    | SyncPolicyBlock
    | TopLevelIsolation
    | Channels
    | ProvisioningState
    | IsolationDefaults
    | OtherTransform(name: string)

  datatype StrategyEntry = StrategyEntry(strategy: Strategy, transform: Transform)

  datatype Binding = Binding(key: string, system: string, locator: string, target: string)

  datatype Document = Document(config: Json, raw: string, schemaVersion: string, bindings: seq<Binding>)

  /** What a render is run with besides the document and the tree: the JSON codec,
      sha256, the texts of numbers, the write-scope test, the strategy catalog and
      the manifest's path in the repository. */
  datatype Env = Env(
    codec: Codec,
    sha: string -> string,
    decimal: int -> string,
    repr: real -> string,
    inScope: string -> bool,
    catalog: map<(string, string), StrategyEntry>,
    manifestPath: string)

  /** Files by repository-relative path; directories end with '/'. */
  datatype Tree = Tree(files: map<string, string>, dirs: set<string>) {
    function Get(path: string): Option<string> {
      if path in files then Some(files[path]) else None
    }

    /** The file as the renderer reads it. */
    function Read(path: string): Option<string> {
      if path in files then Some(Translated(files[path])) else None
    }
  }

  // ----- values --------------------------------------------------------------------

  function Walk(node: Json, parts: seq<string>): Result<Json, RenderError> {
    if parts == [] then Ok(node)
    else if !node.Obj? then Err(NoLeaf)
    else
      match Get(node.fields, parts[0])
      case None => Err(NoLeaf)
      case Some(child) => Walk(child, parts[1..])
  }

  /** `leaf_value`. */
  function LeafValue(config: Json, dotted: string): Result<Json, RenderError> {
    var node :- Walk(config, SplitOn(dotted, '.'));
    if node.Obj? then Err(NoLeaf) else Ok(node)
  }

  function ScalarValue(env: Env, value: Json): Value {
    match value
    case Bool(b) => BoolValue(b)
    case Int(i) => NumberValue(env.decimal(i))
    case Float(r) => NumberValue(env.repr(r))
    case Str(s) => StringValue(s)
    case _ => OtherValue
  }

  function Rendered(env: Env, value: Json): Result<string, RenderError> {
    match YamlScalar(ScalarValue(env, value))
    case Ok(text) => Ok(text)
    case Err(reason) => Err(Patch(reason))
  }

  // ----- directories ------------------------------------------------------------------

  predicate EndsWith(s: string, suffix: string) {
    |suffix| <= |s| && s[|s| - |suffix|..] == suffix
  }

  predicate IsDirectory(target: string) {
    EndsWith(target, "/")
  }

  /** Every file below a directory, in path order (`_list_dir`). */
  function Listing(tree: Tree, dir: string): Result<seq<string>, RenderError> {
    if dir !in tree.dirs then Err(MissingDirectory(dir))
    else Ok(Sorted(set p | p in tree.files && StartsWith(p, dir), true))
  }

  /** A manifest directly in the directory. */
  predicate IsApplication(path: string, dir: string) {
    EndsWith(path, ".yaml") && StartsWith(path, dir) && '/' !in path[|dir|..]
  }

  function Applications(listing: seq<string>, dir: string): (r: seq<string>)
    ensures forall p :: p in r <==> p in listing && IsApplication(p, dir)
  {
    if listing == [] then []
    else
      var p := listing[0];
      var rest := Applications(listing[1..], dir);
      if IsApplication(p, dir) then [p] + rest else rest
  }

  function BundlePaths(listing: seq<string>): (r: seq<string>)
    ensures forall p :: p in r <==> p in listing && EndsWith(p, ".ndjson")
  {
    if listing == [] then []
    else
      var rest := BundlePaths(listing[1..]);
      if EndsWith(listing[0], ".ndjson") then [listing[0]] + rest else rest
  }

  function Digests(env: Env, tree: Tree, paths: seq<string>, dir: string): (r: seq<Json>)
    requires forall p :: p in paths ==> p in tree.files && StartsWith(p, dir)
  {
    if paths == [] then []
    else
      var p := paths[0];
      assert p in paths && StartsWith(p, dir);
      [Obj([Field("name", Str(p[|dir|..])), Field("sha256", Str(env.sha(tree.files[p])))])]
      + Digests(env, tree, paths[1..], dir)
  }

  /** Digests of the files an owned directory already holds (`_record_directory`). */
  function RecordedIn(env: Env, tree: Tree, dir: string, owned: string): map<string, string> {
    map p | p in tree.files && StartsWith(p, dir) && p != owned :: env.sha(tree.files[p])
  }

  // ----- one binding -----------------------------------------------------------------

  datatype Write = Write(path: string, op: Op)

  /** What one binding asks for: patches to run in order, a skipped target, and the
      digests of an owned directory. */
  datatype Action = Action(writes: seq<Write>, skipped: bool, recorded: map<string, string>)

  /** The value a JSON binding writes; days become an age such as "7d". */
  function PatchValue(env: Env, transform: Transform, value: Json): Result<Json, RenderError> {
    match transform
    case DaysToAge => if value.Int? then Ok(Str(env.decimal(value.i) + "d")) else Err(BadValue)
    case Identity => Ok(value)
    case _ => Err(BadTransform)
  }

  function JsonPathAction(env: Env, binding: Binding, transform: Transform, value: Json): Result<Action, RenderError> {
    var patch :- PatchValue(env, transform, value);
    Ok(Action([Write(binding.target, SetJson(ParseLocator(binding.locator), patch))], false, map[]))
  }

  function SyncWrites(paths: seq<string>, enabled: bool): (writes: seq<Write>)
    ensures |writes| == |paths|
    ensures forall i :: 0 <= i < |paths| ==> writes[i] == Write(paths[i], SyncBlock(enabled))
  {
    seq(|paths|, i requires 0 <= i < |paths| => Write(paths[i], SyncBlock(enabled)))
  }

  function YamlLineAction(env: Env, tree: Tree, binding: Binding, transform: Transform, value: Json): Result<Action, RenderError> {
    match transform
    case SyncPolicyBlock =>
      if !value.Bool? then Err(BadValue)
      else if !IsDirectory(binding.target) then Err(BadTarget)
      else
        var listing :- Listing(tree, binding.target);
        var applications := Applications(listing, binding.target);
        if applications == [] then Err(NoManifests)
        else Ok(Action(SyncWrites(applications, value.b), false, map[]))
    case TopLevelIsolation =>
      var text :- Rendered(env, value);
      Ok(Action([Write(binding.target, SetTopLevel(text))], false, map[]))
    case Identity =>
      var text :- Rendered(env, value);
      Ok(Action([Write(binding.target, SetScalar(binding.locator, text))], false, map[]))
    case _ => Err(BadTransform)
  }

  function OwnedFilename(transform: Transform): Option<string> {
    match transform
    case Channels => Some("notification_destinations.json")
    case ProvisioningState => Some("provisioning_state.json")
    case IsolationDefaults => Some("default_isolation_class.json")
    case _ => None
  }

  predicate IsChannel(channel: Json) {
    && channel.Obj?
    && HasKey(channel.fields, "kind")
    && HasKey(channel.fields, "name")
    && Get(channel.fields, "name").value.Str?
  }

  function ChannelName(channel: Json): seq<string> {
    if IsChannel(channel) then [Get(channel.fields, "name").value.s] else []
  }

  function Channel(channel: Json): Json {
    if IsChannel(channel) then
      Obj([Field("kind", Get(channel.fields, "kind").value), Field("name", Get(channel.fields, "name").value)])
    else Null
  }

  /** The fields an owned artifact starts with, before the marker and the version. */
  function Payload(env: Env, tree: Tree, dir: string, transform: Transform, value: Json): Result<seq<Field>, RenderError> {
    match transform
    case Channels =>
      if value.Arr? && forall i :: 0 <= i < |value.elements| ==> IsChannel(value.elements[i]) then
        var channels := SortBy(value.elements, ChannelName);
        Ok([Field("channels", Arr(seq(|channels|, i requires 0 <= i < |channels| => Channel(channels[i]))))])
      else Err(BadValue)
    case ProvisioningState =>
      if !value.Bool? then Err(BadValue)
      else
        var listing :- Listing(tree, dir);
        Ok([Field("bundles", Arr(Digests(env, tree, BundlePaths(listing), dir))), Field("enabled", value)])
    case IsolationDefaults =>
      if value.Str? then Ok([Field(ISOLATION_KEY, value)]) else Err(BadValue)
    case _ => Err(BadTransform)
  }

  function OwnedAction(env: Env, tree: Tree, binding: Binding, transform: Transform, value: Json): Result<Action, RenderError> {
    if !IsDirectory(binding.target) then Err(BadTarget)
    else if OwnedFilename(transform).None? then Err(BadTransform)
    else
      var payload :- Payload(env, tree, binding.target, transform, value);
      var listing :- Listing(tree, binding.target);
      var owned := binding.target + OwnedFilename(transform).value;
      var content := env.codec.emit(Obj(payload + [Field("marker", Str(YamlLens.MARKER)), Field("schema_version", Str("v1"))]));
      Ok(Action([Write(owned, Own(content))], false, RecordedIn(env, tree, binding.target, owned)))
  }

  function GatedAction(binding: Binding, value: Json): Result<Action, RenderError> {
    if !value.Bool? then Err(BadValue)
    else if !value.b then Ok(Action([], true, map[]))
    else Ok(Action([Write(binding.target, Adopt)], false, map[]))
  }

  /** The strategy handlers. */
  function ActionOf(env: Env, config: Json, tree: Tree, binding: Binding, entry: StrategyEntry): Result<Action, RenderError> {
    if entry.strategy.Unimplemented? then Err(Uncataloged)
    else
      var value :- LeafValue(config, binding.key);
      match entry.strategy
      case JsonPathPatch => JsonPathAction(env, binding, entry.transform, value)
      case YamlLinePatch => YamlLineAction(env, tree, binding, entry.transform, value)
      case OwnedArtifact => OwnedAction(env, tree, binding, entry.transform, value)
      case _ => GatedAction(binding, value)
  }

  datatype Job = Job(binding: Binding, entry: StrategyEntry, action: Action)

  function JobOf(env: Env, config: Json, tree: Tree, binding: Binding): Result<Job, RenderError> {
    var pair := (binding.key, binding.system);
    if pair !in env.catalog then Err(Uncataloged)
    else
      var action :- ActionOf(env, config, tree, binding, env.catalog[pair]);
      Ok(Job(binding, env.catalog[pair], action))
  }

  function Collect(env: Env, config: Json, tree: Tree, bindings: seq<Binding>): (r: Result<seq<Job>, RenderError>)
    ensures r.Ok? ==> |r.value| == |bindings|
  {
    if bindings == [] then Ok([])
    else
      var before :- Collect(env, config, tree, bindings[..|bindings| - 1]);
      var job :- JobOf(env, config, tree, bindings[|bindings| - 1]);
      Ok(before + [job])
  }

  function BindingKey(b: Binding): seq<string> {
    [b.target, b.key, b.system]
  }

  function Ordered(bindings: seq<Binding>): seq<Binding> {
    SortBy(bindings, BindingKey)
  }

  // ----- the accumulated state -----------------------------------------------------------

  function Current(tree: Tree, texts: map<string, string>, path: string): Option<string> {
    if path in texts then Some(texts[path]) else tree.Read(path)
  }

  /** Run patches in order over the texts rendered so far. */
  function WriteAll(env: Env, tree: Tree, texts: map<string, string>, writes: seq<Write>): (r: Result<map<string, string>, RenderError>)
    requires forall w :: w in writes ==> ValidOp(w.op)
    ensures r.Ok? ==> r.value.Keys == texts.Keys + Paths(writes)
    decreases |writes|
  {
    if writes == [] then Ok(texts)
    else
      var w := writes[0];
      var text :- Apply(env.codec, w.op, w.path, Current(tree, texts, w.path));
      if !env.inScope(w.path) then Err(OutOfScope(w.path))
      else
        assert writes == [w] + writes[1..];
        WriteAll(env, tree, texts[w.path := text], writes[1..])
  }

  function Paths(writes: seq<Write>): set<string> {
    set w | w in writes :: w.path
  }

  function FlatWrites(jobs: seq<Job>): seq<Write> {
    if jobs == [] then [] else FlatWrites(jobs[..|jobs| - 1]) + jobs[|jobs| - 1].action.writes
  }

  /** A rendered path and the binding that contributed to it. */
  datatype Contribution = Contribution(path: string, key: string, system: string, strategy: string)

  function Contributed(job: Job, writes: seq<Write>): (r: seq<Contribution>)
    ensures |r| == |writes| && forall i :: 0 <= i < |r| ==> r[i].path == writes[i].path
  {
    seq(|writes|, i requires 0 <= i < |writes| =>
      Contribution(writes[i].path, job.binding.key, job.binding.system, job.entry.strategy.Name()))
  }

  function Contributions(jobs: seq<Job>): (r: seq<Contribution>)
    ensures |r| == |FlatWrites(jobs)| && forall i :: 0 <= i < |r| ==> r[i].path == FlatWrites(jobs)[i].path
  {
    if jobs == [] then []
    else
      var job := jobs[|jobs| - 1];
      Contributions(jobs[..|jobs| - 1]) + Contributed(job, job.action.writes)
  }

  function SkipOf(job: Job): Contribution {
    Contribution(job.binding.target, job.binding.key, job.binding.system, job.entry.strategy.Name())
  }

  function Skips(jobs: seq<Job>): seq<Contribution> {
    if jobs == [] then []
    else
      var job := jobs[|jobs| - 1];
      Skips(jobs[..|jobs| - 1]) + if job.action.skipped then [SkipOf(job)] else []
  }

  /** The first digest recorded for a path stays. */
  function Records(jobs: seq<Job>): map<string, string> {
    if jobs == [] then map[]
    else jobs[|jobs| - 1].action.recorded + Records(jobs[..|jobs| - 1])
  }

  // ----- the plan -----------------------------------------------------------------------------

  datatype Artifact = Artifact(path: string, content: string, strategy: string, key: string, system: string)

  datatype Plan = Plan(
    schemaVersion: string,
    digest: string,
    artifacts: seq<Artifact>,
    skipped: seq<Contribution>,
    recorded: seq<(string, string)>,
    manifestPath: string,
    manifest: string)

  function SortedContributions(contributions: seq<Contribution>): (r: seq<Contribution>)
    ensures multiset(r) == multiset(contributions)
  {
    SortBy(contributions, (c: Contribution) => [c.path, c.key, c.system])
  }

  lemma SortedPaths(contributions: seq<Contribution>, paths: set<string>)
    requires forall c :: c in contributions ==> c.path in paths
    ensures forall c :: c in SortedContributions(contributions) ==> c.path in paths
  {
    var sorted := SortedContributions(contributions);
    forall c | c in sorted ensures c.path in paths {
      assert c in multiset(sorted);
    }
  }

  function Artifacts(contributions: seq<Contribution>, texts: map<string, string>): (r: seq<Artifact>)
    requires forall c :: c in contributions ==> c.path in texts
    ensures |r| == |contributions|
    ensures forall i :: 0 <= i < |r| ==> r[i].path == contributions[i].path && r[i].content == texts[r[i].path]
  {
    seq(|contributions|, i requires 0 <= i < |contributions| =>
      var c := contributions[i];
      assert c in contributions;
      Artifact(c.path, texts[c.path], c.strategy, c.key, c.system))
  }

  function RecordedFiles(recorded: map<string, string>, paths: seq<string>): seq<(string, string)>
    requires forall p :: p in paths ==> p in recorded
  {
    if paths == [] then [] else [(paths[0], recorded[paths[0]])] + RecordedFiles(recorded, paths[1..])
  }

  function ArtifactJson(env: Env, a: Artifact): Json {
    Obj([Field("path", Str(a.path)), Field("sha256", Str(env.sha(a.content))), Field("strategy", Str(a.strategy)),
         Field("system", Str(a.system)), Field("unified_key", Str(a.key))])
  }

  function SkipJson(c: Contribution): Json {
    Obj([Field("path", Str(c.path)), Field("reason", Str("gate-false")), Field("strategy", Str(c.strategy)),
         Field("system", Str(c.system)), Field("unified_key", Str(c.key))])
  }

  function RecordJson(r: (string, string)): Json {
    Obj([Field("path", Str(r.0)), Field("sha256", Str(r.1))])
  }

  function ManifestJson(env: Env, digest: string, artifacts: seq<Artifact>, skipped: seq<Contribution>, recorded: seq<(string, string)>): Json {
    Obj([
      Field("artifacts", Arr(seq(|artifacts|, i requires 0 <= i < |artifacts| => ArtifactJson(env, artifacts[i])))),
      Field("document_digest", Str(digest)),
      Field("marker", Str(YamlLens.MARKER)),
      Field("recorded", Arr(seq(|recorded|, i requires 0 <= i < |recorded| => RecordJson(recorded[i])))),
      Field("schema_version", Str("v1")),
      Field("skipped", Arr(seq(|skipped|, i requires 0 <= i < |skipped| => SkipJson(skipped[i]))))])
  }

  /** `_build_manifest`. */
  function Manifest(env: Env, digest: string, artifacts: seq<Artifact>, skipped: seq<Contribution>, recorded: seq<(string, string)>): string {
    env.codec.emit(ManifestJson(env, digest, artifacts, skipped, recorded))
  }

  /** The plan made of the accumulated state. */
  function Finish(env: Env, doc: Document, texts: map<string, string>, contributions: seq<Contribution>,
                  skips: seq<Contribution>, records: map<string, string>): (plan: Plan)
    requires forall c :: c in contributions ==> c.path in texts
    ensures forall a :: a in plan.artifacts ==> a.path in texts && a.content == texts[a.path]
    ensures forall c :: c in contributions ==> exists a :: a in plan.artifacts && a.path == c.path
    ensures plan.manifestPath == env.manifestPath
  {
    var sorted := SortedContributions(contributions);
    SortedPaths(contributions, texts.Keys);
    var artifacts := Artifacts(sorted, texts);
    var skipped := SortBy(skips, (c: Contribution) => [c.path, c.key]);
    var recorded := RecordedFiles(records, Sorted(records.Keys, false));
    var digest := "sha256:" + env.sha(doc.raw);
    ArtifactsCover(contributions, texts);
    Plan(doc.schemaVersion, digest, artifacts, skipped, recorded, env.manifestPath, Manifest(env, digest, artifacts, skipped, recorded))
  }

  lemma ArtifactsCover(contributions: seq<Contribution>, texts: map<string, string>)
    requires forall c :: c in contributions ==> c.path in texts
    requires forall c :: c in SortedContributions(contributions) ==> c.path in texts
    ensures var artifacts := Artifacts(SortedContributions(contributions), texts);
            forall c :: c in contributions ==> exists a :: a in artifacts && a.path == c.path
  {
    var sorted := SortedContributions(contributions);
    var artifacts := Artifacts(sorted, texts);
    forall c | c in contributions ensures exists a :: a in artifacts && a.path == c.path {
      assert c in multiset(contributions) && c in multiset(sorted);
      var i :| 0 <= i < |sorted| && sorted[i] == c;
      assert artifacts[i] in artifacts;
    }
  }

  lemma {:induction false} OpsValid(env: Env, config: Json, tree: Tree, bindings: seq<Binding>)
    requires Collect(env, config, tree, bindings).Ok?
    ensures forall w :: w in FlatWrites(Collect(env, config, tree, bindings).value) ==> ValidOp(w.op)
  {
    if bindings != [] {
      var jobs := Collect(env, config, tree, bindings).value;
      var n := |bindings| - 1;
      OpsValid(env, config, tree, bindings[..n]);
      assert jobs[..n] == Collect(env, config, tree, bindings[..n]).value;
      JobOpsValid(env, config, tree, bindings[n]);
    }
  }

  lemma JobOpsValid(env: Env, config: Json, tree: Tree, binding: Binding)
    requires JobOf(env, config, tree, binding).Ok?
    ensures forall w :: w in JobOf(env, config, tree, binding).value.action.writes ==> ValidOp(w.op)
  {
    hide Payload, Listing, LeafValue, RecordedIn, Rendered, Applications;
    var writes := JobOf(env, config, tree, binding).value.action.writes;
    forall w | w in writes ensures ValidOp(w.op) {
      var i :| 0 <= i < |writes| && writes[i] == w;
    }
  }

  lemma ContributionsIn(jobs: seq<Job>)
    ensures forall c :: c in Contributions(jobs) ==> c.path in Paths(FlatWrites(jobs))
  {
    var writes := FlatWrites(jobs);
    var cs := Contributions(jobs);
    forall c | c in cs ensures c.path in Paths(writes) {
      var i :| 0 <= i < |cs| && cs[i] == c;
      assert writes[i] in writes && writes[i].path == c.path;
    }
  }

  /** `plan_render`, for a document that passed validation. */
  function PlanRender(env: Env, doc: Document, tree: Tree): Result<Plan, RenderError> {
    var jobs :- Collect(env, doc.config, tree, Ordered(doc.bindings));
    OpsValid(env, doc.config, tree, Ordered(doc.bindings));
    var texts :- WriteAll(env, tree, map[], FlatWrites(jobs));
    ContributionsIn(jobs);
    Ok(Finish(env, doc, texts, Contributions(jobs), Skips(jobs), Records(jobs)))
  }

  // ----- writing and comparing --------------------------------------------------------------------

  function Parents(path: string): set<string> {
    set i | 0 <= i < |path| && path[i] == '/' :: path[..i + 1]
  }

  /** The artifacts without those whose path an earlier one already has. */
  function Unique(artifacts: seq<Artifact>): (r: seq<Artifact>)
    ensures forall a :: a in r ==> a in artifacts
    ensures forall i, j :: 0 <= i < j < |r| ==> r[i].path != r[j].path
  {
    if artifacts == [] then []
    else
      var before := Unique(artifacts[..|artifacts| - 1]);
      var last := artifacts[|artifacts| - 1];
      assert artifacts == artifacts[..|artifacts| - 1] + [last];
      if exists i :: 0 <= i < |before| && before[i].path == last.path then before else before + [last]
  }

  lemma {:induction false} UniqueCovers(artifacts: seq<Artifact>, a: Artifact)
    requires a in artifacts
    ensures exists i :: 0 <= i < |Unique(artifacts)| && Unique(artifacts)[i].path == a.path
  {
    var n := |artifacts| - 1;
    var before := Unique(artifacts[..n]);
    assert artifacts == artifacts[..n] + [artifacts[n]];
    if a in artifacts[..n] {
      UniqueCovers(artifacts[..n], a);
      var i :| 0 <= i < |before| && before[i].path == a.path;
      assert Unique(artifacts)[i] == before[i];
    } else {
      assert a == artifacts[n];
      if i :| 0 <= i < |before| && before[i].path == a.path {
        assert Unique(artifacts)[i] == before[i];
      } else {
        assert Unique(artifacts)[|before|] == a;
      }
    }
  }

  function WriteFile(tree: Tree, path: string, content: string): Tree {
    Tree(tree.files[path := content], tree.dirs + Parents(path))
  }

  function WriteFiles(tree: Tree, artifacts: seq<Artifact>): Tree {
    if artifacts == [] then tree
    else
      var last := artifacts[|artifacts| - 1];
      WriteFile(WriteFiles(tree, artifacts[..|artifacts| - 1]), last.path, last.content)
  }

  /** `execute_plan`. */
  function Execute(plan: Plan, tree: Tree): Tree {
    WriteFile(WriteFiles(tree, Unique(plan.artifacts)), plan.manifestPath, plan.manifest)
  }

  /** Planned artifacts whose file is missing or holds something else. */
  function Diverging(artifacts: seq<Artifact>, tree: Tree): (r: seq<Artifact>)
    ensures forall a :: a in r <==> a in artifacts && tree.Get(a.path) != Some(a.content)
    ensures r == [] <==> forall a :: a in artifacts ==> tree.Get(a.path) == Some(a.content)
  {
    if artifacts == [] then []
    else
      var before := Diverging(artifacts[..|artifacts| - 1], tree);
      var last := artifacts[|artifacts| - 1];
      assert artifacts == artifacts[..|artifacts| - 1] + [last];
      if tree.Get(last.path) == Some(last.content) then before else before + [last]
  }

  function PathsOf(artifacts: seq<Artifact>): (r: seq<string>)
    ensures |r| == |artifacts| && forall i :: 0 <= i < |r| ==> r[i] == artifacts[i].path
  {
    seq(|artifacts|, i requires 0 <= i < |artifacts| => artifacts[i].path)
  }

  /** `changed_paths`. */
  function ChangedPaths(plan: Plan, tree: Tree): seq<string> {
    PathsOf(Diverging(Unique(plan.artifacts), tree))
    + if tree.Get(plan.manifestPath) == Some(plan.manifest) then [] else [plan.manifestPath]
  }
}
