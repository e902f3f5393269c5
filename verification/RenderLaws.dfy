/** Rendering is a fixpoint on the tree, and rolling back is exact. */
module RenderLaws {
  import opened Results
  import opened Text
  import opened Json
  import opened Ordering
  import opened RenderOps
  import opened RenderPlan
  import opened JsonPatch
  import YamlLens

  // ----- the fold, one file at a time ------------------------------------------------

  /** The patches of one file. */
  function OpsAt(writes: seq<Write>, path: string): (ops: seq<Op>)
    ensures forall op :: op in ops <==> Write(path, op) in writes
    ensures path !in Paths(writes) ==> ops == []
  {
    if writes == [] then []
    else
      assert writes == [writes[0]] + writes[1..];
      if writes[0].path == path then [writes[0].op] + OpsAt(writes[1..], path) else OpsAt(writes[1..], path)
  }

  ghost predicate AllValid(writes: seq<Write>) {
    forall w :: w in writes ==> ValidOp(w.op)
  }

  /** What the patches of one file make of it. */
  function Outcome(env: Env, writes: seq<Write>, path: string, text: Option<string>): Result<Option<string>, RenderError>
    requires AllValid(writes)
  {
    RunOps(env.codec, OpsAt(writes, path), path, text)
  }

  ghost predicate AllInScope(env: Env, writes: seq<Write>) {
    forall w :: w in writes ==> env.inScope(w.path)
  }

  ghost predicate EveryOutcomeOk(env: Env, tree: Tree, texts: map<string, string>, writes: seq<Write>)
    requires AllValid(writes)
  {
    forall p :: p in Paths(writes) ==> Outcome(env, writes, p, Current(tree, texts, p)).Ok?
  }

  ghost predicate HoldsOutcomes(env: Env, tree: Tree, texts: map<string, string>, writes: seq<Write>, result: map<string, string>)
    requires AllValid(writes)
  {
    && result.Keys == texts.Keys + Paths(writes)
    && forall p :: p in result ==> Outcome(env, writes, p, Current(tree, texts, p)) == Ok(Some(result[p]))
  }

  /** Interleaved patches act on each file alone: the fold succeeds exactly when every
      file's own patches do, and leaves each file what its own patches make of it. */
  lemma {:induction false} FileByFile(env: Env, tree: Tree, texts: map<string, string>, writes: seq<Write>)
    requires AllValid(writes)
    ensures WriteAll(env, tree, texts, writes).Ok? <==> AllInScope(env, writes) && EveryOutcomeOk(env, tree, texts, writes)
    ensures WriteAll(env, tree, texts, writes).Ok? ==>
              HoldsOutcomes(env, tree, texts, writes, WriteAll(env, tree, texts, writes).value)
    decreases |writes|
  {
    hide Apply, ValidOp, Outcome, EveryOutcomeOk, HoldsOutcomes, AllInScope;
    if writes == [] {
      NoWrites(env, tree, texts, writes);
    } else {
      var w := writes[0];
      var rest := writes[1..];
      assert writes == [w] + rest;
      var r := Apply(env.codec, w.op, w.path, Current(tree, texts, w.path));
      OutcomeFails(env, tree, texts, writes);
      if r.Ok? && env.inScope(w.path) {
        var texts' := texts[w.path := r.value];
        FileByFile(env, tree, texts', rest);
        forall p ensures Outcome(env, writes, p, Current(tree, texts, p)) == Outcome(env, rest, p, Current(tree, texts', p)) {
          OutcomeStep(env, tree, texts, writes, r.value, p);
        }
        FirstOutcome(env, tree, texts, writes, texts');
      }
    }
  }

  lemma OutcomeStep(env: Env, tree: Tree, texts: map<string, string>, writes: seq<Write>, text: string, p: string)
    requires writes != [] && AllValid(writes) && AllValid(writes[1..])
    requires Apply(env.codec, writes[0].op, writes[0].path, Current(tree, texts, writes[0].path)) == Ok(text)
    ensures Outcome(env, writes, p, Current(tree, texts, p)) == Outcome(env, writes[1..], p, Current(tree, texts[writes[0].path := text], p))
  {
    hide Apply, ValidOp;
    if p == writes[0].path {
      assert OpsAt(writes, p)[1..] == OpsAt(writes[1..], p);
    }
  }

  lemma NoWrites(env: Env, tree: Tree, texts: map<string, string>, writes: seq<Write>)
    requires writes == []
    ensures AllInScope(env, writes) && EveryOutcomeOk(env, tree, texts, writes) && HoldsOutcomes(env, tree, texts, writes, texts)
  {
  }

  lemma OutcomeFails(env: Env, tree: Tree, texts: map<string, string>, writes: seq<Write>)
    requires writes != [] && AllValid(writes)
    requires ValidOp(writes[0].op)
    ensures Apply(env.codec, writes[0].op, writes[0].path, Current(tree, texts, writes[0].path)).Err? ==> !EveryOutcomeOk(env, tree, texts, writes)
    ensures !env.inScope(writes[0].path) ==> !AllInScope(env, writes)
  {
    hide Apply, ValidOp;
    assert writes[0].path in Paths(writes);
  }

  lemma FirstOutcome(env: Env, tree: Tree, texts: map<string, string>, writes: seq<Write>, texts': map<string, string>)
    requires writes != [] && AllValid(writes) && AllValid(writes[1..])
    requires env.inScope(writes[0].path)
    requires Apply(env.codec, writes[0].op, writes[0].path, Current(tree, texts, writes[0].path)).Ok?
    requires texts' == texts[writes[0].path := Apply(env.codec, writes[0].op, writes[0].path, Current(tree, texts, writes[0].path)).value]
    requires forall p :: Outcome(env, writes, p, Current(tree, texts, p)) == Outcome(env, writes[1..], p, Current(tree, texts', p))
    ensures AllInScope(env, writes) == AllInScope(env, writes[1..])
    ensures EveryOutcomeOk(env, tree, texts, writes) == EveryOutcomeOk(env, tree, texts', writes[1..])
    ensures forall result :: HoldsOutcomes(env, tree, texts', writes[1..], result) ==> HoldsOutcomes(env, tree, texts, writes, result)
  {
    hide Apply, ValidOp, Outcome;
    var w := writes[0];
    var rest := writes[1..];
    assert writes == [w] + rest;
    assert Paths(writes) == {w.path} + Paths(rest);
    if w.path !in Paths(rest) {
      assert Outcome(env, rest, w.path, Current(tree, texts', w.path)) == Ok(Some(texts'[w.path])) by {
        NoPatchNoChange(env, rest, w.path, texts'[w.path]);
      }
    }
  }

  lemma NoPatchNoChange(env: Env, writes: seq<Write>, path: string, text: string)
    requires AllValid(writes) && path !in Paths(writes)
    ensures Outcome(env, writes, path, Some(text)) == Ok(Some(text))
  {
    var ops := OpsAt(writes, path);
    assert ops == [];
  }

  // ----- planning again on a tree the first plan wrote ----------------------------------

  /** The trees agree outside a set of paths, and no directory went away. */
  ghost predicate Agree(a: Tree, b: Tree, outside: set<string>) {
    && a.dirs <= b.dirs
    && forall p :: p !in outside ==> a.Get(p) == b.Get(p)
  }

  /** An owned directory holds no written path but the job's own artifact. */
  ghost predicate Isolated(job: Job, paths: set<string>) {
    job.entry.strategy == OwnedArtifact && OwnedFilename(job.entry.transform).Some? ==>
      forall p :: p in paths && StartsWith(p, job.binding.target) ==>
        p == job.binding.target + OwnedFilename(job.entry.transform).value
  }

  /** The job patches every manifest of a directory. */
  predicate Syncs(job: Job) {
    job.entry.strategy == YamlLinePatch && job.entry.transform == SyncPolicyBlock
  }

  /** Two trees hold the same manifests in the directory the job patches. */
  ghost predicate SameManifests(job: Job, a: Tree, b: Tree) {
    Syncs(job) ==> forall p :: IsApplication(p, job.binding.target) ==> (p in a.files <==> p in b.files)
  }

  ghost predicate Steady(jobs: seq<Job>, paths: set<string>, a: Tree, b: Tree) {
    forall job :: job in jobs ==> Isolated(job, paths) && SameManifests(job, a, b)
  }

  /** Strictly ascending in path order. */
  ghost predicate Ascending(paths: seq<string>) {
    forall i, j :: 0 <= i < j < |paths| ==> paths[i] != paths[j] && Leq(paths[i], paths[j], true)
  }

  lemma AscendingHead(p: string, rest: seq<string>)
    requires Ascending(rest)
    requires forall q :: q in rest ==> p != q && Leq(p, q, true)
    ensures Ascending([p] + rest)
  {
    var paths := [p] + rest;
    forall i, j | 0 <= i < j < |paths| ensures paths[i] != paths[j] && Leq(paths[i], paths[j], true) {
      assert paths[j] == rest[j - 1] && rest[j - 1] in rest;
    }
  }

  lemma HeadIn(paths: seq<string>)
    ensures paths != [] ==> paths[0] in paths
  {
  }

  lemma {:induction false} AscendingUnique(a: seq<string>, b: seq<string>)
    requires forall x :: x in a <==> x in b
    requires Ascending(a) && Ascending(b)
    ensures a == b
  {
    HeadIn(a);
    HeadIn(b);
    if a != [] {
      assert a[0] in b;
      if a[0] != b[0] {
        LeqAntisymmetric(a[0], b[0], true);
      }
      forall x ensures x in a[1..] <==> x in b[1..] {
        assert x in a <==> x == a[0] || x in a[1..];
        assert x in b <==> x == b[0] || x in b[1..];
      }
      AscendingUnique(a[1..], b[1..]);
    }
  }

  lemma {:induction false} BundlesAscend(listing: seq<string>)
    requires Ascending(listing)
    ensures Ascending(BundlePaths(listing))
  {
    if listing != [] {
      BundlesAscend(listing[1..]);
      var rest := BundlePaths(listing[1..]);
      forall p | p in rest ensures p != listing[0] && Leq(listing[0], p, true) {
        var k :| 0 <= k < |listing[1..]| && listing[1..][k] == p;
        assert listing[k + 1] == p;
      }
      AscendingHead(listing[0], rest);
    }
  }

  lemma {:induction false} ApplicationsAscend(listing: seq<string>, dir: string)
    requires Ascending(listing)
    ensures Ascending(Applications(listing, dir))
  {
    hide IsApplication;
    if listing != [] {
      ApplicationsAscend(listing[1..], dir);
      var rest := Applications(listing[1..], dir);
      forall p | p in rest ensures p != listing[0] && Leq(listing[0], p, true) {
        var k :| 0 <= k < |listing[1..]| && listing[1..][k] == p;
        assert listing[k + 1] == p;
      }
      AscendingHead(listing[0], rest);
    }
  }

  /** The manifests to patch depend on nothing but which of them exist. */
  lemma ApplicationsSame(a: Tree, b: Tree, dir: string)
    requires Listing(a, dir).Ok? && dir in b.dirs
    requires forall p :: IsApplication(p, dir) ==> (p in a.files <==> p in b.files)
    ensures Listing(b, dir).Ok? && Applications(Listing(b, dir).value, dir) == Applications(Listing(a, dir).value, dir)
  {
    hide Leq, EndsWith;
    var la := Listing(a, dir).value;
    var lb := Listing(b, dir).value;
    ApplicationsAscend(la, dir);
    ApplicationsAscend(lb, dir);
    AscendingUnique(Applications(la, dir), Applications(lb, dir));
  }

  lemma OwnedIsNoBundle(transform: Transform, dir: string)
    requires OwnedFilename(transform).Some?
    ensures !EndsWith(dir + OwnedFilename(transform).value, ".ndjson")
  {
    var name := OwnedFilename(transform).value;
    var path := dir + name;
    assert |name| >= 7 && path[|path| - 7] == name[|name| - 7];
    assert path[|path| - 7..][0] == path[|path| - 7];
  }

  lemma PayloadSame(env: Env, a: Tree, b: Tree, dir: string, transform: Transform, value: Json)
    requires OwnedFilename(transform).Some? && Payload(env, a, dir, transform, value).Ok?
    requires dir in a.dirs ==> dir in b.dirs
    requires forall p :: StartsWith(p, dir) && p != dir + OwnedFilename(transform).value ==> a.Get(p) == b.Get(p)
    ensures Payload(env, b, dir, transform, value) == Payload(env, a, dir, transform, value)
  {
    hide OwnedFilename, StartsWith, EndsWith, Leq, BundlePaths, Digests;
    if transform == ProvisioningState {
      var la := Listing(a, dir).value;
      var lb := Listing(b, dir).value;
      OwnedIsNoBundle(transform, dir);
      BundlesAscend(la);
      BundlesAscend(lb);
      var paths := BundlePaths(la);
      forall p ensures p in paths <==> p in BundlePaths(lb) {
        if EndsWith(p, ".ndjson") && StartsWith(p, dir) {
          assert a.Get(p) == b.Get(p);
        }
      }
      AscendingUnique(paths, BundlePaths(lb));
      DigestsSame(env, a, b, paths, dir);
    }
  }

  /** An owned artifact is planned from the files it does not own. */
  lemma OwnedActionSame(env: Env, a: Tree, b: Tree, binding: Binding, transform: Transform, value: Json, outside: set<string>)
    requires Agree(a, b, outside) && OwnedAction(env, a, binding, transform, value).Ok?
    requires forall p :: p in outside && StartsWith(p, binding.target) ==> p == binding.target + OwnedFilename(transform).value
    ensures OwnedAction(env, b, binding, transform, value) == OwnedAction(env, a, binding, transform, value)
  {
    hide OwnedFilename, StartsWith, EndsWith, Payload, Sorted;
    var dir := binding.target;
    var owned := dir + OwnedFilename(transform).value;
    assert forall p :: StartsWith(p, dir) && p != owned ==> a.Get(p) == b.Get(p);
    PayloadSame(env, a, b, dir, transform, value);
    assert RecordedIn(env, a, dir, owned) == RecordedIn(env, b, dir, owned);
  }

  lemma {:induction false} DigestsSame(env: Env, a: Tree, b: Tree, paths: seq<string>, dir: string)
    requires forall p :: p in paths ==> p in a.files && StartsWith(p, dir)
    requires forall p :: p in paths ==> a.Get(p) == b.Get(p)
    requires forall p :: p in paths ==> p in b.files
    ensures Digests(env, a, paths, dir) == Digests(env, b, paths, dir)
  {
    if paths != [] {
      assert paths[0] in paths;
      DigestsSame(env, a, b, paths[1..], dir);
    }
  }

  lemma JobSame(env: Env, config: Json, a: Tree, b: Tree, binding: Binding, outside: set<string>)
    requires Agree(a, b, outside) && JobOf(env, config, a, binding).Ok?
    requires Isolated(JobOf(env, config, a, binding).value, outside) && SameManifests(JobOf(env, config, a, binding).value, a, b)
    ensures JobOf(env, config, b, binding) == JobOf(env, config, a, binding)
  {
    hide OwnedAction, LeafValue, Rendered, Listing, Applications, IsApplication;
    if Syncs(JobOf(env, config, a, binding).value) {
      ListedDirectory(a, b, binding.target);
      ApplicationsSame(a, b, binding.target);
    }
    var entry := env.catalog[(binding.key, binding.system)];
    if entry.strategy == OwnedArtifact {
      var value := LeafValue(config, binding.key).value;
      OwnedSucceeds(env, a, binding, entry.transform, value);
      OwnedActionSame(env, a, b, binding, entry.transform, value, outside);
    }
  }

  lemma ListedDirectory(a: Tree, b: Tree, dir: string)
    requires Listing(a, dir).Ok? && a.dirs <= b.dirs
    ensures dir in b.dirs
  {
  }

  lemma OwnedSucceeds(env: Env, tree: Tree, binding: Binding, transform: Transform, value: Json)
    requires OwnedAction(env, tree, binding, transform, value).Ok?
    ensures OwnedFilename(transform).Some?
  {
  }

  lemma {:induction false} CollectSame(env: Env, config: Json, a: Tree, b: Tree, bindings: seq<Binding>, outside: set<string>)
    requires Agree(a, b, outside) && Collect(env, config, a, bindings).Ok?
    requires Steady(Collect(env, config, a, bindings).value, outside, a, b)
    ensures Collect(env, config, b, bindings) == Collect(env, config, a, bindings)
  {
    hide JobOf, Isolated, SameManifests;
    if bindings != [] {
      var n := |bindings| - 1;
      var jobs := Collect(env, config, a, bindings).value;
      assert forall job :: job in jobs[..n] ==> job in jobs;
      CollectSame(env, config, a, b, bindings[..n], outside);
      assert jobs[n] in jobs;
      JobSame(env, config, a, b, bindings[n], outside);
    }
  }

  /** The jobs and the texts of a plan. */
  function JobsOf(env: Env, doc: Document, tree: Tree): seq<Job>
    requires PlanRender(env, doc, tree).Ok?
  {
    Collect(env, doc.config, tree, Ordered(doc.bindings)).value
  }

  lemma JobWritesValid(env: Env, doc: Document, tree: Tree)
    requires PlanRender(env, doc, tree).Ok?
    ensures AllValid(FlatWrites(JobsOf(env, doc, tree)))
  {
    OpsValid(env, doc.config, tree, Ordered(doc.bindings));
  }

  function TextsOf(env: Env, doc: Document, tree: Tree): map<string, string>
    requires PlanRender(env, doc, tree).Ok?
  {
    JobWritesValid(env, doc, tree);
    WriteAll(env, tree, map[], FlatWrites(JobsOf(env, doc, tree))).value
  }

  /** Every path a render of the document writes. */
  function WrittenPaths(env: Env, doc: Document, tree: Tree): set<string>
    requires PlanRender(env, doc, tree).Ok?
  {
    Paths(FlatWrites(JobsOf(env, doc, tree))) + {env.manifestPath}
  }

  lemma SamePlan(env: Env, doc: Document, a: Tree, b: Tree)
    requires PlanRender(env, doc, a).Ok? && AllValid(FlatWrites(JobsOf(env, doc, a)))
    requires Collect(env, doc.config, b, Ordered(doc.bindings)) == Ok(JobsOf(env, doc, a))
    requires WriteAll(env, b, map[], FlatWrites(JobsOf(env, doc, a))) == Ok(TextsOf(env, doc, a))
    ensures PlanRender(env, doc, b) == PlanRender(env, doc, a)
  {
    hide Collect, FlatWrites, Finish, WriteAll, Contributions, Skips, Records;
  }

  lemma SameTexts(env: Env, a: Tree, b: Tree, writes: seq<Write>, texts: map<string, string>)
    requires AllValid(writes) && WriteAll(env, a, map[], writes) == Ok(texts)
    requires forall p :: p in texts ==> Outcome(env, writes, p, b.Read(p)) == Ok(Some(texts[p]))
    ensures WriteAll(env, b, map[], writes) == Ok(texts)
  {
    hide Outcome, WriteAll;
    FileByFile(env, a, map[], writes);
    FileByFile(env, b, map[], writes);
    assert forall p :: p in Paths(writes) ==> p in texts && Current(b, map[], p) == b.Read(p);
    assert WriteAll(env, b, map[], writes).value == texts;
  }

  /** Planning again gives the same plan on every tree that agrees outside what was
      written and whose files the same patches turn into the same texts. */
  lemma Replan(env: Env, doc: Document, a: Tree, b: Tree)
    requires PlanRender(env, doc, a).Ok?
    requires Agree(a, b, WrittenPaths(env, doc, a)) && Steady(JobsOf(env, doc, a), WrittenPaths(env, doc, a), a, b)
    requires AllValid(FlatWrites(JobsOf(env, doc, a)))
    requires forall p :: p in TextsOf(env, doc, a) ==>
               Outcome(env, FlatWrites(JobsOf(env, doc, a)), p, b.Read(p)) == Ok(Some(TextsOf(env, doc, a)[p]))
    ensures PlanRender(env, doc, b) == PlanRender(env, doc, a)
  {
    hide Collect, FlatWrites, Finish, Outcome, Steady, Agree, Contributions, WriteAll, Skips, Records, Paths, AllValid;
    var writes := FlatWrites(JobsOf(env, doc, a));
    var texts := TextsOf(env, doc, a);
    CollectSame(env, doc.config, a, b, Ordered(doc.bindings), WrittenPaths(env, doc, a));
    SameTexts(env, a, b, writes, texts);
    SamePlan(env, doc, a, b);
  }

  // ----- what writing a plan does to the tree ---------------------------------------------

  ghost predicate Absent(artifacts: seq<Artifact>, path: string) {
    forall i :: 0 <= i < |artifacts| ==> artifacts[i].path != path
  }

  lemma {:induction false} WriteFilesMisses(tree: Tree, artifacts: seq<Artifact>, path: string)
    requires Absent(artifacts, path)
    ensures WriteFiles(tree, artifacts).Get(path) == tree.Get(path)
  {
    if artifacts != [] {
      WriteFilesMisses(tree, artifacts[..|artifacts| - 1], path);
    }
  }

  lemma {:induction false} WriteFilesHits(tree: Tree, artifacts: seq<Artifact>, i: nat)
    requires forall i, j :: 0 <= i < j < |artifacts| ==> artifacts[i].path != artifacts[j].path
    requires i < |artifacts|
    ensures WriteFiles(tree, artifacts).Get(artifacts[i].path) == Some(artifacts[i].content)
  {
    var n := |artifacts| - 1;
    if i < n {
      WriteFilesHits(tree, artifacts[..n], i);
      assert artifacts[..n][i] == artifacts[i];
    }
  }

  lemma {:induction false} WriteFilesDirs(tree: Tree, artifacts: seq<Artifact>)
    ensures tree.dirs <= WriteFiles(tree, artifacts).dirs
  {
    if artifacts != [] {
      WriteFilesDirs(tree, artifacts[..|artifacts| - 1]);
    }
  }

  function ArtifactPaths(plan: Plan): set<string> {
    set a | a in plan.artifacts :: a.path
  }

  /** All contributions to one file carry its one final content. */
  ghost predicate Consistent(plan: Plan) {
    forall a, b :: a in plan.artifacts && b in plan.artifacts && a.path == b.path ==> a.content == b.content
  }

  lemma ExecuteFacts(plan: Plan, tree: Tree)
    requires Consistent(plan)
    ensures forall a :: a in plan.artifacts && a.path != plan.manifestPath ==> Execute(plan, tree).Get(a.path) == Some(a.content)
    ensures Execute(plan, tree).Get(plan.manifestPath) == Some(plan.manifest)
    ensures Agree(tree, Execute(plan, tree), ArtifactPaths(plan) + {plan.manifestPath})
  {
    var unique := Unique(plan.artifacts);
    WriteFilesDirs(tree, unique);
    forall a | a in plan.artifacts && a.path != plan.manifestPath ensures Execute(plan, tree).Get(a.path) == Some(a.content) {
      UniqueCovers(plan.artifacts, a);
      var i :| 0 <= i < |unique| && unique[i].path == a.path;
      assert unique[i] in plan.artifacts;
      WriteFilesHits(tree, unique, i);
    }
    forall p | p !in ArtifactPaths(plan) + {plan.manifestPath} ensures Execute(plan, tree).Get(p) == tree.Get(p) {
      assert forall i :: 0 <= i < |unique| ==> unique[i] in plan.artifacts;
      WriteFilesMisses(tree, unique, p);
    }
  }

  lemma PlanIs(env: Env, doc: Document, tree: Tree)
    requires PlanRender(env, doc, tree).Ok?
    ensures TextsOf(env, doc, tree).Keys == Paths(FlatWrites(JobsOf(env, doc, tree)))
    ensures var jobs := JobsOf(env, doc, tree);
            && (forall c :: c in Contributions(jobs) ==> c.path in TextsOf(env, doc, tree))
            && PlanRender(env, doc, tree).value ==
                 Finish(env, doc, TextsOf(env, doc, tree), Contributions(jobs), Skips(jobs), Records(jobs))
  {
    hide Collect, WriteAll, Finish, FlatWrites, Contributions, Skips, Records;
    ContributionsIn(JobsOf(env, doc, tree));
  }

  lemma ArtifactPathsAre(env: Env, doc: Document, tree: Tree, jobs: seq<Job>, texts: map<string, string>, plan: Plan)
    requires forall c :: c in Contributions(jobs) ==> c.path in texts
    requires plan == Finish(env, doc, texts, Contributions(jobs), Skips(jobs), Records(jobs))
    requires texts.Keys == Paths(FlatWrites(jobs))
    ensures ArtifactPaths(plan) == texts.Keys && Consistent(plan) && plan.manifestPath == env.manifestPath
    ensures forall a :: a in plan.artifacts ==> a.content == texts[a.path]
  {
    hide Finish, FlatWrites, Contributions, Skips, Records;
    var writes := FlatWrites(jobs);
    var cs := Contributions(jobs);
    forall p | p in Paths(writes) ensures p in ArtifactPaths(plan) {
      var w :| w in writes && w.path == p;
      var i :| 0 <= i < |writes| && writes[i] == w;
      assert cs[i] in cs && cs[i].path == p;
    }
  }

  /** The plan's artifacts are exactly the files the patches touched, with their texts. */
  lemma PlanFacts(env: Env, doc: Document, tree: Tree)
    requires PlanRender(env, doc, tree).Ok?
    ensures var plan := PlanRender(env, doc, tree).value;
            && Consistent(plan)
            && plan.manifestPath == env.manifestPath
            && ArtifactPaths(plan) == TextsOf(env, doc, tree).Keys == Paths(FlatWrites(JobsOf(env, doc, tree)))
            && forall a :: a in plan.artifacts ==> a.content == TextsOf(env, doc, tree)[a.path]
  {
    hide PlanRender, JobsOf, TextsOf, Finish, FlatWrites, Contributions, Skips, Records, ArtifactPaths, Consistent, Paths;
    PlanIs(env, doc, tree);
    ArtifactPathsAre(env, doc, tree, JobsOf(env, doc, tree), TextsOf(env, doc, tree), PlanRender(env, doc, tree).value);
  }

  /** After writing a plan no target differs, exactly when the manifest does not land
      on an artifact that holds something else: the residual check of a rollback. */
  lemma ResidualIff(plan: Plan, tree: Tree)
    requires Consistent(plan)
    ensures ChangedPaths(plan, Execute(plan, tree)) == [] <==>
            forall a :: a in plan.artifacts && a.path == plan.manifestPath ==> a.content == plan.manifest
  {
    var after := Execute(plan, tree);
    var unique := Unique(plan.artifacts);
    var diverging := Diverging(unique, after);
    ExecuteFacts(plan, tree);
    if a :| a in plan.artifacts && a.path == plan.manifestPath && a.content != plan.manifest {
      UniqueCovers(plan.artifacts, a);
      var i :| 0 <= i < |unique| && unique[i].path == a.path;
      assert unique[i] in unique && unique[i] in plan.artifacts;
      assert unique[i] in diverging;
    } else {
      assert forall a :: a in unique ==> after.Get(a.path) == Some(a.content);
    }
  }

  // ----- the fixpoint -----------------------------------------------------------------------

  ghost predicate PlainFit(writes: seq<Write>) {
    forall a, b :: a in writes && b in writes && a.path == b.path ==> PlainText(a.op) && PlainText(b.op) && Fit(a.op, b.op)
  }

  ghost predicate WritesFit(codec: Codec, writes: seq<Write>) {
    forall a, b :: a in writes && b in writes && a.path == b.path ==> Replaceable(codec, a.op) && Replaceable(codec, b.op) && Fit(a.op, b.op)
  }

  /** The job's owned directory holds no other written file, and the render manifest is no
      manifest of the directory the job patches. */
  ghost predicate Apart(env: Env, job: Job, paths: set<string>) {
    Isolated(job, paths) && (Syncs(job) ==> !IsApplication(env.manifestPath, job.binding.target))
  }

  /** The document and the tree one render needs to be repeatable: the configuration is one
      the codec reads, the patches of each file fit together and find the file as they need it, directories are kept apart, and
      the manifest is no artifact. */
  ghost predicate Settled(env: Env, doc: Document, tree: Tree)
    requires PlanRender(env, doc, tree).Ok?
  {
    var writes := FlatWrites(JobsOf(env, doc, tree));
    && Proper(env.codec.floats, doc.config)
    && PlainFit(writes)
    && (forall p :: p in Paths(writes) ==> Receptive(OpsAt(writes, p), tree.Read(p)))
    && (forall job :: job in JobsOf(env, doc, tree) ==> Apart(env, job, WrittenPaths(env, doc, tree)))
    && env.manifestPath !in Paths(writes)
  }

  lemma {:induction false} CollectedFrom(env: Env, config: Json, tree: Tree, bindings: seq<Binding>, i: nat)
    requires Collect(env, config, tree, bindings).Ok? && i < |bindings|
    ensures JobOf(env, config, tree, bindings[i]) == Ok(Collect(env, config, tree, bindings).value[i])
  {
    hide JobOf;
    var n := |bindings| - 1;
    if i < n {
      CollectedFrom(env, config, tree, bindings[..n], i);
    }
  }

  lemma {:induction false} WritesOfJob(jobs: seq<Job>, job: Job)
    requires job in jobs
    ensures forall w :: w in job.action.writes ==> w in FlatWrites(jobs)
  {
    var n := |jobs| - 1;
    assert jobs == jobs[..n] + [jobs[n]];
    if job in jobs[..n] {
      WritesOfJob(jobs[..n], job);
    }
  }

  /** What a job creates is an owned file, never a manifest. */
  lemma OwnedIsNoManifest(env: Env, config: Json, tree: Tree, binding: Binding, w: Write)
    requires JobOf(env, config, tree, binding).Ok?
    requires w in JobOf(env, config, tree, binding).value.action.writes && w.op.Own?
    ensures !EndsWith(w.path, ".yaml")
  {
    hide LeafValue, Payload, Listing, RecordedIn, Rendered, PatchValue, OwnedFilename;
    var name := OwnedFilename(env.catalog[(binding.key, binding.system)].transform);
    OwnedIsJson(env.catalog[(binding.key, binding.system)].transform, binding.target);
  }

  lemma OwnedIsJson(transform: Transform, dir: string)
    requires OwnedFilename(transform).Some?
    ensures !EndsWith(dir + OwnedFilename(transform).value, ".yaml")
  {
    var name := OwnedFilename(transform).value;
    var path := dir + name;
    assert |name| >= 5 && path[|path| - 4] == name[|name| - 4];
    assert path[|path| - 5..][1] == path[|path| - 4];
  }

  lemma {:induction false} FlatFrom(env: Env, config: Json, tree: Tree, bindings: seq<Binding>, w: Write)
    requires Collect(env, config, tree, bindings).Ok? && w in FlatWrites(Collect(env, config, tree, bindings).value)
    ensures exists i :: 0 <= i < |bindings| && JobOf(env, config, tree, bindings[i]).Ok?
              && w in JobOf(env, config, tree, bindings[i]).value.action.writes
  {
    hide JobOf;
    var n := |bindings| - 1;
    var jobs := Collect(env, config, tree, bindings).value;
    assert jobs[..n] == Collect(env, config, tree, bindings[..n]).value;
    if w in FlatWrites(jobs[..n]) {
      FlatFrom(env, config, tree, bindings[..n], w);
      var i :| 0 <= i < n && JobOf(env, config, tree, bindings[..n][i]).Ok? && w in JobOf(env, config, tree, bindings[..n][i]).value.action.writes;
      assert bindings[i] == bindings[..n][i];
    } else {
      assert w in JobOf(env, config, tree, bindings[n]).value.action.writes;
    }
  }

  /** A render adds no manifest: every written path that ends like one was there before. */
  lemma NoNewManifest(env: Env, doc: Document, tree: Tree, path: string)
    requires PlanRender(env, doc, tree).Ok? && EndsWith(path, ".yaml")
    requires path in Paths(FlatWrites(JobsOf(env, doc, tree)))
    ensures path in tree.files
  {
    hide Collect, FlatWrites, JobOf, Finish, Outcome, EndsWith;
    var writes := FlatWrites(JobsOf(env, doc, tree));
    CollectedOk(env, doc, tree);
    forall w | w in writes && w.path == path ensures !w.op.Own? {
      FlatFrom(env, doc.config, tree, Ordered(doc.bindings), w);
      if w.op.Own? {
        var i :| 0 <= i < |Ordered(doc.bindings)| && JobOf(env, doc.config, tree, Ordered(doc.bindings)[i]).Ok?
                 && w in JobOf(env, doc.config, tree, Ordered(doc.bindings)[i]).value.action.writes;
        OwnedIsNoManifest(env, doc.config, tree, Ordered(doc.bindings)[i], w);
      }
    }
    JobWritesValid(env, doc, tree);
    FileByFile(env, tree, map[], writes);
    assert Outcome(env, writes, path, tree.Read(path)).Ok?;
    NeedsFile(env, writes, path, tree.Read(path));
  }

  lemma NeedsFile(env: Env, writes: seq<Write>, path: string, text: Option<string>)
    requires AllValid(writes) && path in Paths(writes) && Outcome(env, writes, path, text).Ok?
    requires forall w :: w in writes && w.path == path ==> !w.op.Own?
    ensures text.Some?
  {
    var w :| w in writes && w.path == path;
    var ops := OpsAt(writes, path);
    assert w == Write(path, w.op);
    assert w.op in ops;
    assert ops[0] in ops;
    assert Write(path, ops[0]) in writes;
  }

  /** The jobs of a settled document depend on nothing a render writes. */
  lemma SettledSteady(env: Env, doc: Document, tree: Tree, after: Tree)
    requires PlanRender(env, doc, tree).Ok? && Settled(env, doc, tree)
    requires Agree(tree, after, WrittenPaths(env, doc, tree))
    requires forall p :: p in Paths(FlatWrites(JobsOf(env, doc, tree))) ==> p in after.files
    ensures Steady(JobsOf(env, doc, tree), WrittenPaths(env, doc, tree), tree, after)
  {
    hide PlanRender, Collect, JobOf, Isolated, FlatWrites, EndsWith, Paths, PlainFit;
    forall job | job in JobsOf(env, doc, tree) ensures Isolated(job, WrittenPaths(env, doc, tree)) && SameManifests(job, tree, after) {
      assert Apart(env, job, WrittenPaths(env, doc, tree));
      if Syncs(job) {
        forall p | IsApplication(p, job.binding.target) ensures p in tree.files <==> p in after.files {
          if p in Paths(FlatWrites(JobsOf(env, doc, tree))) {
            NoNewManifest(env, doc, tree, p);
          } else {
            assert p !in WrittenPaths(env, doc, tree);
            assert tree.Get(p) == after.Get(p);
          }
        }
      }
    }
  }

  lemma CollectedOk(env: Env, doc: Document, tree: Tree)
    requires PlanRender(env, doc, tree).Ok?
    ensures Collect(env, doc.config, tree, Ordered(doc.bindings)) == Ok(JobsOf(env, doc, tree))
  {
  }

  lemma FitAt(codec: Codec, writes: seq<Write>, others: seq<Write>, path: string)
    requires forall a, b :: a in writes && b in others && a.path == b.path ==>
               Replaceable(codec, a.op) && Replaceable(codec, b.op) && Fit(a.op, b.op)
    ensures FitTogether(codec, OpsAt(writes, path), OpsAt(others, path))
  {
    hide Fit, Replaceable;
    var xs := OpsAt(writes, path);
    var ys := OpsAt(others, path);
    forall x, y | x in xs && y in ys ensures Replaceable(codec, x) && Replaceable(codec, y) && Fit(x, y) {
      assert Write(path, x) in writes && Write(path, y) in others;
    }
  }

  lemma {:induction false} WalkProper(floats: real -> bool, node: Json, parts: seq<string>)
    requires Proper(floats, node) && RenderPlan.Walk(node, parts).Ok?
    ensures Proper(floats, RenderPlan.Walk(node, parts).value)
    decreases |parts|
  {
    if parts != [] {
      var child := Get(node.fields, parts[0]).value;
      var i :| 0 <= i < |node.fields| && node.fields[i] == Field(parts[0], child);
      WalkProper(floats, child, parts[1..]);
    }
  }

  /** What a binding sets in a JSON file is part of the configuration, or a text. */
  lemma SetsProper(env: Env, config: Json, tree: Tree, binding: Binding, w: Write)
    requires Proper(env.codec.floats, config) && JobOf(env, config, tree, binding).Ok?
    requires w in JobOf(env, config, tree, binding).value.action.writes && w.op.SetJson?
    ensures Proper(env.codec.floats, w.op.value)
  {
    hide Payload, Listing, RecordedIn, Rendered, OwnedFilename, RenderPlan.Walk;
    WalkProper(env.codec.floats, config, SplitOn(binding.key, '.'));
  }

  /** The patches of a settled document can be replaced again. */
  lemma SettledFits(env: Env, doc: Document, tree: Tree)
    requires PlanRender(env, doc, tree).Ok? && Settled(env, doc, tree)
    ensures WritesFit(env.codec, FlatWrites(JobsOf(env, doc, tree))) && env.manifestPath !in Paths(FlatWrites(JobsOf(env, doc, tree)))
  {
    hide PlanRender, Collect, FlatWrites, Fit, PlainText, Apart, Receptive;
    forall w | w in FlatWrites(JobsOf(env, doc, tree)) && w.op.SetJson? ensures Proper(env.codec.floats, w.op.value) {
      ConfigProper(env, doc, tree, w);
    }
  }

  lemma ConfigProper(env: Env, doc: Document, tree: Tree, w: Write)
    requires PlanRender(env, doc, tree).Ok? && Proper(env.codec.floats, doc.config)
    requires w in FlatWrites(JobsOf(env, doc, tree)) && w.op.SetJson?
    ensures Proper(env.codec.floats, w.op.value)
  {
    hide PlanRender, Collect, FlatWrites, JobOf;
    var bindings := Ordered(doc.bindings);
    CollectedOk(env, doc, tree);
    FlatFrom(env, doc.config, tree, bindings, w);
    var i :| 0 <= i < |bindings| && JobOf(env, doc.config, tree, bindings[i]).Ok?
             && w in JobOf(env, doc.config, tree, bindings[i]).value.action.writes;
    SetsProper(env, doc.config, tree, bindings[i], w);
  }

  /** A file's own patches change nothing when they run on what they left. */
  lemma Settles(env: Env, doc: Document, tree: Tree, path: string)
    requires env.codec.Lawful() && PlanRender(env, doc, tree).Ok? && Settled(env, doc, tree)
    requires AllValid(FlatWrites(JobsOf(env, doc, tree))) && path in TextsOf(env, doc, tree)
    ensures var text := TextsOf(env, doc, tree)[path];
            Outcome(env, FlatWrites(JobsOf(env, doc, tree)), path, Some(text)) == Ok(Some(text))
  {
    hide Collect, FlatWrites, Finish, RunOps, Apart, Apply, Fit, Replaceable, PlainText, Receptive, Prepared, Proper;
    var writes := FlatWrites(JobsOf(env, doc, tree));
    FileByFile(env, tree, map[], writes);
    SettledFits(env, doc, tree);
    FitAt(env.codec, writes, writes, path);
    assert path in Paths(writes);
    ReceptivePrepared(OpsAt(writes, path), tree.Read(path));
    Idempotent(env.codec, OpsAt(writes, path), path, tree.Read(path));
  }

  /** The owned files of a plan are emitted by the codec. */
  lemma OwnedNoReturn(env: Env, config: Json, tree: Tree, binding: Binding, w: Write)
    requires env.codec.Lawful() && JobOf(env, config, tree, binding).Ok?
    requires w in JobOf(env, config, tree, binding).value.action.writes && w.op.Own?
    ensures '\r' !in w.op.content
  {
    hide LeafValue, Payload, Listing, RecordedIn, Rendered, PatchValue, Codec.Lawful;
    var payload := Payload(env, tree, binding.target, env.catalog[(binding.key, binding.system)].transform, LeafValue(config, binding.key).value);
    EmitNoReturn(env.codec, Obj(payload.value + [Field("marker", Str(YamlLens.MARKER)), Field("schema_version", Str("v1"))]));
  }

  /** No rendered text holds a carriage return, whatever the files held. */
  lemma TextNoReturn(env: Env, doc: Document, tree: Tree, path: string)
    requires env.codec.Lawful() && PlanRender(env, doc, tree).Ok? && path in TextsOf(env, doc, tree)
    requires forall w :: w in FlatWrites(JobsOf(env, doc, tree)) && w.path == path ==> PlainText(w.op)
    ensures '\r' !in TextsOf(env, doc, tree)[path]
  {
    hide Collect, FlatWrites, Finish, RunOps, Apply, PlainText, JobOf, Codec.Lawful;
    var writes := FlatWrites(JobsOf(env, doc, tree));
    var bindings := Ordered(doc.bindings);
    JobWritesValid(env, doc, tree);
    CollectedOk(env, doc, tree);
    FileByFile(env, tree, map[], writes);
    forall op | op in OpsAt(writes, path) ensures ValidOp(op) && PlainText(op) && (op.Own? ==> '\r' !in op.content) {
      var w := Write(path, op);
      if op.Own? {
        FlatFrom(env, doc.config, tree, bindings, w);
        var i :| 0 <= i < |bindings| && JobOf(env, doc.config, tree, bindings[i]).Ok?
                 && w in JobOf(env, doc.config, tree, bindings[i]).value.action.writes;
        OwnedNoReturn(env, doc.config, tree, bindings[i], w);
      }
    }
    RunNoReturn(env.codec, OpsAt(writes, path), path, tree.Read(path));
  }

  /** So a rendered file that held one never keeps its bytes, and a render reads a file's very
      bytes exactly when it holds none. */
  lemma ReturnsLost(env: Env, doc: Document, tree: Tree, path: string)
    requires env.codec.Lawful() && PlanRender(env, doc, tree).Ok? && path in TextsOf(env, doc, tree) && path in tree.files
    requires forall w :: w in FlatWrites(JobsOf(env, doc, tree)) && w.path == path ==> PlainText(w.op)
    ensures tree.Read(path) == tree.Get(path) <==> '\r' !in tree.files[path]
    ensures '\r' in tree.files[path] ==> TextsOf(env, doc, tree)[path] != tree.files[path]
  {
    hide PlanRender, Collect, FlatWrites, WriteAll, PlainText;
    TextNoReturn(env, doc, tree, path);
    TranslatedIff(tree.files[path]);
  }

  lemma SettledNoReturn(env: Env, doc: Document, tree: Tree, path: string)
    requires env.codec.Lawful() && PlanRender(env, doc, tree).Ok? && Settled(env, doc, tree) && path in TextsOf(env, doc, tree)
    ensures '\r' !in TextsOf(env, doc, tree)[path]
  {
    hide PlanRender, Collect, FlatWrites, PlainText, Fit, Proper, Apart, Receptive, WriteAll;
    TextNoReturn(env, doc, tree, path);
  }

  /** Render is a fixpoint: planning on the tree a render left gives the same plan, no
      path would change, and writing again leaves the tree as it is. */
  lemma RenderFixpoint(env: Env, doc: Document, tree: Tree)
    requires env.codec.Lawful() && PlanRender(env, doc, tree).Ok? && Settled(env, doc, tree)
    ensures var plan := PlanRender(env, doc, tree).value;
            var after := Execute(plan, tree);
            && PlanRender(env, doc, after) == Ok(plan)
            && ChangedPaths(plan, after) == []
            && Execute(plan, after).files == after.files
  {
    hide PlanRender, Execute, FlatWrites, ChangedPaths, Collect, WriteAll, Outcome, PlainFit, Proper;
    var plan := PlanRender(env, doc, tree).value;
    var after := Execute(plan, tree);
    var texts := TextsOf(env, doc, tree);
    JobWritesValid(env, doc, tree);
    PlanFacts(env, doc, tree);
    ExecuteFacts(plan, tree);
    forall p | p in texts ensures p in after.files {
      assert p in ArtifactPaths(plan);
    }
    SettledSteady(env, doc, tree, after);
    forall p | p in texts ensures Outcome(env, FlatWrites(JobsOf(env, doc, tree)), p, after.Read(p)) == Ok(Some(texts[p])) {
      Settles(env, doc, tree, p);
      SettledNoReturn(env, doc, tree, p);
      TranslatedIff(texts[p]);
      assert p in ArtifactPaths(plan);
    }
    Replan(env, doc, tree, after);
    ResidualIff(plan, tree);
    ExecuteFacts(plan, after);
    SameFiles(plan, after, Execute(plan, after));
  }

  /** A rendered file is on disk after the render. */
  lemma RenderedText(env: Env, doc: Document, tree: Tree, path: string)
    requires PlanRender(env, doc, tree).Ok? && Settled(env, doc, tree) && path in TextsOf(env, doc, tree)
    ensures Execute(PlanRender(env, doc, tree).value, tree).Get(path) == Some(TextsOf(env, doc, tree)[path])
  {
    hide PlanRender, Execute, Collect, FlatWrites, WriteAll, PlainFit, Isolated, Proper;
    PlanFacts(env, doc, tree);
    ExecuteFacts(PlanRender(env, doc, tree).value, tree);
    assert path in ArtifactPaths(PlanRender(env, doc, tree).value);
  }

  /** A tree that already holds a plan and one that agrees with it elsewhere. */
  lemma SameFiles(plan: Plan, a: Tree, b: Tree)
    requires Agree(a, b, ArtifactPaths(plan) + {plan.manifestPath})
    requires forall x :: x in plan.artifacts && x.path != plan.manifestPath ==> a.Get(x.path) == b.Get(x.path) == Some(x.content)
    requires a.Get(plan.manifestPath) == b.Get(plan.manifestPath) == Some(plan.manifest)
    ensures b.files == a.files
  {
    forall p ensures a.Get(p) == b.Get(p) {
      if p in ArtifactPaths(plan) {
        var x :| x in plan.artifacts && x.path == p;
      }
    }
    assert forall p :: p in a.files <==> p in b.files by {
      forall p ensures p in a.files <==> p in b.files {
        assert a.Get(p) == b.Get(p);
      }
    }
    assert forall p :: p in a.files ==> a.files[p] == b.files[p] by {
      forall p | p in a.files ensures a.files[p] == b.files[p] {
        assert a.Get(p) == b.Get(p);
      }
    }
  }

  /** The order of the bindings in the document does not matter. */
  lemma BindingOrderIrrelevant(env: Env, doc: Document, shuffled: seq<Binding>, tree: Tree)
    requires multiset(shuffled) == multiset(doc.bindings) && KeysApart(doc.bindings, BindingKey)
    ensures PlanRender(env, doc.(bindings := shuffled), tree) == PlanRender(env, doc, tree)
  {
    SortForgetsOrder(doc.bindings, shuffled, BindingKey);
  }

  /** A manifest that lands on an artifact: the check after the writes always finds one left. */
  lemma ManifestOnArtifactDiffers(path: string, content: string, manifest: string, tree: Tree)
    requires content != manifest
    ensures var plan := Plan("v1", "", [Artifact(path, content, "", "", "")], [], [], path, manifest);
            Consistent(plan) && ChangedPaths(plan, Execute(plan, tree)) != []
  {
    hide ChangedPaths, Execute;
    var artifact := Artifact(path, content, "", "", "");
    var plan := Plan("v1", "", [artifact], [], [], path, manifest);
    assert artifact in plan.artifacts && artifact.path == plan.manifestPath && artifact.content != plan.manifest;
    ResidualIff(plan, tree);
  }
}
