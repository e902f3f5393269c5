/** What a plan records: its artifacts, skipped targets and digests against the bindings of the
    document, and the documents the render owns. */
module RenderRecords {
  import opened Results
  import opened Text
  import opened Json
  import opened JsonPatch
  import opened Ordering
  import opened YamlScalars
  import opened RenderOps
  import opened RenderPlan
  import opened RenderLaws
  import opened RenderMeaning

  // ----- which files a binding writes ---------------------------------------------------------

  /** The names of the files the render owns. */
  predicate IsOwnedName(transform: Transform, name: string) {
    || (transform == Channels && name == "notification_destinations.json")
    || (transform == ProvisioningState && name == "provisioning_state.json")
    || (transform == IsolationDefaults && name == "default_isolation_class.json")
  }

  lemma OwnedNameIs(transform: Transform, name: string)
    ensures IsOwnedName(transform, name) <==> OwnedFilename(transform) == Some(name)
  {
  }

  /** The files a binding's value reaches: the manifests of a directory, the owned file, the
      target of a gate that is on, and else the target itself. */
  ghost predicate Reaches(env: Env, doc: Document, tree: Tree, b: Binding, path: string) {
    && (b.key, b.system) in env.catalog
    && var entry := env.catalog[(b.key, b.system)];
       match entry.strategy
       case JsonPathPatch => path == b.target
       case YamlLinePatch => if entry.transform == SyncPolicyBlock then path in tree.files && IsManifestIn(path, b.target) else path == b.target
       case OwnedArtifact => exists name :: IsOwnedName(entry.transform, name) && path == b.target + name
       case PresenceGated => path == b.target && LeafValue(doc.config, b.key) == Ok(Bool(true))
       case Unimplemented(_) => false
  }

  ghost predicate Writes(env: Env, doc: Document, tree: Tree, b: Binding, path: string)
    requires JobOf(env, doc.config, tree, b).Ok?
  {
    exists w :: w in JobOf(env, doc.config, tree, b).value.action.writes && w.path == path
  }

  lemma SyncReach(env: Env, doc: Document, tree: Tree, b: Binding, path: string)
    requires JobOf(env, doc.config, tree, b).Ok? && Cataloged(env, b, YamlLinePatch, SyncPolicyBlock)
    ensures Reaches(env, doc, tree, b, path) <==> Writes(env, doc, tree, b, path)
  {
    ManifestInIs(path, b.target);
    if Reaches(env, doc, tree, b, path) {
      var w := SyncJobWrites(env, doc.config, tree, b, path);
    }
    if Writes(env, doc, tree, b, path) {
      SyncWritesReach(env, doc, tree, b, path);
    }
  }

  lemma SyncWritesReach(env: Env, doc: Document, tree: Tree, b: Binding, path: string)
    requires JobOf(env, doc.config, tree, b).Ok? && Cataloged(env, b, YamlLinePatch, SyncPolicyBlock) && Writes(env, doc, tree, b, path)
    ensures path in tree.files && IsApplication(path, b.target)
  {
    hide LeafValue, IsApplication, EndsWith;
    var writes := JobOf(env, doc.config, tree, b).value.action.writes;
    var w :| w in writes && w.path == path;
    var i :| 0 <= i < |writes| && writes[i] == w;
    var applications := Applications(Listing(tree, b.target).value, b.target);
    assert writes[i].path == applications[i] && applications[i] in applications;
  }

  lemma ReachIff(env: Env, doc: Document, tree: Tree, b: Binding, path: string)
    requires JobOf(env, doc.config, tree, b).Ok?
    ensures Reaches(env, doc, tree, b, path) <==> Writes(env, doc, tree, b, path)
  {
    hide LeafValue, Rendered, PatchValue, Payload, Listing, RecordedIn, IsApplication, OwnedFilename, IsOwnedName, IsDirectory;
    var entry := env.catalog[(b.key, b.system)];
    if entry.strategy == YamlLinePatch && entry.transform == SyncPolicyBlock {
      SyncReach(env, doc, tree, b, path);
    } else {
      var writes := JobOf(env, doc.config, tree, b).value.action.writes;
      forall name ensures IsOwnedName(entry.transform, name) <==> OwnedFilename(entry.transform) == Some(name) {
        OwnedNameIs(entry.transform, name);
      }
      if writes != [] {
        assert writes[0] in writes;
      }
    }
  }

  // ----- which bindings can be planned ----------------------------------------------------------

  /** A list of mappings that have a kind and a text for a name. */
  ghost predicate IsChannelList(value: Json) {
    value.Arr? && forall channel :: channel in value.elements ==>
      channel.Obj? && HasKey(channel.fields, "kind") && HasKey(channel.fields, "name") && Get(channel.fields, "name").value.Str?
  }

  /** What a binding's strategy asks of the value, the target and the tree. */
  ghost predicate Plannable(tree: Tree, b: Binding, entry: StrategyEntry, leaf: Json) {
    match entry.strategy
    case JsonPathPatch => entry.transform == Identity || (entry.transform == DaysToAge && leaf.Int?)
    case YamlLinePatch =>
      if entry.transform == SyncPolicyBlock then
        leaf.Bool? && EndsWith(b.target, "/") && b.target in tree.dirs && exists path :: path in tree.files && IsManifestIn(path, b.target)
      else
        (entry.transform == Identity || entry.transform == TopLevelIsolation)
        && (leaf.Bool? || leaf.Int? || leaf.Float?
            || (leaf.Str? && MatchesBareString(leaf.s) && ToLower(leaf.s) !in {"true", "false", "yes", "no", "on", "off", "null", "~"}))
    case OwnedArtifact =>
      && EndsWith(b.target, "/") && b.target in tree.dirs
      && ((entry.transform == Channels && IsChannelList(leaf))
          || (entry.transform == ProvisioningState && leaf.Bool?)
          || (entry.transform == IsolationDefaults && leaf.Str?))
    case PresenceGated => leaf.Bool?
    case Unimplemented(_) => false
  }

  /** A binding can be planned exactly when it is cataloged, the document has a value at its
      key, and the strategy accepts value, target and tree. */
  lemma PlannableIff(env: Env, config: Json, tree: Tree, b: Binding)
    ensures JobOf(env, config, tree, b).Ok? <==>
              (b.key, b.system) in env.catalog && LeafValue(config, b.key).Ok?
              && Plannable(tree, b, env.catalog[(b.key, b.system)], LeafValue(config, b.key).value)
  {
    hide LeafValue, JsonPathAction, YamlLineAction, OwnedAction, GatedAction;
    if (b.key, b.system) in env.catalog && LeafValue(config, b.key).Ok? {
      var entry, leaf := env.catalog[(b.key, b.system)], LeafValue(config, b.key).value;
      match entry.strategy {
        case JsonPathPatch => JsonPlannable(env, tree, b, entry, leaf);
        case YamlLinePatch => YamlPlannable(env, tree, b, entry, leaf);
        case OwnedArtifact => OwnedPlannable(env, tree, b, entry, leaf);
        case PresenceGated => GatePlannable(tree, b, entry, leaf);
        case Unimplemented(_) =>
      }
    }
  }

  lemma JsonPlannable(env: Env, tree: Tree, b: Binding, entry: StrategyEntry, leaf: Json)
    requires entry.strategy == JsonPathPatch
    ensures JsonPathAction(env, b, entry.transform, leaf).Ok? <==> Plannable(tree, b, entry, leaf)
  {
    hide ParseLocator;
  }

  lemma GatePlannable(tree: Tree, b: Binding, entry: StrategyEntry, leaf: Json)
    requires entry.strategy == PresenceGated
    ensures GatedAction(b, leaf).Ok? <==> Plannable(tree, b, entry, leaf)
  {
  }

  lemma YamlPlannable(env: Env, tree: Tree, b: Binding, entry: StrategyEntry, leaf: Json)
    requires entry.strategy == YamlLinePatch
    ensures YamlLineAction(env, tree, b, entry.transform, leaf).Ok? <==> Plannable(tree, b, entry, leaf)
  {
    hide EndsWith, IsApplication, IsManifestIn, MatchesBareString, ToLower, Applications;
    if entry.transform == SyncPolicyBlock && b.target in tree.dirs {
      SomeApplication(tree, b.target);
    }
  }

  lemma OwnedPlannable(env: Env, tree: Tree, b: Binding, entry: StrategyEntry, leaf: Json)
    requires entry.strategy == OwnedArtifact
    ensures OwnedAction(env, tree, b, entry.transform, leaf).Ok? <==> Plannable(tree, b, entry, leaf)
  {
    hide EndsWith, BundlePaths, Digests, IsChannel, IsChannelList, RecordedIn;
    if entry.transform == Channels && leaf.Arr? {
      ChannelListIff(leaf);
    }
    NoList(leaf);
  }

  lemma NoList(leaf: Json)
    ensures !leaf.Arr? ==> !IsChannelList(leaf)
  {
  }

  lemma SomeApplication(tree: Tree, dir: string)
    requires dir in tree.dirs
    ensures Applications(Listing(tree, dir).value, dir) != [] <==> exists path :: path in tree.files && IsManifestIn(path, dir)
  {
    hide EndsWith, Leq;
    forall path ensures IsManifestIn(path, dir) <==> IsApplication(path, dir) {
      ManifestInIs(path, dir);
    }
    hide IsManifestIn;
    var applications := Applications(Listing(tree, dir).value, dir);
    if applications != [] {
      assert applications[0] in applications;
    }
  }

  lemma ChannelListIff(value: Json)
    requires value.Arr?
    ensures IsChannelList(value) <==> forall i :: 0 <= i < |value.elements| ==> IsChannel(value.elements[i])
  {
    hide Get, HasKey;
    if IsChannelList(value) {
      forall i | 0 <= i < |value.elements| ensures IsChannel(value.elements[i]) {
        assert value.elements[i] in value.elements;
      }
    }
  }

  // ----- artifacts and skips --------------------------------------------------------------------

  ghost predicate ContributedBy(c: Contribution, job: Job, w: Write) {
    c == Contribution(w.path, job.binding.key, job.binding.system, job.entry.strategy.Name())
  }

  lemma {:induction false} ContributionIff(jobs: seq<Job>, c: Contribution)
    ensures c in Contributions(jobs) <==> exists job, w :: job in jobs && w in job.action.writes && ContributedBy(c, job, w)
  {
    hide ContributedBy;
    if jobs != [] {
      var n := |jobs| - 1;
      var last := jobs[n];
      ContributionIff(jobs[..n], c);
      assert jobs == jobs[..n] + [last];
      var here := Contributed(last, last.action.writes);
      LastContributed(last, c);
      if job, w :| job in jobs && w in job.action.writes && ContributedBy(c, job, w) {
        assert job in jobs[..n] || job == last;
      }
    }
  }

  lemma LastContributed(job: Job, c: Contribution)
    ensures c in Contributed(job, job.action.writes) <==> exists w :: w in job.action.writes && ContributedBy(c, job, w)
  {
    var here := Contributed(job, job.action.writes);
    if w :| w in job.action.writes && ContributedBy(c, job, w) {
      var i :| 0 <= i < |job.action.writes| && job.action.writes[i] == w;
      assert here[i] == c;
    }
    if c in here {
      var i :| 0 <= i < |here| && here[i] == c;
      assert ContributedBy(c, job, job.action.writes[i]);
    }
  }

  lemma {:induction false} SkipIff(jobs: seq<Job>, c: Contribution)
    ensures c in Skips(jobs) <==> exists job :: job in jobs && job.action.skipped && c == SkipOf(job)
  {
    hide SkipOf;
    if jobs != [] {
      var n := |jobs| - 1;
      SkipIff(jobs[..n], c);
      assert jobs == jobs[..n] + [jobs[n]];
      if job :| job in jobs && job.action.skipped && c == SkipOf(job) {
        assert job in jobs[..n] || job == jobs[n];
      }
    }
  }

  /** The jobs of a plan are those of the document's bindings. */
  lemma JobFrom(env: Env, doc: Document, tree: Tree, job: Job)
    requires PlanRender(env, doc, tree).Ok? && job in JobsOf(env, doc, tree)
    ensures job.binding in doc.bindings && JobOf(env, doc.config, tree, job.binding) == Ok(job)
    ensures (job.binding.key, job.binding.system) in env.catalog && env.catalog[(job.binding.key, job.binding.system)] == job.entry
  {
    hide PlanRender, Collect, ActionOf;
    var ordered := Ordered(doc.bindings);
    SortByMembers(doc.bindings, BindingKey);
    CollectedOk(env, doc, tree);
    var i :| 0 <= i < |JobsOf(env, doc, tree)| && JobsOf(env, doc, tree)[i] == job;
    CollectedFrom(env, doc.config, tree, ordered, i);
    assert ordered[i] in ordered;
  }

  /** An artifact names one binding that reached its file, by key, system and strategy. */
  ghost predicate Names(env: Env, b: Binding, key: string, system: string, strategy: string) {
    b.key == key && b.system == system && (b.key, b.system) in env.catalog
    && match env.catalog[(b.key, b.system)].strategy
       case JsonPathPatch => strategy == "json-path-patch"
       case YamlLinePatch => strategy == "yaml-line-patch"
       case OwnedArtifact => strategy == "owned-artifact"
       case PresenceGated => strategy == "presence-gated"
       case Unimplemented(name) => strategy == name
  }

  lemma PlanParts(env: Env, doc: Document, tree: Tree)
    requires PlanRender(env, doc, tree).Ok?
    ensures var plan := PlanRender(env, doc, tree).value;
            var jobs := JobsOf(env, doc, tree);
            && plan.schemaVersion == doc.schemaVersion
            && plan.digest == "sha256:" + env.sha(doc.raw)
            && (forall c :: c in plan.skipped <==> c in Skips(jobs))
            && (forall p, k, s, t :: (exists a :: a in plan.artifacts && a.path == p && a.key == k && a.system == s && a.strategy == t)
                                      <==> Contribution(p, k, s, t) in Contributions(jobs))
            && plan.manifest == env.codec.emit(ManifestJson(env, plan.digest, plan.artifacts, plan.skipped, plan.recorded))
  {
    hide PlanRender, JobsOf, TextsOf, FlatWrites, Contributions, Skips, Records, Paths, ManifestJson;
    PlanIs(env, doc, tree);
    var plan := PlanRender(env, doc, tree).value;
    var jobs := JobsOf(env, doc, tree);
    var texts := TextsOf(env, doc, tree);
    SortByMembers(Skips(jobs), (c: Contribution) => [c.path, c.key]);
    ArtifactsOf(Contributions(jobs), texts);
    assert plan == Finish(env, doc, texts, Contributions(jobs), Skips(jobs), Records(jobs));
  }

  lemma ArtifactsOf(contributions: seq<Contribution>, texts: map<string, string>)
    requires forall c :: c in contributions ==> c.path in texts
    ensures forall c :: c in SortedContributions(contributions) ==> c.path in texts
    ensures forall p, k, s, t :: (exists a :: a in Artifacts(SortedContributions(contributions), texts) && a.path == p && a.key == k && a.system == s && a.strategy == t)
                                  <==> Contribution(p, k, s, t) in contributions
  {
    SortedPaths(contributions, texts.Keys);
    var sorted := SortedContributions(contributions);
    var artifacts := Artifacts(sorted, texts);
    forall p, k, s, t ensures (exists a :: a in artifacts && a.path == p && a.key == k && a.system == s && a.strategy == t)
                              <==> Contribution(p, k, s, t) in contributions {
      var c := Contribution(p, k, s, t);
      assert c in contributions <==> c in multiset(sorted);
      if c in sorted {
        var i :| 0 <= i < |sorted| && sorted[i] == c;
        assert artifacts[i] in artifacts;
      }
      if a :| a in artifacts && a.path == p && a.key == k && a.system == s && a.strategy == t {
        var i :| 0 <= i < |artifacts| && artifacts[i] == a;
        assert sorted[i] == c;
      }
    }
  }

  /** A plan lists an artifact for a file, under a key, a system and a strategy, exactly when a
      binding of the document with these reaches the file. */
  lemma ArtifactIff(env: Env, doc: Document, tree: Tree, path: string, key: string, system: string, strategy: string)
    requires PlanRender(env, doc, tree).Ok?
    ensures (exists a :: a in PlanRender(env, doc, tree).value.artifacts && a.path == path && a.key == key && a.system == system && a.strategy == strategy)
            <==> exists b :: b in doc.bindings && Names(env, b, key, system, strategy) && Reaches(env, doc, tree, b, path)
  {
    hide PlanRender, JobsOf, JobOf, Contributions, Skips, Reaches, ManifestJson, FlatWrites;
    PlanParts(env, doc, tree);
    var jobs := JobsOf(env, doc, tree);
    var c := Contribution(path, key, system, strategy);
    ContributionIff(jobs, c);
    if c in Contributions(jobs) {
      var job, w :| job in jobs && w in job.action.writes && ContributedBy(c, job, w);
      JobFrom(env, doc, tree, job);
      assert Writes(env, doc, tree, job.binding, path);
      ReachIff(env, doc, tree, job.binding, path);
    }
    if b :| b in doc.bindings && Names(env, b, key, system, strategy) && Reaches(env, doc, tree, b, path) {
      JobPlanned(env, doc, tree, b);
      ReachIff(env, doc, tree, b, path);
      var job := JobOf(env, doc.config, tree, b).value;
      JobParts(env, doc.config, tree, b);
      var w :| w in job.action.writes && w.path == path;
      assert ContributedBy(c, job, w);
    }
  }

  lemma JobParts(env: Env, config: Json, tree: Tree, b: Binding)
    requires JobOf(env, config, tree, b).Ok?
    ensures var job := JobOf(env, config, tree, b).value;
            job.binding == b && (b.key, b.system) in env.catalog && job.entry == env.catalog[(b.key, b.system)]
  {
    hide ActionOf;
  }

  lemma JobSkips(env: Env, config: Json, tree: Tree, b: Binding)
    requires JobOf(env, config, tree, b).Ok?
    ensures JobOf(env, config, tree, b).value.action.skipped <==>
              env.catalog[(b.key, b.system)].strategy == PresenceGated && LeafValue(config, b.key) == Ok(Bool(false))
  {
    hide LeafValue, Payload, Listing, Rendered, PatchValue, RecordedIn;
  }

  /** A plan lists a target as skipped exactly for a presence gate that is off. */
  lemma SkippedIff(env: Env, doc: Document, tree: Tree, skip: Contribution)
    requires PlanRender(env, doc, tree).Ok?
    ensures skip in PlanRender(env, doc, tree).value.skipped <==>
            exists b :: b in doc.bindings && (b.key, b.system) in env.catalog
                        && env.catalog[(b.key, b.system)].strategy == PresenceGated
                        && LeafValue(doc.config, b.key) == Ok(Bool(false))
                        && skip == Contribution(b.target, b.key, b.system, "presence-gated")
  {
    hide PlanRender, JobsOf, JobOf, Contributions, Skips, ManifestJson, LeafValue, FlatWrites;
    PlanParts(env, doc, tree);
    var jobs := JobsOf(env, doc, tree);
    SkipIff(jobs, skip);
    if skip in Skips(jobs) {
      var job :| job in jobs && job.action.skipped && skip == SkipOf(job);
      JobFrom(env, doc, tree, job);
      JobSkips(env, doc.config, tree, job.binding);
    }
    if b :| b in doc.bindings && (b.key, b.system) in env.catalog && env.catalog[(b.key, b.system)].strategy == PresenceGated
            && LeafValue(doc.config, b.key) == Ok(Bool(false)) && skip == Contribution(b.target, b.key, b.system, "presence-gated") {
      JobPlanned(env, doc, tree, b);
      JobParts(env, doc.config, tree, b);
      JobSkips(env, doc.config, tree, b);
    }
  }

  // ----- digests ---------------------------------------------------------------------------------------

  /** The file lies in an owned directory and is not the owned file. */
  ghost predicate Beside(env: Env, b: Binding, path: string) {
    (b.key, b.system) in env.catalog && env.catalog[(b.key, b.system)].strategy == OwnedArtifact && StartsWith(path, b.target)
    && !exists name :: IsOwnedName(env.catalog[(b.key, b.system)].transform, name) && path == b.target + name
  }

  lemma JobRecords(env: Env, config: Json, tree: Tree, b: Binding, path: string)
    requires JobOf(env, config, tree, b).Ok?
    ensures var recorded := JobOf(env, config, tree, b).value.action.recorded;
            && (path in recorded <==> path in tree.files && Beside(env, b, path))
            && (path in recorded ==> path in tree.files && recorded[path] == env.sha(tree.files[path]))
  {
    hide LeafValue, Payload, Listing, Rendered, PatchValue, OwnedFilename, IsOwnedName, IsDirectory;
    var entry := env.catalog[(b.key, b.system)];
    forall name ensures IsOwnedName(entry.transform, name) <==> OwnedFilename(entry.transform) == Some(name) {
      OwnedNameIs(entry.transform, name);
    }
  }

  lemma {:induction false} RecordsIff(env: Env, doc: Document, tree: Tree, jobs: seq<Job>, path: string)
    requires forall job :: job in jobs ==> JobOf(env, doc.config, tree, job.binding) == Ok(job)
    ensures path in Records(jobs) <==> path in tree.files && exists job :: job in jobs && Beside(env, job.binding, path)
    ensures path in Records(jobs) ==> path in tree.files && Records(jobs)[path] == env.sha(tree.files[path])
  {
    hide JobOf, Beside;
    if jobs != [] {
      var n := |jobs| - 1;
      assert jobs == jobs[..n] + [jobs[n]];
      assert jobs[n] in jobs;
      JobRecords(env, doc.config, tree, jobs[n].binding, path);
      RecordsIff(env, doc, tree, jobs[..n], path);
      if job :| job in jobs && Beside(env, job.binding, path) {
        assert job in jobs[..n] || job == jobs[n];
      }
    }
  }

  lemma {:induction false} RecordedFilesAre(recorded: map<string, string>, paths: seq<string>)
    requires forall p :: p in paths ==> p in recorded
    ensures |RecordedFiles(recorded, paths)| == |paths|
    ensures forall i :: 0 <= i < |paths| ==> RecordedFiles(recorded, paths)[i] == (paths[i], recorded[paths[i]])
  {
    if paths != [] {
      assert paths[0] in paths;
      forall p | p in paths[1..] ensures p in recorded {
        assert p in paths;
      }
      RecordedFilesAre(recorded, paths[1..]);
    }
  }

  lemma PlanRecords(env: Env, doc: Document, tree: Tree)
    requires PlanRender(env, doc, tree).Ok?
    ensures var records := Records(JobsOf(env, doc, tree));
            PlanRender(env, doc, tree).value.recorded == RecordedFiles(records, Sorted(records.Keys, false))
  {
    hide PlanRender, JobsOf, TextsOf, FlatWrites, Contributions, Skips, Records, Paths, ManifestJson;
    PlanIs(env, doc, tree);
  }

  /** A plan records a path and a digest exactly for the files beside an owned artifact, with
      the digest of what the file holds. */
  lemma RecordedIff(env: Env, doc: Document, tree: Tree, path: string, digest: string)
    requires PlanRender(env, doc, tree).Ok?
    ensures (path, digest) in PlanRender(env, doc, tree).value.recorded <==>
            path in tree.files && digest == env.sha(tree.files[path]) && exists b :: b in doc.bindings && Beside(env, b, path)
  {
    hide PlanRender, JobsOf, JobOf, Records, Beside, FlatWrites, RecordedFiles;
    var jobs := JobsOf(env, doc, tree);
    var records := Records(jobs);
    PlanRecords(env, doc, tree);
    forall job | job in jobs ensures job.binding in doc.bindings && JobOf(env, doc.config, tree, job.binding) == Ok(job) {
      JobFrom(env, doc, tree, job);
    }
    RecordsIff(env, doc, tree, jobs, path);
    if b :| b in doc.bindings && Beside(env, b, path) {
      JobPlanned(env, doc, tree, b);
      JobParts(env, doc.config, tree, b);
      assert JobOf(env, doc.config, tree, b).value in jobs;
    }
    RecordedMember(records, path, digest);
  }

  lemma RecordedMember(records: map<string, string>, path: string, digest: string)
    ensures (path, digest) in RecordedFiles(records, Sorted(records.Keys, false)) <==> path in records && records[path] == digest
  {
    hide RecordedFiles;
    var paths := Sorted(records.Keys, false);
    var files := RecordedFiles(records, paths);
    RecordedFilesAre(records, paths);
    if path in records {
      var i :| 0 <= i < |paths| && paths[i] == path;
      assert files[i] == (path, records[path]);
    }
    if (path, digest) in files {
      var i :| 0 <= i < |files| && files[i] == (path, digest);
      assert paths[i] in paths;
    }
  }

  /** The lists of a plan are sorted: artifacts by path, key and system, skips by path and key,
      records by path, each path once. */
  lemma PlanSorted(env: Env, doc: Document, tree: Tree)
    requires PlanRender(env, doc, tree).Ok?
    ensures var plan := PlanRender(env, doc, tree).value;
            && (forall i, j :: 0 <= i < j < |plan.artifacts| ==>
                  TupleLeq([plan.artifacts[i].path, plan.artifacts[i].key, plan.artifacts[i].system],
                           [plan.artifacts[j].path, plan.artifacts[j].key, plan.artifacts[j].system]))
            && (forall i, j :: 0 <= i < j < |plan.skipped| ==>
                  TupleLeq([plan.skipped[i].path, plan.skipped[i].key], [plan.skipped[j].path, plan.skipped[j].key]))
            && forall i, j :: 0 <= i < j < |plan.recorded| ==> plan.recorded[i].0 != plan.recorded[j].0 && Leq(plan.recorded[i].0, plan.recorded[j].0, false)
  {
    hide PlanRender, JobsOf, TextsOf, FlatWrites, Contributions, Skips, Records, Paths, Finish, TupleLeq, Leq, SortBy, Artifacts;
    PlanIs(env, doc, tree);
    var jobs := JobsOf(env, doc, tree);
    var records := Records(jobs);
    FinishSorted(env, doc, TextsOf(env, doc, tree), Contributions(jobs), Skips(jobs), records);
  }

  lemma FinishSorted(env: Env, doc: Document, texts: map<string, string>, contributions: seq<Contribution>, skips: seq<Contribution>,
                     records: map<string, string>)
    requires forall c :: c in contributions ==> c.path in texts
    ensures var plan := Finish(env, doc, texts, contributions, skips, records);
            && (forall i, j :: 0 <= i < j < |plan.artifacts| ==>
                  TupleLeq([plan.artifacts[i].path, plan.artifacts[i].key, plan.artifacts[i].system],
                           [plan.artifacts[j].path, plan.artifacts[j].key, plan.artifacts[j].system]))
            && (forall i, j :: 0 <= i < j < |plan.skipped| ==>
                  TupleLeq([plan.skipped[i].path, plan.skipped[i].key], [plan.skipped[j].path, plan.skipped[j].key]))
            && forall i, j :: 0 <= i < j < |plan.recorded| ==> plan.recorded[i].0 != plan.recorded[j].0 && Leq(plan.recorded[i].0, plan.recorded[j].0, false)
  {
    hide Manifest, TupleLeq, Leq, SortBy, Artifacts, SortedContributions, RecordedFiles;
    ArtifactsSorted(contributions, texts);
    var key := (c: Contribution) => [c.path, c.key];
    SortByAscends(skips, key);
    var sorted := Finish(env, doc, texts, contributions, skips, records).skipped;
    assert sorted == SortBy(skips, key);
    forall i, j | 0 <= i < j < |sorted| ensures TupleLeq([sorted[i].path, sorted[i].key], [sorted[j].path, sorted[j].key]) {
      assert TupleLeq(key(sorted[i]), key(sorted[j]));
    }
    RecordedFilesAre(records, Sorted(records.Keys, false));
  }

  lemma ArtifactsSorted(contributions: seq<Contribution>, texts: map<string, string>)
    requires forall c :: c in contributions ==> c.path in texts
    ensures forall c :: c in SortedContributions(contributions) ==> c.path in texts
    ensures var artifacts := Artifacts(SortedContributions(contributions), texts);
            forall i, j :: 0 <= i < j < |artifacts| ==>
              TupleLeq([artifacts[i].path, artifacts[i].key, artifacts[i].system], [artifacts[j].path, artifacts[j].key, artifacts[j].system])
  {
    hide TupleLeq;
    SortedPaths(contributions, texts.Keys);
    var key := (c: Contribution) => [c.path, c.key, c.system];
    SortByAscends(contributions, key);
    var sorted := SortedContributions(contributions);
    assert AscendingBy(sorted, key);
    forall i, j | 0 <= i < j < |sorted| ensures TupleLeq([sorted[i].path, sorted[i].key, sorted[i].system], [sorted[j].path, sorted[j].key, sorted[j].system]) {
      assert TupleLeq(key(sorted[i]), key(sorted[j]));
    }
  }
}
