/** What a render writes, against the document: every binding's place reads back what the
    configuration holds at the binding's key. */
module RenderMeaning {
  import opened Results
  import opened Json
  import opened JsonPatch
  import opened Ordering
  import opened YamlScalars
  import opened YamlLens
  import opened YamlTopLevel
  import opened RenderOps
  import opened RenderPlan
  import opened RenderLaws
  import opened RenderHolds

  // ----- the patches of a binding -------------------------------------------------------------

  predicate Cataloged(env: Env, b: Binding, strategy: Strategy, transform: Transform) {
    (b.key, b.system) in env.catalog && env.catalog[(b.key, b.system)] == StrategyEntry(strategy, transform)
  }

  /** Which binding a patch comes from. */
  ghost predicate ComesFrom(env: Env, config: Json, tree: Tree, b: Binding, w: Write) {
    (b.key, b.system) in env.catalog
    && var entry := env.catalog[(b.key, b.system)];
       var leaf := LeafValue(config, b.key);
       leaf.Ok?
       && match w.op
          case SetScalar(dotted, text) =>
            entry == StrategyEntry(YamlLinePatch, Identity) && w.path == b.target && dotted == b.locator && Rendered(env, leaf.value) == Ok(text)
          case SetTopLevel(text) =>
            entry == StrategyEntry(YamlLinePatch, TopLevelIsolation) && w.path == b.target && Rendered(env, leaf.value) == Ok(text)
          case SyncBlock(enabled) =>
            entry == StrategyEntry(YamlLinePatch, SyncPolicyBlock) && IsApplication(w.path, b.target) && leaf.value == Bool(enabled)
          case SetJson(segments, value) =>
            entry.strategy == JsonPathPatch && w.path == b.target && segments == ParseLocator(b.locator)
            && PatchValue(env, entry.transform, leaf.value) == Ok(value)
          case Adopt => entry.strategy == PresenceGated && w.path == b.target && leaf.value == Bool(true)
          case Own(content) =>
            entry.strategy == OwnedArtifact && OwnedFilename(entry.transform).Some? && w.path == b.target + OwnedFilename(entry.transform).value
            && OwnedAction(env, tree, b, entry.transform, leaf.value).Ok?
            && OwnedAction(env, tree, b, entry.transform, leaf.value).value.writes == [w]
  }

  lemma WriteComesFrom(env: Env, config: Json, tree: Tree, b: Binding, w: Write)
    requires JobOf(env, config, tree, b).Ok? && w in JobOf(env, config, tree, b).value.action.writes
    ensures ComesFrom(env, config, tree, b, w)
  {
    hide LeafValue, JsonPathAction, YamlLineAction, OwnedAction, GatedAction, Rendered, PatchValue, OwnedFilename, IsApplication, ParseLocator;
    var entry, leaf := env.catalog[(b.key, b.system)], LeafValue(config, b.key).value;
    match entry.strategy {
      case JsonPathPatch => OneWrite(env, tree, b, entry.transform, leaf, w);
      case YamlLinePatch => LineWrite(env, tree, b, entry.transform, leaf, w);
      case OwnedArtifact => OneWrite(env, tree, b, entry.transform, leaf, w);
      case _ => OneWrite(env, tree, b, entry.transform, leaf, w);
    }
  }

  /** The one patch of a JSON, an owned or a gated binding. */
  lemma OneWrite(env: Env, tree: Tree, b: Binding, transform: Transform, leaf: Json, w: Write)
    ensures JsonPathAction(env, b, transform, leaf).Ok? && w in JsonPathAction(env, b, transform, leaf).value.writes ==>
              PatchValue(env, transform, leaf).Ok? && w == Write(b.target, SetJson(ParseLocator(b.locator), PatchValue(env, transform, leaf).value))
    ensures OwnedAction(env, tree, b, transform, leaf).Ok? && w in OwnedAction(env, tree, b, transform, leaf).value.writes ==>
              && OwnedFilename(transform).Some? && w.path == b.target + OwnedFilename(transform).value && w.op.Own?
              && OwnedAction(env, tree, b, transform, leaf).value.writes == [w]
    ensures GatedAction(b, leaf).Ok? && w in GatedAction(b, leaf).value.writes ==> leaf == Bool(true) && w == Write(b.target, Adopt)
  {
    hide Payload, Listing, RecordedIn, PatchValue, OwnedFilename, ParseLocator, IsDirectory;
  }

  /** The patches of a line-editing binding. */
  lemma LineWrite(env: Env, tree: Tree, b: Binding, transform: Transform, leaf: Json, w: Write)
    requires YamlLineAction(env, tree, b, transform, leaf).Ok? && w in YamlLineAction(env, tree, b, transform, leaf).value.writes
    ensures transform == SyncPolicyBlock ==> leaf.Bool? && IsApplication(w.path, b.target) && w.op == SyncBlock(leaf.b)
    ensures transform == TopLevelIsolation ==> Rendered(env, leaf).Ok? && w == Write(b.target, SetTopLevel(Rendered(env, leaf).value))
    ensures transform == Identity ==> Rendered(env, leaf).Ok? && w == Write(b.target, SetScalar(b.locator, Rendered(env, leaf).value))
    ensures transform in {SyncPolicyBlock, TopLevelIsolation, Identity}
  {
    hide Listing, Rendered, IsApplication, IsDirectory;
    var writes := YamlLineAction(env, tree, b, transform, leaf).value.writes;
    var i :| 0 <= i < |writes| && writes[i] == w;
  }

  /** A binding of the document has its job in the plan. */
  lemma JobPlanned(env: Env, doc: Document, tree: Tree, b: Binding)
    requires PlanRender(env, doc, tree).Ok? && b in doc.bindings
    ensures JobOf(env, doc.config, tree, b).Ok?
    ensures JobOf(env, doc.config, tree, b).value in JobsOf(env, doc, tree)
    ensures forall w :: w in JobOf(env, doc.config, tree, b).value.action.writes ==> w in FlatWrites(JobsOf(env, doc, tree))
  {
    hide PlanRender, Collect, JobOf, FlatWrites;
    var ordered := Ordered(doc.bindings);
    SortByMembers(doc.bindings, BindingKey);
    CollectedOk(env, doc, tree);
    var i :| 0 <= i < |ordered| && ordered[i] == b;
    CollectedFrom(env, doc.config, tree, ordered, i);
    var jobs := JobsOf(env, doc, tree);
    assert jobs[i] in jobs;
    WritesOfJob(jobs, jobs[i]);
  }

  /** And every patch of the plan comes from a binding of the document. */
  lemma PlannedFrom(env: Env, doc: Document, tree: Tree, w: Write)
    requires PlanRender(env, doc, tree).Ok? && w in FlatWrites(JobsOf(env, doc, tree))
    ensures exists b :: b in doc.bindings && ComesFrom(env, doc.config, tree, b, w)
  {
    hide PlanRender, Collect, JobOf, FlatWrites, ComesFrom;
    var ordered := Ordered(doc.bindings);
    SortByMembers(doc.bindings, BindingKey);
    CollectedOk(env, doc, tree);
    FlatFrom(env, doc.config, tree, ordered, w);
    var i :| 0 <= i < |ordered| && JobOf(env, doc.config, tree, ordered[i]).Ok? && w in JobOf(env, doc.config, tree, ordered[i]).value.action.writes;
    WriteComesFrom(env, doc.config, tree, ordered[i], w);
    assert ordered[i] in ordered;
  }

  /** Two bindings of one file that write the same place of it: the same kind of patch, at the
      same locator where the kind has one. */
  predicate Rival(env: Env, a: Binding, b: Binding) {
    && (a.key, a.system) in env.catalog && (b.key, b.system) in env.catalog && a.target == b.target
    && var x, y := env.catalog[(a.key, a.system)], env.catalog[(b.key, b.system)];
       && x.strategy == y.strategy
       && match x.strategy
          case JsonPathPatch => ParseLocator(a.locator) == ParseLocator(b.locator)
          case YamlLinePatch => x.transform == y.transform && (x.transform == Identity ==> a.locator == b.locator)
          case _ => x.transform == y.transform
  }

  /** No other binding of the document writes the place otherwise. */
  ghost predicate Sole(env: Env, doc: Document, b: Binding) {
    forall other :: other in doc.bindings && Rival(env, b, other) ==>
      LeafValue(doc.config, other.key) == LeafValue(doc.config, b.key)
      && env.catalog[(other.key, other.system)] == env.catalog[(b.key, b.system)]
  }

  lemma SoleUndisputed(env: Env, doc: Document, tree: Tree, b: Binding, w: Write)
    requires PlanRender(env, doc, tree).Ok? && PlainFit(FlatWrites(JobsOf(env, doc, tree)))
    requires b in doc.bindings && JobOf(env, doc.config, tree, b).Ok? && w in JobOf(env, doc.config, tree, b).value.action.writes
    requires w in FlatWrites(JobsOf(env, doc, tree))
    requires Sole(env, doc, b)
    ensures Undisputed(OpsAt(FlatWrites(JobsOf(env, doc, tree)), w.path), w.op)
  {
    hide PlanRender, Collect, JobOf, FlatWrites, ComesFrom, Fit, PlainText, Sole;
    var writes := FlatWrites(JobsOf(env, doc, tree));
    WriteComesFrom(env, doc.config, tree, b, w);
    forall x | x in OpsAt(writes, w.path) && SamePlace(x, w.op) ensures x == w.op {
      var other := Write(w.path, x);
      assert other in writes;
      PlannedFrom(env, doc, tree, other);
      var o :| o in doc.bindings && ComesFrom(env, doc.config, tree, o, other);
      assert Fit(x, w.op);
      if w.op.Own? {
        SameOwner(env, doc.config, tree, b, w, o, other);
      }
      SamePatch(env, doc, tree, b, w, o, other);
    }
  }

  lemma LongerHasSlash(a: string, x: string, b: string, y: string)
    requires |a| < |b| && IsDirectory(b) && a + x == b + y
    ensures '/' in x
  {
    assert b[|b| - 1] == b[|b| - 1..][0] == '/';
    assert (a + x)[|b| - 1] == x[|b| - 1 - |a|];
  }

  /** A directory and a name are told apart by the last separator. */
  lemma SplitAtSlash(a: string, x: string, b: string, y: string)
    requires IsDirectory(a) && IsDirectory(b) && '/' !in x && '/' !in y && a + x == b + y
    ensures a == b && x == y
  {
    if |a| < |b| {
      LongerHasSlash(a, x, b, y);
    }
    if |b| < |a| {
      LongerHasSlash(b, y, a, x);
    }
    assert (a + x)[..|a|] == a && (b + y)[..|b|] == b;
    assert (a + x)[|a|..] == x && (b + y)[|b|..] == y;
  }

  lemma OwnedNames(transform: Transform)
    requires OwnedFilename(transform).Some?
    ensures '/' !in OwnedFilename(transform).value
  {
  }

  lemma SameOwner(env: Env, config: Json, tree: Tree, b: Binding, w: Write, o: Binding, other: Write)
    requires ComesFrom(env, config, tree, b, w) && ComesFrom(env, config, tree, o, other)
    requires w.op.Own? && other.op.Own? && w.path == other.path
    ensures o.target == b.target && Rival(env, b, o)
  {
    hide LeafValue, Rendered, PatchValue, Payload, Listing, RecordedIn, OwnedFilename, ParseLocator, IsDirectory;
    var x, y := env.catalog[(b.key, b.system)].transform, env.catalog[(o.key, o.system)].transform;
    OwnedNames(x);
    OwnedNames(y);
    SplitAtSlash(b.target, OwnedFilename(x).value, o.target, OwnedFilename(y).value);
    FilenamesApart(x, y);
  }

  lemma FilenamesApart(x: Transform, y: Transform)
    requires OwnedFilename(x).Some? && OwnedFilename(x) == OwnedFilename(y)
    ensures x == y
  {
    var a, b := OwnedFilename(x).value, OwnedFilename(y).value;
    assert a[0] == b[0];
  }

  lemma SamePatch(env: Env, doc: Document, tree: Tree, b: Binding, w: Write, o: Binding, other: Write)
    requires b in doc.bindings && o in doc.bindings && Sole(env, doc, b)
    requires ComesFrom(env, doc.config, tree, b, w) && ComesFrom(env, doc.config, tree, o, other)
    requires w.path == other.path && SamePlace(other.op, w.op) && Fit(other.op, w.op)
    requires w.op.Own? ==> o.target == b.target && Rival(env, b, o)
    ensures other.op == w.op
  {
    hide LeafValue, Rendered, PatchValue, Payload, Listing, IsApplication, ParseLocator;
    if !w.op.SyncBlock? {
      if Rival(env, b, o) {
        assert LeafValue(doc.config, o.key) == LeafValue(doc.config, b.key);
        assert env.catalog[(o.key, o.system)] == env.catalog[(b.key, b.system)];
      }
    }
  }

  // ----- on the tree -----------------------------------------------------------------------------

  /** The file after the render holds every undisputed patch of the plan. */
  lemma PlanHolds(env: Env, doc: Document, tree: Tree, w: Write)
    requires env.codec.Lawful() && PlanRender(env, doc, tree).Ok? && Settled(env, doc, tree)
    requires w in FlatWrites(JobsOf(env, doc, tree)) && Undisputed(OpsAt(FlatWrites(JobsOf(env, doc, tree)), w.path), w.op)
    ensures PlainText(w.op)
    ensures var after := Execute(PlanRender(env, doc, tree).value, tree).Get(w.path);
            after.Some? && Holds(env.codec, w.op, w.path, after.value)
  {
    hide PlanRender, Execute, Collect, FlatWrites, Finish, RunOps, Apart, Apply, Fit, Replaceable, PlainText, Receptive, Prepared, Proper, Holds, Undisputed, Codec.Lawful;
    var writes := FlatWrites(JobsOf(env, doc, tree));
    JobWritesValid(env, doc, tree);
    PlanFacts(env, doc, tree);
    TextsOutcome(env, doc, tree, w.path);
    SettledFits(env, doc, tree);
    FitAt(env.codec, writes, writes, w.path);
    ReceptivePrepared(OpsAt(writes, w.path), tree.Read(w.path));
    RunHolds(env.codec, OpsAt(writes, w.path), w.op, w.path, tree.Read(w.path));
    RenderedText(env, doc, tree, w.path);
  }

  lemma TextsOutcome(env: Env, doc: Document, tree: Tree, path: string)
    requires PlanRender(env, doc, tree).Ok? && path in Paths(FlatWrites(JobsOf(env, doc, tree)))
    ensures AllValid(FlatWrites(JobsOf(env, doc, tree))) && path in TextsOf(env, doc, tree)
    ensures RunOps(env.codec, OpsAt(FlatWrites(JobsOf(env, doc, tree)), path), path, tree.Read(path)) == Ok(Some(TextsOf(env, doc, tree)[path]))
  {
    hide Collect, FlatWrites, Finish, RunOps, Apply;
    JobWritesValid(env, doc, tree);
    FileByFile(env, tree, map[], FlatWrites(JobsOf(env, doc, tree)));
  }

  /** A patch of an unrivalled binding shows in the file after the render. */
  lemma BindingHolds(env: Env, doc: Document, tree: Tree, b: Binding, w: Write)
    requires env.codec.Lawful() && PlanRender(env, doc, tree).Ok? && Settled(env, doc, tree)
    requires b in doc.bindings && (Sole(env, doc, b) || w.op.SyncBlock? || w.op.Adopt?)
    requires JobOf(env, doc.config, tree, b).Ok? && w in JobOf(env, doc.config, tree, b).value.action.writes
    ensures PlainText(w.op)
    ensures var after := Execute(PlanRender(env, doc, tree).value, tree).Get(w.path);
            after.Some? && Holds(env.codec, w.op, w.path, after.value)
  {
    hide PlanRender, Execute, Collect, FlatWrites, JobOf, Apart, PlainText, Receptive, Proper, Holds, Sole, Codec.Lawful;
    JobPlanned(env, doc, tree, b);
    var writes := FlatWrites(JobsOf(env, doc, tree));
    if w.op.SyncBlock? || w.op.Adopt? {
      forall x | x in OpsAt(writes, w.path) && SamePlace(x, w.op) ensures x == w.op {
        assert Write(w.path, x) in writes;
      }
    } else {
      SoleUndisputed(env, doc, tree, b, w);
    }
    PlanHolds(env, doc, tree, w);
  }

  // ----- what the document says is what the files say ------------------------------------------------

  /** How a scalar of the document is spelled in a YAML line. */
  predicate Spelled(env: Env, leaf: Json, text: string) {
    match leaf
    case Bool(true) => text == "true"
    case Bool(false) => text == "false"
    case Int(i) => text == env.decimal(i)
    case Float(r) => text == env.repr(r)
    case Str(s) => text == s
    case _ => false
  }

  lemma RenderedSpells(env: Env, leaf: Json)
    requires Rendered(env, leaf).Ok?
    ensures Spelled(env, leaf, Rendered(env, leaf).value)
  {
  }

  /** The file is directly in the directory and its name ends in ".yaml". */
  predicate IsManifestIn(path: string, dir: string) {
    |path| >= 5 && path[|path| - 5..] == ".yaml" && |dir| <= |path| && path[..|dir|] == dir && '/' !in path[|dir|..]
  }

  lemma ManifestInIs(path: string, dir: string)
    ensures IsManifestIn(path, dir) <==> IsApplication(path, dir)
  {
  }

  /** An enabled policy leaves every manifest of the directory with the fixed automated
      block, a disabled one leaves none of them with an automated key. */
  lemma PolicyWritten(env: Env, doc: Document, tree: Tree, b: Binding, path: string)
    requires env.codec.Lawful() && PlanRender(env, doc, tree).Ok? && Settled(env, doc, tree)
    requires b in doc.bindings && Cataloged(env, b, YamlLinePatch, SyncPolicyBlock)
    requires path in tree.files && IsManifestIn(path, b.target)
    ensures var leaf := LeafValue(doc.config, b.key);
            var after := Execute(PlanRender(env, doc, tree).value, tree).Get(path);
            && (leaf == Ok(Bool(true)) || leaf == Ok(Bool(false)))
            && after.Some?
            && (leaf == Ok(Bool(true)) ==> HasPolicy(after.value))
            && (leaf == Ok(Bool(false)) ==> HasNoPolicy(after.value))
  {
    hide PlanRender, Execute, Settled, LeafValue, HasPolicy, HasNoPolicy, Codec.Lawful, IsApplication, IsManifestIn;
    ManifestInIs(path, b.target);
    JobPlanned(env, doc, tree, b);
    var leaf := LeafValue(doc.config, b.key).value;
    var w := SyncJobWrites(env, doc.config, tree, b, path);
    BindingHolds(env, doc, tree, b, w);
    PolicyHeld(env.codec, leaf.b, path, Execute(PlanRender(env, doc, tree).value, tree).Get(path).value);
  }

  lemma SyncJobWrites(env: Env, config: Json, tree: Tree, b: Binding, path: string) returns (w: Write)
    requires Cataloged(env, b, YamlLinePatch, SyncPolicyBlock) && JobOf(env, config, tree, b).Ok?
    requires path in tree.files && IsApplication(path, b.target)
    ensures LeafValue(config, b.key).Ok? && LeafValue(config, b.key).value.Bool?
    ensures w == Write(path, SyncBlock(LeafValue(config, b.key).value.b)) && w in JobOf(env, config, tree, b).value.action.writes
  {
    hide LeafValue, EndsWith;
    var leaf := LeafValue(config, b.key).value;
    w := Write(path, SyncBlock(leaf.b));
    var applications := Applications(Listing(tree, b.target).value, b.target);
    assert path in applications;
    var i :| 0 <= i < |applications| && applications[i] == path;
    assert SyncWrites(applications, leaf.b)[i] == w;
  }

  /** The scalar at the binding's locator is the value the document holds. */
  lemma ScalarWritten(env: Env, doc: Document, tree: Tree, b: Binding)
    requires env.codec.Lawful() && PlanRender(env, doc, tree).Ok? && Settled(env, doc, tree)
    requires b in doc.bindings && Cataloged(env, b, YamlLinePatch, Identity) && Sole(env, doc, b)
    ensures var leaf := LeafValue(doc.config, b.key);
            var after := Execute(PlanRender(env, doc, tree).value, tree).Get(b.target);
            && leaf.Ok? && after.Some? && IsAdopted(after.value)
            && ScalarAt(after.value, b.locator).Ok?
            && Spelled(env, leaf.value, ScalarAt(after.value, b.locator).value)
  {
    hide PlanRender, Execute, Settled, LeafValue, Rendered, Spelled, ScalarAt, Codec.Lawful, Sole, Holds, IsPlain, IsAdopted;
    JobPlanned(env, doc, tree, b);
    var leaf := LeafValue(doc.config, b.key).value;
    RenderedSpells(env, leaf);
    var w := Write(b.target, SetScalar(b.locator, Rendered(env, leaf).value));
    BindingHolds(env, doc, tree, b, w);
    ScalarHeld(env.codec, b.locator, Rendered(env, leaf).value, b.target, Execute(PlanRender(env, doc, tree).value, tree).Get(b.target).value);
  }

  /** The isolation key of the values file is the value the document holds. */
  lemma IsolationWritten(env: Env, doc: Document, tree: Tree, b: Binding)
    requires env.codec.Lawful() && PlanRender(env, doc, tree).Ok? && Settled(env, doc, tree)
    requires b in doc.bindings && Cataloged(env, b, YamlLinePatch, TopLevelIsolation) && Sole(env, doc, b)
    ensures var leaf := LeafValue(doc.config, b.key);
            var after := Execute(PlanRender(env, doc, tree).value, tree).Get(b.target);
            && leaf.Ok? && after.Some? && IsAdopted(after.value)
            && TopLevelScalarAt(after.value, "default_isolation_class").Ok?
            && Spelled(env, leaf.value, TopLevelScalarAt(after.value, "default_isolation_class").value)
  {
    hide PlanRender, Execute, Settled, LeafValue, Rendered, Spelled, TopLevelScalarAt, Codec.Lawful, Sole, Holds, IsPlain, IsAdopted;
    JobPlanned(env, doc, tree, b);
    var leaf := LeafValue(doc.config, b.key).value;
    RenderedSpells(env, leaf);
    var w := Write(b.target, SetTopLevel(Rendered(env, leaf).value));
    BindingHolds(env, doc, tree, b, w);
    TopLevelHeld(env.codec, Rendered(env, leaf).value, b.target, Execute(PlanRender(env, doc, tree).value, tree).Get(b.target).value);
  }

  /** The JSON document holds the value at the binding's locator, days as an age such as "7d". */
  lemma JsonWritten(env: Env, doc: Document, tree: Tree, b: Binding, transform: Transform)
    requires env.codec.Lawful() && PlanRender(env, doc, tree).Ok? && Settled(env, doc, tree)
    requires b in doc.bindings && Cataloged(env, b, JsonPathPatch, transform) && Sole(env, doc, b)
    ensures var leaf := LeafValue(doc.config, b.key);
            var after := Execute(PlanRender(env, doc, tree).value, tree).Get(b.target);
            && leaf.Ok? && after.Some? && ParseLocator(b.locator).Some?
            && (transform == Identity || (transform == DaysToAge && leaf.value.Int?))
            && Says(env.codec, after.value, ParseLocator(b.locator).value,
                    if transform == DaysToAge then Str(env.decimal(leaf.value.i) + "d") else leaf.value)
  {
    hide PlanRender, Execute, Settled, LeafValue, Says, Codec.Lawful, Sole, Holds, ParseLocator, Proper;
    JobPlanned(env, doc, tree, b);
    var leaf := LeafValue(doc.config, b.key).value;
    var value := PatchValue(env, transform, leaf).value;
    var w := Write(b.target, SetJson(ParseLocator(b.locator), value));
    BindingHolds(env, doc, tree, b, w);
    assert Proper(env.codec.floats, doc.config) by {
      SettledProper(env, doc, tree);
    }
    SetsProper(env, doc.config, tree, b, w);
    JsonHeld(env.codec, ParseLocator(b.locator), value, b.target, Execute(PlanRender(env, doc, tree).value, tree).Get(b.target).value);
  }

  lemma SettledProper(env: Env, doc: Document, tree: Tree)
    requires PlanRender(env, doc, tree).Ok? && Settled(env, doc, tree)
    ensures Proper(env.codec.floats, doc.config)
  {
    hide PlanRender, Proper, PlainFit, Apart, Receptive;
  }

  /** A gate that is on puts the marker first in its target. */
  lemma GateWritten(env: Env, doc: Document, tree: Tree, b: Binding, transform: Transform)
    requires env.codec.Lawful() && PlanRender(env, doc, tree).Ok? && Settled(env, doc, tree)
    requires b in doc.bindings && Cataloged(env, b, PresenceGated, transform) && LeafValue(doc.config, b.key) == Ok(Bool(true))
    ensures var after := Execute(PlanRender(env, doc, tree).value, tree).Get(b.target);
            after.Some? && IsAdopted(after.value)
  {
    hide PlanRender, Execute, Settled, LeafValue, Codec.Lawful, Sole, Holds, IsAdopted;
    JobPlanned(env, doc, tree, b);
    var w := Write(b.target, Adopt);
    BindingHolds(env, doc, tree, b, w);
    MarkerHeld(env.codec, b.target, Execute(PlanRender(env, doc, tree).value, tree).Get(b.target).value);
  }
}
