/** Rolling back by rendering an earlier document again (rollback.py). */
module Rollback {
  import opened Results
  import opened Json
  import opened RenderOps
  import opened RenderPlan
  import opened RenderLaws
  import opened JsonKeys
  import opened JsonPatch
  import opened Ordering
  import RenderRun
  import Text

  // ----- two documents with the same bindings -------------------------------------------

  /** The value of a binding decides more than what is written in place: whether the marker
      is, or which way the sync policy goes. */
  predicate IsSwitch(entry: StrategyEntry) {
    entry.strategy == PresenceGated || (entry.strategy == YamlLinePatch && entry.transform == SyncPolicyBlock)
  }

  /** Every presence gate and every sync policy has the same value in both documents. */
  ghost predicate SameSwitches(env: Env, a: Document, b: Document) {
    forall binding :: binding in Ordered(a.bindings) && (binding.key, binding.system) in env.catalog
      && IsSwitch(env.catalog[(binding.key, binding.system)])
      ==> LeafValue(a.config, binding.key) == LeafValue(b.config, binding.key)
  }

  /** The same places written in the same order, whatever the values. */
  ghost predicate Parallel(a: seq<Write>, b: seq<Write>) {
    && |a| == |b|
    && forall i :: 0 <= i < |a| ==> a[i].path == b[i].path && SamePlace(a[i].op, b[i].op)
  }

  lemma JobParallel(env: Env, a: Document, b: Document, s: Tree, t: Tree, binding: Binding)
    requires JobOf(env, a.config, s, binding).Ok? && JobOf(env, b.config, t, binding).Ok?
    requires SameManifests(JobOf(env, a.config, s, binding).value, s, t)
    requires IsSwitch(env.catalog[(binding.key, binding.system)]) ==>
               LeafValue(a.config, binding.key) == LeafValue(b.config, binding.key)
    ensures Parallel(JobOf(env, a.config, s, binding).value.action.writes, JobOf(env, b.config, t, binding).value.action.writes)
  {
    hide LeafValue, Payload, Listing, RecordedIn, Rendered, IsApplication, Applications, SamePlace;
    if Syncs(JobOf(env, a.config, s, binding).value) {
      SyncListed(env, a.config, s, binding);
      SyncListed(env, b.config, t, binding);
      ApplicationsSame(s, t, binding.target);
    }
    SamePlaces();
  }

  lemma SamePlaces()
    ensures forall p, v, w :: SamePlace(SetJson(p, v), SetJson(p, w))
    ensures forall d, v, w :: SamePlace(SetScalar(d, v), SetScalar(d, w))
    ensures forall v, w :: SamePlace(SetTopLevel(v), SetTopLevel(w)) && SamePlace(Own(v), Own(w))
    ensures SamePlace(Adopt, Adopt) && forall e :: SamePlace(SyncBlock(e), SyncBlock(e))
  {
  }

  lemma SyncListed(env: Env, config: Json, tree: Tree, binding: Binding)
    requires JobOf(env, config, tree, binding).Ok? && Syncs(JobOf(env, config, tree, binding).value)
    ensures Listing(tree, binding.target).Ok? && binding.target in tree.dirs
  {
    hide LeafValue, Applications;
  }

  lemma {:induction false} CollectParallel(env: Env, a: Document, b: Document, s: Tree, t: Tree, bindings: seq<Binding>)
    requires Collect(env, a.config, s, bindings).Ok? && Collect(env, b.config, t, bindings).Ok?
    requires forall job :: job in Collect(env, a.config, s, bindings).value ==> SameManifests(job, s, t)
    requires forall binding :: binding in bindings && (binding.key, binding.system) in env.catalog
               && IsSwitch(env.catalog[(binding.key, binding.system)])
               ==> LeafValue(a.config, binding.key) == LeafValue(b.config, binding.key)
    ensures Parallel(FlatWrites(Collect(env, a.config, s, bindings).value), FlatWrites(Collect(env, b.config, t, bindings).value))
  {
    hide LeafValue, JobOf, SameManifests, SamePlace, Parallel, IsSwitch;
    if bindings == [] {
      assert Parallel([], []) by {
        NothingParallel();
      }
    } else {
      var n := |bindings| - 1;
      var early := bindings[..n];
      CollectedLast(env, a.config, s, bindings);
      CollectedLast(env, b.config, t, bindings);
      var jobs := Collect(env, a.config, s, bindings).value;
      forall job | job in Collect(env, a.config, s, early).value ensures SameManifests(job, s, t) {
        assert job in jobs;
      }
      forall binding | binding in early && (binding.key, binding.system) in env.catalog
          && IsSwitch(env.catalog[(binding.key, binding.system)])
        ensures LeafValue(a.config, binding.key) == LeafValue(b.config, binding.key)
      {
        assert binding in bindings;
      }
      CollectParallel(env, a, b, s, t, early);
      assert jobs[n] in jobs && bindings[n] in bindings;
      JobCataloged(env, a.config, s, bindings[n]);
      JobParallel(env, a, b, s, t, bindings[n]);
      ParallelAppend(FlatWrites(Collect(env, a.config, s, early).value), FlatWrites(Collect(env, b.config, t, early).value),
                     JobOf(env, a.config, s, bindings[n]).value.action.writes, JobOf(env, b.config, t, bindings[n]).value.action.writes);
    }
  }

  lemma JobCataloged(env: Env, config: Json, tree: Tree, binding: Binding)
    requires JobOf(env, config, tree, binding).Ok?
    ensures (binding.key, binding.system) in env.catalog
  {
    hide ActionOf;
  }

  lemma NothingParallel()
    ensures Parallel([], [])
  {
  }

  lemma ParallelAppend(a: seq<Write>, b: seq<Write>, c: seq<Write>, d: seq<Write>)
    requires Parallel(a, b) && Parallel(c, d)
    ensures Parallel(a + c, b + d)
  {
    hide SamePlace;
  }

  lemma CollectedLast(env: Env, config: Json, tree: Tree, bindings: seq<Binding>)
    requires bindings != [] && Collect(env, config, tree, bindings).Ok?
    ensures var n := |bindings| - 1;
            var jobs := Collect(env, config, tree, bindings).value;
            && Collect(env, config, tree, bindings[..n]).Ok? && JobOf(env, config, tree, bindings[n]).Ok?
            && jobs == Collect(env, config, tree, bindings[..n]).value + [JobOf(env, config, tree, bindings[n]).value]
            && FlatWrites(jobs)
               == FlatWrites(Collect(env, config, tree, bindings[..n]).value) + JobOf(env, config, tree, bindings[n]).value.action.writes
  {
    hide JobOf;
    var n := |bindings| - 1;
    var early := Collect(env, config, tree, bindings[..n]).value;
    assert (early + [JobOf(env, config, tree, bindings[n]).value])[..n] == early;
  }

  lemma FitPlace(x: Op, a: Op, b: Op)
    requires Fit(x, a) && SamePlace(a, b)
    ensures Fit(x, b)
  {
  }

  /** Patches of parallel plans fit across the two documents and cover each other. */
  lemma ParallelFit(codec: Codec, a: seq<Write>, b: seq<Write>, path: string)
    requires WritesFit(codec, a) && Parallel(a, b) && forall w :: w in b ==> Replaceable(codec, w.op)
    ensures FitTogether(codec, OpsAt(a, path), OpsAt(b, path)) && Covers(OpsAt(a, path), OpsAt(b, path))
    ensures Paths(a) == Paths(b)
  {
    hide Fit, Replaceable, SamePlace;
    forall x, y | x in a && y in b && x.path == y.path ensures Replaceable(codec, x.op) && Replaceable(codec, y.op) && Fit(x.op, y.op) {
      var i :| 0 <= i < |b| && b[i] == y;
      assert a[i] in a && a[i].path == x.path;
      FitPlace(x.op, a[i].op, y.op);
    }
    FitAt(codec, a, b, path);
    forall y | y in OpsAt(b, path) ensures exists x :: x in OpsAt(a, path) && SamePlace(x, y) {
      var i :| 0 <= i < |b| && b[i] == Write(path, y);
      assert a[i] in a && a[i] == Write(path, a[i].op);
      assert a[i].op in OpsAt(a, path);
    }
    PathsParallel(a, b);
  }

  lemma PathsParallel(a: seq<Write>, b: seq<Write>)
    requires Parallel(a, b)
    ensures Paths(a) == Paths(b)
  {
    forall p ensures p in Paths(a) <==> p in Paths(b) {
      if w :| w in a && w.path == p {
        var i :| 0 <= i < |a| && a[i] == w;
        assert b[i] in b;
      }
      if w :| w in b && w.path == p {
        var i :| 0 <= i < |b| && b[i] == w;
        assert a[i] in a;
      }
    }
  }

  // ----- exactness ---------------------------------------------------------------------------

  /** What a roll back from document `b` to document `a` relies on. */
  ghost predicate Reversible(env: Env, a: Document, b: Document, tree: Tree) {
    && a.bindings == b.bindings && SameSwitches(env, a, b)
    && PlanRender(env, a, tree).Ok? && Settled(env, a, tree)
    && var rendered := Execute(PlanRender(env, a, tree).value, tree);
       && PlanRender(env, b, rendered).Ok?
       && Proper(env.codec.floats, b.config)
       && forall w :: w in FlatWrites(JobsOf(env, b, rendered)) ==> PlainText(w.op)
  }

  /** What the first render wrote is there, and the rest is as it was. */
  lemma SteadyAfter(env: Env, doc: Document, tree: Tree)
    requires PlanRender(env, doc, tree).Ok? && Settled(env, doc, tree)
    ensures var after := Execute(PlanRender(env, doc, tree).value, tree);
            && Agree(tree, after, WrittenPaths(env, doc, tree))
            && Steady(JobsOf(env, doc, tree), WrittenPaths(env, doc, tree), tree, after)
  {
    hide PlanRender, Execute, Collect, FlatWrites, WriteAll, PlainFit, Apart, Receptive, Proper;
    var plan := PlanRender(env, doc, tree).value;
    PlanFacts(env, doc, tree);
    ExecuteFacts(plan, tree);
    forall p | p in TextsOf(env, doc, tree) ensures p in Execute(plan, tree).files {
      assert p in ArtifactPaths(plan);
    }
    SettledSteady(env, doc, tree, Execute(plan, tree));
  }

  lemma ReversibleParallel(env: Env, a: Document, b: Document, tree: Tree)
    requires Reversible(env, a, b, tree)
    ensures Parallel(FlatWrites(JobsOf(env, a, tree)), FlatWrites(JobsOf(env, b, Execute(PlanRender(env, a, tree).value, tree))))
  {
    hide PlanRender, Execute, Collect, FlatWrites, Isolated, SameManifests, LeafValue, Ordered, Settled, IsSwitch;
    var rendered := Execute(PlanRender(env, a, tree).value, tree);
    SteadyAfter(env, a, tree);
    CollectedOk(env, a, tree);
    CollectedOk(env, b, rendered);
    CollectParallel(env, a, b, tree, rendered, Ordered(a.bindings));
  }

  lemma AbsorbOutcome(env: Env, writes: seq<Write>, others: seq<Write>, path: string, text: string, changed: string)
    requires env.codec.Lawful() && AllValid(writes) && AllValid(others)
    requires FitTogether(env.codec, OpsAt(writes, path), OpsAt(others, path)) && Covers(OpsAt(writes, path), OpsAt(others, path))
    requires PreparedBoth(OpsAt(writes, path), OpsAt(others, path), Some(text))
    requires Outcome(env, writes, path, Some(text)) == Ok(Some(text)) && Outcome(env, others, path, Some(text)) == Ok(Some(changed))
    ensures Outcome(env, writes, path, Some(changed)) == Ok(Some(text))
  {
    hide Covers, FitTogether, RunOps, PreparedBoth;
    AbsorbAll(env.codec, OpsAt(writes, path), OpsAt(others, path), path, Some(text));
  }

  /** A file the first render wrote is prepared for the second and the third. */
  lemma RenderedPrepared(env: Env, doc: Document, tree: Tree, others: seq<Op>, path: string)
    requires env.codec.Lawful() && PlanRender(env, doc, tree).Ok? && Settled(env, doc, tree)
    requires AllValid(FlatWrites(JobsOf(env, doc, tree))) && path in TextsOf(env, doc, tree)
    ensures PreparedBoth(OpsAt(FlatWrites(JobsOf(env, doc, tree)), path), others, Some(TextsOf(env, doc, tree)[path]))
  {
    hide Collect, FlatWrites, Finish, RunOps, Apart, Apply, Fit, Replaceable, PlainText, Receptive, Prepared, PreparedBoth, Proper;
    var writes := FlatWrites(JobsOf(env, doc, tree));
    var ops := OpsAt(writes, path);
    SettledFits(env, doc, tree);
    FitAt(env.codec, writes, writes, path);
    assert path in Paths(writes);
    ReceptivePrepared(ops, tree.Read(path));
    TextOutcome(env, doc, tree, path);
    LeavesPrepared(env.codec, ops, others, path, tree.Read(path));
  }

  /** The second render reads what the first one wrote. */
  lemma RenderedRead(env: Env, doc: Document, tree: Tree, path: string)
    requires env.codec.Lawful() && PlanRender(env, doc, tree).Ok? && Settled(env, doc, tree) && path in TextsOf(env, doc, tree)
    ensures Execute(PlanRender(env, doc, tree).value, tree).Read(path) == Some(TextsOf(env, doc, tree)[path])
  {
    hide PlanRender, Execute, Collect, FlatWrites, WriteAll, Settled, Proper;
    RenderedText(env, doc, tree, path);
    SettledNoReturn(env, doc, tree, path);
    Text.TranslatedIff(TextsOf(env, doc, tree)[path]);
  }

  /** One file after the roll back: a's patches on b's text give a's text. */
  lemma Restores(env: Env, a: Document, b: Document, tree: Tree, path: string)
    requires env.codec.Lawful() && Reversible(env, a, b, tree)
    requires AllValid(FlatWrites(JobsOf(env, a, tree))) && path in TextsOf(env, a, tree)
    ensures var rendered := Execute(PlanRender(env, a, tree).value, tree);
            && path in TextsOf(env, b, rendered)
            && Outcome(env, FlatWrites(JobsOf(env, a, tree)), path, Some(TextsOf(env, b, rendered)[path]))
               == Ok(Some(TextsOf(env, a, tree)[path]))
  {
    hide PlanRender, Execute, Collect, FlatWrites, WriteAll, Fit, Replaceable, PlainText, Outcome, WritesFit, Proper, Covers, FitTogether, SameSwitches, OpsAt, AllValid, Settled, PreparedBoth;
    var rendered := Execute(PlanRender(env, a, tree).value, tree);
    var writes := FlatWrites(JobsOf(env, a, tree));
    var others := FlatWrites(JobsOf(env, b, rendered));
    ReversibleParallel(env, a, b, tree);
    SettledFits(env, a, tree);
    OthersReplaceable(env, b, rendered);
    ParallelFit(env.codec, writes, others, path);
    PlanFacts(env, a, tree);
    PlanFacts(env, b, rendered);
    RenderedRead(env, a, tree, path);
    Settles(env, a, tree, path);
    JobWritesValid(env, b, rendered);
    TextOutcome(env, b, rendered, path);
    RenderedPrepared(env, a, tree, OpsAt(others, path), path);
    AbsorbOutcome(env, writes, others, path, TextsOf(env, a, tree)[path], TextsOf(env, b, rendered)[path]);
  }

  lemma OthersReplaceable(env: Env, doc: Document, tree: Tree)
    requires PlanRender(env, doc, tree).Ok? && Proper(env.codec.floats, doc.config)
    requires forall w :: w in FlatWrites(JobsOf(env, doc, tree)) ==> PlainText(w.op)
    ensures forall w :: w in FlatWrites(JobsOf(env, doc, tree)) ==> Replaceable(env.codec, w.op)
  {
    hide PlanRender, Collect, FlatWrites, PlainText;
    forall w | w in FlatWrites(JobsOf(env, doc, tree)) ensures Replaceable(env.codec, w.op) {
      if w.op.SetJson? {
        ConfigProper(env, doc, tree, w);
      }
    }
  }

  lemma TextOutcome(env: Env, doc: Document, tree: Tree, path: string)
    requires PlanRender(env, doc, tree).Ok? && AllValid(FlatWrites(JobsOf(env, doc, tree)))
    requires path in TextsOf(env, doc, tree)
    ensures Outcome(env, FlatWrites(JobsOf(env, doc, tree)), path, tree.Read(path)) == Ok(Some(TextsOf(env, doc, tree)[path]))
  {
    hide Collect, FlatWrites, Outcome, Finish;
    FileByFile(env, tree, map[], FlatWrites(JobsOf(env, doc, tree)));
  }

  /** Both plans write the same files. */
  lemma PathsMatch(env: Env, a: Document, b: Document, tree: Tree)
    requires Reversible(env, a, b, tree)
    ensures var plan := PlanRender(env, a, tree).value;
            var other := PlanRender(env, b, Execute(plan, tree)).value;
            && Consistent(plan) && Consistent(other) && plan.manifestPath == other.manifestPath == env.manifestPath
            && ArtifactPaths(plan) == ArtifactPaths(other) == TextsOf(env, a, tree).Keys == Paths(FlatWrites(JobsOf(env, a, tree)))
            && (forall x :: x in plan.artifacts ==> x.content == TextsOf(env, a, tree)[x.path])
            && env.manifestPath !in ArtifactPaths(plan)
  {
    hide PlanRender, Execute, Collect, FlatWrites, Settled, Proper, SameSwitches, PlainText, Consistent, Paths;
    var rendered := Execute(PlanRender(env, a, tree).value, tree);
    PlanFacts(env, a, tree);
    PlanFacts(env, b, rendered);
    ReversibleParallel(env, a, b, tree);
    PathsParallel(FlatWrites(JobsOf(env, a, tree)), FlatWrites(JobsOf(env, b, rendered)));
    SettledFits(env, a, tree);
  }

  /** The tree after the second render: as before outside the planned files, which hold the
      second document's texts. */
  lemma ChangedTree(env: Env, a: Document, b: Document, tree: Tree)
    requires Reversible(env, a, b, tree)
    ensures var rendered := Execute(PlanRender(env, a, tree).value, tree);
            var changed := Execute(PlanRender(env, b, rendered).value, rendered);
            && Agree(tree, changed, WrittenPaths(env, a, tree))
            && TextsOf(env, b, rendered).Keys == TextsOf(env, a, tree).Keys
            && forall p :: p in TextsOf(env, a, tree) ==> changed.Get(p) == Some(TextsOf(env, b, rendered)[p])
  {
    hide PlanRender, Execute, Collect, FlatWrites, Settled, Proper, SameSwitches, PlainText, Consistent, WriteAll;
    var plan := PlanRender(env, a, tree).value;
    var rendered := Execute(plan, tree);
    var other := PlanRender(env, b, rendered).value;
    PathsMatch(env, a, b, tree);
    PlanFacts(env, b, rendered);
    ExecuteFacts(plan, tree);
    ExecuteFacts(other, rendered);
    forall p | p in TextsOf(env, a, tree) ensures Execute(other, rendered).Get(p) == Some(TextsOf(env, b, rendered)[p]) {
      assert p in ArtifactPaths(other);
    }
  }

  lemma OtherNoReturn(env: Env, a: Document, b: Document, tree: Tree, path: string)
    requires env.codec.Lawful() && Reversible(env, a, b, tree)
    requires path in TextsOf(env, b, Execute(PlanRender(env, a, tree).value, tree))
    ensures '\r' !in TextsOf(env, b, Execute(PlanRender(env, a, tree).value, tree))[path]
  {
    hide PlanRender, Execute, Collect, FlatWrites, Settled, Proper, SameSwitches, PlainText, WriteAll;
    TextNoReturn(env, b, Execute(PlanRender(env, a, tree).value, tree), path);
  }

  /** The first document plans on the changed tree what it planned at first. */
  lemma PlansBack(env: Env, a: Document, b: Document, tree: Tree)
    requires env.codec.Lawful() && Reversible(env, a, b, tree)
    ensures var plan := PlanRender(env, a, tree).value;
            var rendered := Execute(plan, tree);
            PlanRender(env, a, Execute(PlanRender(env, b, rendered).value, rendered)) == Ok(plan)
  {
    hide PlanRender, Execute, Collect, FlatWrites, Settled, Proper, SameSwitches, Outcome, PlainText, WriteAll, Paths;
    var rendered := Execute(PlanRender(env, a, tree).value, tree);
    var changed := Execute(PlanRender(env, b, rendered).value, rendered);
    var texts := TextsOf(env, a, tree);
    ChangedTree(env, a, b, tree);
    PlanFacts(env, a, tree);
    JobWritesValid(env, a, tree);
    SettledSteady(env, a, tree, changed);
    forall p | p in texts ensures Outcome(env, FlatWrites(JobsOf(env, a, tree)), p, changed.Read(p)) == Ok(Some(texts[p])) {
      Restores(env, a, b, tree, p);
      OtherNoReturn(env, a, b, tree, p);
      Text.TranslatedIff(TextsOf(env, b, rendered)[p]);
    }
    Replan(env, a, tree, changed);
  }

  /** Rendering a, then b, then a again: the second plan of a is its first plan, and
      every file of the repository is as the first render of a left it. The manifest
      committed then passes the deterministic proof, and no residual is found. */
  lemma RollbackExact(env: Env, a: Document, b: Document, tree: Tree)
    requires env.codec.Lawful() && Reversible(env, a, b, tree)
    ensures var plan := PlanRender(env, a, tree).value;
            var rendered := Execute(plan, tree);
            var changed := Execute(PlanRender(env, b, rendered).value, rendered);
            && PlanRender(env, a, changed) == Ok(plan)
            && Execute(plan, changed).files == rendered.files
            && rendered.Get(env.manifestPath) == Some(plan.manifest)
            && ChangedPaths(plan, Execute(plan, changed)) == []
  {
    hide PlanRender, Execute, ChangedPaths, Collect, FlatWrites, WriteAll, Settled, Proper, SameSwitches, PlainText, Consistent;
    var plan := PlanRender(env, a, tree).value;
    var rendered := Execute(plan, tree);
    var other := PlanRender(env, b, rendered).value;
    var changed := Execute(other, rendered);
    PathsMatch(env, a, b, tree);
    PlansBack(env, a, b, tree);
    ExecuteFacts(plan, tree);
    ExecuteFacts(other, rendered);
    ExecuteFacts(plan, changed);
    SameFiles(plan, rendered, Execute(plan, changed));
    ResidualIff(plan, changed);
  }

  // ----- the deterministic proof --------------------------------------------------------------

  /** Texts under keys that ascend. */
  lemma TextsOrdered(floats: real -> bool, fields: seq<Field>)
    requires forall f :: f in fields ==> f.value.Str?
    requires forall i :: 0 <= i < |fields| - 1 ==> fields[i].key != fields[i + 1].key && Leq(fields[i].key, fields[i + 1].key, false)
    ensures SortedKeys(Obj(fields)) == Obj(fields) && Proper(floats, Obj(fields))
  {
    hide Leq, AscendingBy;
    OrderedFields(fields);
    AlreadySorted(fields);
    ProperFields(floats, fields);
  }

  lemma ArtifactOrdered(env: Env, a: Artifact)
    ensures SortedKeys(ArtifactJson(env, a)) == ArtifactJson(env, a) && Proper(env.codec.floats, ArtifactJson(env, a))
  {
    hide Leq, TupleLeq, SortedKeys, Proper;
    KeyBefore("path", "sha256", 0);
    KeyBefore("sha256", "strategy", 1);
    KeyBefore("strategy", "system", 1);
    KeyBefore("system", "unified_key", 0);
    TextsOrdered(env.codec.floats, ArtifactJson(env, a).fields);
  }

  lemma SkipOrdered(floats: real -> bool, c: Contribution)
    ensures SortedKeys(SkipJson(c)) == SkipJson(c) && Proper(floats, SkipJson(c))
  {
    hide Leq, TupleLeq, SortedKeys, Proper;
    KeyBefore("path", "reason", 0);
    KeyBefore("reason", "strategy", 0);
    KeyBefore("strategy", "system", 1);
    KeyBefore("system", "unified_key", 0);
    TextsOrdered(floats, SkipJson(c).fields);
  }

  lemma RecordOrdered(floats: real -> bool, r: (string, string))
    ensures SortedKeys(RecordJson(r)) == RecordJson(r) && Proper(floats, RecordJson(r))
  {
    hide Leq, TupleLeq, SortedKeys, Proper;
    KeyBefore("path", "sha256", 0);
    TextsOrdered(floats, RecordJson(r).fields);
  }

  lemma ListOrdered(floats: real -> bool, elements: seq<Json>)
    requires forall i :: 0 <= i < |elements| ==> SortedKeys(elements[i]) == elements[i] && Proper(floats, elements[i])
    ensures SortedKeys(Arr(elements)) == Arr(elements) && Proper(floats, Arr(elements))
  {
  }

  lemma ManifestKeys(env: Env, d: string, a: seq<Artifact>, s: seq<Contribution>, r: seq<(string, string)>)
    ensures var fields := ManifestJson(env, d, a, s, r).fields;
            forall i :: 0 <= i < |fields| - 1 ==> fields[i].key != fields[i + 1].key && Leq(fields[i].key, fields[i + 1].key, false)
  {
    hide ArtifactJson, SkipJson, RecordJson, Leq, TupleLeq;
    KeyBefore("artifacts", "document_digest", 0);
    KeyBefore("document_digest", "marker", 0);
    KeyBefore("marker", "recorded", 0);
    KeyBefore("recorded", "schema_version", 0);
    KeyBefore("schema_version", "skipped", 1);
  }

  /** The manifest is built with its keys in order, so emission and parsing give it back. */
  lemma ManifestOrdered(env: Env, d: string, a: seq<Artifact>, s: seq<Contribution>, r: seq<(string, string)>)
    ensures SortedKeys(ManifestJson(env, d, a, s, r)) == ManifestJson(env, d, a, s, r)
    ensures Proper(env.codec.floats, ManifestJson(env, d, a, s, r))
  {
    hide ArtifactJson, SkipJson, RecordJson, SortedKeys, Proper, Leq, TupleLeq;
    var fields := ManifestJson(env, d, a, s, r).fields;
    ManifestKeys(env, d, a, s, r);
    OrderedFields(fields);
    forall i | 0 <= i < |a| ensures var j := fields[0].value.elements[i]; SortedKeys(j) == j && Proper(env.codec.floats, j) {
      ArtifactOrdered(env, a[i]);
    }
    forall i | 0 <= i < |r| ensures var j := fields[3].value.elements[i]; SortedKeys(j) == j && Proper(env.codec.floats, j) {
      RecordOrdered(env.codec.floats, r[i]);
    }
    forall i | 0 <= i < |s| ensures var j := fields[5].value.elements[i]; SortedKeys(j) == j && Proper(env.codec.floats, j) {
      SkipOrdered(env.codec.floats, s[i]);
    }
    ListOrdered(env.codec.floats, fields[0].value.elements);
    ListOrdered(env.codec.floats, fields[3].value.elements);
    ListOrdered(env.codec.floats, fields[5].value.elements);
    TextOrdered(env.codec.floats);
    AlreadySorted(fields);
    ProperFields(env.codec.floats, fields);
  }

  lemma TextOrdered(floats: real -> bool)
    ensures forall s :: SortedKeys(Str(s)) == Str(s) && Proper(floats, Str(s))
  {
  }

  /** The proof compares manifests only. If the contents planned by the two do not collide
      under the digest, equal manifests mean equal documents and byte-equal artifacts. */
  lemma ManifestDetermines(env: Env, d: string, a: seq<Artifact>, s: seq<Contribution>, r: seq<(string, string)>,
                           d': string, a': seq<Artifact>, s': seq<Contribution>, r': seq<(string, string)>)
    requires env.codec.Lawful() && forall x, y :: x in a && y in a' && env.sha(x.content) == env.sha(y.content) ==> x.content == y.content
    requires Manifest(env, d, a, s, r) == Manifest(env, d', a', s', r')
    ensures d == d' && a == a' && s == s' && r == r'
  {
    hide ArtifactJson, SkipJson, RecordJson, SortedKeys, Proper;
    var j := ManifestJson(env, d, a, s, r);
    var j' := ManifestJson(env, d', a', s', r');
    ManifestOrdered(env, d, a, s, r);
    ManifestOrdered(env, d', a', s', r');
    assert env.codec.parse(env.codec.emit(j)) == Some(j);
    assert env.codec.parse(env.codec.emit(j')) == Some(j');
    assert j.fields[0].value.elements == j'.fields[0].value.elements;
    assert j.fields[3].value.elements == j'.fields[3].value.elements;
    assert j.fields[5].value.elements == j'.fields[5].value.elements;
    forall i | 0 <= i < |a| ensures a[i] == a'[i] {
      assert j.fields[0].value.elements[i] == ArtifactJson(env, a[i]);
      assert j'.fields[0].value.elements[i] == ArtifactJson(env, a'[i]);
      assert a[i] in a && a'[i] in a';
      ArtifactJsonInjective(env, a[i], a'[i]);
    }
    forall i | 0 <= i < |r| ensures r[i] == r'[i] {
      assert j.fields[3].value.elements[i] == RecordJson(r[i]);
      assert j'.fields[3].value.elements[i] == RecordJson(r'[i]);
      RecordJsonInjective(r[i], r'[i]);
    }
    forall i | 0 <= i < |s| ensures s[i] == s'[i] {
      assert j.fields[5].value.elements[i] == SkipJson(s[i]);
      assert j'.fields[5].value.elements[i] == SkipJson(s'[i]);
      SkipJsonInjective(s[i], s'[i]);
    }
  }

  lemma ArtifactJsonInjective(env: Env, a: Artifact, b: Artifact)
    requires env.sha(a.content) == env.sha(b.content) ==> a.content == b.content
    requires ArtifactJson(env, a) == ArtifactJson(env, b)
    ensures a == b
  {
    var f, g := ArtifactJson(env, a).fields, ArtifactJson(env, b).fields;
    assert f[0] == g[0] && f[1] == g[1] && f[2] == g[2] && f[3] == g[3] && f[4] == g[4];
  }

  lemma RecordJsonInjective(a: (string, string), b: (string, string))
    requires RecordJson(a) == RecordJson(b)
    ensures a == b
  {
    assert RecordJson(a).fields[0] == RecordJson(b).fields[0] && RecordJson(a).fields[1] == RecordJson(b).fields[1];
  }

  lemma SkipJsonInjective(a: Contribution, b: Contribution)
    requires SkipJson(a) == SkipJson(b)
    ensures a == b
  {
    var f, g := SkipJson(a).fields, SkipJson(b).fields;
    assert f[0] == g[0] && f[2] == g[2] && f[3] == g[3] && f[4] == g[4];
  }

  // ----- the command -----------------------------------------------------------------------------

  datatype Failure = Unplanned(reason: RenderError) | ProofMissing | ProofFailed | Residual(paths: seq<string>)

  datatype RollbackResult = RollbackResult(executed: bool, schemaVersion: string, digest: string, paths: seq<string>, verified: bool)

  /** `_relative_paths`, for paths that are repository-relative already. */
  function Relative(paths: seq<string>): seq<string> {
    Sorted(set p | p in paths, false)
  }

  /** The reported paths are those given, each once, in ascending order. */
  lemma RelativeFacts(paths: seq<string>)
    ensures forall p :: p in Relative(paths) <==> p in paths
    ensures forall i, j :: 0 <= i < j < |Relative(paths)| ==> Relative(paths)[i] != Relative(paths)[j] && Leq(Relative(paths)[i], Relative(paths)[j], false)
  {
  }

  /** `rollback_render`. The expected manifest is its content, if it was asked for and
      exists. Only a real run that planned and passed the proof writes. */
  method RollbackRender(env: Env, doc: Document, disk: RenderRun.Disk, execute: bool, expected: Option<Option<string>>)
      returns (r: Result<RollbackResult, Failure>)
    modifies disk
    ensures PlanRender(env, doc, old(disk.View())).Err? ==> r.Err? && r.error.Unplanned? && disk.View() == old(disk.View())
    ensures PlanRender(env, doc, old(disk.View())).Ok? ==>
              var plan := PlanRender(env, doc, old(disk.View())).value;
              var proven := expected.None? || expected.value == Some(plan.manifest);
              var after := Execute(plan, old(disk.View()));
              && disk.View() == (if proven && execute then after else old(disk.View()))
              && (r.Ok? <==> proven && (execute ==> ChangedPaths(plan, after) == []))
              && (r.Ok? ==> r.value == RollbackResult(execute, plan.schemaVersion, plan.digest,
                    Relative(if execute then PathsOf(Unique(plan.artifacts)) + [plan.manifestPath] else ChangedPaths(plan, old(disk.View()))),
                    expected.Some?))
  {
    hide PlanRender, Execute, ChangedPaths, Relative;
    var planned := RenderRun.Plan(env, doc, disk.View());
    if planned.Err? {
      return Err(Unplanned(planned.error));
    }
    var plan := planned.value;
    if expected.Some? {
      if expected.value.None? {
        return Err(ProofMissing);
      }
      if expected.value.value != plan.manifest {
        return Err(ProofFailed);
      }
    }
    if !execute {
      var pending := disk.Changed(plan);
      return Ok(RollbackResult(false, plan.schemaVersion, plan.digest, Relative(pending), expected.Some?));
    }
    var written := disk.ExecutePlan(plan);
    var residual := disk.Changed(plan);
    if residual != [] {
      return Err(Residual(Relative(residual)));
    }
    r := Ok(RollbackResult(true, plan.schemaVersion, plan.digest, Relative(written), expected.Some?));
  }
}
