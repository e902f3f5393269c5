/** The rendered-versus-live report (drift.py), which re-plans and compares. */
module Drift {
  import opened Results
  import opened Ordering
  import opened RenderOps
  import opened RenderPlan
  import RenderLaws
  import RenderRun
  import YamlLens

  datatype Signal = IdempotencyViolation | ConfigDrift

  /** `actual` is the live digest; `None` stands for an absent file. */
  datatype DriftEntry = DriftEntry(path: string, system: string, key: string, expected: string, actual: Option<string>, signal: Signal)

  datatype Report = Report(clean: bool, digest: string, schemaVersion: string, drifted: seq<DriftEntry>, systems: seq<string>)

  predicate Mentions(text: string, part: string) {
    exists i :: 0 <= i <= |text| && part <= text[i..]
  }

  /** `_signal_for`. */
  function SignalFor(actual: Option<string>, isManifest: bool): Signal {
    if actual.None? then ConfigDrift
    else if isManifest || Mentions(actual.value, YamlLens.MARKER) then IdempotencyViolation
    else ConfigDrift
  }

  function EntryFor(env: Env, path: string, system: string, key: string, expected: string, actual: Option<string>, isManifest: bool): DriftEntry {
    DriftEntry(path, system, key, env.sha(expected),
               if actual.None? then None else Some(env.sha(actual.value)),
               SignalFor(actual, isManifest))
  }

  function ArtifactEntry(env: Env, tree: Tree, a: Artifact): DriftEntry {
    EntryFor(env, a.path, a.system, a.key, a.content, tree.Get(a.path), false)
  }

  function ArtifactEntries(env: Env, tree: Tree, artifacts: seq<Artifact>): (r: seq<DriftEntry>)
    ensures |r| == |artifacts|
    ensures forall i :: 0 <= i < |r| ==> r[i] == ArtifactEntry(env, tree, artifacts[i])
  {
    seq(|artifacts|, i requires 0 <= i < |artifacts| => ArtifactEntry(env, tree, artifacts[i]))
  }

  function ManifestEntry(env: Env, plan: Plan, tree: Tree): DriftEntry {
    EntryFor(env, plan.manifestPath, "config-renderer", "render-manifest", plan.manifest, tree.Get(plan.manifestPath), true)
  }

  function Entries(env: Env, plan: Plan, tree: Tree): seq<DriftEntry> {
    ArtifactEntries(env, tree, Diverging(Unique(plan.artifacts), tree))
    + if tree.Get(plan.manifestPath) == Some(plan.manifest) then [] else [ManifestEntry(env, plan, tree)]
  }

  function Systems(entries: seq<DriftEntry>): set<string> {
    set e | e in entries :: e.system
  }

  function ByPath(): DriftEntry -> seq<string> {
    (e: DriftEntry) => [e.path]
  }

  function ReportOf(env: Env, plan: Plan, tree: Tree): Report {
    var drifted := SortBy(Entries(env, plan, tree), ByPath());
    Report(drifted == [], plan.digest, plan.schemaVersion, drifted, Sorted(Systems(drifted), false))
  }

  function ComputeDrift(env: Env, doc: Document, tree: Tree): Result<Report, RenderError> {
    var plan :- PlanRender(env, doc, tree);
    Ok(ReportOf(env, plan, tree))
  }

  // ----- agreement with the change list ----------------------------------------------------

  /** The first contribution to a path in the plan's order. */
  ghost predicate FirstOf(artifacts: seq<Artifact>, i: nat)
    requires i < |artifacts|
  {
    forall j :: 0 <= j < i ==> artifacts[j].path != artifacts[i].path
  }

  lemma {:induction false} UniqueAreFirst(artifacts: seq<Artifact>, a: Artifact)
    requires a in Unique(artifacts)
    ensures exists i: nat :: i < |artifacts| && artifacts[i] == a && FirstOf(artifacts, i)
  {
    var n := |artifacts| - 1;
    var before := Unique(artifacts[..n]);
    if a in before {
      UniqueAreFirst(artifacts[..n], a);
      var i: nat :| i < n && artifacts[..n][i] == a && FirstOf(artifacts[..n], i);
      assert FirstOf(artifacts, i) by {
        assert forall j :: 0 <= j < i ==> artifacts[..n][j] == artifacts[j];
      }
    } else {
      assert a == artifacts[n];
      forall j | 0 <= j < n ensures artifacts[j].path != a.path {
        UniqueCovers(artifacts[..n], artifacts[..n][j]);
        assert artifacts[..n][j] == artifacts[j];
      }
      assert FirstOf(artifacts, n);
    }
  }

  /** An entry reports a planned file, through its first contributor, or the manifest. */
  ghost predicate Attributed(env: Env, plan: Plan, tree: Tree, e: DriftEntry) {
    || (exists i: nat :: i < |plan.artifacts| && FirstOf(plan.artifacts, i)
         && tree.Get(plan.artifacts[i].path) != Some(plan.artifacts[i].content)
         && e == ArtifactEntry(env, tree, plan.artifacts[i]))
    || (tree.Get(plan.manifestPath) != Some(plan.manifest) && e == ManifestEntry(env, plan, tree))
  }

  lemma DivergingAttributed(env: Env, plan: Plan, tree: Tree, a: Artifact)
    requires a in Diverging(Unique(plan.artifacts), tree)
    ensures Attributed(env, plan, tree, ArtifactEntry(env, tree, a))
  {
    UniqueAreFirst(plan.artifacts, a);
    var i: nat :| i < |plan.artifacts| && plan.artifacts[i] == a && FirstOf(plan.artifacts, i);
  }

  /** The report names exactly the paths a render would change, each with its first
      contributor, in path order; it is clean exactly when nothing would change. */
  lemma DriftAgrees(env: Env, plan: Plan, tree: Tree)
    ensures var report := ReportOf(env, plan, tree);
            var changed := ChangedPaths(plan, tree);
            && (report.clean <==> changed == [])
            && |report.drifted| == |changed|
            && (forall p :: p in changed <==> exists e :: e in report.drifted && e.path == p)
            && (forall e :: e in report.drifted ==> Attributed(env, plan, tree, e))
            && AscendingBy(report.drifted, ByPath())
            && (forall s :: s in report.systems <==> exists e :: e in report.drifted && e.system == s)
  {
    hide Attributed, Unique, Diverging, ArtifactEntry, ManifestEntry, Sorted, SortBy;
    var diverging := Diverging(Unique(plan.artifacts), tree);
    var entries := Entries(env, plan, tree);
    var report := ReportOf(env, plan, tree);
    var changed := ChangedPaths(plan, tree);
    SortByMembers(entries, ByPath());
    SortByAscends(entries, ByPath());
    SamePaths(env, plan, tree);
    assert |entries| == |changed|;
    PathsReported(entries, report.drifted, changed);
    forall e | e in report.drifted ensures Attributed(env, plan, tree, e) {
      assert e in entries;
      var i :| 0 <= i < |entries| && entries[i] == e;
      if i < |diverging| {
        assert diverging[i] in diverging;
        DivergingAttributed(env, plan, tree, diverging[i]);
      } else {
        ManifestAttributed(env, plan, tree);
      }
    }
  }

  /** The live file can be told to be the renderer's: it is the manifest, or holds the marker. */
  predicate Managed(plan: Plan, tree: Tree, e: DriftEntry) {
    tree.Get(e.path).Some? && (e.key == "render-manifest" || exists i :: 0 <= i <= |tree.Get(e.path).value| && YamlLens.MARKER <= tree.Get(e.path).value[i..])
  }

  /** Every entry names the binding of a planned file or the manifest, with the digests of the
      planned and of the live content, if there is any; it is a violation of idempotency exactly
      when the live file is the renderer's, and a drift otherwise. */
  lemma EntriesSay(env: Env, plan: Plan, tree: Tree, e: DriftEntry)
    requires e in ReportOf(env, plan, tree).drifted
    ensures e.actual == match tree.Get(e.path) case Some(live) => Some(env.sha(live)) case None => None
    ensures || (exists a :: a in plan.artifacts && (a.path, a.system, a.key, env.sha(a.content)) == (e.path, e.system, e.key, e.expected)
                            && tree.Get(a.path) != Some(a.content))
            || ((e.path, e.system, e.key, e.expected) == (plan.manifestPath, "config-renderer", "render-manifest", env.sha(plan.manifest))
                && tree.Get(plan.manifestPath) != Some(plan.manifest))
    ensures (forall a :: a in plan.artifacts ==> a.key != "render-manifest") ==>
              (e.signal == IdempotencyViolation <==> Managed(plan, tree, e)) && (e.signal == ConfigDrift <==> !Managed(plan, tree, e))
  {
    hide ReportOf, Unique, Diverging;
    DriftAgrees(env, plan, tree);
    if i: nat :| i < |plan.artifacts| && FirstOf(plan.artifacts, i) && tree.Get(plan.artifacts[i].path) != Some(plan.artifacts[i].content)
                 && e == ArtifactEntry(env, tree, plan.artifacts[i]) {
      assert plan.artifacts[i] in plan.artifacts;
    }
  }

  lemma PathsReported(entries: seq<DriftEntry>, drifted: seq<DriftEntry>, changed: seq<string>)
    requires |entries| == |changed| && forall i :: 0 <= i < |entries| ==> entries[i].path == changed[i]
    requires forall e :: e in drifted <==> e in entries
    ensures forall p :: p in changed <==> exists e :: e in drifted && e.path == p
  {
    forall p ensures p in changed <==> exists e :: e in drifted && e.path == p {
      if p in changed {
        var i :| 0 <= i < |changed| && changed[i] == p;
        assert entries[i].path == p && entries[i] in drifted;
      }
      if e :| e in drifted && e.path == p {
        var i :| 0 <= i < |entries| && entries[i] == e;
        assert changed[i] == p;
      }
    }
  }

  lemma ManifestAttributed(env: Env, plan: Plan, tree: Tree)
    requires tree.Get(plan.manifestPath) != Some(plan.manifest)
    ensures Attributed(env, plan, tree, ManifestEntry(env, plan, tree))
  {
  }

  lemma SamePaths(env: Env, plan: Plan, tree: Tree)
    ensures |Entries(env, plan, tree)| == |ChangedPaths(plan, tree)|
    ensures forall i :: 0 <= i < |Entries(env, plan, tree)| ==> Entries(env, plan, tree)[i].path == ChangedPaths(plan, tree)[i]
  {
    hide Unique, Diverging;
  }

  /** After a render of a settled document the report is clean. */
  lemma CleanAfterRender(env: Env, doc: Document, tree: Tree)
    requires env.codec.Lawful() && PlanRender(env, doc, tree).Ok? && RenderLaws.Settled(env, doc, tree)
    ensures var after := Execute(PlanRender(env, doc, tree).value, tree);
            ComputeDrift(env, doc, after).Ok? && ComputeDrift(env, doc, after).value.clean
  {
    hide PlanRender, Execute, RenderLaws.Settled, ReportOf;
    var plan := PlanRender(env, doc, tree).value;
    RenderLaws.RenderFixpoint(env, doc, tree);
    DriftAgrees(env, plan, Execute(plan, tree));
  }

  // ----- the loop ---------------------------------------------------------------------------

  /** `compute_drift`, read-only over the disk. */
  method Compute(env: Env, doc: Document, disk: RenderRun.Disk) returns (r: Result<Report, RenderError>)
    ensures r.Ok? == ComputeDrift(env, doc, disk.View()).Ok?
    ensures r.Ok? ==> r == ComputeDrift(env, doc, disk.View())
  {
    hide PlanRender, Unique, Diverging, Sorted, SortBy, ArtifactEntry;
    var planned := RenderRun.Plan(env, doc, disk.View());
    if planned.Err? {
      return Err(planned.error);
    }
    var plan := planned.value;
    var entries := ArtifactDrift(env, plan, disk);
    if plan.manifestPath !in disk.files || disk.files[plan.manifestPath] != plan.manifest {
      entries := entries + [ManifestEntry(env, plan, disk.View())];
    }
    assert entries == Entries(env, plan, disk.View());
    var drifted := SortBy(entries, ByPath());
    r := Ok(Report(drifted == [], plan.digest, plan.schemaVersion, drifted, Sorted(Systems(drifted), false)));
  }

  method ArtifactDrift(env: Env, plan: Plan, disk: RenderRun.Disk) returns (entries: seq<DriftEntry>)
    ensures entries == ArtifactEntries(env, disk.View(), Diverging(Unique(plan.artifacts), disk.View()))
  {
    hide Unique, Diverging, ArtifactEntry, ArtifactEntries, PathsOf;
    entries := [];
    var seen: set<string> := {};
    var i := 0;
    Nothing(env, disk.View());
    assert plan.artifacts[..0] == [];
    while i < |plan.artifacts|
      invariant 0 <= i <= |plan.artifacts|
      invariant entries == ArtifactEntries(env, disk.View(), Diverging(Unique(plan.artifacts[..i]), disk.View()))
      invariant forall p :: p in seen <==> p in PathsOf(Unique(plan.artifacts[..i]))
    {
      var artifact := plan.artifacts[i];
      RenderRun.UniqueNext(plan.artifacts, i);
      ghost var before := Unique(plan.artifacts[..i]);
      if artifact.path !in seen {
        seen := seen + {artifact.path};
        DriftNext(env, before, artifact, disk.View());
        var actual := disk.View().Get(artifact.path);
        if actual != Some(artifact.content) {
          entries := entries + [ArtifactEntry(env, disk.View(), artifact)];
        }
      }
      i := i + 1;
    }
    assert plan.artifacts[..i] == plan.artifacts;
  }

  lemma Nothing(env: Env, tree: Tree)
    ensures ArtifactEntries(env, tree, Diverging(Unique([]), tree)) == [] && PathsOf(Unique([])) == []
  {
  }

  lemma DriftNext(env: Env, artifacts: seq<Artifact>, artifact: Artifact, tree: Tree)
    ensures ArtifactEntries(env, tree, Diverging(artifacts + [artifact], tree)) ==
            ArtifactEntries(env, tree, Diverging(artifacts, tree))
              + if tree.Get(artifact.path) == Some(artifact.content) then [] else [ArtifactEntry(env, tree, artifact)]
  {
    hide ArtifactEntry, Diverging;
    DivergingNext(artifacts, artifact, tree);
  }

  lemma DivergingNext(artifacts: seq<Artifact>, artifact: Artifact, tree: Tree)
    ensures Diverging(artifacts + [artifact], tree) ==
            Diverging(artifacts, tree) + if tree.Get(artifact.path) == Some(artifact.content) then [] else [artifact]
  {
    assert (artifacts + [artifact])[..|artifacts|] == artifacts;
  }
}
