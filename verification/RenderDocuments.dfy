/** The JSON documents a render owns, read back: the owned artifacts and the render manifest. */
module RenderDocuments {
  import opened Results
  import opened Text
  import opened Json
  import opened JsonKeys
  import opened JsonPatch
  import opened Ordering
  import opened RenderOps
  import opened RenderPlan
  import opened RenderLaws
  import opened RenderHolds
  import opened RenderMeaning
  import opened RenderRecords
  import Rollback
  import YamlLens

  /** The path below a key of an object is the rest of the path in the key's value. */
  lemma Below(fields: seq<Field>, k: nat, rest: seq<Segment>)
    requires k < |fields| && UniqueKeys(fields)
    ensures GetAt(Obj(fields), [Name(fields[k].key)] + rest) == GetAt(fields[k].value, rest)
  {
    var path := [Name(fields[k].key)] + rest;
    assert path[1..] == rest;
    assert IndexOf(fields, fields[k].key) == Some(k);
  }

  lemma Inside(elements: seq<Json>, i: nat, rest: seq<Segment>)
    requires i < |elements|
    ensures GetAt(Arr(elements), [Index(i)] + rest) == GetAt(elements[i], rest)
  {
    var path := [Index(i)] + rest;
    assert path[1..] == rest;
  }

  /** An emitted document says what the document holds. */
  lemma SaysOf(codec: Codec, j: Json, path: seq<Segment>, value: Json)
    requires codec.Lawful() && j.Obj? && Proper(codec.floats, j) && GetAt(j, path) == Some(value)
    ensures Says(codec, codec.emit(j), path, value)
  {
    hide GetAt, Codec.Lawful, Alike;
    ParsesBack(codec, j);
    GetsAlike(codec.floats, codec.parse(codec.emit(j)).value, j, path);
  }

  /** The value of a top-level key. */
  lemma SaysKey(codec: Codec, fields: seq<Field>, k: nat)
    requires codec.Lawful() && Proper(codec.floats, Obj(fields)) && k < |fields|
    ensures Says(codec, codec.emit(Obj(fields)), [Name(fields[k].key)], fields[k].value)
  {
    hide GetAt, Codec.Lawful, Says;
    Below(fields, k, []);
    assert [Name(fields[k].key)] + [] == [Name(fields[k].key)];
    assert GetAt(fields[k].value, []) == Some(fields[k].value) by {
      GetHere(fields[k].value);
    }
    SaysOf(codec, Obj(fields), [Name(fields[k].key)], fields[k].value);
  }

  lemma GetHere(j: Json)
    ensures GetAt(j, []) == Some(j)
  {
  }

  /** A field of an element of a top-level list. */
  lemma SaysEntry(codec: Codec, fields: seq<Field>, k: nat, i: nat, m: nat)
    requires codec.Lawful() && Proper(codec.floats, Obj(fields)) && k < |fields| && fields[k].value.Arr? && i < |fields[k].value.elements|
    requires fields[k].value.elements[i].Obj? && m < |fields[k].value.elements[i].fields|
    ensures var entry := fields[k].value.elements[i].fields;
            Says(codec, codec.emit(Obj(fields)), [Name(fields[k].key), Index(i), Name(entry[m].key)], entry[m].value)
  {
    hide GetAt, Codec.Lawful, Says;
    var elements := fields[k].value.elements;
    var entry := elements[i].fields;
    assert Proper(codec.floats, elements[i]);
    Below(entry, m, []);
    GetHere(entry[m].value);
    Inside(elements, i, [Name(entry[m].key)] + []);
    Below(fields, k, [Index(i)] + ([Name(entry[m].key)] + []));
    assert [Name(fields[k].key)] + ([Index(i)] + ([Name(entry[m].key)] + [])) == [Name(fields[k].key), Index(i), Name(entry[m].key)];
    SaysOf(codec, Obj(fields), [Name(fields[k].key), Index(i), Name(entry[m].key)], entry[m].value);
  }

  /** A top-level list of the document has so many elements. */
  ghost predicate Lists(codec: Codec, text: string, key: string, count: nat) {
    exists value: Json :: value.Arr? && |value.elements| == count && Says(codec, text, [Name(key)], value)
  }

  lemma ListsOf(codec: Codec, fields: seq<Field>, k: nat)
    requires codec.Lawful() && Proper(codec.floats, Obj(fields)) && k < |fields| && fields[k].value.Arr?
    ensures Lists(codec, codec.emit(Obj(fields)), fields[k].key, |fields[k].value.elements|)
  {
    hide Codec.Lawful, Says, Proper;
    SaysKey(codec, fields, k);
  }

  // ----- the manifest ---------------------------------------------------------------------------

  /** What the manifest says of one artifact. */
  ghost predicate ArtifactSaid(codec: Codec, text: string, i: nat, a: Artifact, digest: string) {
    && Says(codec, text, [Name("artifacts"), Index(i), Name("path")], Str(a.path))
    && Says(codec, text, [Name("artifacts"), Index(i), Name("sha256")], Str(digest))
    && Says(codec, text, [Name("artifacts"), Index(i), Name("strategy")], Str(a.strategy))
    && Says(codec, text, [Name("artifacts"), Index(i), Name("system")], Str(a.system))
    && Says(codec, text, [Name("artifacts"), Index(i), Name("unified_key")], Str(a.key))
  }

  ghost predicate SkipSaid(codec: Codec, text: string, i: nat, c: Contribution) {
    && Says(codec, text, [Name("skipped"), Index(i), Name("path")], Str(c.path))
    && Says(codec, text, [Name("skipped"), Index(i), Name("reason")], Str("gate-false"))
    && Says(codec, text, [Name("skipped"), Index(i), Name("strategy")], Str(c.strategy))
    && Says(codec, text, [Name("skipped"), Index(i), Name("system")], Str(c.system))
    && Says(codec, text, [Name("skipped"), Index(i), Name("unified_key")], Str(c.key))
  }

  ghost predicate RecordSaid(codec: Codec, text: string, i: nat, r: (string, string)) {
    && Says(codec, text, [Name("recorded"), Index(i), Name("path")], Str(r.0))
    && Says(codec, text, [Name("recorded"), Index(i), Name("sha256")], Str(r.1))
  }

  lemma ManifestSays(env: Env, d: string, a: seq<Artifact>, s: seq<Contribution>, r: seq<(string, string)>)
    requires env.codec.Lawful()
    ensures var text := Manifest(env, d, a, s, r);
            && Says(env.codec, text, [Name("document_digest")], Str(d))
            && Says(env.codec, text, [Name("schema_version")], Str("v1"))
            && Says(env.codec, text, [Name("marker")], Str(YamlLens.MARKER))
            && Lists(env.codec, text, "artifacts", |a|) && Lists(env.codec, text, "skipped", |s|) && Lists(env.codec, text, "recorded", |r|)
            && (forall i :: 0 <= i < |a| ==> ArtifactSaid(env.codec, text, i, a[i], env.sha(a[i].content)))
            && (forall i :: 0 <= i < |s| ==> SkipSaid(env.codec, text, i, s[i]))
            && (forall i :: 0 <= i < |r| ==> RecordSaid(env.codec, text, i, r[i]))
  {
    hide Codec.Lawful, Says, Proper, SortedKeys, Lists;
    Rollback.ManifestOrdered(env, d, a, s, r);
    var fields := ManifestJson(env, d, a, s, r).fields;
    SaysKey(env.codec, fields, 1);
    SaysKey(env.codec, fields, 2);
    SaysKey(env.codec, fields, 4);
    ListsOf(env.codec, fields, 0);
    ListsOf(env.codec, fields, 3);
    ListsOf(env.codec, fields, 5);
    forall i | 0 <= i < |a| ensures ArtifactSaid(env.codec, Manifest(env, d, a, s, r), i, a[i], env.sha(a[i].content)) {
      SaysEntry(env.codec, fields, 0, i, 0);
      SaysEntry(env.codec, fields, 0, i, 1);
      SaysEntry(env.codec, fields, 0, i, 2);
      SaysEntry(env.codec, fields, 0, i, 3);
      SaysEntry(env.codec, fields, 0, i, 4);
    }
    forall i | 0 <= i < |r| ensures RecordSaid(env.codec, Manifest(env, d, a, s, r), i, r[i]) {
      SaysEntry(env.codec, fields, 3, i, 0);
      SaysEntry(env.codec, fields, 3, i, 1);
    }
    forall i | 0 <= i < |s| ensures SkipSaid(env.codec, Manifest(env, d, a, s, r), i, s[i]) {
      SaysEntry(env.codec, fields, 5, i, 0);
      SaysEntry(env.codec, fields, 5, i, 1);
      SaysEntry(env.codec, fields, 5, i, 2);
      SaysEntry(env.codec, fields, 5, i, 3);
      SaysEntry(env.codec, fields, 5, i, 4);
    }
  }

  /** The manifest on disk after a render says the document's digest and every artifact, skip
      and record of the plan, each artifact with the digest of the file on disk. */
  lemma ManifestWritten(env: Env, doc: Document, tree: Tree)
    requires env.codec.Lawful() && PlanRender(env, doc, tree).Ok? && Settled(env, doc, tree)
    ensures var plan := PlanRender(env, doc, tree).value;
            var after := Execute(plan, tree);
            var manifest := after.Get(env.manifestPath);
            && manifest.Some?
            && Says(env.codec, manifest.value, [Name("document_digest")], Str("sha256:" + env.sha(doc.raw)))
            && Lists(env.codec, manifest.value, "artifacts", |plan.artifacts|)
            && Lists(env.codec, manifest.value, "skipped", |plan.skipped|)
            && Lists(env.codec, manifest.value, "recorded", |plan.recorded|)
            && (forall i :: 0 <= i < |plan.artifacts| ==>
                  after.Get(plan.artifacts[i].path).Some?
                  && ArtifactSaid(env.codec, manifest.value, i, plan.artifacts[i], env.sha(after.Get(plan.artifacts[i].path).value)))
            && (forall i :: 0 <= i < |plan.skipped| ==> SkipSaid(env.codec, manifest.value, i, plan.skipped[i]))
            && (forall i :: 0 <= i < |plan.recorded| ==> RecordSaid(env.codec, manifest.value, i, plan.recorded[i]))
  {
    hide PlanRender, Execute, Codec.Lawful, Says, Lists, ArtifactSaid, SkipSaid, RecordSaid, FlatWrites, JobsOf, TextsOf, ManifestJson, ArtifactPaths;
    var plan := PlanRender(env, doc, tree).value;
    PlanParts(env, doc, tree);
    PlanFacts(env, doc, tree);
    ExecuteFacts(plan, tree);
    ManifestSays(env, plan.digest, plan.artifacts, plan.skipped, plan.recorded);
    forall i | 0 <= i < |plan.artifacts| ensures Execute(plan, tree).Get(plan.artifacts[i].path) == Some(plan.artifacts[i].content) {
      var a := plan.artifacts[i];
      assert a in plan.artifacts;
      assert a.path in ArtifactPaths(plan) by {
        InPaths(plan, a);
      }
      assert a.path != plan.manifestPath;
    }
  }

  lemma InPaths(plan: Plan, a: Artifact)
    requires a in plan.artifacts
    ensures a.path in ArtifactPaths(plan)
  {
  }

  // ----- the owned artifacts ---------------------------------------------------------------------

  lemma OwnedJob(env: Env, config: Json, tree: Tree, b: Binding, transform: Transform) returns (payload: seq<Field>, w: Write)
    requires Cataloged(env, b, OwnedArtifact, transform) && JobOf(env, config, tree, b).Ok?
    ensures LeafValue(config, b.key).Ok? && OwnedFilename(transform).Some?
    ensures Payload(env, tree, b.target, transform, LeafValue(config, b.key).value) == Ok(payload)
    ensures w.path == b.target + OwnedFilename(transform).value
    ensures w.op == Own(env.codec.emit(Obj(payload + [Field("marker", Str(YamlLens.MARKER)), Field("schema_version", Str("v1"))])))
    ensures w in JobOf(env, config, tree, b).value.action.writes
  {
    hide LeafValue, Payload, Listing, OwnedFilename, RecordedIn;
    payload := Payload(env, tree, b.target, transform, LeafValue(config, b.key).value).value;
    w := Write(b.target + OwnedFilename(transform).value, Own(env.codec.emit(Obj(payload + [Field("marker", Str(YamlLens.MARKER)), Field("schema_version", Str("v1"))]))));
  }

  /** The text of an owned file after the render. */
  ghost predicate OwnedText(env: Env, payload: seq<Field>, text: string) {
    text == env.codec.emit(Obj(payload + [Field("marker", Str(YamlLens.MARKER)), Field("schema_version", Str("v1"))]))
  }

  lemma OwnedOnDisk(env: Env, doc: Document, tree: Tree, b: Binding, transform: Transform) returns (payload: seq<Field>, text: string)
    requires env.codec.Lawful() && PlanRender(env, doc, tree).Ok? && Settled(env, doc, tree)
    requires b in doc.bindings && Cataloged(env, b, OwnedArtifact, transform) && Sole(env, doc, b)
    ensures LeafValue(doc.config, b.key).Ok? && OwnedFilename(transform).Some?
    ensures Payload(env, tree, b.target, transform, LeafValue(doc.config, b.key).value) == Ok(payload)
    ensures Execute(PlanRender(env, doc, tree).value, tree).Get(b.target + OwnedFilename(transform).value) == Some(text)
    ensures OwnedText(env, payload, text) && Proper(env.codec.floats, LeafValue(doc.config, b.key).value)
  {
    hide PlanRender, Execute, Settled, LeafValue, Payload, Codec.Lawful, Sole, JobOf, Holds, OwnedFilename, Proper;
    JobPlanned(env, doc, tree, b);
    var w;
    payload, w := OwnedJob(env, doc.config, tree, b, transform);
    BindingHolds(env, doc, tree, b, w);
    text := Execute(PlanRender(env, doc, tree).value, tree).Get(w.path).value;
    OwnHeld(env.codec, w.op, w.path, text);
    SettledProper(env, doc, tree);
    LeafProper(env.codec.floats, doc.config, b.key);
  }

  lemma OwnHeld(codec: Codec, op: Op, path: string, text: string)
    requires op.Own? && Holds(codec, op, path, text)
    ensures text == op.content
  {
  }

  lemma LeafProper(floats: real -> bool, config: Json, key: string)
    requires Proper(floats, config) && LeafValue(config, key).Ok?
    ensures Proper(floats, LeafValue(config, key).value)
  {
    hide Proper, RenderPlan.Walk;
    WalkProper(floats, config, SplitOn(key, '.'));
  }

  /** The owned isolation defaults hold the class of the document. */
  lemma DefaultsWritten(env: Env, doc: Document, tree: Tree, b: Binding)
    requires env.codec.Lawful() && PlanRender(env, doc, tree).Ok? && Settled(env, doc, tree)
    requires b in doc.bindings && Cataloged(env, b, OwnedArtifact, IsolationDefaults) && Sole(env, doc, b)
    ensures var leaf := LeafValue(doc.config, b.key);
            var after := Execute(PlanRender(env, doc, tree).value, tree).Get(b.target + "default_isolation_class.json");
            && leaf.Ok? && leaf.value.Str? && after.Some?
            && Says(env.codec, after.value, [Name("default_isolation_class")], leaf.value)
            && Says(env.codec, after.value, [Name("marker")], Str(YamlLens.MARKER))
            && Says(env.codec, after.value, [Name("schema_version")], Str("v1"))
  {
    hide PlanRender, Execute, Settled, LeafValue, Codec.Lawful, Sole, Says;
    var payload, text := OwnedOnDisk(env, doc, tree, b, IsolationDefaults);
    var fields := payload + [Field("marker", Str(YamlLens.MARKER)), Field("schema_version", Str("v1"))];
    assert |payload| == 1 && payload[0].key == "default_isolation_class";
    assert UniqueKeys(fields);
    ProperFields(env.codec.floats, fields);
    SaysKey(env.codec, fields, 0);
    SaysKey(env.codec, fields, 1);
    SaysKey(env.codec, fields, 2);
  }

  /** The bundles of a directory, in path order. */
  ghost predicate BundlesOf(tree: Tree, dir: string, paths: seq<string>) {
    && Ascending(paths)
    && forall p :: p in paths <==> p in tree.files && StartsWith(p, dir) && EndsWith(p, ".ndjson")
  }

  ghost predicate BundleSaid(env: Env, text: string, i: nat, name: string, content: string) {
    && Says(env.codec, text, [Name("bundles"), Index(i), Name("name")], Str(name))
    && Says(env.codec, text, [Name("bundles"), Index(i), Name("sha256")], Str(env.sha(content)))
  }

  lemma {:induction false} DigestsAre(env: Env, tree: Tree, paths: seq<string>, dir: string)
    requires forall p :: p in paths ==> p in tree.files && StartsWith(p, dir)
    ensures |Digests(env, tree, paths, dir)| == |paths|
    ensures forall i :: 0 <= i < |paths| ==>
              paths[i] in tree.files && |dir| <= |paths[i]|
              && Digests(env, tree, paths, dir)[i] == Obj([Field("name", Str(paths[i][|dir|..])), Field("sha256", Str(env.sha(tree.files[paths[i]])))])
  {
    if paths != [] {
      assert paths[0] in paths;
      forall p | p in paths[1..] ensures p in tree.files && StartsWith(p, dir) {
        assert p in paths;
      }
      DigestsAre(env, tree, paths[1..], dir);
    }
  }

  lemma StringEntry(floats: real -> bool, a: Field, b: Field)
    requires a.key != b.key && Proper(floats, a.value) && Proper(floats, b.value)
    ensures Proper(floats, Obj([a, b]))
  {
    ProperFields(floats, [a, b]);
  }

  ghost predicate BundlesSaid(env: Env, tree: Tree, dir: string, text: string, paths: seq<string>) {
    && BundlesOf(tree, dir, paths)
    && Lists(env.codec, text, "bundles", |paths|)
    && forall i :: 0 <= i < |paths| ==>
         paths[i] in tree.files && |dir| <= |paths[i]| && BundleSaid(env, text, i, paths[i][|dir|..], tree.files[paths[i]])
  }

  /** The owned provisioning state holds the switch of the document and a digest of every
      bundle of the directory, in path order. */
  lemma ProvisioningWritten(env: Env, doc: Document, tree: Tree, b: Binding)
    requires env.codec.Lawful() && PlanRender(env, doc, tree).Ok? && Settled(env, doc, tree)
    requires b in doc.bindings && Cataloged(env, b, OwnedArtifact, ProvisioningState) && Sole(env, doc, b)
    ensures var leaf := LeafValue(doc.config, b.key);
            var after := Execute(PlanRender(env, doc, tree).value, tree).Get(b.target + "provisioning_state.json");
            && leaf.Ok? && leaf.value.Bool? && after.Some?
            && Says(env.codec, after.value, [Name("enabled")], leaf.value)
            && Says(env.codec, after.value, [Name("marker")], Str(YamlLens.MARKER))
            && Says(env.codec, after.value, [Name("schema_version")], Str("v1"))
            && exists paths :: BundlesSaid(env, tree, b.target, after.value, paths)
  {
    hide PlanRender, Execute, Settled, LeafValue, Codec.Lawful, Sole, Says, Lists, Listing, BundlePaths, EndsWith, StartsWith, Proper;
    var payload, text := OwnedOnDisk(env, doc, tree, b, ProvisioningState);
    var fields := payload + [Field("marker", Str(YamlLens.MARKER)), Field("schema_version", Str("v1"))];
    var paths := BundlePaths(Listing(tree, b.target).value);
    ListingBundles(tree, b.target);
    DigestsAre(env, tree, paths, b.target);
    ProvisioningProper(env, tree, b.target, LeafValue(doc.config, b.key).value, paths);
    SaysKey(env.codec, fields, 1);
    SaysKey(env.codec, fields, 2);
    SaysKey(env.codec, fields, 3);
    ListsOf(env.codec, fields, 0);
    forall i | 0 <= i < |paths| ensures BundleSaid(env, text, i, paths[i][|b.target|..], tree.files[paths[i]]) {
      SaysEntry(env.codec, fields, 0, i, 0);
      SaysEntry(env.codec, fields, 0, i, 1);
    }
    assert BundlesSaid(env, tree, b.target, text, paths);
  }

  lemma ListingBundles(tree: Tree, dir: string)
    requires Listing(tree, dir).Ok?
    ensures BundlesOf(tree, dir, BundlePaths(Listing(tree, dir).value))
  {
    hide Leq, EndsWith, StartsWith;
    BundlesAscend(Listing(tree, dir).value);
  }

  lemma ProvisioningProper(env: Env, tree: Tree, dir: string, value: Json, paths: seq<string>)
    requires forall p :: p in paths ==> p in tree.files && StartsWith(p, dir)
    requires value.Bool?
    ensures Proper(env.codec.floats, Obj([Field("bundles", Arr(Digests(env, tree, paths, dir))), Field("enabled", value)]
                                         + [Field("marker", Str(YamlLens.MARKER)), Field("schema_version", Str("v1"))]))
  {
    hide StartsWith;
    var fields := [Field("bundles", Arr(Digests(env, tree, paths, dir))), Field("enabled", value)]
                  + [Field("marker", Str(YamlLens.MARKER)), Field("schema_version", Str("v1"))];
    DigestsAre(env, tree, paths, dir);
    var elements := fields[0].value.elements;
    forall i | 0 <= i < |elements| ensures Proper(env.codec.floats, elements[i]) {
      StringEntry(env.codec.floats, elements[i].fields[0], elements[i].fields[1]);
    }
    assert "bundles"[0] != "enabled"[0];
    assert UniqueKeys(fields);
    ProperFields(env.codec.floats, fields);
  }

  /** The channels of the document by name; each says its kind and its name. */
  ghost predicate ChannelsOf(value: Json, channels: seq<Json>) {
    && value.Arr?
    && multiset(channels) == multiset(value.elements)
    && (forall i :: 0 <= i < |channels| ==> channels[i].Obj? && HasKey(channels[i].fields, "kind") && HasKey(channels[i].fields, "name")
                                            && Get(channels[i].fields, "name").value.Str?)
    && forall i, j :: 0 <= i < j < |channels| ==> Leq(NameOf(channels[i]), NameOf(channels[j]), false)
  }

  function NameOf(channel: Json): string {
    if channel.Obj? && HasKey(channel.fields, "name") && Get(channel.fields, "name").value.Str? then Get(channel.fields, "name").value.s else ""
  }

  ghost predicate ChannelSaid(codec: Codec, text: string, i: nat, channel: Json)
    requires channel.Obj? && HasKey(channel.fields, "kind") && HasKey(channel.fields, "name")
  {
    && Says(codec, text, [Name("channels"), Index(i), Name("kind")], Get(channel.fields, "kind").value)
    && Says(codec, text, [Name("channels"), Index(i), Name("name")], Get(channel.fields, "name").value)
  }

  ghost predicate ChannelsSaid(codec: Codec, value: Json, text: string, channels: seq<Json>) {
    && ChannelsOf(value, channels)
    && Lists(codec, text, "channels", |channels|)
    && forall i :: 0 <= i < |channels| ==> ChannelSaid(codec, text, i, channels[i])
  }

  /** The owned destinations hold every channel of the document, by name. */
  lemma ChannelsWritten(env: Env, doc: Document, tree: Tree, b: Binding)
    requires env.codec.Lawful() && PlanRender(env, doc, tree).Ok? && Settled(env, doc, tree)
    requires b in doc.bindings && Cataloged(env, b, OwnedArtifact, Channels) && Sole(env, doc, b)
    ensures var leaf := LeafValue(doc.config, b.key);
            var after := Execute(PlanRender(env, doc, tree).value, tree).Get(b.target + "notification_destinations.json");
            && leaf.Ok? && after.Some?
            && Says(env.codec, after.value, [Name("marker")], Str(YamlLens.MARKER))
            && Says(env.codec, after.value, [Name("schema_version")], Str("v1"))
            && exists channels :: ChannelsSaid(env.codec, leaf.value, after.value, channels)
  {
    hide PlanRender, Execute, Settled, LeafValue, Codec.Lawful, Sole, Says, Lists, Proper, Get, HasKey, AscendingBy;
    var payload, text := OwnedOnDisk(env, doc, tree, b, Channels);
    var value := LeafValue(doc.config, b.key).value;
    var channels := SortBy(value.elements, ChannelName);
    ChannelsSorted(value);
    var fields := payload + [Field("marker", Str(YamlLens.MARKER)), Field("schema_version", Str("v1"))];
    ChannelsProper(env.codec.floats, value, channels);
    SaysKey(env.codec, fields, 1);
    SaysKey(env.codec, fields, 2);
    ListsOf(env.codec, fields, 0);
    forall i | 0 <= i < |channels| ensures ChannelSaid(env.codec, text, i, channels[i]) {
      SaysEntry(env.codec, fields, 0, i, 0);
      SaysEntry(env.codec, fields, 0, i, 1);
    }
    assert ChannelsSaid(env.codec, value, text, channels);
  }

  lemma ChannelsSorted(value: Json)
    requires value.Arr? && forall i :: 0 <= i < |value.elements| ==> IsChannel(value.elements[i])
    ensures ChannelsOf(value, SortBy(value.elements, ChannelName))
  {
    hide Get, HasKey;
    var channels := SortBy(value.elements, ChannelName);
    SortByMembers(value.elements, ChannelName);
    SortByAscends(value.elements, ChannelName);
    forall i | 0 <= i < |channels| ensures IsChannel(channels[i]) {
      assert channels[i] in channels;
    }
    forall i, j | 0 <= i < j < |channels| ensures Leq(NameOf(channels[i]), NameOf(channels[j]), false) {
      assert TupleLeq(ChannelName(channels[i]), ChannelName(channels[j]));
      LeqTotal(NameOf(channels[i]), NameOf(channels[i]), false);
    }
  }

  lemma ChannelsProper(floats: real -> bool, value: Json, channels: seq<Json>)
    requires Proper(floats, value) && ChannelsOf(value, channels)
    ensures Proper(floats, Obj([Field("channels", Arr(seq(|channels|, i requires 0 <= i < |channels| => Channel(channels[i]))))]
                               + [Field("marker", Str(YamlLens.MARKER)), Field("schema_version", Str("v1"))]))
  {
    hide Get, HasKey;
    var list := seq(|channels|, i requires 0 <= i < |channels| => Channel(channels[i]));
    var fields := [Field("channels", Arr(list))] + [Field("marker", Str(YamlLens.MARKER)), Field("schema_version", Str("v1"))];
    forall i | 0 <= i < |channels| ensures Proper(floats, list[i]) {
      assert channels[i] in multiset(channels);
      var k :| 0 <= k < |value.elements| && value.elements[k] == channels[i];
      ValueProper(floats, channels[i].fields, "kind");
      ValueProper(floats, channels[i].fields, "name");
      assert "kind"[0] != "name"[0];
      StringEntry(floats, list[i].fields[0], list[i].fields[1]);
    }
    assert UniqueKeys(fields);
    ProperFields(floats, fields);
  }

  lemma ValueProper(floats: real -> bool, fields: seq<Field>, key: string)
    requires Proper(floats, Obj(fields)) && HasKey(fields, key)
    ensures Proper(floats, Get(fields, key).value)
  {
    var i :| 0 <= i < |fields| && fields[i] == Field(key, Get(fields, key).value);
  }
}
