/** The leaves of a unified configuration and the rules that tie bindings to them
    (configrender: document.py). */
module UnifiedLeaves {
  import opened Results
  import opened Text
  import opened Json
  import opened Ordering
  import opened RenderOps
  import opened RenderPlan
  import opened PathRules

  // ----- leaf keys ---------------------------------------------------------------------------

  function Dotted(prefix: string, key: string): string {
    if prefix == "" then key else prefix + "." + key
  }

  /** The dotted paths of the values that are no mappings, in document order. */
  function Leaves(fields: seq<Field>, prefix: string): seq<string> {
    if fields == [] then []
    else
      var dotted := Dotted(prefix, fields[0].key);
      (match fields[0].value case Obj(inner) => Leaves(inner, dotted) case _ => [dotted]) + Leaves(fields[1..], prefix)
  }

  function Itself(s: string): seq<string> {
    [s]
  }

  /** `config_leaf_keys`. */
  function LeafKeys(config: seq<Field>): seq<string> {
    SortBy(Leaves(config, ""), Itself)
  }

  // ----- dotted paths ---------------------------------------------------------------------------

  predicate PlainKey(key: string) {
    key != "" && '.' !in key
  }

  /** Keys without dots, as the unified schema's names are. */
  predicate Plain(fields: seq<Field>) {
    forall i :: 0 <= i < |fields| ==> PlainKey(fields[i].key) && (fields[i].value.Obj? ==> Plain(fields[i].value.fields))
  }

  predicate NoDots(path: seq<string>) {
    forall i :: 0 <= i < |path| ==> '.' !in path[i]
  }

  function JoinDots(path: seq<string>): string
    requires path != []
  {
    if |path| == 1 then path[0] else path[0] + "." + JoinDots(path[1..])
  }

  lemma {:induction false} SplitPlain(key: string)
    requires '.' !in key
    ensures SplitOn(key, '.') == [key]
  {
    if key != "" {
      SplitPlain(key[1..]);
      assert key == [key[0]] + key[1..];
    }
  }

  lemma {:induction false} SplitFirst(key: string, rest: string)
    requires '.' !in key
    ensures SplitOn(key + "." + rest, '.') == [key] + SplitOn(rest, '.')
    decreases |key|
  {
    var s := key + "." + rest;
    if key == "" {
      assert s[1..] == rest;
    } else {
      SplitFirst(key[1..], rest);
      assert s[1..] == key[1..] + "." + rest;
      assert key == [key[0]] + key[1..];
    }
  }

  lemma {:induction false} SplitJoin(path: seq<string>)
    requires path != [] && NoDots(path)
    ensures SplitOn(JoinDots(path), '.') == path
    decreases |path|
  {
    hide SplitOn;
    if |path| == 1 {
      SplitPlain(path[0]);
    } else {
      SplitJoin(path[1..]);
      SplitFirst(path[0], JoinDots(path[1..]));
    }
  }

  lemma {:induction false} JoinSplit(s: string)
    ensures JoinDots(SplitOn(s, '.')) == s
  {
    if s != "" {
      JoinSplit(s[1..]);
      var rest := SplitOn(s[1..], '.');
      if s[0] == '.' {
        assert ([""] + rest)[1..] == rest;
      } else {
        var parts := [[s[0]] + rest[0]] + rest[1..];
        assert parts[1..] == rest[1..];
        assert JoinDots(parts) == [s[0]] + JoinDots(rest);
      }
    }
  }

  // ----- leaves are the paths that resolve -----------------------------------------------------------

  predicate IsLeafPath(fields: seq<Field>, path: seq<string>) {
    path != [] && Walk(Obj(fields), path).Ok? && !Walk(Obj(fields), path).value.Obj?
  }

  /** The name a path is listed under: empty leading keys leave no dot behind. */
  function Listed(prefix: string, path: seq<string>): string
    decreases |path|
  {
    if path == [] then prefix else Listed(Dotted(prefix, path[0]), path[1..])
  }

  lemma ListedStep(prefix: string, key: string, path: seq<string>)
    ensures Listed(prefix, [key] + path) == Listed(Dotted(prefix, key), path)
  {
    assert ([key] + path)[1..] == path;
  }

  lemma FirstField(fields: seq<Field>, key: string)
    requires fields != [] && UniqueKeys(fields)
    ensures Get(fields, key) == if key == fields[0].key then Some(fields[0].value) else Get(fields[1..], key)
  {
  }

  /** A leaf path of the first field, or of the rest. */
  lemma PathSplit(fields: seq<Field>, path: seq<string>)
    requires fields != [] && UniqueKeys(fields) && path != []
    ensures IsLeafPath(fields, path) <==>
            if path[0] != fields[0].key then IsLeafPath(fields[1..], path)
            else if |path| == 1 then !fields[0].value.Obj?
            else fields[0].value.Obj? && IsLeafPath(fields[0].value.fields, path[1..])
  {
    FirstField(fields, path[0]);
    hide Get;
    if path[0] != fields[0].key {
      assert Walk(Obj(fields), path) == Walk(Obj(fields[1..]), path);
    } else {
      assert Walk(Obj(fields), path) == Walk(fields[0].value, path[1..]);
      if |path| == 1 {
        assert path[1..] == [];
      } else if fields[0].value.Obj? {
        assert Obj(fields[0].value.fields) == fields[0].value;
      }
    }
  }

  lemma LeafIsPath(fields: seq<Field>, prefix: string, dotted: string) returns (path: seq<string>)
    requires WellFormed(Obj(fields)) && dotted in Leaves(fields, prefix)
    ensures IsLeafPath(fields, path) && dotted == Listed(prefix, path)
    decreases fields
  {
    hide Walk, Get, IsLeafPath, Listed;
    var first := fields[0];
    var inner := if first.value.Obj? then Leaves(first.value.fields, Dotted(prefix, first.key)) else [Dotted(prefix, first.key)];
    assert Leaves(fields, prefix) == inner + Leaves(fields[1..], prefix);
    if dotted in inner {
      var below := [];
      if first.value.Obj? {
        below := LeafIsPath(first.value.fields, Dotted(prefix, first.key), dotted);
        LeafPathNotEmpty(first.value.fields, below);
      } else {
        ListedNothing(dotted);
      }
      path := [first.key] + below;
      ListedStep(prefix, first.key, below);
      assert path[1..] == below;
      PathSplit(fields, path);
    } else {
      RestOk(fields);
      path := LeafIsPath(fields[1..], prefix, dotted);
      LeafPathNotEmpty(fields[1..], path);
      PathKeyPresent(fields[1..], path);
      PathSplit(fields, path);
    }
  }

  lemma ListedNothing(prefix: string)
    ensures Listed(prefix, []) == prefix
  {
  }

  lemma LeafPathNotEmpty(fields: seq<Field>, path: seq<string>)
    requires IsLeafPath(fields, path)
    ensures path != []
  {
  }

  lemma RestOk(fields: seq<Field>)
    requires WellFormed(Obj(fields)) && fields != []
    ensures WellFormed(Obj(fields[1..]))
  {
  }

  lemma PathKeyPresent(fields: seq<Field>, path: seq<string>)
    requires IsLeafPath(fields, path)
    ensures HasKey(fields, path[0])
  {
  }

  lemma {:induction false} PathIsLeaf(fields: seq<Field>, prefix: string, path: seq<string>)
    requires WellFormed(Obj(fields)) && IsLeafPath(fields, path)
    ensures Listed(prefix, path) in Leaves(fields, prefix)
    decreases fields
  {
    PathKeyPresent(fields, path);
    LeafPathNotEmpty(fields, path);
    hide Walk, Get, IsLeafPath, Listed;
    PathSplit(fields, path);
    var first := fields[0];
    assert path == [path[0]] + path[1..];
    ListedStep(prefix, path[0], path[1..]);
    if path[0] != first.key {
      RestOk(fields);
      PathIsLeaf(fields[1..], prefix, path);
    } else if |path| == 1 {
      ListedNothing(Dotted(prefix, first.key));
    } else {
      PathIsLeaf(first.value.fields, Dotted(prefix, first.key), path[1..]);
    }
  }

  /** The listed names are exactly those of the paths that lead to a value. */
  lemma ListedIff(config: seq<Field>, dotted: string)
    requires WellFormed(Obj(config))
    ensures dotted in LeafKeys(config) <==> exists path :: IsLeafPath(config, path) && Listed("", path) == dotted
  {
    hide Walk, SplitOn, SortBy, IsLeafPath, Listed;
    SortByMembers(Leaves(config, ""), Itself);
    if dotted in Leaves(config, "") {
      var path := LeafIsPath(config, "", dotted);
    }
    if path :| IsLeafPath(config, path) && Listed("", path) == dotted {
      PathIsLeaf(config, "", path);
    }
  }

  // ----- which listed names lead back ------------------------------------------------------------------

  /** No key holds a dot, and the first key is not empty where the path goes on. */
  predicate Addressable(path: seq<string>) {
    path != [] && NoDots(path) && (|path| > 1 ==> path[0] != "")
  }

  lemma {:induction false} ListedJoins(prefix: string, path: seq<string>)
    requires prefix != ""
    ensures Listed(prefix, path) == JoinDots([prefix] + path)
    decreases |path|
  {
    if path != [] {
      ListedJoins(prefix + "." + path[0], path[1..]);
      assert ([prefix] + path)[1..] == path;
      assert ([prefix + "." + path[0]] + path[1..])[1..] == path[1..];
    }
  }

  lemma {:induction false} PartsHaveNoDots(s: string)
    ensures NoDots(SplitOn(s, '.'))
  {
    if s != "" {
      PartsHaveNoDots(s[1..]);
    }
  }

  /** Dropping leading empty keys, a listed name has no more parts than its path. */
  lemma {:induction false} ListedParts(path: seq<string>)
    requires path != [] && NoDots(path)
    ensures |SplitOn(Listed("", path), '.')| <= |path|
    ensures Addressable(path) ==> SplitOn(Listed("", path), '.') == path
    decreases |path|
  {
    hide SplitOn;
    assert path == [path[0]] + path[1..];
    ListedStep("", path[0], path[1..]);
    if |path| == 1 {
      SplitPlain(path[0]);
      ListedNothing(path[0]);
    } else if path[0] == "" {
      ListedParts(path[1..]);
    } else {
      ListedJoins(path[0], path[1..]);
      SplitJoin(path);
    }
  }

  /** A listed name leads back along its own path exactly when the path is addressable. */
  lemma LeadsBackIff(path: seq<string>)
    requires path != []
    ensures SplitOn(Listed("", path), '.') == path <==> Addressable(path)
  {
    hide SplitOn;
    if NoDots(path) {
      ListedParts(path);
      if |path| > 1 && path[0] == "" {
        assert path == [path[0]] + path[1..];
        ListedStep("", path[0], path[1..]);
        ListedParts(path[1..]);
      }
    } else {
      PartsHaveNoDots(Listed("", path));
    }
  }

  /** The name of an addressable leaf resolves to that leaf's value. */
  lemma OwnValue(config: seq<Field>, path: seq<string>)
    requires IsLeafPath(config, path) && Addressable(path)
    ensures LeafValue(Obj(config), Listed("", path)) == Ok(Walk(Obj(config), path).value)
  {
    hide SplitOn, Walk;
    LeadsBackIff(path);
  }

  ghost predicate AllAddressable(config: seq<Field>) {
    forall path :: IsLeafPath(config, path) ==> Addressable(path)
  }

  /** Where every leaf is addressable, a dotted key resolves to a value exactly when it is
      listed. */
  lemma LeafIff(config: seq<Field>, dotted: string)
    requires WellFormed(Obj(config)) && AllAddressable(config)
    ensures LeafValue(Obj(config), dotted).Ok? <==> dotted in LeafKeys(config)
  {
    hide Walk, SplitOn, SortBy, LeafKeys, Addressable;
    ListedIff(config, dotted);
    if LeafValue(Obj(config), dotted).Ok? {
      var path := SplitOn(dotted, '.');
      assert IsLeafPath(config, path);
      LeadsBackIff(path);
      JoinSplit(dotted);
      JoinSplit(Listed("", path));
    }
    if dotted in LeafKeys(config) {
      var path :| IsLeafPath(config, path) && Listed("", path) == dotted;
      OwnValue(config, path);
    }
  }

  /** A configuration with the unified schema's names has only addressable leaves. */
  lemma {:induction false} PlainIsAddressable(fields: seq<Field>, path: seq<string>)
    requires WellFormed(Obj(fields)) && Plain(fields) && IsLeafPath(fields, path)
    ensures Addressable(path) && forall i :: 0 <= i < |path| ==> PlainKey(path[i])
    decreases fields
  {
    PathKeyPresent(fields, path);
    LeafPathNotEmpty(fields, path);
    hide Walk, Get, IsLeafPath;
    PathSplit(fields, path);
    assert PlainKey(fields[0].key);
    if path[0] != fields[0].key {
      RestOk(fields);
      PlainIsAddressable(fields[1..], path);
    } else if |path| > 1 {
      PlainIsAddressable(fields[0].value.fields, path[1..]);
      forall i | 0 <= i < |path| ensures PlainKey(path[i]) {
        if i > 0 {
          assert path[i] == path[1..][i - 1];
        }
      }
    }
  }

  /** A key with a dot is listed, and its name leads nowhere. */
  lemma DottedKeyDoesNotResolve()
    ensures var config := [Field("a.b", Int(1))];
            "a.b" in LeafKeys(config) && LeafValue(Obj(config), "a.b") == Err(NoLeaf)
  {
    var config := [Field("a.b", Int(1))];
    SortByMembers(Leaves(config, ""), Itself);
    assert Leaves(config, "") == ["a.b"] by {
      assert config[1..] == [];
    }
    SplitPlain("b");
    SplitFirst("a", "b");
    assert "a" + "." + "b" == "a.b";
    assert Get(config, "a").None?;
  }

  // ----- the cross-file rules --------------------------------------------------------------------------

  /** A binding and the native file its locator refers to. */
  datatype Bound = Bound(binding: Binding, repoPath: string)

  datatype Violation =
    | Unregistered(b: Bound)
    | UnknownKey(b: Bound)
    | BadPath(b: Bound, target: bool, fault: PathFault)
    | Unbound(leaf: string)

  function Note(condition: bool, v: Violation): seq<Violation> {
    if condition then [v] else []
  }

  function PathViolations(b: Bound, target: bool, surfaces: seq<string>): seq<Violation> {
    match PathFaultOf(if target then b.binding.target else b.repoPath, surfaces)
    case Some(fault) => [BadPath(b, target, fault)]
    case None => []
  }

  function BindingViolations(b: Bound, registered: set<string>, leaves: set<string>, surfaces: seq<Surface>): seq<Violation> {
    if b.binding.system !in registered then [Unregistered(b)]
    else
      var own := SurfacesFor(surfaces, b.binding.system);
      Note(b.binding.key !in leaves, UnknownKey(b)) + PathViolations(b, false, own) + PathViolations(b, true, own)
  }

  function AllBindingViolations(bs: seq<Bound>, registered: set<string>, leaves: set<string>, surfaces: seq<Surface>): seq<Violation> {
    if bs == [] then []
    else AllBindingViolations(bs[..|bs| - 1], registered, leaves, surfaces) + BindingViolations(bs[|bs| - 1], registered, leaves, surfaces)
  }

  function Elements(xs: seq<string>): set<string> {
    set x | x in xs
  }

  function BoundKeys(bs: seq<Bound>): set<string> {
    set b | b in bs :: b.binding.key
  }

  function UnboundLeaves(leaves: seq<string>): seq<Violation> {
    seq(|leaves|, i requires 0 <= i < |leaves| => Unbound(leaves[i]))
  }

  /** The violations `enforce_cross_file_rules` reports together. */
  function Violations(config: seq<Field>, bs: seq<Bound>, registered: set<string>, surfaces: seq<Surface>): seq<Violation> {
    var leaves := Elements(LeafKeys(config));
    AllBindingViolations(bs, registered, leaves, surfaces) + UnboundLeaves(Sorted(leaves - BoundKeys(bs), false))
  }

  /** No parent segment, not in the read-only tree, and in a surface of the system. */
  predicate PathOk(path: string, surfaces: seq<Surface>, system: string) {
    && ".." !in SplitOn(path, '/') && !StartsWith(path, FORBIDDEN_WRITE_PREFIX)
    && exists s :: s in surfaces && s.owner == system && Within(path, s.path)
  }

  predicate PathsOk(b: Bound, registered: set<string>, surfaces: seq<Surface>) {
    && b.binding.system in registered
    && PathOk(b.repoPath, surfaces, b.binding.system) && PathOk(b.binding.target, surfaces, b.binding.system)
  }

  lemma NoFaultIff(path: string, surfaces: seq<Surface>, system: string)
    ensures PathFaultOf(path, SurfacesFor(surfaces, system)) == None <==> PathOk(path, surfaces, system)
  {
    hide SplitOn, HasDotSegments, Within;
    DotSegmentsIff(path);
    if s :| s in surfaces && s.owner == system && Within(path, s.path) {
      assert s == Surface(system, s.path) && s.path in SurfacesFor(surfaces, system);
    }
  }

  predicate Acceptable(b: Bound, registered: set<string>, leaves: set<string>, surfaces: seq<Surface>) {
    b.binding.key in leaves && PathsOk(b, registered, surfaces)
  }

  lemma {:induction false} NoBindingViolationsIff(bs: seq<Bound>, registered: set<string>, leaves: set<string>, surfaces: seq<Surface>)
    ensures AllBindingViolations(bs, registered, leaves, surfaces) == [] <==> forall b :: b in bs ==> Acceptable(b, registered, leaves, surfaces)
  {
    hide PathFaultOf, PathOk;
    if bs != [] {
      var early, last := bs[..|bs| - 1], bs[|bs| - 1];
      assert bs == early + [last];
      NoBindingViolationsIff(early, registered, leaves, surfaces);
      NoFaultIff(last.repoPath, surfaces, last.binding.system);
      NoFaultIff(last.binding.target, surfaces, last.binding.system);
      assert BindingViolations(last, registered, leaves, surfaces) == [] <==> Acceptable(last, registered, leaves, surfaces);
    }
  }

  /** The rules accept exactly when the bound keys are the leaves, every system is
      registered and every path may be named by its system. */
  lemma RulesAcceptIff(config: seq<Field>, bs: seq<Bound>, registered: set<string>, surfaces: seq<Surface>)
    ensures Violations(config, bs, registered, surfaces) == [] <==>
            && BoundKeys(bs) == Elements(LeafKeys(config))
            && forall b :: b in bs ==> PathsOk(b, registered, surfaces)
  {
    hide LeafKeys, PathsOk;
    var leaves := Elements(LeafKeys(config));
    NoBindingViolationsIff(bs, registered, leaves, surfaces);
    var missing := leaves - BoundKeys(bs);
    assert |Sorted(missing, false)| == |missing|;
    assert |UnboundLeaves(Sorted(missing, false))| == |missing|;
    if missing == {} {
      forall x | x in leaves ensures x in BoundKeys(bs) {
        assert x !in missing;
      }
    }
    assert (forall b :: b in bs ==> b.binding.key in leaves) <==> BoundKeys(bs) <= leaves by {
      forall b | b in bs && BoundKeys(bs) <= leaves ensures b.binding.key in leaves {
        assert b.binding.key in BoundKeys(bs);
      }
    }
  }

  /** What is wrong with a path a binding names: the first of a parent segment, the read-only
      tree, and no surface of the system. */
  predicate PathWrong(path: string, surfaces: seq<Surface>, system: string, fault: PathFault) {
    match fault
    case DotSegments => ".." in SplitOn(path, '/')
    case ReadOnlyTree => ".." !in SplitOn(path, '/') && StartsWith(path, "gitops/charts/")
    case OutsideSurface =>
      ".." !in SplitOn(path, '/') && !StartsWith(path, "gitops/charts/")
      && !exists s :: s in surfaces && s.owner == system && (path == s.path || (EndsWith(s.path, "/") && StartsWith(path, s.path)))
  }

  /** The condition of every violation. */
  ghost predicate RuleBroken(config: seq<Field>, bs: seq<Bound>, registered: set<string>, surfaces: seq<Surface>, v: Violation) {
    match v
    case Unregistered(b) => b in bs && b.binding.system !in registered
    case UnknownKey(b) => b in bs && b.binding.system in registered && b.binding.key !in LeafKeys(config)
    case BadPath(b, target, fault) =>
      b in bs && b.binding.system in registered && PathWrong(if target then b.binding.target else b.repoPath, surfaces, b.binding.system, fault)
    case Unbound(leaf) => leaf in LeafKeys(config) && forall b :: b in bs ==> b.binding.key != leaf
  }

  lemma PathWrongIff(path: string, surfaces: seq<Surface>, system: string, fault: PathFault)
    ensures PathFaultOf(path, SurfacesFor(surfaces, system)) == Some(fault) <==> PathWrong(path, surfaces, system, fault)
  {
    hide SplitOn, HasDotSegments, EndsWith;
    DotSegmentsIff(path);
    var own := SurfacesFor(surfaces, system);
    if s :| s in surfaces && s.owner == system && (path == s.path || (EndsWith(s.path, "/") && StartsWith(path, s.path))) {
      assert s == Surface(system, s.path) && s.path in own;
    }
    if p :| p in own && Within(path, p) {
      assert Surface(system, p) in surfaces;
    }
  }

  lemma BindingViolationIff(b: Bound, registered: set<string>, leaves: set<string>, surfaces: seq<Surface>, v: Violation)
    ensures v in BindingViolations(b, registered, leaves, surfaces) <==>
              match v
              case Unregistered(c) => c == b && b.binding.system !in registered
              case UnknownKey(c) => c == b && b.binding.system in registered && b.binding.key !in leaves
              case BadPath(c, target, fault) =>
                c == b && b.binding.system in registered && PathWrong(if target then b.binding.target else b.repoPath, surfaces, b.binding.system, fault)
              case Unbound(_) => false
  {
    hide PathFaultOf, PathWrong;
    if v.BadPath? {
      PathWrongIff(b.repoPath, surfaces, b.binding.system, v.fault);
      PathWrongIff(b.binding.target, surfaces, b.binding.system, v.fault);
    }
  }

  lemma {:induction false} SomeBindingViolation(bs: seq<Bound>, registered: set<string>, leaves: set<string>, surfaces: seq<Surface>, v: Violation)
    ensures v in AllBindingViolations(bs, registered, leaves, surfaces) <==>
              exists b :: b in bs && v in BindingViolations(b, registered, leaves, surfaces)
  {
    hide BindingViolations;
    if bs != [] {
      var early, last := bs[..|bs| - 1], bs[|bs| - 1];
      assert bs == early + [last];
      SomeBindingViolation(early, registered, leaves, surfaces, v);
    }
  }

  /** A violation is reported exactly when its condition holds. */
  lemma ReportedIff(config: seq<Field>, bs: seq<Bound>, registered: set<string>, surfaces: seq<Surface>, v: Violation)
    ensures v in Violations(config, bs, registered, surfaces) <==> RuleBroken(config, bs, registered, surfaces, v)
  {
    hide LeafKeys, PathWrong, BindingViolations, AllBindingViolations, UnboundLeaves, Sorted, BoundKeys;
    var leaves := Elements(LeafKeys(config));
    SomeBindingViolation(bs, registered, leaves, surfaces, v);
    forall b ensures v in BindingViolations(b, registered, leaves, surfaces) <==>
              match v
              case Unregistered(c) => c == b && b.binding.system !in registered
              case UnknownKey(c) => c == b && b.binding.system in registered && b.binding.key !in leaves
              case BadPath(c, target, fault) =>
                c == b && b.binding.system in registered && PathWrong(if target then b.binding.target else b.repoPath, surfaces, b.binding.system, fault)
              case Unbound(_) => false
    {
      BindingViolationIff(b, registered, leaves, surfaces, v);
    }
    UnboundIff(bs, leaves, v);
  }

  lemma UnboundIff(bs: seq<Bound>, leaves: set<string>, v: Violation)
    ensures v in UnboundLeaves(Sorted(leaves - BoundKeys(bs), false)) <==> v.Unbound? && v.leaf in leaves && forall b :: b in bs ==> b.binding.key != v.leaf
  {
    hide Sorted;
    var sorted := Sorted(leaves - BoundKeys(bs), false);
    var unbound := UnboundLeaves(sorted);
    if v.Unbound? {
      if v.leaf in leaves - BoundKeys(bs) {
        var i :| 0 <= i < |sorted| && sorted[i] == v.leaf;
        assert unbound[i] == v;
      }
      assert v.leaf in BoundKeys(bs) <==> exists b :: b in bs && b.binding.key == v.leaf;
    }
  }

  /** Once the rules accept, every binding's key resolves and every value is bound. */
  lemma AcceptedResolves(config: seq<Field>, bs: seq<Bound>, registered: set<string>, surfaces: seq<Surface>, dotted: string)
    requires WellFormed(Obj(config)) && AllAddressable(config) && Violations(config, bs, registered, surfaces) == []
    ensures LeafValue(Obj(config), dotted).Ok? <==> exists b :: b in bs && b.binding.key == dotted
  {
    RulesAcceptIff(config, bs, registered, surfaces);
    LeafIff(config, dotted);
    hide Violations, LeafValue, LeafKeys, PathsOk, AllAddressable;
    assert dotted in BoundKeys(bs) <==> exists b :: b in bs && b.binding.key == dotted;
  }

  // ----- planning an accepted document ----------------------------------------------------------------------

  lemma ActionResolves(env: Env, config: Json, tree: Tree, binding: Binding, entry: StrategyEntry)
    requires LeafValue(config, binding.key).Ok?
    ensures ActionOf(env, config, tree, binding, entry) != Err(NoLeaf)
  {
    hide LeafValue, Digests, RecordedIn, Payload, Channel, SyncWrites, Sorted;
    var value := LeafValue(config, binding.key).value;
    PayloadResolves(env, tree, binding, entry.transform, value);
  }

  lemma PayloadResolves(env: Env, tree: Tree, binding: Binding, transform: Transform, value: Json)
    ensures Payload(env, tree, binding.target, transform, value) != Err(NoLeaf)
  {
    hide Digests, ChannelName, Sorted;
  }

  /** No accepted document fails to plan for want of a value. */
  lemma {:induction false} AcceptedPlans(env: Env, config: seq<Field>, tree: Tree, bs: seq<Bound>, bindings: seq<Binding>,
                                         registered: set<string>, surfaces: seq<Surface>)
    requires WellFormed(Obj(config)) && AllAddressable(config) && Violations(config, bs, registered, surfaces) == []
    requires forall binding :: binding in bindings ==> exists b :: b in bs && b.binding == binding
    ensures Collect(env, Obj(config), tree, bindings) != Err(NoLeaf)
  {
    hide Violations, ActionOf, LeafValue, WellFormed, AllAddressable;
    if bindings != [] {
      var last := bindings[|bindings| - 1];
      var early := bindings[..|bindings| - 1];
      forall binding | binding in early ensures exists b :: b in bs && b.binding == binding {
        assert binding in bindings;
      }
      AcceptedPlans(env, config, tree, bs, early, registered, surfaces);
      assert last in bindings;
      AcceptedResolves(config, bs, registered, surfaces, last.key);
      var pair := (last.key, last.system);
      if pair in env.catalog {
        ActionResolves(env, Obj(config), tree, last, env.catalog[pair]);
      }
    }
  }

  // ----- the loops of the program -----------------------------------------------------------------------

  function LeavesOf(field: Field, prefix: string): seq<string> {
    match field.value
    case Obj(inner) => Leaves(inner, Dotted(prefix, field.key))
    case _ => [Dotted(prefix, field.key)]
  }

  lemma LeavesNext(fields: seq<Field>, prefix: string, i: nat, so: seq<string>, all: seq<string>)
    requires i < |fields| && so + Leaves(fields[i..], prefix) == all
    ensures (so + LeavesOf(fields[i], prefix)) + Leaves(fields[i + 1..], prefix) == all
  {
    assert fields[i..][1..] == fields[i + 1..];
    assert Leaves(fields[i..], prefix) == LeavesOf(fields[i], prefix) + Leaves(fields[i + 1..], prefix);
  }

  /** The recursive walk, which appends to the list it is given. */
  method WalkLeaves(fields: seq<Field>, prefix: string, leaves: seq<string>) returns (more: seq<string>)
    ensures more == leaves + Leaves(fields, prefix)
    decreases fields
  {
    hide Leaves, Dotted;
    more := leaves;
    var i := 0;
    ghost var all := leaves + Leaves(fields, prefix);
    assert fields[0..] == fields;
    while i < |fields|
      invariant i <= |fields|
      invariant more + Leaves(fields[i..], prefix) == all
    {
      LeavesNext(fields, prefix, i, more, all);
      var dotted := Dotted(prefix, fields[i].key);
      if fields[i].value.Obj? {
        more := WalkLeaves(fields[i].value.fields, dotted, more);
      } else {
        more := more + [dotted];
      }
      i := i + 1;
    }
    NoLeaves(prefix);
    assert fields[i..] == [];
  }

  lemma NoLeaves(prefix: string)
    ensures Leaves([], prefix) == []
  {
  }

  method ConfigLeafKeys(config: seq<Field>) returns (keys: seq<string>)
    ensures keys == LeafKeys(config)
  {
    var leaves := WalkLeaves(config, "", []);
    assert [] + Leaves(config, "") == Leaves(config, "");
    keys := SortBy(leaves, Itself);
  }

  method ResolveLeaf(config: Json, dotted: string) returns (r: Result<Json, RenderError>)
    ensures r == LeafValue(config, dotted)
  {
    var node := config;
    var segments := SplitOn(dotted, '.');
    var i := 0;
    while i < |segments|
      invariant i <= |segments|
      invariant Walk(node, segments[i..]) == Walk(config, segments)
    {
      assert segments[i..][1..] == segments[i + 1..];
      if !node.Obj? || Get(node.fields, segments[i]).None? {
        return Err(NoLeaf);
      }
      node := Get(node.fields, segments[i]).value;
      i := i + 1;
    }
    r := if node.Obj? then Err(NoLeaf) else Ok(node);
  }

  method EnforceRules(config: seq<Field>, bs: seq<Bound>, registered: set<string>, surfaces: seq<Surface>)
    returns (violations: seq<Violation>)
    ensures violations == Violations(config, bs, registered, surfaces)
  {
    hide BindingViolations, LeafKeys, Sorted;
    violations := [];
    var keys := ConfigLeafKeys(config);
    var leaves := Elements(keys);
    var i := 0;
    while i < |bs|
      invariant i <= |bs|
      invariant violations == AllBindingViolations(bs[..i], registered, leaves, surfaces)
    {
      assert bs[..i + 1][..i] == bs[..i];
      var found := CheckBinding(bs[i], registered, leaves, surfaces);
      violations := violations + found;
      i := i + 1;
    }
    assert bs[..i] == bs;
    var rest := ReportUnbound(Sorted(leaves - BoundKeys(bs), false));
    violations := violations + rest;
  }

  method ReportUnbound(leaves: seq<string>) returns (found: seq<Violation>)
    ensures found == UnboundLeaves(leaves)
  {
    found := [];
    var i := 0;
    while i < |leaves|
      invariant i <= |leaves| == |UnboundLeaves(leaves)|
      invariant found == UnboundLeaves(leaves)[..i]
    {
      found := found + [Unbound(leaves[i])];
      i := i + 1;
    }
  }

  method CheckBinding(b: Bound, registered: set<string>, leaves: set<string>, surfaces: seq<Surface>)
    returns (found: seq<Violation>)
    ensures found == BindingViolations(b, registered, leaves, surfaces)
  {
    found := [];
    if b.binding.system !in registered {
      return [Unregistered(b)];
    }
    if b.binding.key !in leaves {
      found := found + [UnknownKey(b)];
    }
    var own := SurfacesFor(surfaces, b.binding.system);
    var source := CheckPath(b, false, own);
    var target := CheckPath(b, true, own);
    found := found + source + target;
  }

  /** `_check_binding_path`. */
  method CheckPath(b: Bound, target: bool, surfaces: seq<string>) returns (found: seq<Violation>)
    ensures found == PathViolations(b, target, surfaces)
  {
    var path := if target then b.binding.target else b.repoPath;
    if HasDotSegments(path) {
      return [BadPath(b, target, DotSegments)];
    }
    if StartsWith(path, FORBIDDEN_WRITE_PREFIX) {
      return [BadPath(b, target, ReadOnlyTree)];
    }
    var within := AnyWithin(path, surfaces);
    found := if within then [] else [BadPath(b, target, OutsideSurface)];
  }
}
