/** Which repository paths a binding may name (configrender: document.py, the containment
    checks shared by repo_path and render_target). */
module PathRules {
  import opened Results
  import opened Text
  import opened RenderPlan

  const FORBIDDEN_WRITE_PREFIX := "gitops/charts/"

  /** A registered surface: the system that owns it, and a file or a directory ending in '/'. */
  datatype Surface = Surface(owner: string, path: string)

  datatype PathFault = DotSegments | ReadOnlyTree | OutsideSurface

  // ----- the parts of a path ---------------------------------------------------------------

  predicate IsNamed(segment: string) {
    segment != "" && segment != "."
  }

  /** The segments that are left once empty and single-dot segments have collapsed. */
  function Named(segments: seq<string>): (names: seq<string>)
    ensures forall s :: s in names <==> s in segments && IsNamed(s)
  {
    if segments == [] then []
    else (if IsNamed(segments[0]) then [segments[0]] else []) + Named(segments[1..])
  }

  function Root(path: string): seq<string> {
    if StartsWith(path, "//") && !StartsWith(path, "///") then ["//"] else if StartsWith(path, "/") then ["/"] else []
  }

  /** `PurePosixPath(path).parts`. */
  function Parts(path: string): seq<string> {
    Root(path) + Named(SplitOn(path, '/'))
  }

  /** `_has_dot_segments`. */
  predicate HasDotSegments(path: string) {
    exists part :: part in Parts(path) && (part == "." || part == "..")
  }

  // ----- the checks -------------------------------------------------------------------------------

  /** `_within_surface`. */
  predicate Within(path: string, surface: string) {
    if EndsWith(surface, "/") then StartsWith(path, surface) else path == surface
  }

  /** `surfaces_for`. */
  function SurfacesFor(surfaces: seq<Surface>, system: string): (r: seq<string>)
    ensures forall p :: p in r <==> Surface(system, p) in surfaces
  {
    if surfaces == [] then []
    else (if surfaces[0].owner == system then [surfaces[0].path] else []) + SurfacesFor(surfaces[1..], system)
  }

  /** `_check_binding_path`. */
  function PathFaultOf(path: string, surfaces: seq<string>): Option<PathFault> {
    if HasDotSegments(path) then Some(DotSegments)
    else if StartsWith(path, FORBIDDEN_WRITE_PREFIX) then Some(ReadOnlyTree)
    else if !exists s :: s in surfaces && Within(path, s) then Some(OutsideSurface)
    else None
  }

  method AnyWithin(path: string, surfaces: seq<string>) returns (found: bool)
    ensures found <==> exists s :: s in surfaces && Within(path, s)
  {
    found := false;
    var i := 0;
    while i < |surfaces|
      invariant i <= |surfaces|
      invariant found <==> exists s :: s in surfaces[..i] && Within(path, s)
    {
      assert surfaces[..i + 1] == surfaces[..i] + [surfaces[i]];
      found := found || Within(path, surfaces[i]);
      i := i + 1;
    }
    assert surfaces[..i] == surfaces;
  }

  // ----- what the checks mean ------------------------------------------------------------------------

  /** Single dots have collapsed before the check sees them: only a parent segment counts. */
  lemma DotSegmentsIff(path: string)
    ensures HasDotSegments(path) <==> ".." in SplitOn(path, '/')
  {
    hide SplitOn;
    var named := Named(SplitOn(path, '/'));
    assert ".." in named ==> ".." in Parts(path);
    forall part | part in Parts(path) && part !in named ensures part != "." && part != ".." {
      assert part in Root(path);
    }
  }

  /** A path with a '.' or '..' segment is refused as written exactly when it has a '..'
      segment, or neither. */
  lemma RefusesDotsIff(path: string)
    ensures var segments := SplitOn(path, '/');
            (HasDotSegments(path) <==> "." in segments || ".." in segments) <==> ("." in segments ==> ".." in segments)
  {
    hide SplitOn, HasDotSegments;
    DotSegmentsIff(path);
  }

  /** A path through a single-dot segment meets no fault where the rule promises one. */
  lemma SingleDotPasses()
    ensures "." in SplitOn("a/./b", '/') && PathFaultOf("a/./b", ["a/"]) == None
  {
    var path := "a/./b";
    SplitOne('a');
    SplitOne('.');
    SplitOne('b');
    SplitAfter(".", "b");
    SplitAfter("a", "./b");
    assert "." + "/" + "b" == "./b" && "a" + "/" + "./b" == path;
    assert SplitOn(path, '/') == ["a", ".", "b"];
    DotSegmentsIff(path);
    hide SplitOn, HasDotSegments;
    assert Within(path, "a/");
    assert path[0] != FORBIDDEN_WRITE_PREFIX[0];
    assert "a/" in ["a/"];
  }

  /** The segments once one more character stands in front. */
  function Pushed(c: char, parts: seq<string>): seq<string>
    requires parts != []
  {
    if c == '/' then [""] + parts else [[c] + parts[0]] + parts[1..]
  }

  lemma SplitStep(s: string)
    ensures SplitOn("", '/') == [""]
    ensures s != "" ==> SplitOn(s, '/') == Pushed(s[0], SplitOn(s[1..], '/'))
  {
  }

  lemma PushedAppend(c: char, a: seq<string>, b: seq<string>)
    requires a != []
    ensures Pushed(c, a + b) == Pushed(c, a) + b
  {
    assert (a + b)[1..] == a[1..] + b;
  }

  lemma SplitOne(c: char)
    requires c != '/'
    ensures SplitOn([c], '/') == [[c]]
  {
    SplitStep([c]);
    assert [c][1..] == "" && [c] + "" == [c];
    hide SplitOn;
  }

  lemma {:induction false} SplitAfter(a: string, b: string)
    ensures SplitOn(a + "/" + b, '/') == SplitOn(a, '/') + SplitOn(b, '/')
    decreases |a|
  {
    hide SplitOn;
    var s := a + "/" + b;
    SplitStep(s);
    SplitStep(a);
    if a == "" {
      assert s[1..] == b;
    } else {
      assert s[1..] == a[1..] + "/" + b;
      SplitAfter(a[1..], b);
      PushedAppend(a[0], SplitOn(a[1..], '/'), SplitOn(b, '/'));
    }
  }

  lemma {:induction false} NamedAppend(a: seq<string>, b: seq<string>)
    ensures Named(a + b) == Named(a) + Named(b)
  {
    hide IsNamed;
    if a == [] {
      assert a + b == b;
    } else {
      assert (a + b)[1..] == a[1..] + b;
      NamedAppend(a[1..], b);
    }
  }

  lemma WithinNames(path: string, surface: string)
    requires Within(path, surface)
    ensures Named(SplitOn(surface, '/')) <= Named(SplitOn(path, '/'))
  {
    hide SplitOn, Named;
    if EndsWith(surface, "/") {
      var dir, rest := surface[..|surface| - 1], path[|surface|..];
      assert surface == dir + "/" + "" && path == dir + "/" + rest;
      SplitAfter(dir, "");
      SplitAfter(dir, rest);
      NamedAppend(SplitOn(dir, '/'), SplitOn("", '/'));
      NamedAppend(SplitOn(dir, '/'), SplitOn(rest, '/'));
      NothingNamed();
    }
  }

  /** An accepted path is inside a surface of its system: it goes through the surface's own
      parts, and never up. */
  lemma AcceptedIsInside(path: string, surfaces: seq<string>)
    requires PathFaultOf(path, surfaces) == None
    ensures ".." !in SplitOn(path, '/') && ".." !in Parts(path)
    ensures exists s :: s in surfaces && Within(path, s) && Named(SplitOn(s, '/')) <= Named(SplitOn(path, '/'))
  {
    hide SplitOn, Named, Within;
    DotSegmentsIff(path);
    var s :| s in surfaces && Within(path, s);
    WithinNames(path, s);
  }

  lemma NothingNamed()
    ensures Named(SplitOn("", '/')) == []
  {
  }

  // ----- the read-only tree -----------------------------------------------------------------------------

  /** The parts of a path in the read-only tree. */
  const READ_ONLY: seq<string> := ["gitops", "charts"]

  /** A surface from which a path into the read-only tree is accepted: a directory above the
      tree, or one that reaches into it under another spelling. */
  predicate Reaches(surface: string) {
    && ".." !in SplitOn(surface, '/')
    && (|| (IsDirectory(surface) && (Parts(surface) == [] || Parts(surface) == ["gitops"]))
        || (READ_ONLY <= Parts(surface) && !StartsWith(surface, FORBIDDEN_WRITE_PREFIX)))
  }

  lemma RootAppend(a: string, b: string)
    requires a != "" && a[0] != '/'
    ensures Root(a) == [] && Root(a + b) == []
  {
    assert (a + b)[0] == a[0];
  }

  lemma RootIs(path: string)
    ensures Root(path) == [] <==> path == "" || path[0] != '/'
    ensures Root(path) != [] ==> Root(path) == ["/"] || Root(path) == ["//"]
  {
  }

  /** The segments of a directory's path, followed by others. */
  lemma DirectorySegments(surface: string, rest: string)
    requires IsDirectory(surface)
    ensures var dir := surface[..|surface| - 1];
            && SplitOn(surface + rest, '/') == SplitOn(dir, '/') + SplitOn(rest, '/')
            && SplitOn(surface, '/') == SplitOn(dir, '/') + [""]
            && Named(SplitOn(surface + rest, '/')) == Named(SplitOn(dir, '/')) + Named(SplitOn(rest, '/'))
            && Named(SplitOn(surface, '/')) == Named(SplitOn(dir, '/'))
  {
    hide SplitOn, Named;
    var dir := surface[..|surface| - 1];
    assert surface == dir + "/" + "" && surface + rest == dir + "/" + rest;
    SplitAfter(dir, "");
    SplitAfter(dir, rest);
    NamedAppend(SplitOn(dir, '/'), SplitOn("", '/'));
    NamedAppend(SplitOn(dir, '/'), SplitOn(rest, '/'));
    NothingNamed();
    SplitStep("");
  }

  lemma ForbiddenText(path: string) returns (rest: string)
    requires StartsWith(path, FORBIDDEN_WRITE_PREFIX)
    ensures path == "gitops" + "/" + ("charts" + "/" + rest)
  {
    rest := path[14..];
    assert FORBIDDEN_WRITE_PREFIX == "gitops" + "/" + ("charts" + "/");
    assert path == path[..14] + rest;
  }

  /** What stands below the forbidden prefix starts with its two segments. */
  lemma ForbiddenSegments(path: string)
    requires StartsWith(path, FORBIDDEN_WRITE_PREFIX)
    ensures READ_ONLY <= SplitOn(path, '/')
  {
    hide SplitOn, StartsWith;
    var rest := ForbiddenText(path);
    SplitWord("gitops");
    SplitWord("charts");
    SplitAfter("charts", rest);
    SplitAfter("gitops", "charts" + "/" + rest);
    assert SplitOn(path, '/') == ["gitops"] + (["charts"] + SplitOn(rest, '/'));
    assert SplitOn(path, '/') == READ_ONLY + SplitOn(rest, '/');
  }

  lemma NamedTwo(a: string, b: string, rest: seq<string>)
    requires IsNamed(a) && IsNamed(b)
    ensures Named([a, b] + rest) == [a, b] + Named(rest)
  {
    assert ([a, b] + rest)[1..] == [b] + rest && ([b] + rest)[1..] == rest;
  }

  lemma {:induction false} SplitWord(word: string)
    requires '/' !in word
    ensures SplitOn(word, '/') == [word]
  {
    if word != "" {
      SplitWord(word[1..]);
      assert word == [word[0]] + word[1..];
    }
  }

  // From each of the surfaces a path into the tree.

  lemma Words()
    ensures SplitOn("gitops", '/') == ["gitops"] && SplitOn("charts", '/') == ["charts"]
    ensures SplitOn("x", '/') == ["x"] && SplitOn(".", '/') == ["."]
  {
    hide SplitOn;
    SplitWord("gitops");
    SplitWord("charts");
    SplitWord("x");
    SplitWord(".");
  }

  lemma ChartsSegments()
    ensures SplitOn("charts/x", '/') == ["charts", "x"] && Named(["charts", "x"]) == ["charts", "x"]
  {
    hide SplitOn, Named;
    Words();
    SplitAfter("charts", "x");
    assert "charts" + "/" + "x" == "charts/x";
    NamedTwo("charts", "x", []);
    NothingLeft();
    assert ["charts", "x"] + [] == ["charts", "x"];
  }

  lemma NothingLeft()
    ensures Named([]) == []
  {
  }

  lemma TreeSegments()
    ensures SplitOn("gitops/charts/x", '/') == ["gitops", "charts", "x"] && Named(["gitops", "charts", "x"]) == ["gitops", "charts", "x"]
    ensures SplitOn("./charts/x", '/') == [".", "charts", "x"] && Named([".", "charts", "x"]) == ["charts", "x"]
  {
    hide SplitOn, Named;
    Words();
    ChartsSegments();
    SplitAfter("gitops", "charts/x");
    SplitAfter(".", "charts/x");
    assert "gitops" + "/" + "charts/x" == "gitops/charts/x" && "." + "/" + "charts/x" == "./charts/x";
    NamedAppend(["gitops"], ["charts", "x"]);
    NamedAppend(["."], ["charts", "x"]);
    NamedOne();
  }

  lemma NamedOne()
    ensures Named(["gitops"]) == ["gitops"] && Named(["."]) == []
  {
    assert ["gitops"][1..] == [] && ["."][1..] == [];
  }

  lemma FromAbove(surface: string) returns (path: string)
    requires Reaches(surface) && IsDirectory(surface) && Parts(surface) == []
    ensures Within(path, surface) && ".." !in SplitOn(path, '/') && !StartsWith(path, FORBIDDEN_WRITE_PREFIX) && READ_ONLY <= Parts(path)
  {
    hide SplitOn, Named;
    var rest := "gitops/charts/x";
    path := surface + rest;
    TreeSegments();
    RootIs(surface);
    DirectorySegments(surface, rest);
    RootAppend(surface, rest);
    assert Parts(path) == ["gitops", "charts", "x"];
    if StartsWith(path, FORBIDDEN_WRITE_PREFIX) {
      ForbiddenSegments(path);
      FirstNamed(surface, rest);
    }
  }

  /** The first segment of a path that goes through a directory is one of the directory's. */
  lemma FirstNamed(surface: string, rest: string)
    requires IsDirectory(surface) && READ_ONLY <= SplitOn(surface + rest, '/')
    ensures "gitops" in Named(SplitOn(surface, '/'))
  {
    hide SplitOn;
    DirectorySegments(surface, rest);
    var dir := SplitOn(surface[..|surface| - 1], '/');
    assert dir[0] == SplitOn(surface + rest, '/')[0] == "gitops";
    assert "gitops" in SplitOn(surface, '/');
  }

  lemma RootFirst(surface: string)
    requires Parts(surface) == ["gitops"]
    ensures Root(surface) == []
  {
    hide Named;
    RootIs(surface);
    HeadOf(Root(surface), Named(SplitOn(surface, '/')));
  }

  lemma HeadOf(a: seq<string>, b: seq<string>)
    ensures a != [] ==> (a + b)[0] == a[0]
  {
  }

  lemma FromGitops(surface: string) returns (path: string)
    requires Reaches(surface) && IsDirectory(surface) && Parts(surface) == ["gitops"]
    ensures Within(path, surface) && ".." !in SplitOn(path, '/') && !StartsWith(path, FORBIDDEN_WRITE_PREFIX) && READ_ONLY <= Parts(path)
  {
    hide SplitOn, Named;
    var rest := "./charts/x";
    path := surface + rest;
    TreeSegments();
    RootIs(surface);
    assert "/"[0] != "gitops"[0] && "//"[0] != "gitops"[0];
    RootFirst(surface);
    DirectorySegments(surface, rest);
    RootAppend(surface, rest);
    assert Parts(path) == ["gitops", "charts", "x"];
    assert Named(SplitOn(surface, '/')) == ["gitops"] && "charts"[0] != "gitops"[0];
    if StartsWith(path, FORBIDDEN_WRITE_PREFIX) {
      ForbiddenSegments(path);
      SecondNamed(surface, rest);
    }
  }

  lemma SecondOf(a: seq<string>, b: seq<string>)
    requires a != [] && |a + b| > 1
    ensures (a + b)[1] == if |a| == 1 then b[0] else a[1]
  {
  }

  lemma SecondNamed(surface: string, rest: string)
    requires IsDirectory(surface) && READ_ONLY <= SplitOn(surface + rest, '/') && SplitOn(rest, '/')[0] != "charts"
    ensures "charts" in Named(SplitOn(surface, '/'))
  {
    hide SplitOn;
    DirectorySegments(surface, rest);
    var dir, more := SplitOn(surface[..|surface| - 1], '/'), SplitOn(rest, '/');
    SecondOf(dir, more);
    assert |dir| > 1 && dir[1] == "charts";
    assert "charts" in SplitOn(surface, '/');
  }

  /** A path that is accepted from a surface and lies in the tree. */
  lemma AcceptedReaches(path: string, surface: string)
    requires Within(path, surface) && ".." !in SplitOn(path, '/') && !StartsWith(path, FORBIDDEN_WRITE_PREFIX) && READ_ONLY <= Parts(path)
    ensures Reaches(surface)
  {
    hide SplitOn, Named;
    if IsDirectory(surface) {
      var rest := path[|surface|..];
      assert path == surface + rest;
      DirectorySegments(surface, rest);
      RootIs(path);
      RootIs(surface);
      assert path[0] == surface[0];
      var parts := Parts(surface);
      assert Parts(path)[0] == "gitops";
      assert Root(path) == [] && Root(surface) == [];
      assert Parts(path) == parts + Named(SplitOn(rest, '/'));
      if |parts| >= 2 {
        assert parts[0] == Parts(path)[0] && parts[1] == Parts(path)[1];
      } else if |parts| == 1 {
        assert parts[0] == Parts(path)[0];
      }
    }
  }

  /** Every accepted path stays outside the read-only tree, exactly when none of the system's
      surfaces is a directory above the tree or a way into it under another spelling. */
  lemma StaysOutsideIff(surfaces: seq<string>)
    ensures (forall path :: PathFaultOf(path, surfaces) == None ==> !(READ_ONLY <= Parts(path))) <==>
            (forall s :: s in surfaces ==> !Reaches(s))
  {
    hide SplitOn, Named, HasDotSegments, Within, Reaches, Parts;
    forall s | s in surfaces && Reaches(s) ensures exists path :: PathFaultOf(path, surfaces) == None && READ_ONLY <= Parts(path) {
      var path := ReachedFrom(s);
      DotSegmentsIff(path);
      assert PathFaultOf(path, surfaces) == None;
    }
    forall path | PathFaultOf(path, surfaces) == None && READ_ONLY <= Parts(path) ensures exists s :: s in surfaces && Reaches(s) {
      DotSegmentsIff(path);
      var s :| s in surfaces && Within(path, s);
      AcceptedReaches(path, s);
    }
  }

  lemma ReachedFrom(surface: string) returns (path: string)
    requires Reaches(surface)
    ensures Within(path, surface) && ".." !in SplitOn(path, '/') && !StartsWith(path, FORBIDDEN_WRITE_PREFIX) && READ_ONLY <= Parts(path)
  {
    if IsDirectory(surface) && Parts(surface) == [] {
      path := FromAbove(surface);
    } else if IsDirectory(surface) && Parts(surface) == ["gitops"] {
      path := FromGitops(surface);
    } else {
      path := surface;
    }
  }
}
