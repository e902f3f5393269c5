/** The contract-fixed spec.syncPolicy.automated block (patch.py: apply_sync_policy). */
module SyncPolicy {
  import opened Results
  import opened Text
  import opened YamlLines
  import opened YamlScalars
  import opened YamlLens
  import opened YamlSplice

  // ----- the patch -------------------------------------------------------------

  /** `line.strip() == "---"`. */
  predicate IsSeparator(line: string) {
    var first := SkipSpaces(line, 0);
    line[first..TrimBack(line, first, |line|)] == "---"
  }

  function Pad(indent: nat): (s: string)
    ensures |s| == indent && forall i :: 0 <= i < indent ==> s[i] == ' '
  {
    seq(indent, _ => ' ')
  }

  /** The fixed block. */
  function Block(indent: nat): (lines: seq<string>)
    ensures |lines| == 3
  {
    [Pad(indent) + "automated:", Pad(indent) + "  prune: true", Pad(indent) + "  selfHeal: true"]
  }

  /** The syncPolicy key: its line, its block, and its automated child's block. */
  datatype Sync = Sync(at: nat, end: nat, indent: int, children: nat, automated: Option<(nat, nat)>)

  /** Where spec and syncPolicy are in a manifest. */
  datatype Site = Site(spec: nat, specEnd: nat, specIndent: int, sync: Option<Sync>)

  /** The line of a key among the keys of one level. */
  function LineOf(entries: seq<Entry>, key: string): Option<nat> {
    match IndexOfKey(entries, key)
    case Some(k) => Some(entries[k].index)
    case None => None
  }

  /** One level of the manifest: the child indentation and keys of a block, and
      the line and block end of the key looked for. */
  datatype Level = Level(indent: int, entries: seq<Entry>, found: Option<(nat, nat)>)

  function FindBlock(lines: seq<string>, lo: nat, hi: nat, key: string): (r: Result<Level, PatchError>)
    requires lo <= hi <= |lines|
    ensures r.Ok? && r.value.found.Some? ==>
      lo <= r.value.found.value.0 < r.value.found.value.1 <= hi && r.value.indent >= 0
  {
    var (indent, entries) :- ChildrenOf(lines, lo, hi);
    match LineOf(entries, key)
    case None => Ok(Level(indent, entries, None))
    case Some(at) =>
      KeysAtFacts(lines, lo, hi, indent);
      Ok(Level(indent, entries, Some((at, BlockEndOf(lines, at, indent, hi)))))
  }

  function FindSync(lines: seq<string>, spec: nat, specEnd: nat): (r: Result<Site, PatchError>)
    requires spec < specEnd <= |lines|
    ensures r.Ok? ==> SiteInRange(r.value, |lines|) && r.value.spec == spec && r.value.specEnd == specEnd
  {
    var level :- FindBlock(lines, spec + 1, specEnd, "syncPolicy");
    if level.indent < 0 then Err(EmptySpec)
    else
      match level.found
      case None => Ok(Site(spec, specEnd, level.indent, None))
      case Some((at, end)) =>
        var inner :- FindBlock(lines, at + 1, end, "automated");
        Ok(Site(spec, specEnd, level.indent, Some(Sync(at, end, inner.indent, |inner.entries|, inner.found))))
  }

  predicate SiteInRange(site: Site, n: nat) {
    && site.spec < site.specEnd <= n && site.specIndent >= 0
    && (site.sync.Some? ==>
          var s := site.sync.value;
          && site.spec < s.at < s.end <= site.specEnd
          && (s.automated.Some? ==> s.at < s.automated.value.0 < s.automated.value.1 <= s.end && s.indent >= 0))
  }

  function Navigate(lines: seq<string>): (r: Result<Site, PatchError>)
    ensures r.Ok? ==> SiteInRange(r.value, |lines|)
  {
    if exists i :: 0 <= i < |lines| && IsSeparator(lines[i]) then Err(MultiDocument)
    else
      var top :- FindBlock(lines, 0, |lines|, "spec");
      match top.found
      case None => Err(NoSpec)
      case Some((at, end)) => FindSync(lines, at, end)
  }

  /** Just after the last content line of the spec block. */
  function Anchor(lines: seq<string>, spec: nat, k: nat): (anchor: nat)
    requires spec < k <= |lines|
    ensures spec < anchor <= k && NoContent(lines, anchor, k)
    ensures anchor == spec + 1 || IsContent(lines[anchor - 1])
  {
    if k - 1 > spec && !IsContent(lines[k - 1]) then Anchor(lines, spec, k - 1) else k
  }

  function SyncLine(indent: nat): string {
    Pad(indent) + "syncPolicy:"
  }

  /** The lines an enable replaces, and what it puts there. */
  function EnableEdit(lines: seq<string>, site: Site): (edit: (nat, nat, seq<string>))
    requires Navigate(lines) == Ok(site)
    ensures edit.0 <= edit.1 <= |lines|
  {
    match site.sync
    case None =>
      var anchor := Anchor(lines, site.spec, site.specEnd);
      (anchor, anchor, [SyncLine(site.specIndent)] + Block(site.specIndent + 2))
    case Some(sync) =>
      match sync.automated
      case Some((at, end)) => (at, end, Block(sync.indent))
      case None => (sync.at + 1, sync.at + 1, Block(if sync.indent >= 0 then sync.indent else site.specIndent + 2))
  }

  function LinesWithSyncPolicy(lines: seq<string>, enabled: bool): Result<seq<string>, PatchError> {
    var site :- Navigate(lines);
    if enabled then
      var (p, q, added) := EnableEdit(lines, site);
      Ok(Splice(lines, p, q, added))
    else if site.sync.None? || site.sync.value.automated.None? then Ok(lines)
    else
      var sync := site.sync.value;
      var (at, end) := sync.automated.value;
      var cut := Splice(lines, at, end, []);
      Ok(if sync.children == 1 then Splice(cut, sync.at, sync.at + 1, []) else cut)
  }

  /** `apply_sync_policy`. */
  function WithSyncPolicy(text: string, enabled: bool): Result<string, PatchError> {
    var adopted :- Adopted(text);
    var lines :- LinesOf(adopted);
    var patched :- LinesWithSyncPolicy(lines, enabled);
    if patched == [] then Ok("") else Ok(Join(patched))
  }

  // ----- the in-place editor of the program ----------------------------------------

  method ApplySyncPolicy(text: string, enabled: bool) returns (r: Result<string, PatchError>)
    ensures r == WithSyncPolicy(text, enabled)
  {
    hide Navigate, IsContent, Join, Block, SyncLine;
    var adopted :- Adopted(text);
    var lines :- LinesOf(adopted);
    var site :- FindSite(lines);
    if site.sync.None? {
      if enabled {
        var anchor := site.specEnd;
        while anchor - 1 > site.spec && !IsContent(lines[anchor - 1])
          invariant site.spec < anchor <= site.specEnd
          invariant Anchor(lines, site.spec, site.specEnd) == Anchor(lines, site.spec, anchor)
        {
          anchor := anchor - 1;
        }
        lines := lines[..anchor] + ([SyncLine(site.specIndent)] + Block(site.specIndent + 2)) + lines[anchor..];
      }
      return Ok(Join(lines));
    }
    var sync := site.sync.value;
    if enabled {
      var block := Block(if sync.indent >= 0 then sync.indent else site.specIndent + 2);
      if sync.automated.Some? {
        lines := lines[..sync.automated.value.0] + block + lines[sync.automated.value.1..];
      } else {
        lines := lines[..sync.at + 1] + block + lines[sync.at + 1..];
      }
    } else if sync.automated.Some? {
      lines := lines[..sync.automated.value.0] + [] + lines[sync.automated.value.1..];
      if sync.children == 1 {
        lines := lines[..sync.at] + [] + lines[sync.at + 1..];
      }
    }
    r := Ok(if lines == [] then "" else Join(lines));
  }

  /** The lookups of `apply_sync_policy`, level by level. */
  method FindSite(lines: seq<string>) returns (r: Result<Site, PatchError>)
    ensures r == Navigate(lines)
  {
    hide FindBlock, IsSeparator;
    if exists i :: 0 <= i < |lines| && IsSeparator(lines[i]) {
      return Err(MultiDocument);
    }
    var _, _, spec := Find(lines, 0, |lines|, "spec");
    var specAt :- spec;
    if specAt.None? {
      return Err(NoSpec);
    }
    var (specIndex, specEnd) := specAt.value;
    var specIndent, _, sync := Find(lines, specIndex + 1, specEnd, "syncPolicy");
    var syncAt :- sync;
    if specIndent < 0 {
      return Err(EmptySpec);
    }
    if syncAt.None? {
      return Ok(Site(specIndex, specEnd, specIndent, None));
    }
    var (syncIndex, syncEnd) := syncAt.value;
    var syncIndent, syncEntries, automated := Find(lines, syncIndex + 1, syncEnd, "automated");
    var autoAt :- automated;
    r := Ok(Site(specIndex, specEnd, specIndent, Some(Sync(syncIndex, syncEnd, syncIndent, |syncEntries|, autoAt))));
  }

  /** The children of a block, and the one with a given key, through the loops. */
  method Find(lines: seq<string>, lo: nat, hi: nat, key: string)
      returns (indent: int, entries: seq<Entry>, found: Result<Option<(nat, nat)>, PatchError>)
    requires lo <= hi <= |lines|
    ensures FindBlock(lines, lo, hi, key) ==
            match found
            case Err(e) => Err(e)
            case Ok(at) => Ok(Level(indent, entries, at))
  {
    var children := Children(lines, lo, hi);
    if children.Err? {
      return -1, [], Err(children.error);
    }
    indent, entries := children.value.0, children.value.1;
    match LineOf(entries, key) {
      case None => found := Ok(None);
      case Some(at) =>
        KeysAtFacts(lines, lo, hi, indent);
        var end := BlockEnd(lines, at, indent, hi);
        found := Ok(Some((at, end)));
    }
  }
}
