/** Disabling the sync policy twice (patch.py: apply_sync_policy), on every manifest. */
module SyncDisable {
  import opened Results
  import opened Text
  import opened YamlLines
  import opened YamlLens
  import opened YamlSplice
  import opened YamlMixed
  import opened SyncPolicy
  import opened SyncPolicyLaws

  // ----- a block that loses a key -------------------------------------------------------------

  /** Taking out a key, with the deeper lines behind it up to some line of its block: the
      other keys stay, at the same indentation. */
  lemma CutKey(lines: seq<string>, lo: nat, hi: nat, key: string, q: nat, kept: seq<string>)
      returns (before: seq<Entry>, after: seq<Entry>, entries': seq<Entry>)
    requires lo <= hi <= |lines| && FindBlock(lines, lo, hi, key).Ok?
    requires FindBlock(lines, lo, hi, key).value.found.Some?
    requires var (a, e) := FindBlock(lines, lo, hi, key).value.found.value; a < q <= e
    requires NoContent(kept, 0, |kept|)
    ensures var level := FindBlock(lines, lo, hi, key).value;
            var a := level.found.value.0;
            && NoBreak(lines, lo, q, level.indent)
            && KeysAt(lines, lo, a, level.indent) == Ok(before) && KeysAt(lines, q, hi, level.indent) == Ok(after)
            && |level.entries| == |before| + 1 + |after|
            && KeysAt(Splice(lines, a, q, kept), lo, hi - q + a + |kept|, level.indent) == Ok(entries')
            && |entries'| == |before| + |after|
            && FirstDuplicate(entries', {}) == None && LineOf(entries', key) == None
  {
    hide KeysAt, IsContent, IndentOf, KeyOf, ChildIndent, FirstDuplicate, IndexOfKey, Outdents, Breaks, Outdent, FindBlock, LineOf;
    var level := FindBlock(lines, lo, hi, key).value;
    var indent, entries := level.indent, level.entries;
    var (a, e) := level.found.value;
    FoundFacts(lines, lo, hi, key);
    var k :| 0 <= k < |entries| && entries[k] == Entry(a, key);
    InsideNoBreak(lines, lo, hi, indent, k, q);
    NoContentNoOutdent(kept, 0, |kept|, indent);
    KeysAtNone(kept, 0, |kept|, indent);
    var removed, addedKeys, after';
    before, removed, after, addedKeys, after' := KeysAtSplice(lines, lo, a, q, hi, kept, indent);
    OnlyKey(lines, lo, hi, a, q, indent, k, key);
    entries' := before + addedKeys + after';
    assert entries' == before + after';
    WithoutKey(before, Entry(a, key), after, after');
    LineOfFacts(entries', key);
  }

  /** Where no content stands before the key, the block has no key before it. */
  lemma FirstContent(lines: seq<string>, lo: nat, a: nat, hi: nat, indent: int)
    requires lo <= a <= hi <= |lines| && ChildIndent(lines, lo, hi) == indent && NoBreak(lines, lo, a, indent)
    requires KeysAt(lines, lo, a, indent) == Ok([])
    ensures NoContent(lines, lo, a)
  {
    hide IsContent, IndentOf, KeyOf, KeysAt;
    ChildIndentNone(lines, lo, a);
    if ChildIndent(lines, lo, a) >= 0 {
      var c := ChildIndentFirst(lines, lo, a);
      SameChildIndent(lines, lo, a, lines, hi, c);
      FirstIsKey(lines, lo, a, indent, c);
    }
  }

  lemma BeforeContent(lines: seq<string>, lo: nat, a: nat, hi: nat, lines': seq<string>, hi': nat)
    requires lo <= a <= hi <= |lines| && a <= hi' <= |lines'| && (forall i :: lo <= i < a ==> lines[i] == lines'[i])
    requires !NoContent(lines, lo, a)
    ensures ChildIndent(lines', lo, hi') == ChildIndent(lines, lo, hi)
  {
    hide IsContent, IndentOf;
    ChildIndentNone(lines, lo, a);
    var c := ChildIndentFirst(lines, lo, a);
    SameChildIndent(lines, lo, hi, lines', hi', c);
  }

  /** A block that goes on with keys starts with one, where a deeper stretch ended. */
  lemma GoesOn(lines: seq<string>, q: nat, hi: nat, indent: int)
    requires q <= hi <= |lines| && KeysAt(lines, q, hi, indent).Ok? && KeysAt(lines, q, hi, indent).value != []
    requires q < hi ==> IsContent(lines[q]) && IndentOf(lines[q]) <= indent
    ensures q < hi && IsContent(lines[q]) && IndentOf(lines[q]) == indent
  {
    hide IsContent, IndentOf, KeyOf;
  }

  lemma OutdentEnds(lines: seq<string>, from: nat, indent: int, hi: nat)
    requires from <= hi <= |lines|
    ensures var e := Outdent(lines, from, indent, hi);
            e < hi ==> IsContent(lines[e]) && IndentOf(lines[e]) <= indent
  {
    hide IsContent, IndentOf;
  }

  /** With another key in the block, taking the automated one out keeps the rest. */
  lemma CutBlock(lines: seq<string>, lo: nat, hi: nat, key: string)
    requires lo <= hi <= |lines| && FindBlock(lines, lo, hi, key).Ok?
    requires FindBlock(lines, lo, hi, key).value.found.Some? && |FindBlock(lines, lo, hi, key).value.entries| != 1
    ensures var (a, e) := FindBlock(lines, lo, hi, key).value.found.value;
            var level' := FindBlock(Splice(lines, a, e, []), lo, hi - e + a, key);
            level'.Ok? && level'.value.found == None
  {
    hide KeysAt, IsContent, IndentOf, KeyOf, ChildIndent, FirstDuplicate, IndexOfKey, Outdent, FindBlock, LineOf, NoBreak;
    var level := FindBlock(lines, lo, hi, key).value;
    var indent := level.indent;
    var (a, e) := level.found.value;
    FoundFacts(lines, lo, hi, key);
    NothingAdded(indent);
    var before, after, entries' := CutKey(lines, lo, hi, key, e, []);
    var lines' := Splice(lines, a, e, []);
    SpliceAt(lines, a, e, []);
    CutIndent(lines, lo, hi, key, before, after);
    NotFoundAs(lines', lo, hi - e + a, indent, entries', key);
  }

  lemma CutIndent(lines: seq<string>, lo: nat, hi: nat, key: string, before: seq<Entry>, after: seq<Entry>)
    requires lo <= hi <= |lines| && FindBlock(lines, lo, hi, key).Ok? && FindBlock(lines, lo, hi, key).value.found.Some?
    requires var level := FindBlock(lines, lo, hi, key).value;
             var (a, e) := level.found.value;
             KeysAt(lines, lo, a, level.indent) == Ok(before) && KeysAt(lines, e, hi, level.indent) == Ok(after)
             && NoBreak(lines, lo, e, level.indent) && (before != [] || after != [])
    ensures var level := FindBlock(lines, lo, hi, key).value;
            var (a, e) := level.found.value;
            ChildIndent(Splice(lines, a, e, []), lo, hi - e + a) == level.indent
  {
    hide KeysAt, IsContent, IndentOf, KeyOf, ChildIndent, FirstDuplicate, IndexOfKey, Outdent, FindBlock, LineOf;
    var level := FindBlock(lines, lo, hi, key).value;
    var indent := level.indent;
    var (a, e) := level.found.value;
    FoundFacts(lines, lo, hi, key);
    var lines' := Splice(lines, a, e, []);
    SpliceAt(lines, a, e, []);
    if NoContent(lines, lo, a) {
      NoContentNoOutdent(lines, lo, a, indent);
      KeysAtNone(lines, lo, a, indent);
      OutdentEnds(lines, a + 1, indent, hi);
      GoesOn(lines, e, hi, indent);
      assert lines'[a] == lines[e];
      assert NoContent(lines', lo, a) by {
        assert forall i :: lo <= i < a ==> lines'[i] == lines[i];
      }
      ChildIndentSkip(lines', lo, a, hi - e + a);
      ChildIndentAt(lines', a, hi - e + a);
    } else {
      BeforeContent(lines, lo, a, hi, lines', hi - e + a);
    }
  }

  lemma ChildIndentAt(lines: seq<string>, c: nat, hi: nat)
    requires c < hi <= |lines| && IsContent(lines[c])
    ensures ChildIndent(lines, c, hi) == IndentOf(lines[c])
  {
  }

  // ----- a block that moved ------------------------------------------------------------------------

  /** A lookup that finds the same at another place. */
  ghost predicate FoundMoved(a: Result<Level, PatchError>, b: Result<Level, PatchError>, lo: nat, at: nat) {
    && a.Ok? == b.Ok?
    && (a.Ok? ==>
          && a.value.indent == b.value.indent
          && match a.value.found
             case None => b.value.found == None
             case Some((x, y)) => lo <= x < y && b.value.found == Some((x - lo + at, y - lo + at)))
  }

  lemma MovedLine(entries: seq<Entry>, key: string, from: nat, to: nat)
    requires forall k :: 0 <= k < |entries| ==> entries[k].index >= from
    ensures match LineOf(entries, key)
            case None => LineOf(Moved(entries, from, to), key) == None
            case Some(x) => x >= from && LineOf(Moved(entries, from, to), key) == Some(x - from + to)
  {
    assert KeysOf(Moved(entries, from, to)) == KeysOf(entries);
    SameIndex(entries, Moved(entries, from, to), key);
  }

  lemma FindBlockMoved(a: seq<string>, lo: nat, hi: nat, b: seq<string>, at: nat, key: string)
    requires lo <= hi <= |a| && Agree(a, lo, hi, b, at)
    ensures FoundMoved(FindBlock(a, lo, hi, key), FindBlock(b, at, at + (hi - lo), key), lo, at)
  {
    hide KeysAt, ChildIndent, FirstDuplicate, Outdent, Agree, LineOf;
    var indent := ChildIndent(a, lo, hi);
    ScansMoved(a, lo, hi, b, at, indent);
    KeysAtMovedIff(a, lo, hi, b, at, indent);
    if KeysAt(a, lo, hi, indent).Ok? {
      var entries := KeysAt(a, lo, hi, indent).value;
      assert KeysOf(Moved(entries, lo, at)) == KeysOf(entries);
      SameDuplicate(entries, Moved(entries, lo, at));
      MovedLine(entries, key, lo, at);
      if FirstDuplicate(entries, {}).None? && LineOf(entries, key).Some? {
        var x := LineOf(entries, key).value;
        FoundInside(a, lo, hi, key);
        AgreePart(a, lo, hi, b, at, x + 1, hi);
        ScansMoved(a, x + 1, hi, b, x + 1 - lo + at, indent);
      }
    }
  }

  lemma FoundInside(lines: seq<string>, lo: nat, hi: nat, key: string)
    requires lo <= hi <= |lines| && FindBlock(lines, lo, hi, key).Ok?
    ensures FindBlock(lines, lo, hi, key).value.found.Some? ==> lo <= FindBlock(lines, lo, hi, key).value.found.value.0 < hi
  {
  }

  /** Lines without content in front of a block do not change it. */
  lemma FindBlockSkip(lines: seq<string>, lo: nat, m: nat, hi: nat, key: string)
    requires lo <= m <= hi <= |lines| && NoContent(lines, lo, m)
    ensures FindBlock(lines, lo, hi, key) == FindBlock(lines, m, hi, key)
  {
    hide IsContent, IndentOf, KeyOf, FirstDuplicate, IndexOfKey, Outdent, KeysAt, ChildIndent;
    ChildIndentSkip(lines, lo, m, hi);
    var indent := ChildIndent(lines, m, hi);
    NoContentNoOutdent(lines, lo, m, indent);
    KeysAtNone(lines, lo, m, indent);
    KeysAtSplit(lines, lo, m, hi, indent);
    assert forall more: seq<Entry> :: [] + more == more;
  }

  // ----- what stands behind the automated block --------------------------------------------------------

  /** Read as the keys of a spec block, the lines name a key, and no automated sync policy. */
  predicate NamesNoPolicy(lines: seq<string>, lo: nat, hi: nat)
    requires lo <= hi <= |lines|
  {
    var level := FindBlock(lines, lo, hi, "syncPolicy");
    && level.Ok? && level.value.indent >= 0
    && match level.value.found
       case None => true
       case Some((at, end)) =>
         var inner := FindBlock(lines, at + 1, end, "automated");
         inner.Ok? && inner.value.found.None?
  }

  lemma PolicyMoved(a: seq<string>, lo: nat, hi: nat, b: seq<string>, at: nat)
    requires lo <= hi <= |a| && Agree(a, lo, hi, b, at)
    ensures NamesNoPolicy(a, lo, hi) == NamesNoPolicy(b, at, at + (hi - lo))
  {
    hide FindBlock, Agree;
    FindBlockMoved(a, lo, hi, b, at, "syncPolicy");
    var level := FindBlock(a, lo, hi, "syncPolicy");
    if level.Ok? && level.value.found.Some? {
      var (x, y) := level.value.found.value;
      AgreePart(a, lo, hi, b, at, x + 1, y);
      FindBlockMoved(a, x + 1, y, b, x + 1 - lo + at, "automated");
    }
  }

  lemma PolicySkip(lines: seq<string>, lo: nat, m: nat, hi: nat)
    requires lo <= m <= hi <= |lines| && NoContent(lines, lo, m)
    ensures NamesNoPolicy(lines, lo, hi) == NamesNoPolicy(lines, m, hi)
  {
    hide FindBlock, IsContent;
    FindBlockSkip(lines, lo, m, hi, "syncPolicy");
  }

  /** A manifest without the automated key is left alone by a disable, and no other is. */
  lemma UntouchedIff(lines: seq<string>)
    ensures LinesWithSyncPolicy(lines, false) == Ok(lines) <==>
            Navigate(lines).Ok? && (Navigate(lines).value.sync.Some? ==> Navigate(lines).value.sync.value.automated.None?)
  {
    hide Navigate;
    if Navigate(lines).Ok? && Navigate(lines).value.sync.Some? && Navigate(lines).value.sync.value.automated.Some? {
      DisabledIs(lines, Navigate(lines).value);
      assert |Disabled(lines, Navigate(lines).value)| < |lines|;
    }
  }

  /** With the spec block at its place, that is what the block itself says. */
  lemma SpecUntouchedIff(lines: seq<string>, spec: nat, specEnd: nat)
    requires NoSeparator(lines) && spec < specEnd <= |lines|
    requires FindBlock(lines, 0, |lines|, "spec").Ok?
    requires FindBlock(lines, 0, |lines|, "spec").value.found == Some((spec, specEnd))
    ensures LinesWithSyncPolicy(lines, false) == Ok(lines) <==> NamesNoPolicy(lines, spec + 1, specEnd)
  {
    hide FindBlock, IsSeparator, LinesWithSyncPolicy;
    UntouchedIff(lines);
  }

  // ----- disabling twice ------------------------------------------------------------------------------

  /** The sync block holds the automated key alone, so the key of the sync block goes too. */
  predicate Alone(site: Site) {
    site.sync.Some? && site.sync.value.automated.Some? && site.sync.value.children == 1
  }

  lemma OthersStay(lines: seq<string>, site: Site)
    requires Navigate(lines) == Ok(site) && site.sync.Some? && site.sync.value.automated.Some? && !Alone(site)
    ensures var once := Disabled(lines, site); LinesWithSyncPolicy(once, false) == Ok(once)
  {
    hide FindBlock, IsSeparator, IsContent, IndentOf, KeyOf, NoOutdent, NoSeparator, Navigate, Outdent, FindSync, Splice, LinesWithSyncPolicy;
    var sync := site.sync.value;
    var (at, end) := sync.automated.value;
    SyncFacts(lines, site);
    NothingAdded(site.specIndent);
    OuterLevels(lines, site, at, end, []);
    CutBlock(lines, sync.at + 1, sync.end, "automated");
    var _ := SiteFacts(lines, site);
    var site' := NavigatesTo(Splice(lines, at, end, []), site, site.specEnd - end + at, sync.end - end + at);
    UntouchedIff(Splice(lines, at, end, []));
  }

  /** Nothing but the automated block's own lines lies between its sync key and its end. */
  lemma AloneFacts(lines: seq<string>, site: Site)
    requires Navigate(lines) == Ok(site) && Alone(site)
    ensures var sync := site.sync.value;
            var (a, e) := sync.automated.value;
            NoContent(lines, sync.at + 1, a)
  {
    hide FindBlock, IsSeparator, IsContent, IndentOf, KeyOf, NoOutdent, NoSeparator, Navigate, Outdent, FindSync, Splice, KeysAt, ChildIndent, NoBreak;
    var sync := site.sync.value;
    var (a, e) := sync.automated.value;
    SyncFacts(lines, site);
    NothingAdded(site.specIndent);
    FoundFacts(lines, sync.at + 1, sync.end, "automated");
    var before, _, _ := CutKey(lines, sync.at + 1, sync.end, "automated", e, []);
    NoBreakPart(lines, sync.at + 1, a, e, sync.indent);
    FirstContent(lines, sync.at + 1, a, sync.end, sync.indent);
  }

  /** The spec block after its sync policy and the automated block gave way. */
  lemma SpecAfterAlone(lines: seq<string>, site: Site)
    requires Navigate(lines) == Ok(site) && Alone(site)
    ensures var sync := site.sync.value;
            var (a, e) := sync.automated.value;
            var kept := lines[sync.at + 1..a];
            && Disabled(lines, site) == Splice(lines, sync.at, e, kept)
            && SpecFoundAt(Disabled(lines, site), site.spec, site.specEnd - e + sync.at + |kept|)
  {
    hide FindBlock, IsSeparator, IsContent, IndentOf, KeyOf, NoOutdent, NoSeparator, Navigate, FindSync, NoContent;
    var sync := site.sync.value;
    var (a, e) := sync.automated.value;
    var kept := lines[sync.at + 1..a];
    AloneFacts(lines, site);
    KeptPart(lines, sync.at + 1, a);
    var topIndent := SiteFacts(lines, site);
    NoContentNoOutdent(kept, 0, |kept|, topIndent);
    FindBlockInside(lines, 0, |lines|, "spec", sync.at, e, kept);
    KeptSeparators(lines, sync.at + 1, a);
    NoSeparatorSplice(lines, sync.at, e, kept);
    CutTwice(lines, sync.at, a, e);
  }

  /** Behind other content of the spec block, the sync policy is gone for good. */
  lemma BehindOthers(lines: seq<string>, site: Site)
    requires Navigate(lines) == Ok(site) && Alone(site) && !NoContent(lines, site.spec + 1, site.sync.value.at)
    ensures var sync := site.sync.value;
            var (a, e) := sync.automated.value;
            NamesNoPolicy(Disabled(lines, site), site.spec + 1, site.specEnd - e + a - 1)
  {
    hide FindBlock, IsSeparator, IsContent, IndentOf, KeyOf, NoOutdent, NoSeparator, Navigate, FindSync, KeysAt, ChildIndent, NoContent, NoBreak;
    var sync := site.sync.value;
    var (a, e) := sync.automated.value;
    var lo, hi := site.spec + 1, site.specEnd;
    var kept := lines[sync.at + 1..a];
    AloneFacts(lines, site);
    KeptPart(lines, sync.at + 1, a);
    SpecAfterAlone(lines, site);
    SyncFacts(lines, site);
    var _ := SiteFacts(lines, site);
    FoundFacts(lines, lo, hi, "syncPolicy");
    var before, after, entries' := CutKey(lines, lo, hi, "syncPolicy", e, kept);
    var lines' := Splice(lines, sync.at, e, kept);
    SpliceAt(lines, sync.at, e, kept);
    var hi' := hi - e + sync.at + |kept|;
    BeforeContent(lines, lo, sync.at, hi, lines', hi');
    NotFoundAs(lines', lo, hi', site.specIndent, entries', "syncPolicy");
  }

  /** In front of the spec block's content, what stands behind the automated block decides. */
  lemma InFront(lines: seq<string>, site: Site)
    requires Navigate(lines) == Ok(site) && Alone(site) && NoContent(lines, site.spec + 1, site.sync.value.at)
    ensures var sync := site.sync.value;
            var (a, e) := sync.automated.value;
            NamesNoPolicy(Disabled(lines, site), site.spec + 1, site.specEnd - e + a - 1) == NamesNoPolicy(lines, e, site.specEnd)
  {
    hide FindBlock, IsSeparator, IsContent, IndentOf, KeyOf, NoOutdent, NoSeparator, Navigate, FindSync, KeysAt, ChildIndent, NamesNoPolicy;
    var sync := site.sync.value;
    var (a, e) := sync.automated.value;
    var lo, hi := site.spec + 1, site.specEnd;
    var kept := lines[sync.at + 1..a];
    AloneFacts(lines, site);
    SpecAfterAlone(lines, site);
    var lines' := Splice(lines, sync.at, e, kept);
    SpliceAt(lines, sync.at, e, kept);
    var m := sync.at + |kept|;
    assert NoContent(lines', lo, m) by {
      forall i | lo <= i < m ensures !IsContent(lines'[i]) {
        if i < sync.at {
          assert lines'[i] == lines[i];
        } else {
          assert lines'[i] == lines[i + 1];
        }
      }
    }
    PolicySkip(lines', lo, m, m + (hi - e));
    assert Agree(lines, e, hi, lines', m);
    PolicyMoved(lines, e, hi, lines', m);
  }

  /** What a caller can check before disabling: a line is left at the end of the file, and if
      the sync block goes as a whole, other content of the spec block stands before it, or
      what stands behind it names a key and no other automated sync policy. */
  ghost predicate DisableSettles(lines: seq<string>, site: Site)
    requires SiteInRange(site, |lines|)
  {
    site.sync.Some? && site.sync.value.automated.Some? ==>
      && KeepsFinalNewline(lines, site)
      && (Alone(site) ==>
            || !NoContent(lines, site.spec + 1, site.sync.value.at)
            || NamesNoPolicy(lines, site.sync.value.automated.value.1, site.specEnd))
  }

  lemma DisableTwiceLines(lines: seq<string>, site: Site)
    requires Navigate(lines) == Ok(site) && site.sync.Some? && site.sync.value.automated.Some?
    ensures var once := Disabled(lines, site);
            LinesWithSyncPolicy(once, false) == Ok(once) <==>
            (Alone(site) ==>
               || !NoContent(lines, site.spec + 1, site.sync.value.at)
               || NamesNoPolicy(lines, site.sync.value.automated.value.1, site.specEnd))
  {
    hide FindBlock, IsSeparator, Navigate, NamesNoPolicy, NoContent, Disabled, LinesWithSyncPolicy, NoSeparator;
    if Alone(site) {
      var (a, e) := site.sync.value.automated.value;
      SpecAfterAlone(lines, site);
      SpecUntouchedIff(Disabled(lines, site), site.spec, site.specEnd - e + a - 1);
      if NoContent(lines, site.spec + 1, site.sync.value.at) {
        InFront(lines, site);
      } else {
        BehindOthers(lines, site);
      }
    } else {
      OthersStay(lines, site);
    }
  }

  /** Disabling twice equals disabling once, on every manifest, exactly when a caller finds
      the conditions above in it; a manifest without the automated key is left alone. */
  lemma DisableTwiceIff(text: string)
    requires Adopted(text).Ok? && WithSyncPolicy(text, false).Ok?
    ensures var lines := LinesOf(Adopted(text).value).value;
            var site := Navigate(lines).value;
            var once := WithSyncPolicy(text, false).value;
            && LinesOf(Adopted(text).value).Ok? && Navigate(lines).Ok?
            && (WithSyncPolicy(once, false) == Ok(once) <==> DisableSettles(lines, site))
  {
    hide Navigate, IsContent, Join, IsFile, KeepsFinalNewline, Disabled, SiteInRange, NamesNoPolicy, NoContent;
    AdoptedFacts(text);
    LinesOfFile(Adopted(text).value);
    var lines := LinesOf(Adopted(text).value).value;
    var site := Navigate(lines).value;
    if site.sync.Some? && site.sync.value.automated.Some? {
      DisabledIs(lines, site);
      DisabledFile(lines, site);
      var once := Disabled(lines, site);
      if KeepsFinalNewline(lines, site) {
        LinesOfJoin(once);
        assert Adopted(Join(once)) == Ok(Join(once));
        DisableTwiceLines(lines, site);
        SecondDisable(once);
      } else {
        assert WithSyncPolicy(Join(once), false) == Err(NoFinalNewline);
      }
    }
  }

  lemma SecondDisable(lines: seq<string>)
    requires IsFile(lines) && lines[0] == MARKER_COMMENT
    ensures WithSyncPolicy(Join(lines), false) == Ok(Join(lines)) <==> LinesWithSyncPolicy(lines, false) == Ok(lines)
  {
    hide Navigate, IsContent, FindBlock, Join, Disabled;
    LinesOfJoin(lines);
    if LinesWithSyncPolicy(lines, false).Ok? {
      var site := Navigate(lines).value;
      if site.sync.Some? && site.sync.value.automated.Some? {
        DisabledIs(lines, site);
        DisabledFile(lines, site);
        if Join(Disabled(lines, site)) == Join(lines) {
          JoinInjective(Disabled(lines, site), lines);
        }
      }
    }
  }

  // ----- both policies ----------------------------------------------------------------------------------

  /** What a caller can check of a manifest before it sets the sync policy. */
  ghost predicate PolicySettles(text: string, enabled: bool) {
    var adopted := Adopted(text);
    var lines := if adopted.Ok? then LinesOf(adopted.value) else Err(adopted.error);
    lines.Ok? && Navigate(lines.value).Ok? ==>
      var site := Navigate(lines.value).value;
      if enabled then EnableSettles(lines.value, site) else DisableSettles(lines.value, site)
  }

  /** Setting the same policy again changes nothing exactly on such a manifest. */
  lemma PolicySettledIff(text: string, enabled: bool)
    requires WithSyncPolicy(text, enabled).Ok?
    ensures WithSyncPolicy(WithSyncPolicy(text, enabled).value, enabled) == WithSyncPolicy(text, enabled) <==> PolicySettles(text, enabled)
  {
    hide Navigate, IsContent, Join, IsFile, EnableSettles, DisableSettles, LinesWithSyncPolicy;
    if enabled {
      EnableTwiceIff(text);
    } else {
      DisableTwiceIff(text);
    }
  }
}
