/** What enabling and disabling the automated block keep, and when enabling twice
    is enabling once (patch.py: apply_sync_policy). */
module SyncPolicyLaws {
  import opened Results
  import opened Text
  import opened YamlLines
  import opened YamlScalars
  import opened YamlLens
  import opened YamlSplice
  import opened SyncPolicy

  // ----- the lines the patch writes ------------------------------------------------

  /** A key line as the patch writes it. */
  lemma KeyLine(indent: nat, key: string, rest: string)
    requires key != "" && (forall i :: 0 <= i < |key| ==> IsAlnum(key[i]))
    requires rest == "" || rest[0] == ' '
    ensures var line := Pad(indent) + key + ":" + rest;
            IsContent(line) && IndentOf(line) == indent && KeyOf(line) == Some(key) && !IsSeparator(line)
  {
    hide IsContent, KeyOf, IsSeparator, Pad;
    var line := Pad(indent) + key + ":" + rest;
    var stop := indent + |key|;
    assert forall i :: 0 <= i < indent ==> line[i] == ' ';
    assert forall i :: indent <= i < stop ==> line[i] == key[i - indent];
    assert line[stop] == ':' && IsAlnum(key[0]);
    SkipSpacesIs(line, 0, indent);
    SkipKeyCharsIs(line, indent, stop);
    assert line[indent..stop] == key;
    IndentIs(line, indent);
    assert line[indent] != '-';
    KeyLineParts(line, indent, stop);
  }

  lemma KeyLineParts(line: string, start: nat, stop: nat)
    requires start < stop < |line| && SkipSpaces(line, 0) == start && SkipKeyChars(line, start) == stop
    requires line[stop] == ':' && (stop + 1 == |line| || line[stop + 1] == ' ') && line[start] != '-' && line[start] != '#'
    ensures IsContent(line) && KeyOf(line) == Some(line[start..stop]) && !IsSeparator(line)
  {
    hide SkipSpaces, SkipKeyChars, TrimBack, IsSeparator;
    NotSeparator(line, start);
  }

  lemma NotSeparator(line: string, start: nat)
    requires start < |line| && SkipSpaces(line, 0) == start && line[start] != '-'
    ensures !IsSeparator(line)
  {
    hide SkipSpaces, TrimBack;
    var trimmed := line[start..TrimBack(line, start, |line|)];
    assert trimmed != "" ==> trimmed[0] == line[start];
  }

  lemma {:induction false} IndentIs(line: string, n: nat)
    requires n < |line| && (forall i :: 0 <= i < n ==> line[i] == ' ') && line[n] != ' '
    ensures IndentOf(line) == n
  {
    if n > 0 {
      IndentIs(line[1..], n - 1);
    }
  }

  lemma BlockKeys()
    ensures forall key :: key in {"automated", "prune", "selfHeal", "syncPolicy"} ==>
              forall i :: 0 <= i < |key| ==> IsAlnum(key[i])
  {
    assert forall i :: 0 <= i < |"automated"| ==> IsAlnum("automated"[i]);
    assert forall i :: 0 <= i < |"prune"| ==> IsAlnum("prune"[i]);
    assert forall i :: 0 <= i < |"selfHeal"| ==> IsAlnum("selfHeal"[i]);
    assert forall i :: 0 <= i < |"syncPolicy"| ==> IsAlnum("syncPolicy"[i]);
  }

  lemma BlockLines(indent: nat)
    ensures forall i :: 0 <= i < 3 ==> IsContent(Block(indent)[i]) && !IsSeparator(Block(indent)[i])
    ensures IndentOf(Block(indent)[0]) == indent && KeyOf(Block(indent)[0]) == Some("automated")
    ensures IndentOf(Block(indent)[1]) == indent + 2 && IndentOf(Block(indent)[2]) == indent + 2
    ensures KeyOf(Block(indent)[1]) == Some("prune") && KeyOf(Block(indent)[2]) == Some("selfHeal")
  {
    hide IsContent, IndentOf, KeyOf, IsSeparator, IsAlnum, Block, Pad;
    BlockKeys();
    KeyLine(indent, "automated", "");
    KeyLine(indent + 2, "prune", " true");
    KeyLine(indent + 2, "selfHeal", " true");
    BlockText(indent);
  }

  lemma BlockText(indent: nat)
    ensures Block(indent) == [Pad(indent) + "automated" + ":" + "",
                              Pad(indent + 2) + "prune" + ":" + " true",
                              Pad(indent + 2) + "selfHeal" + ":" + " true"]
  {
    assert Pad(indent + 2) == Pad(indent) + "  ";
    assert Pad(indent) + "automated:" == Pad(indent) + "automated" + ":" + "";
    assert Pad(indent) + "  prune: true" == Pad(indent + 2) + "prune" + ":" + " true";
    assert Pad(indent) + "  selfHeal: true" == Pad(indent + 2) + "selfHeal" + ":" + " true";
  }

  // ----- the manifest after an edit below a key ---------------------------------------

  lemma LineOfFacts(entries: seq<Entry>, key: string)
    ensures LineOf(entries, key).None? <==> key !in KeysOf(entries)
    ensures LineOf(entries, key).Some? ==>
              exists k :: 0 <= k < |entries| && entries[k] == Entry(LineOf(entries, key).value, key)
  {
    match IndexOfKey(entries, key) {
      case Some(k) => assert KeysOf(entries)[k] == key && entries[k] == Entry(entries[k].index, key);
      case None =>
    }
  }

  /** With distinct keys, an entry determines the line of its key. */
  lemma LineOfIs(entries: seq<Entry>, k: nat)
    requires k < |entries| && FirstDuplicate(entries, {}) == None
    ensures LineOf(entries, entries[k].key) == Some(entries[k].index)
  {
    FirstDuplicateNone(entries, {});
    var j := IndexOfKey(entries, entries[k].key);
    assert j.Some? && !(j.value < k) && !(k < j.value);
  }

  lemma SameKeysNoDuplicate(a: seq<Entry>, b: seq<Entry>)
    requires KeysOf(a) == KeysOf(b) && FirstDuplicate(a, {}) == None
    ensures FirstDuplicate(b, {}) == None
  {
    FirstDuplicateNone(a, {});
    FirstDuplicateNone(b, {});
    assert forall k :: 0 <= k < |b| ==> a[k].key == KeysOf(a)[k] == KeysOf(b)[k] == b[k].key;
  }

  /** A splice inside the block of a key leaves the key where it is and moves the
      end of its block. */
  lemma FindBlockInside(lines: seq<string>, lo: nat, hi: nat, key: string, p: nat, q: nat, added: seq<string>)
    requires lo <= hi <= |lines| && FindBlock(lines, lo, hi, key).Ok?
    requires FindBlock(lines, lo, hi, key).value.found.Some?
    requires var level := FindBlock(lines, lo, hi, key).value;
             level.found.value.0 < p <= q <= level.found.value.1
             && NoOutdent(added, 0, |added|, level.indent)
    ensures var level := FindBlock(lines, lo, hi, key).value;
            var level' := FindBlock(Splice(lines, p, q, added), lo, hi - q + p + |added|, key);
            && level'.Ok? && level'.value.indent == level.indent
            && level'.value.found == Some((level.found.value.0, level.found.value.1 - q + p + |added|))
            && |level'.value.entries| == |level.entries|
  {
    hide KeysAt, ChildIndent, FirstDuplicate, Outdent, Outdents, Breaks, KeysOf, FindBlock, LineOf, IsContent, IndentOf, Splice;
    var Level(indent, entries, found) := FindBlock(lines, lo, hi, key).value;
    var (x, y) := found.value;
    var lines' := Splice(lines, p, q, added);
    FoundFacts(lines, lo, hi, key);
    SpliceAt(lines, p, q, added);
    SpliceLength(lines, p, q, added);
    var k :| 0 <= k < |entries| && entries[k] == Entry(x, key);
    InsideNoBreak(lines, lo, hi, indent, k, q);
    var entries' := InsideKeys(lines, lo, p, q, hi, added, indent, k);
    SameKeysNoDuplicate(entries, entries');
    assert |entries'| == |KeysOf(entries')| == |KeysOf(entries)| == |entries|;
    LineOfIs(entries', k);
    SameChildIndent(lines, lo, hi, lines', hi - q + p + |added|, x);
    OutdentSplice(lines, x + 1, p, q, hi, added, indent);
    FoundAs(lines', lo, hi - q + p + |added|, indent, entries', x, key);
  }

  /** The keys of a block after a splice below its k-th key: the same keys, and
      the k-th still on its line. */
  lemma InsideKeys(lines: seq<string>, lo: nat, p: nat, q: nat, hi: nat, added: seq<string>, indent: int, k: nat)
      returns (entries': seq<Entry>)
    requires lo <= p <= q <= hi <= |lines|
    requires KeysAt(lines, lo, hi, indent).Ok? && k < |KeysAt(lines, lo, hi, indent).value|
    requires lo <= KeysAt(lines, lo, hi, indent).value[k].index < p
    requires NoBreak(lines, lo, q, indent) && NoOutdent(lines, KeysAt(lines, lo, hi, indent).value[k].index + 1, q, indent)
    requires NoOutdent(added, 0, |added|, indent)
    ensures KeysAt(Splice(lines, p, q, added), lo, hi - q + p + |added|, indent) == Ok(entries')
    ensures KeysOf(entries') == KeysOf(KeysAt(lines, lo, hi, indent).value) && k < |entries'|
    ensures entries'[k] == KeysAt(lines, lo, hi, indent).value[k]
  {
    hide KeysAt, Outdents, Breaks;
    var entries := KeysAt(lines, lo, hi, indent).value;
    NoOutdentNoBreak(added, 0, |added|, indent);
    KeysAtNone(added, 0, |added|, indent);
    var before, removed, after, addedKeys, after' := KeysAtSplice(lines, lo, p, q, hi, added, indent);
    KeysAtNone(lines, p, q, indent);
    entries' := before + addedKeys + after';
    assert entries == before + after && entries' == before + after';
    assert forall j :: |before| <= j < |entries| ==> entries[j] == after[j - |before|];
  }

  lemma NoOutdentNoBreak(lines: seq<string>, lo: nat, hi: nat, indent: int)
    requires lo <= hi <= |lines| && NoOutdent(lines, lo, hi, indent)
    ensures NoBreak(lines, lo, hi, indent)
  {
    hide IsContent, IndentOf;
    forall i | lo <= i < hi ensures !Breaks(lines[i], indent) { assert !Outdents(lines[i], indent); }
  }

  /** Up to the end of a found key's block nothing breaks the scan. */
  lemma InsideNoBreak(lines: seq<string>, lo: nat, hi: nat, indent: int, k: nat, q: nat)
    requires lo <= hi <= |lines|
    requires KeysAt(lines, lo, hi, indent).Ok? && k < |KeysAt(lines, lo, hi, indent).value|
    requires var at := KeysAt(lines, lo, hi, indent).value[k].index;
             lo <= at < hi && at < q <= BlockEndOf(lines, at, indent, hi)
    ensures NoBreak(lines, lo, q, indent)
    ensures var at := KeysAt(lines, lo, hi, indent).value[k].index;
            IsContent(lines[at]) && IndentOf(lines[at]) == indent && NoOutdent(lines, at + 1, q, indent)
  {
    hide IsContent, IndentOf, KeyOf, KeysAt;
    var at := KeysAt(lines, lo, hi, indent).value[k].index;
    KeysAtFacts(lines, lo, hi, indent);
    FoundNoBreak(lines, lo, hi, indent, k);
    assert IsEntry(lines, lo, hi, indent, KeysAt(lines, lo, hi, indent).value[k]);
  }

  /** Ranges that start alike up to a content line have the same child indentation. */
  lemma {:induction false} SameChildIndent(a: seq<string>, lo: nat, ahi: nat, b: seq<string>, bhi: nat, c: nat)
    requires lo <= c < ahi <= |a| && c < bhi <= |b|
    requires forall i :: lo <= i <= c ==> a[i] == b[i]
    requires IsContent(a[c])
    ensures ChildIndent(a, lo, ahi) == ChildIndent(b, lo, bhi)
    decreases c - lo
  {
    hide IsContent, IndentOf;
    if !IsContent(a[lo]) {
      SameChildIndent(a, lo + 1, ahi, b, bhi, c);
    }
  }

  // ----- finding the block an enable wrote --------------------------------------------

  /** The fixed block found among the keys of a range, given the keys around it. */
  lemma AutomatedFound(lines: seq<string>, lo: nat, p: nat, hi: nat, indent: nat, before: seq<Entry>, after: seq<Entry>)
    requires lo <= p && p + 3 <= hi <= |lines| && lines[p..p + 3] == Block(indent)
    requires NoBreak(lines, lo, p, indent) && (ChildIndent(lines, lo, p) == indent || NoContent(lines, lo, p))
    requires KeysAt(lines, lo, p, indent) == Ok(before) && KeysAt(lines, p + 3, hi, indent) == Ok(after)
    requires FirstDuplicate(before + [Entry(p, "automated")] + after, {}) == None
    ensures var level := FindBlock(lines, lo, hi, "automated");
            && level.Ok? && level.value.indent == indent
            && level.value.found == Some((p, Outdent(lines, p + 3, indent, hi)))
            && level.value.entries == before + [Entry(p, "automated")] + after
  {
    hide KeysAt, IsContent, IndentOf, KeyOf, Outdent, IndexOfKey, FirstDuplicate, Block, FindBlock, NoOutdent;
    BlockAt(lines, p, indent);
    var entries := before + [Entry(p, "automated")] + after;
    KeysAtSplit(lines, lo, p, hi, indent);
    KeysAtBlock(lines, p, hi, indent, after);
    assert before + ([Entry(p, "automated")] + after) == entries;
    LineOfIs(entries, |before|);
    OutdentSplit(lines, p + 1, p + 3, indent, hi);
    FirstChildIndent(lines, lo, p, hi, indent);
    FoundAs(lines, lo, hi, indent, entries, p, "automated");
  }

  lemma BlockAt(lines: seq<string>, p: nat, indent: nat)
    requires p + 3 <= |lines| && lines[p..p + 3] == Block(indent)
    ensures IsContent(lines[p]) && IndentOf(lines[p]) == indent && KeyOf(lines[p]) == Some("automated")
    ensures IndentOf(lines[p + 1]) > indent && IndentOf(lines[p + 2]) > indent
    ensures NoOutdent(lines, p + 1, p + 3, indent)
  {
    hide IsContent, IndentOf, KeyOf, Block, IsSeparator;
    BlockLines(indent);
    assert lines[p] == Block(indent)[0] && lines[p + 1] == Block(indent)[1] && lines[p + 2] == Block(indent)[2];
  }

  lemma KeysAtBlock(lines: seq<string>, p: nat, hi: nat, indent: nat, after: seq<Entry>)
    requires p + 3 <= hi <= |lines| && KeysAt(lines, p + 3, hi, indent) == Ok(after)
    requires IsContent(lines[p]) && IndentOf(lines[p]) == indent && KeyOf(lines[p]) == Some("automated")
    requires IndentOf(lines[p + 1]) > indent && IndentOf(lines[p + 2]) > indent
    ensures KeysAt(lines, p, hi, indent) == Ok([Entry(p, "automated")] + after)
  {
    hide IsContent, IndentOf, KeyOf;
    assert KeysAt(lines, p + 2, hi, indent) == Ok(after);
    assert KeysAt(lines, p + 1, hi, indent) == Ok(after);
  }

  lemma FirstChildIndent(lines: seq<string>, lo: nat, p: nat, hi: nat, indent: nat)
    requires lo <= p < hi <= |lines| && IsContent(lines[p]) && IndentOf(lines[p]) == indent
    requires ChildIndent(lines, lo, p) == indent || NoContent(lines, lo, p)
    ensures ChildIndent(lines, lo, hi) == indent
  {
    hide IsContent, IndentOf;
    if NoContent(lines, lo, p) {
      ChildIndentSkip(lines, lo, p, hi);
    } else {
      var c := ChildIndentFirst(lines, lo, p);
      SameChildIndent(lines, lo, p, lines, hi, c);
    }
  }

  lemma DeeperThan(lines: seq<string>, lo: nat, hi: nat, outer: int)
    requires lo <= hi <= |lines| && NoOutdent(lines, lo, hi, outer)
    ensures ChildIndent(lines, lo, hi) >= 0 ==> ChildIndent(lines, lo, hi) > outer
  {
    hide IsContent, IndentOf;
    if ChildIndent(lines, lo, hi) >= 0 {
      var c := ChildIndentFirst(lines, lo, hi);
      assert !Outdents(lines[c], outer);
    }
  }

  /** What `FindBlock` says about the block it finds. */
  lemma FoundFacts(lines: seq<string>, lo: nat, hi: nat, key: string)
    requires lo <= hi <= |lines| && FindBlock(lines, lo, hi, key).Ok?
    ensures var level := FindBlock(lines, lo, hi, key).value;
            && level.indent == ChildIndent(lines, lo, hi)
            && ChildrenOf(lines, lo, hi) == Ok((level.indent, level.entries))
            && KeysAt(lines, lo, hi, level.indent) == Ok(level.entries)
            && FirstDuplicate(level.entries, {}) == None
            && (level.found.None? ==> key !in KeysOf(level.entries))
            && (level.found.Some? ==>
                  var (at, end) := level.found.value;
                  && end == Outdent(lines, at + 1, level.indent, hi)
                  && IsContent(lines[at]) && IndentOf(lines[at]) == level.indent
                  && NoOutdent(lines, at + 1, end, level.indent)
                  && exists k :: 0 <= k < |level.entries| && level.entries[k] == Entry(at, key))
  {
    hide KeysAt, IsContent, IndentOf, KeyOf, ChildIndent, FirstDuplicate, IndexOfKey;
    var level := FindBlock(lines, lo, hi, key).value;
    LineOfFacts(level.entries, key);
    KeysAtFacts(lines, lo, hi, level.indent);
    if level.found.Some? {
      var (at, end) := level.found.value;
      var k :| 0 <= k < |level.entries| && level.entries[k] == Entry(at, key);
      assert IsEntry(lines, lo, hi, level.indent, level.entries[k]);
    }
  }

  lemma FoundEnd(lines: seq<string>, lo: nat, hi: nat, key: string, at: nat, end: nat)
    requires lo <= hi <= |lines| && FindBlock(lines, lo, hi, key).Ok?
    requires FindBlock(lines, lo, hi, key).value.found == Some((at, end))
    ensures var indent := FindBlock(lines, lo, hi, key).value.indent;
            && NoOutdent(lines, at + 1, end, indent)
            && (end < hi ==> IsContent(lines[end]))
  {
    hide KeysAt, IsContent, IndentOf, KeyOf, ChildIndent, FirstDuplicate, IndexOfKey, NoOutdent;
    FoundFacts(lines, lo, hi, key);
  }

  ghost predicate NoSeparator(lines: seq<string>) {
    forall i :: 0 <= i < |lines| ==> !IsSeparator(lines[i])
  }

  lemma NoSeparatorSplice(lines: seq<string>, p: nat, q: nat, added: seq<string>)
    requires p <= q <= |lines| && NoSeparator(lines) && NoSeparator(added)
    ensures NoSeparator(Splice(lines, p, q, added))
  {
    hide IsSeparator;
    var lines' := Splice(lines, p, q, added);
    forall i | 0 <= i < |lines'| ensures !IsSeparator(lines'[i]) {
      if i < p {
        assert lines'[i] == lines[i];
      } else if i < p + |added| {
        assert lines'[i] == added[i - p];
      } else {
        assert lines'[i] == lines[i - |added| - p + q];
      }
    }
  }

  /** Where the fixed block starts in the result of an enable, and its indentation. */
  function BlockStart(lines: seq<string>, site: Site): nat
    requires Navigate(lines) == Ok(site)
  {
    EnableEdit(lines, site).0 + (if site.sync.None? then 1 else 0)
  }

  function BlockIndent(site: Site): nat
    requires SiteInRange(site, site.specEnd)
  {
    if site.sync.Some? && site.sync.value.indent >= 0 then site.sync.value.indent else site.specIndent + 2
  }

  function Enabled(lines: seq<string>, site: Site): seq<string>
    requires Navigate(lines) == Ok(site)
  {
    var (p, q, added) := EnableEdit(lines, site);
    Splice(lines, p, q, added)
  }

  /** The sync block of an enabled manifest: found again, at the block written. */
  ghost predicate FoundAgain(lines': seq<string>, site': Site, at: nat, indent: nat) {
    && site'.sync.Some? && SiteInRange(site', |lines'|)
    && var s := site'.sync.value;
       && s.indent == indent && at + 3 <= s.end && lines'[at..at + 3] == Block(indent)
       && s.automated == Some((at, Outdent(lines', at + 3, indent, s.end)))
       && ChildIndent(lines', at + 3, s.end) <= indent
       && (s.end < |lines'| ==> IsContent(lines'[s.end]))
  }

  lemma SpliceAt(lines: seq<string>, p: nat, q: nat, added: seq<string>)
    requires p <= q <= |lines|
    ensures var lines' := Splice(lines, p, q, added);
            && lines'[p..p + |added|] == added
            && (forall i :: 0 <= i < p ==> lines'[i] == lines[i])
            && (forall i :: q <= i < |lines| ==> lines'[i - q + p + |added|] == lines[i])
            && Agree(lines, 0, p, lines', 0) && Agree(lines, q, |lines|, lines', p + |added|)
  {
  }

  // ----- the three ways an enable writes the block ---------------------------------------

  /** An existing automated block is replaced in place. */
  lemma ReplacedBlock(lines: seq<string>, lo: nat, hi: nat)
    requires lo <= hi <= |lines| && FindBlock(lines, lo, hi, "automated").Ok?
    requires FindBlock(lines, lo, hi, "automated").value.found.Some?
    ensures var level := FindBlock(lines, lo, hi, "automated").value;
            var (a, e) := level.found.value;
            var lines' := Splice(lines, a, e, Block(level.indent));
            var level' := FindBlock(lines', lo, hi - e + a + 3, "automated");
            && level'.Ok? && level'.value.indent == level.indent
            && level'.value.found == Some((a, Outdent(lines', a + 3, level.indent, hi - e + a + 3)))
  {
    hide KeysAt, IsContent, IndentOf, KeyOf, ChildIndent, FirstDuplicate, IndexOfKey, Outdents, Breaks, Outdent, FindBlock, Splice, Block;
    var level := FindBlock(lines, lo, hi, "automated").value;
    var indent, entries := level.indent, level.entries;
    var (a, e) := level.found.value;
    var lines' := Splice(lines, a, e, Block(indent));
    SpliceLength(lines, a, e, Block(indent));
    FoundFacts(lines, lo, hi, "automated");
    var k :| 0 <= k < |entries| && entries[k] == Entry(a, "automated");
    InsideNoBreak(lines, lo, hi, indent, k, e);
    var before, after := AroundKeys(lines, lo, hi, a, e, indent, k);
    SpliceAt(lines, a, e, Block(indent));
    KeysAtMoved(lines, lo, a, lines', lo, indent);
    KeysAtMoved(lines, e, hi, lines', a + 3, indent);
    MovedNowhere(before, lo);
    var after' := Moved(after, e, a + 3);
    AroundNoDuplicate(before, a, after, after');
    SpliceNoBreak(lines, lo, a, lines', indent);
    BeforeIndent(lines, lo, a, hi, lines');
    AutomatedFound(lines', lo, a, hi - e + a + 3, indent, before, after');
  }

  lemma MovedNowhere(entries: seq<Entry>, lo: nat)
    requires forall k :: 0 <= k < |entries| ==> entries[k].index >= lo
    ensures Moved(entries, lo, lo) == entries
  {
  }

  lemma AroundNoDuplicate(before: seq<Entry>, a: nat, after: seq<Entry>, after': seq<Entry>)
    requires FirstDuplicate(before + [Entry(a, "automated")] + after, {}) == None
    requires KeysOf(after) == KeysOf(after')
    ensures FirstDuplicate(before + [Entry(a, "automated")] + after', {}) == None
  {
    hide FirstDuplicate;
    var x, y := before + [Entry(a, "automated")] + after, before + [Entry(a, "automated")] + after';
    assert |after| == |KeysOf(after)| == |KeysOf(after')| == |after'|;
    forall k | 0 <= k < |x| ensures KeysOf(x)[k] == KeysOf(y)[k] {
      if k > |before| {
        var j := k - |before| - 1;
        assert x[k] == after[j] && y[k] == after'[j];
        assert KeysOf(after)[j] == KeysOf(after')[j];
      }
    }
    SameKeysNoDuplicate(x, y);
  }

  lemma AroundKeys(lines: seq<string>, lo: nat, hi: nat, a: nat, e: nat, indent: int, k: nat)
      returns (before: seq<Entry>, after: seq<Entry>)
    requires lo <= a < e <= hi <= |lines| && KeysAt(lines, lo, hi, indent).Ok?
    requires k < |KeysAt(lines, lo, hi, indent).value| && KeysAt(lines, lo, hi, indent).value[k] == Entry(a, "automated")
    requires NoOutdent(lines, a + 1, e, indent) && NoBreak(lines, lo, e, indent)
    ensures KeysAt(lines, lo, a, indent) == Ok(before) && KeysAt(lines, e, hi, indent) == Ok(after)
    ensures KeysAt(lines, lo, hi, indent) == Ok(before + [Entry(a, "automated")] + after)
  {
    hide KeysAt, Outdents, Breaks;
    KeysAtSplit(lines, lo, a, hi, indent);
    KeysAtSplit(lines, a, e, hi, indent);
    before := KeysAt(lines, lo, a, indent).value;
    after := KeysAt(lines, e, hi, indent).value;
    OnlyKey(lines, lo, hi, a, e, indent, k, "automated");
    assert before + ([Entry(a, "automated")] + after) == before + [Entry(a, "automated")] + after;
  }

  lemma SpliceNoBreak(lines: seq<string>, lo: nat, p: nat, lines': seq<string>, indent: int)
    requires lo <= p <= |lines| && p <= |lines'|
    requires NoBreak(lines, lo, p, indent) && forall i :: 0 <= i < p ==> lines'[i] == lines[i]
    ensures NoBreak(lines', lo, p, indent)
  {
    hide Breaks;
  }

  /** Before a key of the block there is either the first content line or none. */
  lemma BeforeIndent(lines: seq<string>, lo: nat, a: nat, hi: nat, lines': seq<string>)
    requires lo <= a <= hi <= |lines| && a <= |lines'| && forall i :: 0 <= i < a ==> lines'[i] == lines[i]
    ensures ChildIndent(lines', lo, a) == ChildIndent(lines, lo, hi) || NoContent(lines', lo, a)
  {
    hide IsContent, IndentOf;
    ChildIndentNone(lines', lo, a);
    if ChildIndent(lines', lo, a) >= 0 {
      var c := ChildIndentFirst(lines', lo, a);
      SameChildIndent(lines', lo, a, lines, hi, c);
    }
  }

  /** A block without an automated key gets one right after its own key line. */
  lemma InsertedBlock(lines: seq<string>, lo: nat, hi: nat, indent: nat)
    requires lo <= hi <= |lines| && FindBlock(lines, lo, hi, "automated").Ok?
    requires FindBlock(lines, lo, hi, "automated").value.found.None?
    requires FindBlock(lines, lo, hi, "automated").value.indent == -1 || FindBlock(lines, lo, hi, "automated").value.indent == indent
    ensures var lines' := Splice(lines, lo, lo, Block(indent));
            var level' := FindBlock(lines', lo, hi + 3, "automated");
            && level'.Ok? && level'.value.indent == indent
            && level'.value.found == Some((lo, Outdent(lines', lo + 3, indent, hi + 3)))
  {
    hide KeysAt, IsContent, IndentOf, KeyOf, ChildIndent, FirstDuplicate, IndexOfKey, Outdents, Breaks, Outdent, FindBlock, Splice, Block;
    var level := FindBlock(lines, lo, hi, "automated").value;
    var lines' := Splice(lines, lo, lo, Block(indent));
    SpliceLength(lines, lo, lo, Block(indent));
    FoundFacts(lines, lo, hi, "automated");
    if level.indent < 0 {
      ChildIndentNone(lines, lo, hi);
      NoContentNoOutdent(lines, lo, hi, indent);
      NoContentNoOutdent(lines, lo, hi, -1);
      KeysAtNone(lines, lo, hi, indent);
      KeysAtNone(lines, lo, hi, -1);
    }
    var entries := KeysAt(lines, lo, hi, indent).value;
    assert entries == level.entries;
    SpliceAt(lines, lo, lo, Block(indent));
    KeysAtMoved(lines, lo, hi, lines', lo + 3, indent);
    var after' := Moved(entries, lo, lo + 3);
    PrependNoDuplicate(Entry(lo, "automated"), entries, after');
    assert KeysAt(lines', lo, lo, indent) == Ok([]) by { KeysAtNone(lines', lo, lo, indent); }
    assert [] + [Entry(lo, "automated")] + after' == [Entry(lo, "automated")] + after';
    AutomatedFound(lines', lo, lo, hi + 3, indent, [], after');
  }

  lemma PrependNoDuplicate(entry: Entry, entries: seq<Entry>, after: seq<Entry>)
    requires FirstDuplicate(entries, {}) == None && entry.key !in KeysOf(entries) && KeysOf(entries) == KeysOf(after)
    ensures FirstDuplicate([entry] + after, {}) == None
  {
    SameKeysNoDuplicate(entries, after);
    FirstDuplicateNone(after, {});
    FirstDuplicateNone(after, {entry.key});
    assert ([entry] + after)[1..] == after && {} + {entry.key} == {entry.key};
    assert forall k :: 0 <= k < |after| ==> KeysOf(after)[k] == after[k].key;
  }

  lemma NoContentNoOutdent(lines: seq<string>, lo: nat, hi: nat, indent: int)
    requires lo <= hi <= |lines| && NoContent(lines, lo, hi)
    ensures NoOutdent(lines, lo, hi, indent)
  {
    hide IsContent, IndentOf;
  }

  lemma SyncLineFacts(indent: nat)
    ensures var added := [SyncLine(indent)] + Block(indent + 2);
            && (forall i :: 0 <= i < 4 ==> IsContent(added[i]) && !IsSeparator(added[i]))
            && IndentOf(added[0]) == indent && KeyOf(added[0]) == Some("syncPolicy")
            && (forall i :: 1 <= i < 4 ==> IndentOf(added[i]) > indent)
            && KeysAt(added, 0, 4, indent) == Ok([Entry(0, "syncPolicy")])
  {
    hide IsContent, IndentOf, KeyOf, IsSeparator;
    var added := [SyncLine(indent)] + Block(indent + 2);
    BlockLines(indent + 2);
    KeyLine(indent, "syncPolicy", "");
    assert added[0] == Pad(indent) + "syncPolicy" + ":" + "";
    assert added[1] == Block(indent + 2)[0] && added[2] == Block(indent + 2)[1] && added[3] == Block(indent + 2)[2];
    assert NoOutdent(added, 1, 4, indent);
    KeysAtNone(added, 1, 4, indent);
    assert [Entry(0, "syncPolicy")] + [] == [Entry(0, "syncPolicy")];
  }

  /** A spec block without a syncPolicy key gets one after its last content line. */
  lemma NewSyncKey(lines: seq<string>, lo: nat, hi: nat, anchor: nat, indent: nat)
    requires lo < anchor <= hi <= |lines| && FindBlock(lines, lo, hi, "syncPolicy").Ok?
    requires FindBlock(lines, lo, hi, "syncPolicy").value.found.None?
    requires FindBlock(lines, lo, hi, "syncPolicy").value.indent == indent
    requires NoBreak(lines, lo, hi, indent) && NoContent(lines, anchor, hi)
    ensures var lines' := Splice(lines, anchor, anchor, [SyncLine(indent)] + Block(indent + 2));
            var level' := FindBlock(lines', lo, hi + 4, "syncPolicy");
            && level'.Ok? && level'.value.indent == indent && level'.value.found == Some((anchor, hi + 4))
            && NoContent(lines', anchor + 4, hi + 4) && lines'[anchor + 1..anchor + 4] == Block(indent + 2)
  {
    hide KeysAt, IsContent, IndentOf, KeyOf, ChildIndent, FirstDuplicate, IndexOfKey, Outdents, Breaks, Outdent, FindBlock;
    var entries := FindBlock(lines, lo, hi, "syncPolicy").value.entries;
    var added := [SyncLine(indent)] + Block(indent + 2);
    var lines' := Splice(lines, anchor, anchor, added);
    FoundFacts(lines, lo, hi, "syncPolicy");
    NewKeys(lines, lo, anchor, hi, indent, entries);
    var entries' := entries + [Entry(anchor, "syncPolicy")];
    NewKeyNoDuplicate(entries, Entry(anchor, "syncPolicy"));
    assert entries'[|entries|] == Entry(anchor, "syncPolicy");
    LineOfIs(entries', |entries|);
    ChildIndentNone(lines, lo, hi);
    var c := ChildIndentFirst(lines, lo, hi);
    assert c < anchor;
    SpliceAt(lines, anchor, anchor, added);
    SameChildIndent(lines, lo, hi, lines', hi + 4, c);
    NewBlockEnd(lines, anchor, hi, indent);
    assert FindBlock(lines', lo, hi + 4, "syncPolicy") == Ok(Level(indent, entries', Some((anchor, hi + 4)))) by {
      FoundAs(lines', lo, hi + 4, indent, entries', anchor, "syncPolicy");
    }
    forall i | anchor + 4 <= i < hi + 4 ensures !IsContent(lines'[i]) { assert lines'[i] == lines[i - 4]; }
    assert lines'[anchor + 1..anchor + 4] == added[1..4] == Block(indent + 2);
  }

  lemma NewKeys(lines: seq<string>, lo: nat, anchor: nat, hi: nat, indent: nat, entries: seq<Entry>)
    requires lo <= anchor <= hi <= |lines| && KeysAt(lines, lo, hi, indent) == Ok(entries)
    requires NoBreak(lines, lo, hi, indent) && NoContent(lines, anchor, hi)
    ensures KeysAt(Splice(lines, anchor, anchor, [SyncLine(indent)] + Block(indent + 2)), lo, hi + 4, indent) ==
            Ok(entries + [Entry(anchor, "syncPolicy")])
  {
    hide KeysAt, IsContent, IndentOf, KeyOf, Outdents, Breaks, Block;
    var added := [SyncLine(indent)] + Block(indent + 2);
    SyncLineFacts(indent);
    NoBreakPart(lines, lo, anchor, hi, indent);
    NotBreaking(added, indent);
    var before, removed, after, addedKeys, after' := KeysAtSplice(lines, lo, anchor, anchor, hi, added, indent);
    NoContentNoOutdent(lines, anchor, hi, indent);
    KeysAtNone(lines, anchor, hi, indent);
    NothingThere(lines, anchor, indent);
    assert before + addedKeys + after' == entries + [Entry(anchor, "syncPolicy")];
  }

  lemma FoundAs(lines: seq<string>, lo: nat, hi: nat, indent: int, entries: seq<Entry>, at: nat, key: string)
    requires lo <= hi <= |lines| && ChildIndent(lines, lo, hi) == indent && KeysAt(lines, lo, hi, indent) == Ok(entries)
    requires FirstDuplicate(entries, {}) == None && LineOf(entries, key) == Some(at) && at < hi
    ensures FindBlock(lines, lo, hi, key) == Ok(Level(indent, entries, Some((at, Outdent(lines, at + 1, indent, hi)))))
  {
    hide KeysAt, IsContent, IndentOf, KeyOf, ChildIndent, FirstDuplicate, IndexOfKey, Outdent;
  }

  lemma NoBreakPart(lines: seq<string>, lo: nat, m: nat, hi: nat, indent: int)
    requires lo <= m <= hi <= |lines| && NoBreak(lines, lo, hi, indent)
    ensures NoBreak(lines, lo, m, indent)
  {
    hide Breaks;
  }

  lemma NotBreaking(lines: seq<string>, indent: int)
    requires forall i :: 0 <= i < |lines| ==> IndentOf(lines[i]) >= indent
    ensures NoBreak(lines, 0, |lines|, indent)
  {
    hide IsContent, IndentOf;
  }

  lemma NothingThere(lines: seq<string>, p: nat, indent: int)
    requires p <= |lines|
    ensures KeysAt(lines, p, p, indent) == Ok([])
  {
  }

  lemma NewKeyNoDuplicate(entries: seq<Entry>, entry: Entry)
    requires FirstDuplicate(entries, {}) == None && entry.key !in KeysOf(entries)
    ensures FirstDuplicate(entries + [entry], {}) == None
  {
    FirstDuplicateNone(entries, {});
    FirstDuplicateNone(entries + [entry], {});
    assert forall k :: 0 <= k < |entries| ==> KeysOf(entries)[k] == entries[k].key;
  }

  lemma NewBlockEnd(lines: seq<string>, anchor: nat, hi: nat, indent: nat)
    requires anchor <= hi <= |lines| && NoContent(lines, anchor, hi)
    ensures var lines' := Splice(lines, anchor, anchor, [SyncLine(indent)] + Block(indent + 2));
            Outdent(lines', anchor + 1, indent, hi + 4) == hi + 4
  {
    hide IsContent, IndentOf, KeyOf, IsSeparator, KeysAt, Block, SyncLine, Outdent;
    var added := [SyncLine(indent)] + Block(indent + 2);
    var lines' := Splice(lines, anchor, anchor, added);
    SyncLineFacts(indent);
    forall i | anchor + 1 <= i < hi + 4 ensures !Outdents(lines'[i], indent) {
      if i < anchor + 4 {
        assert lines'[i] == added[i - anchor];
      } else {
        assert lines'[i] == lines[i - 4];
      }
    }
    OutdentSplit(lines', anchor + 1, hi + 4, indent, hi + 4);
  }

  // ----- navigating an enabled manifest ------------------------------------------------------

  /** The nesting of a navigated manifest: three strictly deeper levels. */
  ghost predicate SpecLevel(lines: seq<string>, site: Site) {
    && FindBlock(lines, 0, |lines|, "spec").Ok?
    && FindBlock(lines, 0, |lines|, "spec").value.found == Some((site.spec, site.specEnd))
    && site.spec < site.specEnd <= |lines|
    && FindSync(lines, site.spec, site.specEnd) == Ok(site)
  }

  lemma NavigatedFrom(lines: seq<string>, site: Site)
    requires Navigate(lines) == Ok(site)
    ensures NoSeparator(lines) && SpecLevel(lines, site)
  {
    hide FindBlock, FindSync, IsSeparator;
  }

  ghost predicate SyncLevel(lines: seq<string>, site: Site)
    requires site.spec < site.specEnd <= |lines|
  {
    && FindBlock(lines, site.spec + 1, site.specEnd, "syncPolicy").Ok?
    && var level := FindBlock(lines, site.spec + 1, site.specEnd, "syncPolicy").value;
       && level.indent == site.specIndent >= 0
       && (level.found.Some? <==> site.sync.Some?)
       && (site.sync.Some? ==> level.found == Some((site.sync.value.at, site.sync.value.end)))
  }

  lemma SyncLevelFound(lines: seq<string>, site: Site)
    requires site.spec < site.specEnd <= |lines| && FindSync(lines, site.spec, site.specEnd) == Ok(site)
    ensures SyncLevel(lines, site)
  {
    hide FindBlock;
  }

  lemma SiteFacts(lines: seq<string>, site: Site) returns (topIndent: int)
    requires Navigate(lines) == Ok(site)
    ensures NoSeparator(lines)
    ensures FindBlock(lines, 0, |lines|, "spec").Ok?
    ensures var top := FindBlock(lines, 0, |lines|, "spec").value;
            top.found == Some((site.spec, site.specEnd)) && top.indent == topIndent
    ensures topIndent < site.specIndent && NoOutdent(lines, site.spec + 1, site.specEnd, topIndent)
    ensures site.specEnd < |lines| ==> IsContent(lines[site.specEnd])
    ensures FindSync(lines, site.spec, site.specEnd) == Ok(site)
    ensures FindBlock(lines, site.spec + 1, site.specEnd, "syncPolicy").Ok?
    ensures var level := FindBlock(lines, site.spec + 1, site.specEnd, "syncPolicy").value;
            && level.indent == site.specIndent
            && (level.found.Some? <==> site.sync.Some?)
            && (site.sync.Some? ==> level.found == Some((site.sync.value.at, site.sync.value.end)))
  {
    hide FindBlock, IsSeparator, IsContent, IndentOf, Navigate, FindSync;
    NavigatedFrom(lines, site);
    SyncLevelFound(lines, site);
    var top := FindBlock(lines, 0, |lines|, "spec").value;
    topIndent := top.indent;
    FoundFacts(lines, 0, |lines|, "spec");
    FoundFacts(lines, site.spec + 1, site.specEnd, "syncPolicy");
    DeeperThan(lines, site.spec + 1, site.specEnd, topIndent);
  }

  ghost predicate InnerMatches(lines: seq<string>, sync: Sync) {
    && sync.at < sync.end <= |lines|
    && FindBlock(lines, sync.at + 1, sync.end, "automated").Ok?
    && var inner := FindBlock(lines, sync.at + 1, sync.end, "automated").value;
       inner.indent == sync.indent && inner.found == sync.automated && |inner.entries| == sync.children
  }

  lemma InnerLevel(lines: seq<string>, site: Site)
    requires SiteInRange(site, |lines|) && site.sync.Some? && FindSync(lines, site.spec, site.specEnd) == Ok(site)
    ensures InnerMatches(lines, site.sync.value)
  {
    hide FindBlock;
  }

  lemma LevelIndent(lines: seq<string>, lo: nat, hi: nat, key: string)
    requires lo <= hi <= |lines| && FindBlock(lines, lo, hi, key).Ok?
    ensures FindBlock(lines, lo, hi, key).value.indent == ChildIndent(lines, lo, hi)
  {
    hide KeysAt, ChildIndent, FirstDuplicate, IndexOfKey;
  }

  ghost predicate SyncWellPlaced(lines: seq<string>, site: Site)
    requires SiteInRange(site, |lines|) && site.sync.Some?
  {
    var sync := site.sync.value;
    && NoOutdent(lines, sync.at + 1, sync.end, site.specIndent)
    && (sync.indent >= 0 ==> sync.indent > site.specIndent)
    && sync.indent >= -1
    && (sync.end < |lines| ==> IsContent(lines[sync.end]))
    && InnerMatches(lines, sync)
  }

  lemma SyncFacts(lines: seq<string>, site: Site)
    requires Navigate(lines) == Ok(site) && site.sync.Some?
    ensures SyncWellPlaced(lines, site)
  {
    hide FindBlock, Navigate, FindSync, IsContent, IndentOf, ChildIndent, NoOutdent;
    var _ := SiteFacts(lines, site);
    var sync := site.sync.value;
    InnerLevel(lines, site);
    FoundEnd(lines, site.spec + 1, site.specEnd, "syncPolicy", sync.at, sync.end);
    LevelIndent(lines, sync.at + 1, sync.end, "automated");
    DeeperThan(lines, sync.at + 1, sync.end, site.specIndent);
  }

  lemma DeepBlock(indent: nat, outer: int)
    requires indent > outer
    ensures NoOutdent(Block(indent), 0, 3, outer) && NoSeparator(Block(indent))
  {
    hide IsContent, IndentOf, KeyOf, IsSeparator;
    BlockLines(indent);
    forall i | 0 <= i < 3 ensures !Outdents(Block(indent)[i], outer) {
      assert i == 0 || i == 1 || i == 2;
    }
  }

  /** What follows the block an enable wrote inside an existing sync block. */
  lemma AfterBlock(lines: seq<string>, site: Site)
    requires Navigate(lines) == Ok(site) && site.sync.Some?
    ensures var (p, q, added) := EnableEdit(lines, site);
            var sync := site.sync.value;
            && sync.at < p <= q <= sync.end && added == Block(BlockIndent(site)) && BlockIndent(site) > site.specIndent
            && ChildIndent(lines, q, sync.end) <= BlockIndent(site)
  {
    hide IsContent, IndentOf, KeyOf, Navigate, FindBlock;
    SyncFacts(lines, site);
    var sync := site.sync.value;
    FoundFacts(lines, sync.at + 1, sync.end, "automated");
  }

  /** An edit inside the sync block leaves spec and syncPolicy where they are. */
  lemma OuterLevels(lines: seq<string>, site: Site, p: nat, q: nat, added: seq<string>)
    requires Navigate(lines) == Ok(site) && site.sync.Some?
    requires site.sync.value.at < p <= q <= site.sync.value.end
    requires NoSeparator(added) && NoOutdent(added, 0, |added|, site.specIndent)
    ensures OuterFound(Splice(lines, p, q, added), site, site.specEnd - q + p + |added|, site.sync.value.end - q + p + |added|)
  {
    hide FindBlock, IsSeparator, IsContent, IndentOf, KeyOf, NoSeparator, Navigate, Outdent, FindSync;
    var topIndent := SiteFacts(lines, site);
    NoOutdentLess(added, 0, |added|, site.specIndent, topIndent);
    FindBlockInside(lines, 0, |lines|, "spec", p, q, added);
    FindBlockInside(lines, site.spec + 1, site.specEnd, "syncPolicy", p, q, added);
    NoSeparatorSplice(lines, p, q, added);
  }

  ghost predicate OuterFound(lines': seq<string>, site: Site, specEnd': nat, end': nat)
    requires site.sync.Some?
  {
    && NoSeparator(lines') && site.spec < site.sync.value.at < end' <= specEnd' <= |lines'|
    && FindBlock(lines', 0, |lines'|, "spec").Ok?
    && FindBlock(lines', 0, |lines'|, "spec").value.found == Some((site.spec, specEnd'))
    && FindBlock(lines', site.spec + 1, specEnd', "syncPolicy").Ok?
    && FindBlock(lines', site.spec + 1, specEnd', "syncPolicy").value.found == Some((site.sync.value.at, end'))
    && FindBlock(lines', site.spec + 1, specEnd', "syncPolicy").value.indent == site.specIndent
  }

  lemma NoOutdentLess(lines: seq<string>, lo: nat, hi: nat, indent: int, outer: int)
    requires lo <= hi <= |lines| && outer <= indent && NoOutdent(lines, lo, hi, indent)
    ensures NoOutdent(lines, lo, hi, outer)
  {
    hide IsContent, IndentOf;
    forall i | lo <= i < hi ensures !Outdents(lines[i], outer) { assert !Outdents(lines[i], indent); }
  }

  /** Enabling leaves the manifest navigable: spec, syncPolicy and the automated
      block are found again, the last one where it was written. */
  lemma EnabledExisting(lines: seq<string>, site: Site) returns (site': Site)
    requires Navigate(lines) == Ok(site) && site.sync.Some?
    ensures Navigate(Enabled(lines, site)) == Ok(site')
    ensures FoundAgain(Enabled(lines, site), site', BlockStart(lines, site), BlockIndent(site))
  {
    hide FindBlock, IsSeparator, IsContent, IndentOf, KeyOf, Block, NoOutdent, NoSeparator, Navigate, Outdent, FindSync, Splice;
    var sync := site.sync.value;
    var (p, q, added) := EnableEdit(lines, site);
    AfterBlock(lines, site);
    DeepBlock(BlockIndent(site), site.specIndent);
    OuterLevels(lines, site, p, q, added);
    WrittenBlock(lines, site);
    site' := NavigatesTo(Splice(lines, p, q, added), site, site.specEnd - q + p + 3, sync.end - q + p + 3);
    BehindBlock(lines, p, q, added, sync.end);
    SyncEnds(lines, site);
  }

  lemma SyncEnds(lines: seq<string>, site: Site)
    requires Navigate(lines) == Ok(site) && site.sync.Some?
    ensures site.sync.value.end < |lines| ==> IsContent(lines[site.sync.value.end])
  {
    hide Navigate, FindBlock, IsContent;
    SyncFacts(lines, site);
  }

  /** The block an enable wrote inside an existing sync block is found there. */
  lemma WrittenBlock(lines: seq<string>, site: Site)
    requires Navigate(lines) == Ok(site) && site.sync.Some?
    ensures var (p, q, added) := EnableEdit(lines, site);
            var sync := site.sync.value;
            WrittenAt(Splice(lines, p, q, added), sync.at + 1, sync.end - q + p + 3, p, BlockIndent(site))
  {
    hide FindBlock, IsContent, IndentOf, Block, NoOutdent, Navigate, Outdent, FindSync;
    AfterBlock(lines, site);
    SyncFacts(lines, site);
    var sync := site.sync.value;
    if sync.automated.Some? {
      WrittenReplaced(lines, sync.at + 1, sync.end);
    } else {
      WrittenInserted(lines, sync.at + 1, sync.end, BlockIndent(site));
    }
  }

  ghost predicate WrittenAt(lines: seq<string>, lo: nat, hi: int, p: nat, indent: nat) {
    && lo <= p && p + 3 <= hi <= |lines|
    && var level := FindBlock(lines, lo, hi, "automated");
       && level.Ok? && level.value.indent == indent
       && level.value.found == Some((p, Outdent(lines, p + 3, indent, hi)))
  }

  lemma WrittenReplaced(lines: seq<string>, lo: nat, hi: nat)
    requires lo <= hi <= |lines| && FindBlock(lines, lo, hi, "automated").Ok?
    requires FindBlock(lines, lo, hi, "automated").value.found.Some?
    ensures var level := FindBlock(lines, lo, hi, "automated").value;
            var (a, e) := level.found.value;
            WrittenAt(Splice(lines, a, e, Block(level.indent)), lo, hi - e + a + 3, a, level.indent)
  {
    hide FindBlock, Block, Outdent;
    ReplacedBlock(lines, lo, hi);
  }

  lemma WrittenInserted(lines: seq<string>, lo: nat, hi: nat, indent: nat)
    requires lo <= hi <= |lines| && FindBlock(lines, lo, hi, "automated").Ok?
    requires FindBlock(lines, lo, hi, "automated").value.found.None?
    requires FindBlock(lines, lo, hi, "automated").value.indent == -1 || FindBlock(lines, lo, hi, "automated").value.indent == indent
    ensures WrittenAt(Splice(lines, lo, lo, Block(indent)), lo, hi + 3, lo, indent)
  {
    hide FindBlock, Block, Outdent;
    InsertedBlock(lines, lo, hi, indent);
  }

  lemma NavigatesTo(lines': seq<string>, site: Site, specEnd': nat, end': nat) returns (site': Site)
    requires site.sync.Some? && OuterFound(lines', site, specEnd', end') && site.specIndent >= 0
    requires FindBlock(lines', site.sync.value.at + 1, end', "automated").Ok?
    ensures var inner := FindBlock(lines', site.sync.value.at + 1, end', "automated").value;
            site' == Site(site.spec, specEnd', site.specIndent,
                          Some(Sync(site.sync.value.at, end', inner.indent, |inner.entries|, inner.found)))
    ensures Navigate(lines') == Ok(site')
  {
    hide IsSeparator, FindBlock;
    site' := Navigate(lines').value;
  }

  lemma SpliceLength(lines: seq<string>, p: nat, q: nat, added: seq<string>)
    requires p <= q <= |lines|
    ensures |Splice(lines, p, q, added)| == |lines| - q + p + |added|
  {
  }

  /** The lines behind a splice are the old ones. */
  lemma BehindBlock(lines: seq<string>, p: nat, q: nat, added: seq<string>, end: nat)
    requires p <= q <= end <= |lines|
    ensures var lines' := Splice(lines, p, q, added);
            && lines'[p..p + |added|] == added
            && (q < |lines| ==> lines'[p + |added|] == lines[q])
            && (end < |lines| ==> lines'[end - q + p + |added|] == lines[end])
            && |lines'| == |lines| - q + p + |added|
            && ChildIndent(lines', p + |added|, end - q + p + |added|) == ChildIndent(lines, q, end)
  {
    hide ChildIndent, Splice;
    SpliceAt(lines, p, q, added);
    SpliceLength(lines, p, q, added);
    ScansMoved(lines, q, end, Splice(lines, p, q, added), p + |added|, 0);
  }

  /** The scan for keys in the spec block is not cut short by a line indented
      between spec and its first child. */
  ghost predicate ConsistentSpec(lines: seq<string>, site: Site)
    requires SiteInRange(site, |lines|)
  {
    NoBreak(lines, site.spec + 1, site.specEnd, site.specIndent)
  }

  /** The same for a manifest without a syncPolicy key. */
  lemma EnabledFresh(lines: seq<string>, site: Site) returns (site': Site)
    requires Navigate(lines) == Ok(site) && site.sync.None? && ConsistentSpec(lines, site)
    ensures Navigate(Enabled(lines, site)) == Ok(site')
    ensures FoundAgain(Enabled(lines, site), site', BlockStart(lines, site), BlockIndent(site))
  {
    hide FindBlock, IsSeparator, IsContent, IndentOf, KeyOf, Block, NoOutdent, NoSeparator, Navigate, Outdent, FindSync, Splice;
    var anchor := Anchor(lines, site.spec, site.specEnd);
    var added := [SyncLine(site.specIndent)] + Block(site.specIndent + 2);
    assert EnableEdit(lines, site) == (anchor, anchor, added);
    FreshLevels(lines, site);
    FreshAutomated(Splice(lines, anchor, anchor, added), anchor, site.specEnd + 4, site.specIndent + 2);
    site' := FreshNavigates(Splice(lines, anchor, anchor, added), site, anchor);
    BehindBlock(lines, anchor, anchor, added, site.specEnd);
    FreshContent(lines, site);
    ChildIndentNone(lines, anchor, site.specEnd);
    assert Splice(lines, anchor, anchor, added)[anchor + 1..anchor + 4] == Block(site.specIndent + 2);
  }

  lemma FreshContent(lines: seq<string>, site: Site)
    requires Navigate(lines) == Ok(site)
    ensures site.specEnd < |lines| ==> IsContent(lines[site.specEnd])
  {
    hide Navigate, FindBlock, FindSync, IsContent;
    var _ := SiteFacts(lines, site);
  }

  ghost predicate FreshFound(lines': seq<string>, site: Site, anchor: nat) {
    var end' := site.specEnd + 4;
    && NoSeparator(lines') && site.spec < anchor && anchor + 4 <= end' <= |lines'|
    && NoContent(lines', anchor + 4, end') && lines'[anchor + 1..anchor + 4] == Block(BlockIndent'(site))
    && FindBlock(lines', 0, |lines'|, "spec").Ok?
    && FindBlock(lines', 0, |lines'|, "spec").value.found == Some((site.spec, end'))
    && FindBlock(lines', site.spec + 1, end', "syncPolicy").Ok?
    && FindBlock(lines', site.spec + 1, end', "syncPolicy").value.found == Some((anchor, end'))
    && FindBlock(lines', site.spec + 1, end', "syncPolicy").value.indent == site.specIndent
  }

  function BlockIndent'(site: Site): nat {
    if site.specIndent >= 0 then site.specIndent + 2 else 0
  }

  lemma AnchorFacts(lines: seq<string>, site: Site)
    requires Navigate(lines) == Ok(site)
    ensures var anchor := Anchor(lines, site.spec, site.specEnd);
            site.spec + 1 < anchor <= site.specEnd && NoContent(lines, anchor, site.specEnd)
  {
    hide Navigate, FindBlock, FindSync, IsContent, IndentOf;
    var _ := SiteFacts(lines, site);
    LevelIndent(lines, site.spec + 1, site.specEnd, "syncPolicy");
    var c := ChildIndentFirst(lines, site.spec + 1, site.specEnd);
  }

  lemma DeepSync(indent: nat, outer: int)
    requires indent > outer
    ensures var added := [SyncLine(indent)] + Block(indent + 2);
            NoOutdent(added, 0, |added|, outer) && NoSeparator(added)
  {
    hide IsContent, IndentOf, KeyOf, IsSeparator, Block, SyncLine;
    SyncLineFacts(indent);
    var added := [SyncLine(indent)] + Block(indent + 2);
    forall i | 0 <= i < 4 ensures !Outdents(added[i], outer) {
      assert IndentOf(added[i]) >= indent;
    }
  }

  lemma FreshLevels(lines: seq<string>, site: Site)
    requires Navigate(lines) == Ok(site) && site.sync.None? && ConsistentSpec(lines, site)
    ensures var anchor := Anchor(lines, site.spec, site.specEnd);
            FreshFound(Splice(lines, anchor, anchor, [SyncLine(site.specIndent)] + Block(site.specIndent + 2)), site, anchor)
  {
    hide FindBlock, IsSeparator, IsContent, IndentOf, KeyOf, Block, SyncLine, NoOutdent, NoSeparator, Navigate, Outdent, FindSync;
    var anchor := Anchor(lines, site.spec, site.specEnd);
    var added := [SyncLine(site.specIndent)] + Block(site.specIndent + 2);
    var topIndent := SiteFacts(lines, site);
    AnchorFacts(lines, site);
    DeepSync(site.specIndent, topIndent);
    FindBlockInside(lines, 0, |lines|, "spec", anchor, anchor, added);
    NewSyncKey(lines, site.spec + 1, site.specEnd, anchor, site.specIndent);
    NoSeparatorSplice(lines, anchor, anchor, added);
  }

  lemma FreshAutomated(lines: seq<string>, anchor: nat, hi: nat, indent: nat)
    requires anchor + 4 <= hi <= |lines| && lines[anchor + 1..anchor + 4] == Block(indent)
    requires NoContent(lines, anchor + 4, hi)
    ensures WrittenAt(lines, anchor + 1, hi, anchor + 1, indent)
  {
    hide FindBlock, IsContent, IndentOf, KeyOf, Block, Outdent, KeysAt;
    NoContentNoOutdent(lines, anchor + 4, hi, indent);
    KeysAtNone(lines, anchor + 4, hi, indent);
    NothingThere(lines, anchor + 1, indent);
    assert [] + [Entry(anchor + 1, "automated")] + [] == [Entry(anchor + 1, "automated")];
    AutomatedFound(lines, anchor + 1, anchor + 1, hi, indent, [], []);
  }

  lemma FreshNavigates(lines': seq<string>, site: Site, anchor: nat) returns (site': Site)
    requires site.specIndent >= 0 && FreshFound(lines', site, anchor)
    requires WrittenAt(lines', anchor + 1, site.specEnd + 4, anchor + 1, site.specIndent + 2)
    ensures Navigate(lines') == Ok(site') && FoundAgainIn(lines', site', anchor, site.specEnd + 4, site.specIndent + 2)
  {
    hide IsSeparator, FindBlock, IsContent, Outdent, Block;
    site' := Navigate(lines').value;
  }

  ghost predicate FoundAgainIn(lines': seq<string>, site': Site, sync: nat, end: nat, indent: nat) {
    && site'.sync.Some? && SiteInRange(site', |lines'|) && sync + 4 <= end
    && site'.sync.value.at == sync && site'.sync.value.end == end && site'.sync.value.indent == indent
    && site'.sync.value.automated == Some((sync + 1, Outdent(lines', sync + 4, indent, end)))
  }

  // ----- enabling twice -------------------------------------------------------------------

  ghost predicate FollowedByContent(lines: seq<string>, at: nat) {
    at < |lines| && IsContent(lines[at])
  }

  /** The end of a block found again: right behind the three fixed lines exactly
      when a content line, or nothing at all, follows them. */
  lemma BlockEndsAtOnce(lines': seq<string>, site': Site, at: nat, indent: nat)
    requires FoundAgain(lines', site', at, indent)
    ensures var e := site'.sync.value.automated.value.1;
            && at + 3 <= e <= |lines'| && NoContent(lines', at + 3, e)
            && (e == at + 3 <==> at + 3 == |lines'| || FollowedByContent(lines', at + 3))
  {
    hide IsContent, IndentOf, Block;
    var s := site'.sync.value;
    var e := s.automated.value.1;
    ChildIndentNone(lines', at + 3, s.end);
    if ChildIndent(lines', at + 3, s.end) >= 0 {
      var c := ChildIndentFirst(lines', at + 3, s.end);
      assert e <= c;
    }
  }

  /** Whether a second enable will find the block the first one wrote. */
  ghost predicate FindsItsBlock(lines: seq<string>, site: Site)
    requires SiteInRange(site, |lines|)
  {
    site.sync.Some? || ConsistentSpec(lines, site)
  }

  lemma EnabledSite(lines: seq<string>, site: Site) returns (site': Site)
    requires Navigate(lines) == Ok(site) && FindsItsBlock(lines, site)
    ensures Navigate(Enabled(lines, site)) == Ok(site')
    ensures FoundAgain(Enabled(lines, site), site', BlockStart(lines, site), BlockIndent(site))
  {
    hide Navigate, FoundAgain, Enabled, BlockStart, BlockIndent, ConsistentSpec;
    if site.sync.Some? {
      site' := EnabledExisting(lines, site);
    } else {
      site' := EnabledFresh(lines, site);
    }
  }

  /** After an enable the automated block is found, it is the fixed three lines,
      and no other content line is inside it. */
  lemma EnableLeavesFixedBlock(lines: seq<string>)
    requires Navigate(lines).Ok? && FindsItsBlock(lines, Navigate(lines).value)
    ensures var site := Navigate(lines).value;
            var lines' := Enabled(lines, site);
            && LinesWithSyncPolicy(lines, true) == Ok(lines')
            && Navigate(lines').Ok? && Navigate(lines').value.sync.Some?
            && Navigate(lines').value.sync.value.automated.Some?
            && var (at, end) := Navigate(lines').value.sync.value.automated.value;
               && at == BlockStart(lines, site) && at + 3 <= end <= |lines'|
               && lines'[at..at + 3] == Block(BlockIndent(site)) && NoContent(lines', at + 3, end)
  {
    hide Navigate, Enabled, BlockStart, BlockIndent, Block, FindsItsBlock;
    assert LinesWithSyncPolicy(lines, true) == Ok(Enabled(lines, Navigate(lines).value)) by { EnableIsEnabled(lines); }
    var site := Navigate(lines).value;
    var site' := EnabledSite(lines, site);
    BlockEndsAtOnce(Enabled(lines, site), site', BlockStart(lines, site), BlockIndent(site));
  }

  lemma EnableIsEnabled(lines: seq<string>)
    requires Navigate(lines).Ok?
    ensures LinesWithSyncPolicy(lines, true) == Ok(Enabled(lines, Navigate(lines).value))
  {
    hide Navigate, EnableEdit;
  }

  /** Enabling an enabled manifest again, on lines: it removes the blank and
      comment lines behind the block, if there are any. */
  lemma EnableTwiceLines(lines: seq<string>, site: Site)
    requires Navigate(lines) == Ok(site) && FindsItsBlock(lines, site)
    ensures var once := Enabled(lines, site);
            var at := BlockStart(lines, site);
            LinesWithSyncPolicy(once, true) == Ok(once) <==>
            at + 3 == |once| || FollowedByContent(once, at + 3)
  {
    hide Navigate, BlockStart, BlockIndent, Block, FindsItsBlock, Enabled, IsContent;
    var once := Enabled(lines, site);
    var at, indent := BlockStart(lines, site), BlockIndent(site);
    var site' := EnabledSite(lines, site);
    BlockEndsAtOnce(once, site', at, indent);
    EnableIsEnabled(once);
    var e := site'.sync.value.automated.value.1;
    assert EnableEdit(once, site') == (at, e, Block(indent));
    assert Enabled(once, site') == Splice(once, at, e, Block(indent)) by { EnabledSplice(once, site'); }
    if e == at + 3 {
      assert once[..at] + once[at..at + 3] + once[at + 3..] == once;
    } else {
      assert |Splice(once, at, e, Block(indent))| < |once|;
    }
  }

  lemma EnabledSplice(lines: seq<string>, site: Site)
    requires Navigate(lines) == Ok(site)
    ensures var (p, q, added) := EnableEdit(lines, site); Enabled(lines, site) == Splice(lines, p, q, added)
  {
  }

  /** A spec block whose scan is cut short hides the syncPolicy key an enable
      added behind the cut: the next enable adds another. */
  lemma EnableRepeats(lines: seq<string>, site: Site)
    requires Navigate(lines) == Ok(site) && !FindsItsBlock(lines, site)
    ensures var once := Enabled(lines, site);
            LinesWithSyncPolicy(once, true).Ok? && |LinesWithSyncPolicy(once, true).value| == |once| + 4
  {
    hide FindBlock, IsSeparator, IsContent, IndentOf, KeyOf, Block, SyncLine, NoOutdent, NoSeparator, Navigate, Outdent, FindSync;
    var anchor := Anchor(lines, site.spec, site.specEnd);
    var added := [SyncLine(site.specIndent)] + Block(site.specIndent + 2);
    var once := Splice(lines, anchor, anchor, added);
    assert EnableEdit(lines, site) == (anchor, anchor, added);
    var topIndent := SiteFacts(lines, site);
    AnchorFacts(lines, site);
    DeepSync(site.specIndent, topIndent);
    FindBlockInside(lines, 0, |lines|, "spec", anchor, anchor, added);
    NoSeparatorSplice(lines, anchor, anchor, added);
    HiddenSync(lines, site, anchor, added);
    var site' := UnfoundNavigates(once, site, site.specEnd + 4);
    EnableIsEnabled(once);
  }

  lemma UnfoundNavigates(lines': seq<string>, site: Site, specEnd': nat) returns (site': Site)
    requires NoSeparator(lines') && site.specIndent >= 0 && site.spec < specEnd' <= |lines'|
    requires FindBlock(lines', 0, |lines'|, "spec").Ok?
    requires FindBlock(lines', 0, |lines'|, "spec").value.found == Some((site.spec, specEnd'))
    requires FindBlock(lines', site.spec + 1, specEnd', "syncPolicy").Ok?
    requires FindBlock(lines', site.spec + 1, specEnd', "syncPolicy").value.found == None
    requires FindBlock(lines', site.spec + 1, specEnd', "syncPolicy").value.indent == site.specIndent
    ensures Navigate(lines') == Ok(site') && site'.sync == None
  {
    hide IsSeparator, FindBlock;
    site' := Navigate(lines').value;
  }

  lemma FirstBreak(lines: seq<string>, lo: nat, hi: nat, indent: int) returns (b: nat)
    requires lo <= hi <= |lines| && !NoBreak(lines, lo, hi, indent)
    ensures lo <= b < hi && Breaks(lines[b], indent) && NoBreak(lines, lo, b, indent)
  {
    hide IsContent, IndentOf;
    b := lo;
    while !Breaks(lines[b], indent)
      invariant lo <= b < hi && NoBreak(lines, lo, b, indent)
      decreases hi - b
    {
      b := b + 1;
    }
  }

  lemma HiddenSync(lines: seq<string>, site: Site, anchor: nat, added: seq<string>)
    requires Navigate(lines) == Ok(site) && site.sync.None? && !ConsistentSpec(lines, site)
    requires |added| == 4 && site.spec + 1 < anchor <= site.specEnd && NoContent(lines, anchor, site.specEnd)
    ensures var level := FindBlock(Splice(lines, anchor, anchor, added), site.spec + 1, site.specEnd + 4, "syncPolicy");
            level.Ok? && level.value.found == None && level.value.indent == site.specIndent
  {
    hide IsContent, IndentOf, KeyOf, Navigate, Outdent, FindSync, KeysAt, ChildIndent, FirstDuplicate, IndexOfKey, Block, FindBlock;
    var lo, hi, indent := site.spec + 1, site.specEnd, site.specIndent;
    var lines' := Splice(lines, anchor, anchor, added);
    var _ := SiteFacts(lines, site);
    FoundFacts(lines, lo, hi, "syncPolicy");
    var entries := FindBlock(lines, lo, hi, "syncPolicy").value.entries;
    var b := FirstBreak(lines, lo, hi, indent);
    assert b < anchor;
    SpliceAt(lines, anchor, anchor, added);
    assert lines'[b] == lines[b];
    KeysAtBreak(lines, lo, b, hi, indent);
    SpliceNoBreak(lines, lo, b, lines', indent);
    KeysAtBreak(lines', lo, b, hi + 4, indent);
    KeysAtMoved(lines, lo, b, lines', lo, indent);
    MovedNowhere(entries, lo);
    var c := ChildIndentFirst(lines, lo, hi);
    SameChildIndent(lines, lo, hi, lines', hi + 4, c);
    LineOfFacts(entries, "syncPolicy");
    NotFoundAs(lines', lo, hi + 4, indent, entries, "syncPolicy");
  }

  lemma NotFoundAs(lines: seq<string>, lo: nat, hi: nat, indent: int, entries: seq<Entry>, key: string)
    requires lo <= hi <= |lines| && ChildIndent(lines, lo, hi) == indent && KeysAt(lines, lo, hi, indent) == Ok(entries)
    requires FirstDuplicate(entries, {}) == None && LineOf(entries, key) == None
    ensures FindBlock(lines, lo, hi, key) == Ok(Level(indent, entries, None))
  {
    hide KeysAt, IsContent, IndentOf, KeyOf, ChildIndent, FirstDuplicate, IndexOfKey, Outdent;
  }

  // ----- enabling twice, as texts -------------------------------------------------------

  lemma BlockClean(indent: nat)
    ensures forall i :: 0 <= i < 3 ==> NoNewline(Block(indent)[i]) && '\r' !in Block(indent)[i]
    ensures NoNewline(SyncLine(indent)) && '\r' !in SyncLine(indent)
  {
  }

  lemma JoinInjective(a: seq<string>, b: seq<string>)
    requires AllLines(a) && AllLines(b) && Join(a) == Join(b)
    ensures a == b
  {
    SplitJoin(a);
    SplitJoin(b);
  }

  lemma NavigateSpecPositive(lines: seq<string>, site: Site)
    requires Navigate(lines) == Ok(site) && lines != [] && lines[0] == MARKER_COMMENT
    ensures site.spec > 0
  {
    hide IsContent, IndentOf, KeyOf, FindBlock, FindSync;
    MarkerLine();
    FoundFacts(lines, 0, |lines|, "spec");
  }

  /** The edited lines, as a file: complete unless the edit reached the end. */
  lemma EnabledFile(lines: seq<string>, site: Site)
    requires IsFile(lines) && lines[0] == MARKER_COMMENT && Navigate(lines) == Ok(site)
    ensures var once := Enabled(lines, site);
            && AllLines(once) && once[0] == MARKER_COMMENT && '\r' !in Join(once)
            && BlockStart(lines, site) + 3 <= |once|
            && (BlockStart(lines, site) + 3 == |once| ==> !EndsWithNewline(Join(once)))
            && (BlockStart(lines, site) + 3 < |once| ==> IsFile(once))
  {
    hide Navigate, IsContent, FindBlock, Join, IsFile, NoNewline, Block, Splice, Enabled, AllLines;
    var (p, q, added) := EnableEdit(lines, site);
    NavigateSpecPositive(lines, site);
    AddedClean(lines, site);
    AddedContent(lines, site);
    assert added[|added| - 1] == added[|added| - 3..][2] == Block(BlockIndent(site))[2] != "" by { BlockText(BlockIndent(site)); }
    SplicedFile(lines, p, q, added);
    assert BlockStart(lines, site) + 3 == p + |added|;
    assert Enabled(lines, site) == Splice(lines, p, q, added) by { EnabledSplice(lines, site); }
  }

  /** A splice behind the marker: still clean lines, and still a file unless it
      takes out the last line. */
  lemma SplicedFile(lines: seq<string>, p: nat, q: nat, added: seq<string>)
    requires IsFile(lines) && 0 < p <= q <= |lines| && added != [] && added[|added| - 1] != ""
    requires forall i :: 0 <= i < |added| ==> NoNewline(added[i]) && '\r' !in added[i]
    ensures var once := Splice(lines, p, q, added);
            && AllLines(once) && once[0] == lines[0] && '\r' !in Join(once)
            && p + |added| <= |once|
            && (p + |added| == |once| ==> !EndsWithNewline(Join(once)))
            && (p + |added| < |once| ==> IsFile(once))
  {
    hide Join, NoNewline;
    var once := Splice(lines, p, q, added);
    forall i | 0 <= i < |once| ensures NoNewline(once[i]) && '\r' !in once[i] {
      if i < p {
        assert once[i] == lines[i];
      } else if i < p + |added| {
        assert once[i] == added[i - p];
      } else {
        assert once[i] == lines[i - p - |added| + q];
      }
    }
    JoinMember(once, '\r');
    JoinEndsWithNewline(once);
    if q == |lines| {
      assert once[|once| - 1] == added[|added| - 1];
    } else {
      assert once[|once| - 1] == lines[|lines| - 1];
    }
  }

  lemma AddedClean(lines: seq<string>, site: Site)
    requires Navigate(lines) == Ok(site)
    ensures var added := EnableEdit(lines, site).2;
            forall i :: 0 <= i < |added| ==> NoNewline(added[i]) && '\r' !in added[i]
  {
    hide Navigate, IsContent, FindBlock, NoNewline;
    BlockClean(BlockIndent(site));
    BlockClean(site.specIndent);
    var added := EnableEdit(lines, site).2;
    if site.sync.None? {
      forall i | 0 <= i < |added| ensures NoNewline(added[i]) && '\r' !in added[i] {
        if i > 0 {
          assert added[i] == Block(site.specIndent + 2)[i - 1];
        }
      }
    }
  }

  /** What a caller can check before enabling: a content line directly follows the lines
      the edit replaces, and the scan of the spec block reaches the new block. */
  ghost predicate EnableSettles(lines: seq<string>, site: Site)
    requires Navigate(lines) == Ok(site)
  {
    FindsItsBlock(lines, site) && FollowedByContent(lines, EnableEdit(lines, site).1)
  }

  lemma FollowedAfter(lines: seq<string>, site: Site)
    requires Navigate(lines) == Ok(site)
    ensures FollowedByContent(Enabled(lines, site), BlockStart(lines, site) + 3) <==> FollowedByContent(lines, EnableEdit(lines, site).1)
  {
    hide Navigate, IsContent, FindBlock, Block;
    var (p, q, added) := EnableEdit(lines, site);
    var once := Enabled(lines, site);
    AddedContent(lines, site);
    assert once == Splice(lines, p, q, added) by { EnabledSplice(lines, site); }
    assert BlockStart(lines, site) + 3 == p + |added|;
    SpliceAt(lines, p, q, added);
    assert |once| == |lines| - q + p + |added|;
    assert q < |lines| ==> once[q - q + p + |added|] == lines[q];
  }

  /** Enabling twice equals enabling once exactly when a content line directly
      follows the lines the first edit replaces, and the scan of the spec block
      reaches the block it writes. Otherwise the second enable fails (the final newline is
      gone), removes the blank and comment lines behind the block, or adds a
      second syncPolicy key. */
  lemma EnableTwiceIff(text: string)
    requires Adopted(text).Ok? && WithSyncPolicy(text, true).Ok?
    ensures var lines := LinesOf(Adopted(text).value).value;
            var site := Navigate(lines).value;
            var once := WithSyncPolicy(text, true).value;
            && LinesOf(Adopted(text).value).Ok? && Navigate(lines).Ok?
            && (WithSyncPolicy(once, true) == Ok(once) <==>
                EnableSettles(lines, site))
  {
    hide Navigate, IsContent, Enabled, FindsItsBlock, Join, EnableEdit, IsFile, BlockStart;
    AdoptedFacts(text);
    LinesOfFile(Adopted(text).value);
    var lines := LinesOf(Adopted(text).value).value;
    var site := Navigate(lines).value;
    EnableIsEnabled(lines);
    var once := Enabled(lines, site);
    EnabledFile(lines, site);
    FollowedAfter(lines, site);
    var at := BlockStart(lines, site);
    if at + 3 == |once| {
      assert WithSyncPolicy(Join(once), true) == Err(NoFinalNewline);
    } else {
      LinesOfJoin(once);
      assert Adopted(Join(once)) == Ok(Join(once));
      if FindsItsBlock(lines, site) {
        EnableTwiceLines(lines, site);
      } else {
        EnableRepeats(lines, site);
      }
      SecondEnable(lines, site);
    }
  }

  lemma SecondEnable(lines: seq<string>, site: Site)
    requires Navigate(lines) == Ok(site) && IsFile(Enabled(lines, site)) && Enabled(lines, site)[0] == MARKER_COMMENT
    ensures var once := Enabled(lines, site);
            WithSyncPolicy(Join(once), true) == Ok(Join(once)) <==> LinesWithSyncPolicy(once, true) == Ok(once)
  {
    hide Navigate, IsContent, EnableEdit, FindBlock, Join;
    var once := Enabled(lines, site);
    LinesOfJoin(once);
    if LinesWithSyncPolicy(once, true).Ok? {
      var twice := LinesWithSyncPolicy(once, true).value;
      var site' := Navigate(once).value;
      EnableIsEnabled(once);
      EnabledFile(once, site');
      if Join(twice) == Join(once) {
        JoinInjective(twice, once);
      }
    }
  }

  // ----- disabling ------------------------------------------------------------------------

  /** The scan of the sync block is not cut short either. */
  ghost predicate ConsistentSync(lines: seq<string>, site: Site)
    requires SiteInRange(site, |lines|)
  {
    site.sync.Some? ==> NoBreak(lines, site.sync.value.at + 1, site.sync.value.end, site.sync.value.indent)
  }

  /** Removing one of several keys of a consistently indented block leaves the
      others, at the same indentation. */
  lemma RemovedKey(lines: seq<string>, lo: nat, hi: nat, key: string, kept: seq<string>) returns (entries': seq<Entry>)
    requires lo <= hi <= |lines| && FindBlock(lines, lo, hi, key).Ok?
    requires FindBlock(lines, lo, hi, key).value.found.Some?
    requires var level := FindBlock(lines, lo, hi, key).value;
             NoBreak(lines, lo, hi, level.indent) && NoContent(kept, 0, |kept|)
    ensures var level := FindBlock(lines, lo, hi, key).value;
            var (a, e) := level.found.value;
            var lines' := Splice(lines, a, e, kept);
            var hi' := hi - e + a + |kept|;
            && KeysAt(lines', lo, hi', level.indent) == Ok(entries') && |entries'| == |level.entries| - 1
            && FirstDuplicate(entries', {}) == None && LineOf(entries', key) == None
            && ChildIndent(lines', lo, hi') == (if entries' == [] then -1 else level.indent)
  {
    hide KeysAt, IsContent, IndentOf, KeyOf, ChildIndent, FirstDuplicate, IndexOfKey, Outdents, Breaks, Outdent, FindBlock, LineOf;
    var level := FindBlock(lines, lo, hi, key).value;
    var indent, entries := level.indent, level.entries;
    var (a, e) := level.found.value;
    FoundFacts(lines, lo, hi, key);
    var k :| 0 <= k < |entries| && entries[k] == Entry(a, key);
    NoBreakPart(lines, lo, e, hi, indent);
    NoContentNoOutdent(kept, 0, |kept|, indent);
    KeysAtNone(kept, 0, |kept|, indent);
    var before, removed, after, addedKeys, after' := KeysAtSplice(lines, lo, a, e, hi, kept, indent);
    OnlyKey(lines, lo, hi, a, e, indent, k, key);
    entries' := before + addedKeys + after';
    assert entries' == before + after';
    WithoutKey(before, Entry(a, key), after, after');
    LineOfFacts(entries', key);
    RemovedIndent(lines, lo, hi, a, e, kept, indent, entries');
  }

  lemma OnlyKey(lines: seq<string>, lo: nat, hi: nat, a: nat, e: nat, indent: int, k: nat, key: string)
    requires lo <= a < e <= hi <= |lines| && KeysAt(lines, lo, hi, indent).Ok?
    requires k < |KeysAt(lines, lo, hi, indent).value| && KeysAt(lines, lo, hi, indent).value[k] == Entry(a, key)
    requires NoOutdent(lines, a + 1, e, indent)
    ensures KeysAt(lines, a, e, indent) == Ok([Entry(a, key)])
  {
    hide IsContent, IndentOf, KeyOf, Outdents;
    KeysAtFacts(lines, lo, hi, indent);
    assert IsEntry(lines, lo, hi, indent, KeysAt(lines, lo, hi, indent).value[k]);
    KeysAtNone(lines, a + 1, e, indent);
    assert [Entry(a, key)] + [] == [Entry(a, key)];
  }

  lemma WithoutKey(before: seq<Entry>, entry: Entry, after: seq<Entry>, after': seq<Entry>)
    requires FirstDuplicate(before + [entry] + after, {}) == None && KeysOf(after) == KeysOf(after')
    ensures FirstDuplicate(before + after', {}) == None && entry.key !in KeysOf(before + after')
  {
    var x, y := before + [entry] + after, before + after';
    FirstDuplicateNone(x, {});
    FirstDuplicateNone(y, {});
    assert |after| == |KeysOf(after)| == |after'|;
    forall k | 0 <= k < |y|
      ensures y[k].key == x[if k < |before| then k else k + 1].key
    {
      if k >= |before| {
        assert KeysOf(after)[k - |before|] == KeysOf(after')[k - |before|];
      }
    }
    assert x[|before|] == entry;
    assert forall k :: 0 <= k < |y| ==> KeysOf(y)[k] == y[k].key;
  }

  lemma RemovedIndent(lines: seq<string>, lo: nat, hi: nat, a: nat, e: nat, kept: seq<string>, indent: int, entries': seq<Entry>)
    requires lo <= a < e <= hi <= |lines| && NoBreak(lines, lo, hi, indent) && ChildIndent(lines, lo, hi) == indent >= 0
    requires NoContent(kept, 0, |kept|) && e == Outdent(lines, a + 1, indent, hi)
    requires KeysAt(Splice(lines, a, e, kept), lo, hi - e + a + |kept|, indent) == Ok(entries')
    ensures ChildIndent(Splice(lines, a, e, kept), lo, hi - e + a + |kept|) == (if entries' == [] then -1 else indent)
  {
    hide KeysAt, IsContent, IndentOf, KeyOf, ChildIndent, Outdent, Breaks, Splice;
    var lines' := Splice(lines, a, e, kept);
    var hi' := hi - e + a + |kept|;
    SpliceAt(lines, a, e, kept);
    KeysAtFacts(lines', lo, hi', indent);
    ChildIndentNone(lines', lo, hi');
    if entries' != [] {
      assert IsEntry(lines', lo, hi', indent, entries'[0]);
    }
    if ChildIndent(lines', lo, hi') >= 0 {
      var c := ChildIndentFirst(lines', lo, hi');
      RemovedFirst(lines, lo, hi, a, e, kept, indent, lines', c);
      FirstIsKey(lines', lo, hi', indent, c);
    }
  }

  /** The first content line that is left is at the block's own indentation. */
  lemma RemovedFirst(lines: seq<string>, lo: nat, hi: nat, a: nat, e: nat, kept: seq<string>, indent: int, lines': seq<string>, c: nat)
    requires lo <= a < e <= hi <= |lines| && NoBreak(lines, lo, hi, indent) && ChildIndent(lines, lo, hi) == indent
    requires NoContent(kept, 0, |kept|) && e == Outdent(lines, a + 1, indent, hi)
    requires lines' == Splice(lines, a, e, kept) && lo <= c < hi - e + a + |kept|
    requires NoContent(lines', lo, c) && IsContent(lines'[c])
    ensures IndentOf(lines'[c]) == indent
  {
    hide IsContent, IndentOf, ChildIndent, Outdent, Breaks, Splice;
    SpliceAt(lines, a, e, kept);
    if c < a {
      SameChildIndent(lines', lo, c + 1, lines, hi, c);
      ChildIndentSkip(lines', lo, c, c + 1);
      ContentIndent(lines', c);
    } else {
      KeptNoContent(lines, a, e, kept);
      var i := c - a - |kept| + e;
      assert lines'[c] == lines[i];
      BehindIndent(lines, lo, hi, a, e, indent, i, lines', c, a + |kept|);
    }
  }

  lemma KeptNoContent(lines: seq<string>, p: nat, q: nat, kept: seq<string>)
    requires p <= q <= |lines| && NoContent(kept, 0, |kept|)
    ensures NoContent(Splice(lines, p, q, kept), p, p + |kept|)
  {
    hide IsContent;
    var lines' := Splice(lines, p, q, kept);
    forall i | p <= i < p + |kept| ensures !IsContent(lines'[i]) {
      assert lines'[i] == kept[i - p];
    }
  }

  lemma ContentIndent(lines: seq<string>, c: nat)
    requires c < |lines| && IsContent(lines[c])
    ensures ChildIndent(lines, c, c + 1) == IndentOf(lines[c])
  {
  }

  /** The first content line behind a block that the scan reaches is at the
      block's own indentation. */
  lemma BehindIndent(lines: seq<string>, lo: nat, hi: nat, a: nat, e: nat, indent: int, i: nat, lines': seq<string>, c: nat, from: nat)
    requires lo <= a < e <= i < hi <= |lines| && NoBreak(lines, lo, hi, indent)
    requires e == Outdent(lines, a + 1, indent, hi)
    requires from <= c < |lines'| && c - from == i - e && NoContent(lines', from, c)
    requires forall j :: e <= j <= i ==> lines'[j - e + from] == lines[j]
    requires IsContent(lines[i])
    ensures IndentOf(lines[i]) == indent
  {
    hide IsContent, IndentOf;
    assert lines'[e - e + from] == lines[e];
    assert !Breaks(lines[i], indent);
  }

  /** The first content line at the indentation is a key of the block. */
  lemma FirstIsKey(lines: seq<string>, lo: nat, hi: nat, indent: int, c: nat)
    requires lo <= c < hi <= |lines| && NoContent(lines, lo, c) && IsContent(lines[c]) && IndentOf(lines[c]) == indent
    requires KeysAt(lines, lo, hi, indent).Ok?
    ensures KeysAt(lines, lo, hi, indent).value != []
  {
    hide IsContent, IndentOf, KeyOf;
    NoContentNoOutdent(lines, lo, c, indent);
    KeysAtNone(lines, lo, c, indent);
    KeysAtSplit(lines, lo, c, hi, indent);
  }

  /** The lines a disable leaves. */
  function Disabled(lines: seq<string>, site: Site): seq<string>
    requires Navigate(lines) == Ok(site) && site.sync.Some? && site.sync.value.automated.Some?
  {
    var sync := site.sync.value;
    var (at, end) := sync.automated.value;
    var cut := Splice(lines, at, end, []);
    if sync.children == 1 then Splice(cut, sync.at, sync.at + 1, []) else cut
  }

  /** With other children, the sync block keeps them and loses the automated one. */
  lemma DisabledOthers(lines: seq<string>, site: Site) returns (site': Site)
    requires Navigate(lines) == Ok(site) && ConsistentSync(lines, site)
    requires site.sync.Some? && site.sync.value.automated.Some? && site.sync.value.children != 1
    ensures Navigate(Disabled(lines, site)) == Ok(site')
    ensures site'.sync.Some? && site'.sync.value.automated == None && site'.sync.value.children == site.sync.value.children - 1
  {
    hide FindBlock, IsSeparator, IsContent, IndentOf, KeyOf, NoOutdent, NoSeparator, Navigate, Outdent, FindSync, Splice;
    var sync := site.sync.value;
    var (at, end) := sync.automated.value;
    SyncFacts(lines, site);
    NothingAdded(site.specIndent);
    OuterLevels(lines, site, at, end, []);
    var entries' := RemovedKey(lines, sync.at + 1, sync.end, "automated", []);
    var lines' := Splice(lines, at, end, []);
    NotFoundAs(lines', sync.at + 1, sync.end - end + at, (if entries' == [] then -1 else sync.indent), entries', "automated");
    site' := NavigatesTo(lines', site, site.specEnd - end + at, sync.end - end + at);
  }

  lemma NothingAdded(indent: int)
    ensures NoOutdent([], 0, 0, indent) && NoSeparator([]) && NoContent([], 0, 0)
  {
  }

  /** A block whose only key is the automated one holds no other content. */
  lemma OnlyChild(lines: seq<string>, lo: nat, hi: nat)
    requires lo <= hi <= |lines| && FindBlock(lines, lo, hi, "automated").Ok?
    requires FindBlock(lines, lo, hi, "automated").value.found.Some?
    requires var level := FindBlock(lines, lo, hi, "automated").value;
             |level.entries| == 1 && NoBreak(lines, lo, hi, level.indent)
    ensures var (a, e) := FindBlock(lines, lo, hi, "automated").value.found.value;
            e == hi && NoContent(lines, lo, a)
  {
    hide KeysAt, IsContent, IndentOf, KeyOf, ChildIndent, FirstDuplicate, IndexOfKey, Outdents, Outdent, FindBlock;
    var level := FindBlock(lines, lo, hi, "automated").value;
    var indent := level.indent;
    var (a, e) := level.found.value;
    FoundFacts(lines, lo, hi, "automated");
    assert level.entries[0] == Entry(a, "automated");
    var c := ChildIndentFirst(lines, lo, hi);
    NoBreakPart(lines, lo, e, hi, indent);
    OnlyKey(lines, lo, hi, a, e, indent, 0, "automated");
    NoBreakPart(lines, lo, a, hi, indent);
    KeysAtSplit(lines, lo, a, hi, indent);
    assert NoBreak(lines, a, e, indent);
    KeysAtSplit(lines, a, e, hi, indent);
    var before, after := KeysAt(lines, lo, a, indent).value, KeysAt(lines, e, hi, indent).value;
    assert level.entries == before + ([Entry(a, "automated")] + after);
    assert |before| + 1 + |after| == 1;
    if c < a {
      FirstIsKey(lines, lo, a, indent, c);
    }
    if e < hi {
      OutdentKey(lines, a, e, hi, indent);
      FirstIsKey(lines, e, hi, indent, e);
    }
  }

  lemma OutdentKey(lines: seq<string>, a: nat, e: nat, hi: nat, indent: int)
    requires a < e < hi <= |lines| && e == Outdent(lines, a + 1, indent, hi) && !Breaks(lines[e], indent)
    ensures IsContent(lines[e]) && IndentOf(lines[e]) == indent
  {
    hide IsContent, IndentOf;
  }

  /** The sync block holds the automated key alone, and the spec block holds the sync
      block alone. */
  predicate EmptiesSpec(lines: seq<string>, site: Site)
    requires SiteInRange(site, |lines|)
  {
    && site.sync.Some? && site.sync.value.automated.Some? && site.sync.value.children == 1
    && var level := FindBlock(lines, site.spec + 1, site.specEnd, "syncPolicy");
       level.Ok? && |level.value.entries| == 1
  }

  /** Without other children, the syncPolicy key goes too, and the spec block is left
      empty exactly when it held nothing else. */
  lemma DisabledOnly(lines: seq<string>, site: Site)
    requires Navigate(lines) == Ok(site) && ConsistentSync(lines, site) && ConsistentSpec(lines, site)
    requires site.sync.Some? && site.sync.value.automated.Some? && site.sync.value.children == 1
    ensures var after := Navigate(Disabled(lines, site));
            if EmptiesSpec(lines, site) then after == Err(EmptySpec) else after.Ok? && after.value.sync == None
  {
    hide FindBlock, IsSeparator, IsContent, IndentOf, KeyOf, NoOutdent, NoSeparator, Navigate, Outdent, FindSync, Splice, KeysAt, NoContent;
    var sync := site.sync.value;
    var (a, e) := sync.automated.value;
    var kept := lines[sync.at + 1..a];
    SyncFacts(lines, site);
    OnlyChild(lines, sync.at + 1, sync.end);
    var lines' := Splice(lines, sync.at, sync.end, kept);
    CutTwice(lines, sync.at, a, e);
    KeptPart(lines, sync.at + 1, a);
    SpecAfterCut(lines, site, a);
    var _ := SiteFacts(lines, site);
    var entries' := RemovedKey(lines, site.spec + 1, site.specEnd, "syncPolicy", kept);
    var hi' := site.specEnd - sync.end + sync.at + |kept|;
    if entries' != [] {
      NotFoundAs(lines', site.spec + 1, hi', site.specIndent, entries', "syncPolicy");
      var _ := UnfoundNavigates(lines', site, hi');
    } else {
      EmptySpecNavigates(lines', site.spec, hi');
    }
  }

  ghost predicate SpecFoundAt(lines: seq<string>, spec: nat, specEnd: int) {
    && NoSeparator(lines) && spec < specEnd <= |lines|
    && FindBlock(lines, 0, |lines|, "spec").Ok?
    && FindBlock(lines, 0, |lines|, "spec").value.found == Some((spec, specEnd))
  }

  /** The spec block after its syncPolicy block gave way to the lines `kept`. */
  lemma SpecAfterCut(lines: seq<string>, site: Site, a: nat)
    requires SiteInRange(site, |lines|) && site.sync.Some?
    requires site.sync.value.at < a <= site.sync.value.end && NoContent(lines, site.sync.value.at + 1, a)
    requires Navigate(lines) == Ok(site)
    ensures var sync := site.sync.value;
            var kept := lines[sync.at + 1..a];
            SpecFoundAt(Splice(lines, sync.at, sync.end, kept), site.spec, site.specEnd - sync.end + sync.at + |kept|)
  {
    hide FindBlock, IsSeparator, IsContent, IndentOf, KeyOf, NoOutdent, NoSeparator, Navigate, FindSync;
    var sync := site.sync.value;
    var kept := lines[sync.at + 1..a];
    KeptPart(lines, sync.at + 1, a);
    var topIndent := SiteFacts(lines, site);
    NoContentNoOutdent(kept, 0, |kept|, topIndent);
    FindBlockInside(lines, 0, |lines|, "spec", sync.at, sync.end, kept);
    KeptSeparators(lines, sync.at + 1, a);
    NoSeparatorSplice(lines, sync.at, sync.end, kept);
  }

  lemma CutTwice(lines: seq<string>, at: nat, a: nat, e: nat)
    requires at < a <= e <= |lines|
    ensures Splice(Splice(lines, a, e, []), at, at + 1, []) == Splice(lines, at, e, lines[at + 1..a])
  {
    var cut := lines[..a] + [] + lines[e..];
    assert cut[..at] == lines[..at];
    assert cut[at + 1..] == lines[at + 1..a] + lines[e..];
  }

  lemma KeptPart(lines: seq<string>, lo: nat, hi: nat)
    requires lo <= hi <= |lines| && NoContent(lines, lo, hi)
    ensures NoContent(lines[lo..hi], 0, hi - lo)
  {
    hide IsContent;
  }

  lemma KeptSeparators(lines: seq<string>, lo: nat, hi: nat)
    requires lo <= hi <= |lines| && NoSeparator(lines)
    ensures NoSeparator(lines[lo..hi])
  {
    hide IsSeparator;
  }

  lemma EmptySpecNavigates(lines: seq<string>, spec: nat, specEnd: nat)
    requires NoSeparator(lines) && spec < specEnd <= |lines| && ChildIndent(lines, spec + 1, specEnd) == -1
    requires FindBlock(lines, 0, |lines|, "spec").Ok?
    requires FindBlock(lines, 0, |lines|, "spec").value.found == Some((spec, specEnd))
    ensures Navigate(lines) == Err(EmptySpec)
  {
    hide IsSeparator, FindBlock, ChildIndent;
    EmptyLevel(lines, spec + 1, specEnd);
  }

  lemma EmptyLevel(lines: seq<string>, lo: nat, hi: nat)
    requires lo <= hi <= |lines| && ChildIndent(lines, lo, hi) == -1
    ensures FindBlock(lines, lo, hi, "syncPolicy") == Ok(Level(-1, [], None))
  {
    hide ChildIndent, KeysAt;
    ChildIndentNone(lines, lo, hi);
    NoContentNoOutdent(lines, lo, hi, -1);
    KeysAtNone(lines, lo, hi, -1);
  }

  /** Disabling removes the automated block: no automated key is found any more,
      so a second disable changes nothing, or reports the spec block it emptied. */
  lemma DisableRemovesBlock(lines: seq<string>)
    requires Navigate(lines).Ok?
    requires ConsistentSync(lines, Navigate(lines).value) && ConsistentSpec(lines, Navigate(lines).value)
    ensures LinesWithSyncPolicy(lines, false).Ok?
    ensures var lines' := LinesWithSyncPolicy(lines, false).value;
            && LinesWithSyncPolicy(lines', false) == (if EmptiesSpec(lines, Navigate(lines).value) then Err(EmptySpec) else Ok(lines'))
            && (Navigate(lines').Ok? && Navigate(lines').value.sync.Some? ==> Navigate(lines').value.sync.value.automated == None)
  {
    hide Navigate, ConsistentSpec, ConsistentSync, IsContent;
    var site := Navigate(lines).value;
    if site.sync.Some? && site.sync.value.automated.Some? {
      if site.sync.value.children == 1 {
        DisabledOnly(lines, site);
      } else {
        var _ := DisabledOthers(lines, site);
      }
    }
  }

  /** A line of the file is left behind the block, or the last line before it is empty, so
      the file still ends with a newline. */
  predicate KeepsFinalNewline(lines: seq<string>, site: Site)
    requires SiteInRange(site, |lines|) && site.sync.Some? && site.sync.value.automated.Some?
  {
    var sync := site.sync.value;
    var (at, end) := sync.automated.value;
    || end < |lines|
    || (if sync.children == 1 && sync.at + 1 == at then lines[sync.at - 1] == "" else lines[at - 1] == "")
  }

  /** The lines a disable leaves, as a file. */
  lemma DisabledFile(lines: seq<string>, site: Site)
    requires IsFile(lines) && lines[0] == MARKER_COMMENT && Navigate(lines) == Ok(site)
    requires site.sync.Some? && site.sync.value.automated.Some?
    ensures var once := Disabled(lines, site);
            && AllLines(once) && once != [] && once[0] == MARKER_COMMENT && '\r' !in Join(once)
            && (KeepsFinalNewline(lines, site) ==> IsFile(once))
            && (!KeepsFinalNewline(lines, site) ==> !EndsWithNewline(Join(once)))
  {
    hide Navigate, IsContent, FindBlock, Join, NoNewline, Block, EndsWithNewline, Disabled;
    var once := Disabled(lines, site);
    DisabledParts(lines, site);
    forall i | 0 <= i < |once| ensures NoNewline(once[i]) && '\r' !in once[i] {
      assert once[i] in once && once[i] in lines;
    }
    JoinMember(once, '\r');
    JoinEndsWithNewline(once);
  }

  lemma PartsIn(lines: seq<string>, i: nat, j: nat, k: nat, m: nat)
    requires i <= j <= k <= m <= |lines|
    ensures forall x :: x in lines[..i] + lines[j..k] + lines[m..] ==> x in lines
  {
    forall x | x in lines[..i] + lines[j..k] + lines[m..] ensures x in lines {
      if x in lines[..i] {
      } else if x in lines[j..k] {
      } else {
        assert x in lines[m..];
      }
    }
  }

  /** A disable leaves lines of the file, the first of them, and the last ones as they were. */
  lemma DisabledParts(lines: seq<string>, site: Site)
    requires IsFile(lines) && lines[0] == MARKER_COMMENT && Navigate(lines) == Ok(site)
    requires site.sync.Some? && site.sync.value.automated.Some?
    ensures var once := Disabled(lines, site);
            && (forall x :: x in once ==> x in lines)
            && |once| > 1 && once[0] == lines[0]
            && (once[|once| - 1] == "" <==> KeepsFinalNewline(lines, site))
  {
    hide Navigate, IsContent, FindBlock, NoNewline;
    var sync := site.sync.value;
    var (at, end) := sync.automated.value;
    NavigateSpecPositive(lines, site);
    if sync.children == 1 {
      CutTwice(lines, sync.at, at, end);
      assert Disabled(lines, site) == lines[..sync.at] + lines[sync.at + 1..at] + lines[end..];
      PartsIn(lines, sync.at, sync.at + 1, at, end);
    } else {
      assert Disabled(lines, site) == lines[..at] + lines[at..at] + lines[end..];
      PartsIn(lines, at, at, at, end);
    }
  }

  /** No edit brings in a carriage return. */
  lemma PolicyNoReturn(text: string, enabled: bool)
    requires WithSyncPolicy(text, enabled).Ok?
    ensures '\r' !in WithSyncPolicy(text, enabled).value
  {
    hide Navigate, Join, NoNewline, EndsWithNewline, Enabled, Disabled, IsContent;
    AdoptedFacts(text);
    LinesOfFile(Adopted(text).value);
    var lines := LinesOf(Adopted(text).value).value;
    var site := Navigate(lines).value;
    if enabled {
      EnableIsEnabled(lines);
      EnabledFile(lines, site);
    } else if site.sync.Some? && site.sync.value.automated.Some? {
      DisabledIs(lines, site);
      DisabledFile(lines, site);
    }
  }

  // ----- what an edit keeps ---------------------------------------------------------------

  /** The content lines of a file, in order. */
  function ContentLines(lines: seq<string>): seq<string> {
    if lines == [] then []
    else (if IsContent(lines[0]) then [lines[0]] else []) + ContentLines(lines[1..])
  }

  lemma {:induction false} ContentConcat(a: seq<string>, b: seq<string>)
    ensures ContentLines(a + b) == ContentLines(a) + ContentLines(b)
    decreases |a|
  {
    hide IsContent;
    if a == [] {
      assert a + b == b;
    } else {
      assert (a + b)[1..] == a[1..] + b;
      ContentConcat(a[1..], b);
    }
  }

  lemma {:induction false} ContentAll(lines: seq<string>)
    requires forall i :: 0 <= i < |lines| ==> IsContent(lines[i])
    ensures ContentLines(lines) == lines
  {
    hide IsContent;
    if lines != [] {
      ContentAll(lines[1..]);
    }
  }

  /** An enable keeps every content line outside the old automated block, in
      order, and puts exactly the fixed lines in its place; the lines it takes out
      are that block: the automated key and lines indented deeper. */
  lemma EnableKeepsContent(lines: seq<string>, site: Site)
    requires Navigate(lines) == Ok(site)
    ensures var (p, q, added) := EnableEdit(lines, site);
            && ContentLines(lines) == ContentLines(lines[..p]) + ContentLines(lines[p..q]) + ContentLines(lines[q..])
            && ContentLines(Enabled(lines, site)) == ContentLines(lines[..p]) + added + ContentLines(lines[q..])
            && added[|added| - 3..] == Block(BlockIndent(site))
            && (if p == q then site.sync.None? || site.sync.value.automated.None?
                else KeyOf(lines[p]) == Some("automated") && NoOutdent(lines, p + 1, q, IndentOf(lines[p])))
  {
    hide IsContent, KeyOf, IndentOf, Navigate, FindBlock, Block, ContentLines;
    var (p, q, added) := EnableEdit(lines, site);
    AddedContent(lines, site);
    ContentSplice(lines, p, q, added);
    if p != q {
      SyncFacts(lines, site);
      AutomatedKey(lines, site.sync.value.at + 1, site.sync.value.end);
    }
  }

  /** A disable keeps every content line outside the automated block, in order; the only
      other line it can take out is the key of a sync block with no other child. */
  lemma DisableKeepsContent(lines: seq<string>, site: Site)
    requires Navigate(lines) == Ok(site) && site.sync.Some? && site.sync.value.automated.Some?
    ensures LinesWithSyncPolicy(lines, false) == Ok(Disabled(lines, site))
    ensures var sync := site.sync.value;
            var (at, end) := sync.automated.value;
            && sync.at < at < end <= |lines|
            && KeyOf(lines[at]) == Some("automated") && NoOutdent(lines, at + 1, end, IndentOf(lines[at]))
            && ContentLines(Disabled(lines, site))
               == (if sync.children == 1 then ContentLines(lines[..sync.at]) + ContentLines(lines[sync.at + 1..at]) else ContentLines(lines[..at]))
                  + ContentLines(lines[end..])
  {
    hide IsContent, KeyOf, IndentOf, FindBlock, ContentLines, Navigate;
    var sync := site.sync.value;
    var (at, end) := sync.automated.value;
    SyncFacts(lines, site);
    AutomatedKey(lines, sync.at + 1, sync.end);
    DisabledIs(lines, site);
    CutContent(lines, sync.at, at, end);
  }

  lemma DisabledIs(lines: seq<string>, site: Site)
    requires Navigate(lines) == Ok(site) && site.sync.Some? && site.sync.value.automated.Some?
    ensures LinesWithSyncPolicy(lines, false) == Ok(Disabled(lines, site))
  {
    hide Navigate;
  }

  lemma CutContent(lines: seq<string>, key: nat, at: nat, end: nat)
    requires key < at <= end <= |lines|
    ensures var cut := Splice(lines, at, end, []);
            && ContentLines(cut) == ContentLines(lines[..at]) + ContentLines(lines[end..])
            && ContentLines(Splice(cut, key, key + 1, []))
               == ContentLines(lines[..key]) + ContentLines(lines[key + 1..at]) + ContentLines(lines[end..])
  {
    hide IsContent, ContentLines;
    var cut := lines[..at] + lines[end..];
    assert Splice(lines, at, end, []) == cut;
    ContentConcat(lines[..at], lines[end..]);
    assert cut[..key] == lines[..key] && cut[key + 1..] == lines[key + 1..at] + lines[end..];
    assert Splice(cut, key, key + 1, []) == lines[..key] + lines[key + 1..at] + lines[end..];
    ContentConcat3(lines[..key], lines[key + 1..at], lines[end..]);
  }

  lemma ContentSplice(lines: seq<string>, p: nat, q: nat, added: seq<string>)
    requires p <= q <= |lines| && forall i :: 0 <= i < |added| ==> IsContent(added[i])
    ensures ContentLines(lines) == ContentLines(lines[..p]) + ContentLines(lines[p..q]) + ContentLines(lines[q..])
    ensures ContentLines(Splice(lines, p, q, added)) == ContentLines(lines[..p]) + added + ContentLines(lines[q..])
  {
    hide IsContent, ContentLines;
    SliceParts(lines, p, q);
    ContentConcat3(lines[..p], lines[p..q], lines[q..]);
    ContentConcat3(lines[..p], added, lines[q..]);
    ContentAll(added);
  }

  lemma SliceParts(lines: seq<string>, p: nat, q: nat)
    requires p <= q <= |lines|
    ensures lines == lines[..p] + lines[p..q] + lines[q..]
  {
  }

  lemma ContentConcat3(a: seq<string>, b: seq<string>, c: seq<string>)
    ensures ContentLines(a + b + c) == ContentLines(a) + ContentLines(b) + ContentLines(c)
  {
    hide ContentLines;
    ContentConcat(a + b, c);
    ContentConcat(a, b);
  }

  lemma AddedContent(lines: seq<string>, site: Site)
    requires Navigate(lines) == Ok(site)
    ensures var added := EnableEdit(lines, site).2;
            (forall i :: 0 <= i < |added| ==> IsContent(added[i])) && |added| >= 3
            && added[|added| - 3..] == Block(BlockIndent(site))
  {
    hide IsContent, Navigate, Block, SyncLine, Anchor;
    var b := BlockIndent(site);
    if site.sync.None? {
      assert EnableEdit(lines, site).2 == [SyncLine(site.specIndent)] + Block(b);
      FreshLinesContent(site.specIndent);
    } else {
      assert EnableEdit(lines, site).2 == Block(b);
      BlockContent(b);
    }
  }

  lemma BlockContent(indent: nat)
    ensures (forall i :: 0 <= i < 3 ==> IsContent(Block(indent)[i])) && Block(indent)[0..] == Block(indent)
  {
    hide IsContent, IndentOf, KeyOf, IsSeparator;
    BlockLines(indent);
  }

  lemma FreshLinesContent(indent: nat)
    ensures var added := [SyncLine(indent)] + Block(indent + 2);
            (forall i :: 0 <= i < 4 ==> IsContent(added[i])) && added[1..] == Block(indent + 2)
  {
    hide IsContent, IndentOf, KeyOf, IsSeparator, KeysAt;
    SyncLineFacts(indent);
  }

  lemma AutomatedKey(lines: seq<string>, lo: nat, hi: nat)
    requires lo <= hi <= |lines| && FindBlock(lines, lo, hi, "automated").Ok?
    requires FindBlock(lines, lo, hi, "automated").value.found.Some?
    ensures var (a, e) := FindBlock(lines, lo, hi, "automated").value.found.value;
            KeyOf(lines[a]) == Some("automated") && NoOutdent(lines, a + 1, e, IndentOf(lines[a]))
  {
    hide IsContent, IndentOf, KeyOf, KeysAt, ChildIndent, FirstDuplicate, IndexOfKey, FindBlock;
    FoundFacts(lines, lo, hi, "automated");
    var level := FindBlock(lines, lo, hi, "automated").value;
    var k :| 0 <= k < |level.entries| && level.entries[k] == Entry(level.found.value.0, "automated");
    KeysAtFacts(lines, lo, hi, level.indent);
    assert IsEntry(lines, lo, hi, level.indent, level.entries[k]);
  }

  // ----- a manifest the editor cannot take twice ----------------------------------------------

  /** The automated key is the last content line of the file. */
  function LastBlock(): (lines: seq<string>)
    ensures |lines| == 5
  {
    [MARKER_COMMENT, Pad(0) + "spec" + ":" + "", SyncLine(2), Block(4)[0], ""]
  }

  lemma LastBlockLines()
    ensures var lines := LastBlock();
            && !IsContent(lines[0]) && !IsContent(lines[4])
            && IsContent(lines[1]) && IndentOf(lines[1]) == 0 && KeyOf(lines[1]) == Some("spec")
            && IsContent(lines[2]) && IndentOf(lines[2]) == 2 && KeyOf(lines[2]) == Some("syncPolicy")
            && IsContent(lines[3]) && IndentOf(lines[3]) == 4 && KeyOf(lines[3]) == Some("automated")
            && NoSeparator(lines) && IsFile(lines)
  {
    hide IsContent, IndentOf, KeyOf, IsSeparator, NoNewline;
    MarkerLine();
    NotSeparator(MARKER_COMMENT, 0) by {
      assert MARKER_COMMENT[0] == '#';
      SkipSpacesIs(MARKER_COMMENT, 0, 0);
    }
    EmptyIsNotContent();
    PlainLines();
    assert forall i :: 0 <= i < |"spec"| ==> IsAlnum("spec"[i]);
    KeyLine(0, "spec", "");
    SyncLineFacts(2);
    assert ([SyncLine(2)] + Block(4))[0] == SyncLine(2);
    BlockLines(4);
    BlockClean(2);
    BlockClean(4);
  }

  lemma PlainLines()
    ensures !IsSeparator("") && NoNewline("")
    ensures NoNewline(Pad(0) + "spec" + ":" + "") && '\r' !in Pad(0) + "spec" + ":" + ""
  {
    assert Pad(0) == "";
  }

  lemma OneKey(lines: seq<string>, at: nat, hi: nat, key: string)
    requires at < hi <= |lines| && IsContent(lines[at]) && KeyOf(lines[at]) == Some(key)
    requires forall i :: at < i < hi ==> !IsContent(lines[i]) || IndentOf(lines[i]) > IndentOf(lines[at])
    ensures FindBlock(lines, at, hi, key) == Ok(Level(IndentOf(lines[at]), [Entry(at, key)], Some((at, hi))))
  {
    hide IsContent, IndentOf, KeyOf;
    var indent := IndentOf(lines[at]);
    KeysAtNone(lines, at + 1, hi, indent);
    assert [Entry(at, key)] + [] == [Entry(at, key)];
    assert KeysAt(lines, at, hi, indent) == Ok([Entry(at, key)]);
    assert FirstDuplicate([Entry(at, key)], {}) == None;
    assert LineOf([Entry(at, key)], key) == Some(at);
    assert ChildIndent(lines, at, hi) == indent;
    assert NoOutdent(lines, at + 1, hi, indent);
    assert Outdent(lines, at + 1, indent, hi) == hi;
  }

  lemma LastBlockSite()
    ensures Navigate(LastBlock()) == Ok(Site(1, 5, 2, Some(Sync(2, 5, 4, 1, Some((3, 5))))))
  {
    hide IsContent, IndentOf, KeyOf, IsSeparator, LastBlock;
    var lines := LastBlock();
    LastBlockLines();
    OneKey(lines, 1, 5, "spec");
    assert KeysAt(lines, 0, 5, 0) == KeysAt(lines, 1, 5, 0) && ChildIndent(lines, 0, 5) == ChildIndent(lines, 1, 5);
    OneKey(lines, 2, 5, "syncPolicy");
    OneKey(lines, 3, 5, "automated");
  }

  /** The first edit of such a manifest takes its final newline, the second refuses the
      result: so for both policies. */
  lemma LastBlockFails(enabled: bool)
    ensures var once := WithSyncPolicy(Join(LastBlock()), enabled);
            && once.Ok? && !EndsWithNewline(once.value)
            && WithSyncPolicy(once.value, enabled) == Err(NoFinalNewline)
  {
    hide IsContent, Navigate, Join, NoNewline, EndsWithNewline, Enabled, Disabled;
    var lines := LastBlock();
    LastBlockLines();
    LastBlockSite();
    LinesOfJoin(lines);
    assert Adopted(Join(lines)) == Ok(Join(lines));
    var site := Navigate(lines).value;
    if enabled {
      EnableIsEnabled(lines);
      EnabledFile(lines, site);
      assert BlockStart(lines, site) + 3 == |Enabled(lines, site)| by {
        EnabledSplice(lines, site);
      }
    } else {
      DisabledIs(lines, site);
      DisabledFile(lines, site);
    }
  }
}
