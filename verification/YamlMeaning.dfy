/** Where a locator and the sync-policy lookups end up in a file: the keys above a line, told
    from indentation alone. */
module YamlMeaning {
  import opened Results
  import opened YamlLines
  import opened SyncPolicy
  import UnifiedLeaves

  // ----- blocks, by indentation ---------------------------------------------------------------

  /** The line is a key line with this key. */
  predicate IsKeyLine(lines: seq<string>, i: nat, key: string) {
    i < |lines| && IsContent(lines[i]) && KeyOf(lines[i]) == Some(key)
  }

  /** The later line lies in the block of the earlier one: no content line between them, nor
      itself, is indented as little as the earlier. */
  ghost predicate Within(lines: seq<string>, above: nat, i: nat) {
    above < i < |lines| && forall j :: above < j <= i && IsContent(lines[j]) ==> IndentOf(lines[j]) > IndentOf(lines[above])
  }

  /** Key lines one inside the other that spell the keys, the last of them line i. */
  ghost predicate Chain(lines: seq<string>, keys: seq<string>, at: seq<nat>, i: nat) {
    && keys != [] && |at| == |keys| && at[|at| - 1] == i
    && (forall k :: 0 <= k < |keys| ==> IsKeyLine(lines, at[k], keys[k]))
    && forall k :: 0 <= k < |at| - 1 ==> Within(lines, at[k], at[k + 1])
  }

  lemma ChainOne(lines: seq<string>, key: string, i: nat)
    requires IsKeyLine(lines, i, key)
    ensures Chain(lines, [key], [i], i)
  {
    hide IsContent, KeyOf;
  }

  lemma ChainCons(lines: seq<string>, key: string, above: nat, keys: seq<string>, at: seq<nat>, i: nat)
    requires Chain(lines, keys, at, i) && IsKeyLine(lines, above, key) && Within(lines, above, at[0])
    ensures Chain(lines, [key] + keys, [above] + at, i)
  {
    hide IsKeyLine, Within;
    var all := [above] + at;
    assert forall k :: 1 <= k < |all| ==> all[k] == at[k - 1] && ([key] + keys)[k] == keys[k - 1];
    assert forall k :: 0 <= k < |all| - 1 ==> Within(lines, all[k], all[k + 1]);
  }

  /** The locator is spelled by the keys of some chain to the line. */
  ghost predicate Spells(lines: seq<string>, keys: seq<string>, at: seq<nat>, lo: nat, hi: nat, dotted: string, i: nat) {
    Chain(lines, keys, at, i) && UnifiedLeaves.JoinDots(keys) == dotted && lo <= at[0] < hi
  }

  /** Lines of a block are within its key line. */
  lemma BlockWithin(lines: seq<string>, entry: nat, hi: nat, i: nat)
    requires entry < hi <= |lines| && entry < i < BlockEndOf(lines, entry, IndentOf(lines[entry]), hi)
    ensures Within(lines, entry, i)
  {
    hide IsContent, IndentOf;
  }

  lemma {:induction false} LocateSpells(lines: seq<string>, lo: nat, hi: nat, dotted: string) returns (keys: seq<string>, at: seq<nat>)
    requires lo <= hi <= |lines| && Locate(lines, lo, hi, dotted).Ok?
    ensures Spells(lines, keys, at, lo, hi, dotted, Locate(lines, lo, hi, dotted).value)
    decreases hi - lo
  {
    hide NextStep, IsContent, IndentOf, KeyOf, ChildIndent, Chain, BlockEndOf;
    StepFacts(lines, lo, hi, dotted);
    match NextStep(lines, lo, hi, dotted).value {
      case Here(entry) =>
        keys, at := [entry.key], [entry.index];
        ChainOne(lines, entry.key, entry.index);
      case Down(entry, end) =>
        var rest, below := LocateSpells(lines, entry.index + 1, end, Below(dotted, entry.key));
        ChainNonEmpty(lines, rest, below, Locate(lines, lo, hi, dotted).value);
        BlockWithin(lines, entry.index, hi, below[0]);
        ChainCons(lines, entry.key, entry.index, rest, below, Locate(lines, lo, hi, dotted).value);
        keys, at := [entry.key] + rest, [entry.index] + below;
        assert keys[1..] == rest;
        assert dotted == entry.key + "." + Below(dotted, entry.key);
    }
  }

  lemma ChainNonEmpty(lines: seq<string>, keys: seq<string>, at: seq<nat>, i: nat)
    requires Chain(lines, keys, at, i)
    ensures keys != [] && at != []
  {
    hide IsKeyLine, Within;
  }

  /** A resolved locator names a line whose own key and the keys it is nested under spell the
      locator. */
  lemma LocateMeans(lines: seq<string>, dotted: string)
    requires Locate(lines, 0, |lines|, dotted).Ok?
    ensures exists keys, at :: Spells(lines, keys, at, 0, |lines|, dotted, Locate(lines, 0, |lines|, dotted).value)
  {
    hide Locate, Spells;
    var keys, at := LocateSpells(lines, 0, |lines|, dotted);
  }

  // ----- the sync policy's keys ---------------------------------------------------------------------

  /** No key line of the block at this indentation has the key, before the block falls back to
      a smaller one. */
  ghost predicate NoKeyAt(lines: seq<string>, lo: nat, hi: nat, indent: int, key: string) {
    forall i :: lo <= i < hi && i < |lines| && IsContent(lines[i]) && IndentOf(lines[i]) == indent && KeyOf(lines[i]) == Some(key) ==>
      exists j :: lo <= j < i && IsContent(lines[j]) && IndentOf(lines[j]) < indent
  }

  lemma {:induction false} KeysComplete(lines: seq<string>, lo: nat, hi: nat, indent: int, key: string)
    requires lo <= hi <= |lines| && KeysAt(lines, lo, hi, indent).Ok?
    requires forall k :: 0 <= k < |KeysAt(lines, lo, hi, indent).value| ==> KeysAt(lines, lo, hi, indent).value[k].key != key
    ensures NoKeyAt(lines, lo, hi, indent, key)
    decreases hi - lo
  {
    hide IsContent, IndentOf, KeyOf;
    if lo < hi {
      if !IsContent(lines[lo]) || IndentOf(lines[lo]) > indent {
        KeysComplete(lines, lo + 1, hi, indent, key);
        FromNext(lines, lo, hi, indent, key);
      } else if IndentOf(lines[lo]) < indent {
        FallsBack(lines, lo, hi, indent, key);
      } else {
        var all := KeysAt(lines, lo, hi, indent).value;
        var rest := KeysAt(lines, lo + 1, hi, indent).value;
        assert all[0].key != key;
        forall k | 0 <= k < |rest| ensures rest[k].key != key {
          assert all[k + 1] == rest[k];
        }
        KeysComplete(lines, lo + 1, hi, indent, key);
        FromNext(lines, lo, hi, indent, key);
      }
    }
  }

  lemma FallsBack(lines: seq<string>, lo: nat, hi: nat, indent: int, key: string)
    requires lo < hi <= |lines| && IsContent(lines[lo]) && IndentOf(lines[lo]) < indent
    ensures NoKeyAt(lines, lo, hi, indent, key)
  {
    hide IsContent, IndentOf, KeyOf;
    forall i | lo <= i < hi && IsContent(lines[i]) && IndentOf(lines[i]) == indent && KeyOf(lines[i]) == Some(key)
      ensures exists j :: lo <= j < i && IsContent(lines[j]) && IndentOf(lines[j]) < indent
    {
      assert i != lo && IsContent(lines[lo]);
    }
  }

  lemma FromNext(lines: seq<string>, lo: nat, hi: nat, indent: int, key: string)
    requires lo < hi <= |lines| && NoKeyAt(lines, lo + 1, hi, indent, key)
    requires !(IsContent(lines[lo]) && IndentOf(lines[lo]) == indent && KeyOf(lines[lo]) == Some(key))
    ensures NoKeyAt(lines, lo, hi, indent, key)
  {
    hide IsContent, IndentOf, KeyOf;
    forall i | lo <= i < hi && IsContent(lines[i]) && IndentOf(lines[i]) == indent && KeyOf(lines[i]) == Some(key)
      ensures exists j :: lo <= j < i && IsContent(lines[j]) && IndentOf(lines[j]) < indent
    {
      assert i > lo;
      var j :| lo + 1 <= j < i && IsContent(lines[j]) && IndentOf(lines[j]) < indent;
      assert IsContent(lines[j]);
    }
  }

  lemma FoundKey(lines: seq<string>, lo: nat, hi: nat, key: string)
    requires lo <= hi <= |lines| && FindBlock(lines, lo, hi, key).Ok?
    ensures var level := FindBlock(lines, lo, hi, key).value;
            if level.found.Some? then
              var (at, end) := level.found.value;
              && IsKeyLine(lines, at, key) && IndentOf(lines[at]) == level.indent
              && (forall i :: at < i < end ==> Within(lines, at, i))
              && (end < hi ==> IsContent(lines[end]) && IndentOf(lines[end]) <= level.indent)
            else NoKeyAt(lines, lo, hi, level.indent, key)
  {
    hide IsContent, IndentOf, KeyOf, FirstDuplicate;
    var (indent, entries) := ChildrenOf(lines, lo, hi).value;
    KeysAtFacts(lines, lo, hi, indent);
    if LineOf(entries, key).Some? {
      var at := LineOf(entries, key).value;
      forall i | at < i < BlockEndOf(lines, at, indent, hi) ensures Within(lines, at, i) {
        BlockWithin(lines, at, hi, i);
      }
    } else {
      KeysComplete(lines, lo, hi, indent, key);
    }
  }

  /** The lookups of the sync policy find the key spec, the key syncPolicy within it and the key
      automated within that, or say that the last of them is not there. */
  lemma NavigateMeans(lines: seq<string>)
    requires Navigate(lines).Ok?
    ensures var site := Navigate(lines).value;
            && IsKeyLine(lines, site.spec, "spec")
            && (site.sync.None? ==> NoKeyAt(lines, site.spec + 1, site.specEnd, site.specIndent, "syncPolicy"))
            && (site.sync.Some? ==>
                  && IsKeyLine(lines, site.sync.value.at, "syncPolicy") && Within(lines, site.spec, site.sync.value.at)
                  && IndentOf(lines[site.sync.value.at]) == site.specIndent
                  && (match site.sync.value.automated
                      case None => NoKeyAt(lines, site.sync.value.at + 1, site.sync.value.end, site.sync.value.indent, "automated")
                      case Some((at, end)) =>
                        && IsKeyLine(lines, at, "automated") && Within(lines, site.sync.value.at, at)
                        && IndentOf(lines[at]) == site.sync.value.indent
                        && forall i :: at < i < end ==> Within(lines, at, i)))
  {
    hide FindBlock, IsKeyLine, Within, NoKeyAt, IsSeparator, IndentOf;
    FoundKey(lines, 0, |lines|, "spec");
    var (spec, specEnd) := FindBlock(lines, 0, |lines|, "spec").value.found.value;
    FoundKey(lines, spec + 1, specEnd, "syncPolicy");
    if FindBlock(lines, spec + 1, specEnd, "syncPolicy").value.found.Some? {
      var (at, end) := FindBlock(lines, spec + 1, specEnd, "syncPolicy").value.found.value;
      FoundKey(lines, at + 1, end, "automated");
    }
  }
}
