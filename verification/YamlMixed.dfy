/** A dotted scalar and the top-level key in one file (patch.py: set_yaml_scalar and
    set_top_level_scalar): when the key's insertion leaves a locator on its line. */
module YamlMixed {
  import opened Results
  import opened Text
  import opened YamlLines
  import opened YamlScalars
  import opened YamlLens
  import opened YamlTopLevel
  import opened YamlSplice

  // ----- locators in a moved block --------------------------------------------------------

  lemma {:induction false} SameIndex(a: seq<Entry>, b: seq<Entry>, key: string)
    requires KeysOf(a) == KeysOf(b)
    ensures IndexOfKey(a, key) == IndexOfKey(b, key)
  {
    if a != [] {
      assert KeysOf(a)[0] == KeysOf(b)[0];
      SameRest(a, b);
      SameIndex(a[1..], b[1..], key);
    }
  }

  lemma SameRest(a: seq<Entry>, b: seq<Entry>)
    requires KeysOf(a) == KeysOf(b) && a != []
    ensures |a| == |b| && KeysOf(a[1..]) == KeysOf(b[1..])
  {
    assert KeysOf(a[1..]) == KeysOf(a)[1..];
    assert KeysOf(b[1..]) == KeysOf(b)[1..];
  }

  lemma {:induction false} SamePrefix(a: seq<Entry>, b: seq<Entry>, dotted: string)
    requires KeysOf(a) == KeysOf(b)
    ensures LongestPrefix(a, dotted) == LongestPrefix(b, dotted)
  {
    hide Extends;
    if a != [] {
      assert KeysOf(a)[0] == KeysOf(b)[0];
      SameRest(a, b);
      SamePrefix(a[1..], b[1..], dotted);
      var later := LongestPrefix(a[1..], dotted);
      if later.Some? {
        assert KeysOf(a[1..])[later.value] == KeysOf(b[1..])[later.value];
      }
    }
  }

  /** An entry of a moved block, where it is now. */
  function MovedEntry(e: Entry, from: nat, to: nat): Entry
    requires e.index >= from
  {
    Entry(e.index - from + to, e.key)
  }

  lemma ChooseMoved(entries: seq<Entry>, from: nat, to: nat, dotted: string)
    requires forall k :: 0 <= k < |entries| ==> entries[k].index >= from
    ensures Choose(entries, dotted).Ok? ==> Choose(entries, dotted).value.0.index >= from
    ensures Choose(Moved(entries, from, to), dotted) ==
            match Choose(entries, dotted)
            case Ok((e, deeper)) => Ok((MovedEntry(e, from, to), deeper))
            case Err(error) => Err(error)
  {
    hide Extends, IndexOfKey, LongestPrefix;
    var moved := Moved(entries, from, to);
    assert KeysOf(moved) == KeysOf(entries);
    SameIndex(entries, moved, dotted);
    SamePrefix(entries, moved, dotted);
  }

  lemma SameDuplicate(a: seq<Entry>, b: seq<Entry>)
    requires KeysOf(a) == KeysOf(b)
    ensures FirstDuplicate(a, {}).None? <==> FirstDuplicate(b, {}).None?
  {
    DuplicateByKeys(a);
    DuplicateByKeys(b);
  }

  predicate AllDistinct(keys: seq<string>) {
    forall j, k :: 0 <= j < k < |keys| ==> keys[j] != keys[k]
  }

  lemma DuplicateByKeys(entries: seq<Entry>)
    ensures FirstDuplicate(entries, {}).None? <==> AllDistinct(KeysOf(entries))
  {
    FirstDuplicateNone(entries, {});
    var keys := KeysOf(entries);
    assert forall k :: 0 <= k < |entries| ==> keys[k] == entries[k].key;
    hide FirstDuplicate;
    if AllDistinct(keys) {
      assert forall j, k :: 0 <= j < k < |entries| ==> entries[j].key != entries[k].key by {
        forall j, k | 0 <= j < k < |entries| ensures entries[j].key != entries[k].key {
          assert keys[j] != keys[k];
        }
      }
    }
  }

  lemma DistinctCons(key: string, keys: seq<string>)
    requires key !in keys
    ensures AllDistinct([key] + keys) <==> AllDistinct(keys)
  {
    var all := [key] + keys;
    if AllDistinct(all) {
      forall j, k | 0 <= j < k < |keys| ensures keys[j] != keys[k] {
        assert all[j + 1] == keys[j] && all[k + 1] == keys[k];
      }
    }
  }

  lemma AgreeBack(a: seq<string>, lo: nat, hi: nat, b: seq<string>, at: nat)
    requires lo <= hi <= |a| && Agree(a, lo, hi, b, at)
    ensures Agree(b, at, at + (hi - lo), a, lo)
  {
  }

  lemma KeysAtMovedIff(a: seq<string>, lo: nat, hi: nat, b: seq<string>, at: nat, indent: int)
    requires lo <= hi <= |a| && Agree(a, lo, hi, b, at)
    ensures KeysAt(a, lo, hi, indent).Ok? <==> KeysAt(b, at, at + (hi - lo), indent).Ok?
    ensures KeysAt(a, lo, hi, indent).Ok? ==>
              && (forall k :: 0 <= k < |KeysAt(a, lo, hi, indent).value| ==> KeysAt(a, lo, hi, indent).value[k].index >= lo)
              && KeysAt(b, at, at + (hi - lo), indent) == Ok(Moved(KeysAt(a, lo, hi, indent).value, lo, at))
  {
    hide KeysAt;
    if KeysAt(a, lo, hi, indent).Ok? {
      KeysAtMoved(a, lo, hi, b, at, indent);
    }
    if KeysAt(b, at, at + (hi - lo), indent).Ok? {
      AgreeBack(a, lo, hi, b, at);
      KeysAtMoved(b, at, at + (hi - lo), a, lo, indent);
    }
  }

  /** A step in a moved block is the same step, moved. */
  lemma StepMoved(a: seq<string>, lo: nat, hi: nat, b: seq<string>, at: nat, dotted: string)
    requires lo <= hi <= |a| && Agree(a, lo, hi, b, at)
    ensures NextStep(a, lo, hi, dotted).Ok? <==> NextStep(b, at, at + (hi - lo), dotted).Ok?
    ensures NextStep(a, lo, hi, dotted).Ok? ==>
              match NextStep(a, lo, hi, dotted).value
              case Here(e) => NextStep(b, at, at + (hi - lo), dotted) == Ok(Here(MovedEntry(e, lo, at)))
              case Down(e, end) => NextStep(b, at, at + (hi - lo), dotted) == Ok(Down(MovedEntry(e, lo, at), end - lo + at))
  {
    hide KeysAt, ChildIndent, Outdent, Choose, FirstDuplicate, Agree;
    var indent := ChildIndent(a, lo, hi);
    ScansMoved(a, lo, hi, b, at, indent);
    KeysAtMovedIff(a, lo, hi, b, at, indent);
    if KeysAt(a, lo, hi, indent).Ok? {
      var entries := KeysAt(a, lo, hi, indent).value;
      assert KeysOf(Moved(entries, lo, at)) == KeysOf(entries);
      SameDuplicate(entries, Moved(entries, lo, at));
      ChooseMoved(entries, lo, at, dotted);
      if NextStep(a, lo, hi, dotted).Ok? && NextStep(a, lo, hi, dotted).value.Down? {
        var e := NextStep(a, lo, hi, dotted).value.entry;
        AgreePart(a, lo, hi, b, at, e.index + 1, hi);
        ScansMoved(a, e.index + 1, hi, b, e.index + 1 - lo + at, indent);
      }
    }
  }

  lemma AgreePart(a: seq<string>, lo: nat, hi: nat, b: seq<string>, at: nat, from: nat, to: nat)
    requires lo <= from <= to <= hi <= |a| && Agree(a, lo, hi, b, at)
    ensures Agree(a, from, to, b, from - lo + at)
  {
    forall i | from <= i < to ensures b[from - lo + at + (i - from)] == a[i] {
      assert b[at + (i - lo)] == a[i];
    }
  }

  lemma {:induction false} LocateMoved(a: seq<string>, lo: nat, hi: nat, b: seq<string>, at: nat, dotted: string)
    requires lo <= hi <= |a| && Agree(a, lo, hi, b, at)
    ensures Locate(a, lo, hi, dotted).Ok? <==> Locate(b, at, at + (hi - lo), dotted).Ok?
    ensures Locate(a, lo, hi, dotted).Ok? ==>
              Locate(a, lo, hi, dotted).value >= lo
              && Locate(b, at, at + (hi - lo), dotted).value == Locate(a, lo, hi, dotted).value - lo + at
    decreases hi - lo
  {
    hide NextStep, Agree;
    StepMoved(a, lo, hi, b, at, dotted);
    match NextStep(a, lo, hi, dotted) {
      case Ok(Down(e, end)) =>
        AgreePart(a, lo, hi, b, at, e.index + 1, end);
        LocateMoved(a, e.index + 1, end, b, e.index + 1 - lo + at, Below(dotted, e.key));
      case _ =>
    }
  }

  // ----- where a located line lies ----------------------------------------------------------

  /** No line before a located one ends the scan of the block, and the line is at the
      block's indentation or deeper. */
  lemma LocatedInBlock(lines: seq<string>, lo: nat, hi: nat, dotted: string)
    requires lo <= hi <= |lines| && Locate(lines, lo, hi, dotted).Ok?
    ensures var i := Locate(lines, lo, hi, dotted).value;
            var indent := ChildIndent(lines, lo, hi);
            && lo <= i < hi && indent >= 0 && IndentOf(lines[i]) >= indent && NoBreak(lines, lo, i + 1, indent)
            && (IndentOf(lines[i]) == indent ==> KeyOf(lines[i]) == Some(dotted))
  {
    hide KeysAt, IsContent, IndentOf, KeyOf, ChildIndent, Choose, FirstDuplicate;
    LocateFacts(lines, lo, hi, dotted);
    StepFacts(lines, lo, hi, dotted);
    var indent := ChildIndent(lines, lo, hi);
    var entries := KeysAt(lines, lo, hi, indent).value;
    var entry := NextStep(lines, lo, hi, dotted).value.entry;
    var k :| 0 <= k < |entries| && entries[k] == entry;
    FoundNoBreak(lines, lo, hi, indent, k);
    if NextStep(lines, lo, hi, dotted).value.Down? {
      DownFacts(lines, lo, hi, dotted);
    }
  }

  // ----- the inserted key ----------------------------------------------------------------------

  /** The file below its marker, with the key inserted. */
  function Inserted(lines: seq<string>, key: string, rendered: string): seq<string>
    requires lines != []
  {
    lines[..1] + [key + ": " + rendered] + lines[1..]
  }

  predicate IsMarked(lines: seq<string>) {
    lines != [] && !IsContent(lines[0])
  }

  /** What is known of the inserted line and of the moved ones. */
  lemma InsertedFacts(lines: seq<string>, key: string, rendered: string)
    requires IsMarked(lines) && IsBareKey(key) && IsPlain(rendered)
    ensures var lines' := Inserted(lines, key, rendered);
            && |lines'| == |lines| + 1 && lines'[0] == lines[0]
            && IsContent(lines'[1]) && IndentOf(lines'[1]) == 0 && KeyOf(lines'[1]) == Some(key)
            && Agree(lines, 1, |lines|, lines', 2)
            && ChildIndent(lines', 0, |lines'|) == 0
            && ChildIndent(lines, 0, |lines|) == ChildIndent(lines, 1, |lines|)
  {
    hide IsContent, KeyOf, IsBareKey, IsPlain;
    InsertedLine(key, rendered);
    var lines' := Inserted(lines, key, rendered);
    assert lines'[1] == key + ": " + rendered;
    assert lines'[0] == lines[0];
    assert ChildIndent(lines', 0, |lines'|) == ChildIndent(lines', 1, |lines'|);
  }

  /** The key does not stand at top level. */
  ghost predicate NoTopKey(lines: seq<string>, key: string) {
    forall i :: 0 <= i < |lines| ==> !IsTopLevelKey(lines[i], key)
  }

  lemma TopKeyIndent(line: string, key: string)
    ensures IsTopLevelKey(line, key) <==> IsContent(line) && IndentOf(line) == 0 && KeyOf(line) == Some(key)
  {
    hide IsContent, KeyOf;
    assert IsContent(line) ==> line != "" by {
      EmptyIsNotContent();
    }
  }

  /** The entries of a file whose keys stand at column zero, before and after. */
  lemma TopEntries(lines: seq<string>, key: string, rendered: string) returns (entries: Result<seq<Entry>, PatchError>)
    requires IsMarked(lines) && IsBareKey(key) && IsPlain(rendered) && ChildIndent(lines, 0, |lines|) <= 0
    ensures entries == KeysAt(lines, 1, |lines|, 0)
    ensures KeysAt(lines, 0, |lines|, ChildIndent(lines, 0, |lines|)) == entries
    ensures var lines' := Inserted(lines, key, rendered);
            && KeysAt(lines', 0, |lines'|, 0).Ok? == entries.Ok?
            && (entries.Ok? ==>
                  && (forall k :: 0 <= k < |entries.value| ==> entries.value[k].index >= 1)
                  && KeysAt(lines', 0, |lines'|, 0) == Ok(WithKey(entries.value, key)))
  {
    hide IsContent, IndentOf, KeyOf, IsBareKey, IsPlain;
    InsertedFacts(lines, key, rendered);
    entries := KeysAt(lines, 1, |lines|, 0);
    if ChildIndent(lines, 0, |lines|) == -1 {
      ChildIndentNone(lines, 0, |lines|);
      assert NoOutdent(lines, 1, |lines|, 0);
      KeysAtNone(lines, 1, |lines|, 0);
      assert NoOutdent(lines, 0, |lines|, -1);
      KeysAtNone(lines, 0, |lines|, -1);
    }
    KeysAtMovedIff(lines, 1, |lines|, Inserted(lines, key, rendered), 2, 0);
  }

  /** The entries once the key stands in front. */
  function WithKey(entries: seq<Entry>, key: string): (all: seq<Entry>)
    requires forall k :: 0 <= k < |entries| ==> entries[k].index >= 1
    ensures |all| == |entries| + 1 && all[0] == Entry(1, key) && all[1..] == Moved(entries, 1, 2)
    ensures forall k :: 0 < k < |all| ==> all[k].key == entries[k - 1].key
  {
    [Entry(1, key)] + Moved(entries, 1, 2)
  }

  lemma KeysWithKey(entries: seq<Entry>, key: string)
    requires forall k :: 0 <= k < |entries| ==> entries[k].index >= 1
    ensures KeysOf(WithKey(entries, key)) == [key] + KeysOf(entries)
  {
    hide WithKey, Moved;
    var all := WithKey(entries, key);
    forall k | 0 <= k < |all| ensures KeysOf(all)[k] == ([key] + KeysOf(entries))[k] {
    }
  }

  lemma NewKeyDuplicate(entries: seq<Entry>, key: string)
    requires key !in KeysOf(entries) && forall k :: 0 <= k < |entries| ==> entries[k].index >= 1
    ensures FirstDuplicate(WithKey(entries, key), {}).None? <==> FirstDuplicate(entries, {}).None?
  {
    hide FirstDuplicate, AllDistinct, WithKey, KeysOf;
    KeysWithKey(entries, key);
    DuplicateByKeys(entries);
    DuplicateByKeys(WithKey(entries, key));
    DistinctCons(key, KeysOf(entries));
  }

  /** Two keys that a locator extends are nested prefixes: the shorter is followed by a dot. */
  lemma NoShorterPrefix(dotted: string, key: string, other: string)
    requires Extends(dotted, key) && Extends(dotted, other) && '.' !in key && |other| <= |key|
    ensures other == key
  {
    assert dotted[|other|] == '.';
    assert forall i :: 0 <= i < |key| ==> dotted[i] == key[i] && key[i] in key;
    assert |other| == |key|;
    assert other == dotted[..|other|] && key == dotted[..|key|];
  }

  /** With the new key in front, the same entry is chosen, or the new key in place of none. */
  ghost predicate ChosenAlike(entries: seq<Entry>, key: string, dotted: string)
    requires forall k :: 0 <= k < |entries| ==> entries[k].index >= 1
  {
    var after := Choose(WithKey(entries, key), dotted);
    match Choose(entries, dotted)
    case Ok((e, deeper)) => e.index >= 1 && after == Ok((MovedEntry(e, 1, 2), deeper))
    case Err(_) => after.Err? || after == Ok((Entry(1, key), true))
  }

  lemma ChooseNew(entries: seq<Entry>, key: string, dotted: string)
    requires key !in KeysOf(entries) && '.' !in key && dotted != key && forall k :: 0 <= k < |entries| ==> entries[k].index >= 1
    ensures ChosenAlike(entries, key, dotted)
  {
    hide Extends, IndexOfKey, LongestPrefix;
    ChooseMoved(entries, 1, 2, dotted);
    FirstIndex(WithKey(entries, key), dotted);
    PrefixNew(entries, key, dotted);
  }

  lemma FirstIndex(all: seq<Entry>, dotted: string)
    requires all != [] && all[0].key != dotted
    ensures IndexOfKey(all, dotted) == match IndexOfKey(all[1..], dotted) case Some(k) => Some(k + 1) case None => None
  {
  }

  lemma PrefixFirst(all: seq<Entry>, dotted: string)
    requires all != []
    requires forall i :: 0 < i < |all| && Extends(dotted, all[i].key) && Extends(dotted, all[0].key) ==> |all[i].key| > |all[0].key|
    ensures LongestPrefix(all, dotted) == match LongestPrefix(all[1..], dotted)
                                          case Some(k) => Some(k + 1)
                                          case None => if Extends(dotted, all[0].key) then Some(0) else None
  {
    hide Extends;
    var later := LongestPrefix(all[1..], dotted);
    if later.Some? {
      assert all[1..][later.value] == all[later.value + 1];
    }
  }

  lemma PrefixNew(entries: seq<Entry>, key: string, dotted: string)
    requires key !in KeysOf(entries) && '.' !in key && forall k :: 0 <= k < |entries| ==> entries[k].index >= 1
    ensures var later := LongestPrefix(Moved(entries, 1, 2), dotted);
            var all := LongestPrefix(WithKey(entries, key), dotted);
            if later.Some? then all == Some(later.value + 1) else all.None? || all == Some(0)
  {
    hide Extends, LongestPrefix, WithKey, Moved;
    var all := WithKey(entries, key);
    forall i | 0 < i < |all| && Extends(dotted, all[i].key) && Extends(dotted, all[0].key) ensures |all[i].key| > |all[0].key| {
      assert KeysOf(entries)[i - 1] == all[i].key;
      if |all[i].key| <= |key| {
        NoShorterPrefix(dotted, key, all[i].key);
      }
    }
    PrefixFirst(all, dotted);
  }

  /** Below the new key there is nothing when the other keys stand at column zero. */
  lemma NothingBelow(lines: seq<string>, key: string, rendered: string, dotted: string)
    requires IsMarked(lines) && IsBareKey(key) && IsPlain(rendered) && ChildIndent(lines, 0, |lines|) <= 0
    ensures var lines' := Inserted(lines, key, rendered);
            Locate(lines', 2, Outdent(lines', 2, 0, |lines'|), dotted).Err?
  {
    hide IsContent, IndentOf, KeyOf, IsBareKey, IsPlain;
    InsertedFacts(lines, key, rendered);
    var lines' := Inserted(lines, key, rendered);
    var n, end := |lines'|, Outdent(lines', 2, 0, |lines'|);
    ScansMoved(lines, 1, |lines|, lines', 2, 0);
    assert NoContent(lines', 2, end) by {
      ChildIndentNone(lines', 2, n);
      if ChildIndent(lines', 2, n) == 0 {
        var c := ChildIndentFirst(lines', 2, n);
        assert end <= c;
      }
    }
    ChildIndentNone(lines', 2, end);
    assert NoOutdent(lines', 2, end, -1);
    KeysAtNone(lines', 2, end, -1);
  }

  /** Insertion above keys at column zero: every other locator resolves one line further
      down, or fails as before. */
  lemma LocateBelowKey(lines: seq<string>, key: string, rendered: string, dotted: string)
    requires IsMarked(lines) && IsBareKey(key) && '.' !in key && IsPlain(rendered) && NoTopKey(lines, key)
    requires ChildIndent(lines, 0, |lines|) <= 0 && dotted != key
    ensures OneBelow(lines, Inserted(lines, key, rendered), dotted)
  {
    hide IsContent, IndentOf, KeyOf, IsBareKey, IsPlain, KeysAt, ChildIndent, Choose, FirstDuplicate, Extends, Outdent, Agree;
    var lines' := Inserted(lines, key, rendered);
    InsertedFacts(lines, key, rendered);
    var entries := TopEntries(lines, key, rendered);
    NothingBelowAny(lines, key, rendered, dotted);
    if entries.Ok? {
      assert key !in KeysOf(entries.value) by {
        NotAmongEntries(lines, key, entries.value);
      }
      NewKeyDuplicate(entries.value, key);
      ChooseNew(entries.value, key, dotted);
      StepBelowKey(lines, key, rendered, dotted, entries.value);
    }
  }

  lemma NothingBelowAny(lines: seq<string>, key: string, rendered: string, dotted: string)
    requires IsMarked(lines) && IsBareKey(key) && IsPlain(rendered) && ChildIndent(lines, 0, |lines|) <= 0
    ensures Extends(dotted, key) ==>
              var lines' := Inserted(lines, key, rendered);
              Locate(lines', 2, Outdent(lines', 2, 0, |lines'|), Below(dotted, key)).Err?
  {
    if Extends(dotted, key) {
      NothingBelow(lines, key, rendered, Below(dotted, key));
    }
  }

  lemma NotAmongEntries(lines: seq<string>, key: string, entries: seq<Entry>)
    requires lines != [] && NoTopKey(lines, key) && KeysAt(lines, 1, |lines|, 0) == Ok(entries)
    ensures key !in KeysOf(entries)
  {
    hide IsContent, IndentOf, KeyOf;
    KeysAtFacts(lines, 1, |lines|, 0);
    forall k | 0 <= k < |entries| ensures entries[k].key != key {
      assert IsEntry(lines, 1, |lines|, 0, entries[k]);
      TopKeyIndent(lines[entries[k].index], key);
    }
  }

  ghost predicate OneBelow(lines: seq<string>, lines': seq<string>, dotted: string) {
    && (LocateIn(lines', dotted).Ok? <==> LocateIn(lines, dotted).Ok?)
    && (LocateIn(lines, dotted).Ok? ==> LocateIn(lines', dotted).value == LocateIn(lines, dotted).value + 1)
  }

  lemma StepBelowKey(lines: seq<string>, key: string, rendered: string, dotted: string, entries: seq<Entry>)
    requires IsMarked(lines) && IsBareKey(key) && IsPlain(rendered) && ChildIndent(lines, 0, |lines|) <= 0
    requires KeysAt(lines, 0, |lines|, ChildIndent(lines, 0, |lines|)) == Ok(entries)
    requires forall k :: 0 <= k < |entries| ==> entries[k].index >= 1
    requires var lines' := Inserted(lines, key, rendered); KeysAt(lines', 0, |lines'|, 0) == Ok(WithKey(entries, key))
    requires FirstDuplicate(WithKey(entries, key), {}).None? <==> FirstDuplicate(entries, {}).None?
    requires ChosenAlike(entries, key, dotted)
    requires Extends(dotted, key) ==>
               var lines' := Inserted(lines, key, rendered);
               Locate(lines', 2, Outdent(lines', 2, 0, |lines'|), Below(dotted, key)).Err?
    ensures OneBelow(lines, Inserted(lines, key, rendered), dotted)
  {
    hide IsContent, IndentOf, KeyOf, IsBareKey, IsPlain, KeysAt, ChildIndent, Choose, FirstDuplicate, Extends, Outdent, Agree, WithKey, NextStep, Inserted;
    var lines' := Inserted(lines, key, rendered);
    InsertedFacts(lines, key, rendered);
    StepFrom(lines, 0, |lines|, dotted, ChildIndent(lines, 0, |lines|), entries);
    StepFrom(lines', 0, |lines'|, dotted, 0, WithKey(entries, key));
    match NextStep(lines, 0, |lines|, dotted) {
      case Err(_) =>
      case Ok(Here(e)) =>
      case Ok(Down(e, end)) => DownBelowKey(lines, lines', dotted, e, end);
    }
  }

  lemma DownBelowKey(lines: seq<string>, lines': seq<string>, dotted: string, e: Entry, end: nat)
    requires lines != [] && |lines'| == |lines| + 1 && Agree(lines, 1, |lines|, lines', 2) && ChildIndent(lines, 0, |lines|) <= 0 && e.index >= 1
    requires NextStep(lines, 0, |lines|, dotted) == Ok(Down(e, end))
    requires NextStep(lines', 0, |lines'|, dotted) == Ok(Down(MovedEntry(e, 1, 2), Outdent(lines', e.index + 2, 0, |lines'|)))
    ensures OneBelow(lines, lines', dotted)
  {
    hide IsContent, IndentOf, KeyOf, ChildIndent, Extends, Outdent, Agree, NextStep;
    EntryFixes(lines, e, ChildIndent(lines, 0, |lines|), dotted);
    StepFacts(lines, 0, |lines|, dotted);
    AgreePart(lines, 1, |lines|, lines', 2, e.index + 1, |lines|);
    ScansMoved(lines, e.index + 1, |lines|, lines', e.index + 2, 0);
    AgreePart(lines, 1, |lines|, lines', 2, e.index + 1, end);
    LocateMoved(lines, e.index + 1, end, lines', e.index + 2, Below(dotted, e.key));
  }

  /** A step, from the entries of the block. */
  lemma StepFrom(lines: seq<string>, lo: nat, hi: nat, dotted: string, indent: int, entries: seq<Entry>)
    requires lo <= hi <= |lines| && ChildIndent(lines, lo, hi) == indent && KeysAt(lines, lo, hi, indent) == Ok(entries)
    ensures NextStep(lines, lo, hi, dotted).Ok? <==> FirstDuplicate(entries, {}).None? && Choose(entries, dotted).Ok?
    ensures NextStep(lines, lo, hi, dotted).Ok? ==>
              var (e, deeper) := Choose(entries, dotted).value;
              && lo <= e.index < hi
              && NextStep(lines, lo, hi, dotted) == Ok(if deeper then Down(e, Outdent(lines, e.index + 1, indent, hi)) else Here(e))
  {
    hide KeysAt, ChildIndent, Choose, FirstDuplicate, Outdent;
  }

  lemma EntryFixes(lines: seq<string>, e: Entry, indent: int, dotted: string)
    requires indent == ChildIndent(lines, 0, |lines|) <= 0 && NextStep(lines, 0, |lines|, dotted).Ok?
    requires NextStep(lines, 0, |lines|, dotted).value.entry == e
    ensures indent == 0
  {
    StepFacts(lines, 0, |lines|, dotted);
  }

  // ----- insertion above deeper keys ----------------------------------------------------------------

  lemma {:induction false} KeysUpTo(lines: seq<string>, lo: nat, m: nat, hi: nat, indent: int)
    requires lo <= m <= hi <= |lines| && (m < hi ==> Breaks(lines[m], indent))
    ensures KeysAt(lines, lo, m, indent) == KeysAt(lines, lo, hi, indent)
    decreases m - lo
  {
    hide IsContent, IndentOf, KeyOf;
    if lo < m {
      KeysUpTo(lines, lo + 1, m, hi, indent);
    }
  }

  lemma {:induction false} OutdentUpTo(lines: seq<string>, lo: nat, m: nat, hi: nat, indent: int)
    requires lo <= m <= hi <= |lines| && (m < hi ==> Breaks(lines[m], indent))
    ensures Outdent(lines, lo, indent, m) == Outdent(lines, lo, indent, hi)
    decreases m - lo
  {
    hide IsContent, IndentOf;
    if lo < m {
      OutdentUpTo(lines, lo + 1, m, hi, indent);
    }
  }

  /** The keys above a line that ends the block are all there are. */
  lemma LocateUpTo(lines: seq<string>, m: nat, dotted: string)
    requires IsMarked(lines) && 1 <= m <= |lines| && ChildIndent(lines, 0, |lines|) > 0 && ChildIndent(lines, 1, m) >= 0
    requires m < |lines| ==> IsContent(lines[m]) && IndentOf(lines[m]) == 0
    ensures Locate(lines, 1, m, dotted).Ok? ==> LocateIn(lines, dotted) == Locate(lines, 1, m, dotted)
  {
    hide IsContent, IndentOf, KeyOf, Outdent;
    var c := ChildIndentFirst(lines, 1, m);
    ChildIndentSkip(lines, 1, c, |lines|);
    var indent := ChildIndent(lines, 0, |lines|);
    assert ChildIndent(lines, 1, m) == indent;
    KeysUpTo(lines, 1, m, |lines|, indent);
    hide ChildIndent, Choose, FirstDuplicate;
    if Locate(lines, 1, m, dotted).Ok? {
      var entries := KeysAt(lines, 1, m, indent).value;
      assert KeysAt(lines, 0, |lines|, indent) == Ok(entries);
      hide KeysAt;
      StepFrom(lines, 1, m, dotted, indent, entries);
      StepFrom(lines, 0, |lines|, dotted, indent, entries);
      OutdentUpTo(lines, Choose(entries, dotted).value.0.index + 1, m, |lines|, indent);
    }
  }

  /** Insertion above indented keys: no locator is found on its line any more. */
  lemma LocatorLost(lines: seq<string>, key: string, rendered: string, dotted: string)
    requires IsMarked(lines) && IsBareKey(key) && '.' !in key && IsPlain(rendered)
    requires ChildIndent(lines, 0, |lines|) > 0 && LocateIn(lines, dotted).Ok?
    ensures LocateIn(Inserted(lines, key, rendered), dotted) != Ok(LocateIn(lines, dotted).value + 1)
  {
    hide IsContent, IndentOf, KeyOf, IsBareKey, IsPlain, KeysAt, ChildIndent, Choose, FirstDuplicate, Extends, Outdent, Agree, NextStep, Inserted;
    var lines' := Inserted(lines, key, rendered);
    var j := LocateIn(lines, dotted).value;
    InsertedFacts(lines, key, rendered);
    LocatedInBlock(lines, 0, |lines|, dotted);
    LocateFacts(lines, 0, |lines|, dotted);
    if LocateIn(lines', dotted) == Ok(j + 1) {
      StepFacts(lines', 0, |lines'|, dotted);
      SameLine(lines, lines', j);
      match NextStep(lines', 0, |lines'|, dotted).value {
        case Here(e) =>
        case Down(e, end) =>
          DownFacts(lines', 0, |lines'|, dotted);
          FirstEntryOnly(lines, lines', e, j);
          RestLocated(lines, lines', dotted, key, end, j);
          BelowShorter(dotted, key);
          LocateInjective(lines, 0, |lines|, dotted, Below(dotted, key));
      }
    }
  }

  lemma BelowShorter(dotted: string, key: string)
    requires Extends(dotted, key)
    ensures |Below(dotted, key)| < |dotted|
  {
  }

  lemma SameLine(lines: seq<string>, lines': seq<string>, j: nat)
    requires 1 <= j < |lines| && |lines'| == |lines| + 1 && Agree(lines, 1, |lines|, lines', 2)
    ensures lines'[j + 1] == lines[j]
  {
    assert lines'[2 + (j - 1)] == lines[j];
  }

  lemma FirstEntryOnly(lines: seq<string>, lines': seq<string>, e: Entry, j: nat)
    requires lines != [] && |lines'| == |lines| + 1 && Agree(lines, 1, |lines|, lines', 2) && lines'[0] == lines[0] && !IsContent(lines[0])
    requires j < |lines| && NoBreak(lines, 0, j + 1, ChildIndent(lines, 0, |lines|)) && ChildIndent(lines, 0, |lines|) > 0
    requires e.index < j + 1 && IsContent(lines'[e.index]) && IndentOf(lines'[e.index]) == 0
    ensures e.index == 1
  {
    hide IsContent, IndentOf, ChildIndent;
    if e.index >= 2 {
      SameLine(lines, lines', e.index - 1);
    }
  }

  lemma RestLocated(lines: seq<string>, lines': seq<string>, dotted: string, key: string, end: nat, j: nat)
    requires IsMarked(lines) && |lines'| == |lines| + 1 && Agree(lines, 1, |lines|, lines', 2) && ChildIndent(lines, 0, |lines|) > 0
    requires 2 <= end <= |lines'| && end == Outdent(lines', 2, 0, |lines'|) && Extends(dotted, key)
    requires Locate(lines', 2, end, Below(dotted, key)) == Ok(j + 1)
    ensures LocateIn(lines, Below(dotted, key)) == Ok(j)
  {
    hide IsContent, IndentOf, KeyOf, ChildIndent, Agree, NextStep;
    var rest := Below(dotted, key);
    AgreePart(lines, 1, |lines|, lines', 2, 1, end - 1);
    LocateMoved(lines, 1, end - 1, lines', 2, rest);
    LocatedInBlock(lines, 1, end - 1, rest);
    if end - 1 < |lines| {
      SameLine(lines, lines', end - 1);
      OutdentTop(lines', end);
    }
    LocateUpTo(lines, end - 1, rest);
  }

  lemma OutdentTop(lines': seq<string>, end: nat)
    requires 2 <= |lines'| && end == Outdent(lines', 2, 0, |lines'|) && end < |lines'|
    ensures IsContent(lines'[end]) && IndentOf(lines'[end]) == 0
  {
    hide IsContent, IndentOf;
  }

  // ----- the exact condition --------------------------------------------------------------------------

  /** The key stands at top level already, or the first content line is at column zero. */
  predicate TopReady(lines: seq<string>, key: string) {
    TopLevelLine(lines, key, 0).Some? || ChildIndent(lines, 0, |lines|) <= 0
  }

  lemma NoTopLine(lines: seq<string>, key: string)
    ensures TopLevelLine(lines, key, 0).None? <==> NoTopKey(lines, key)
  {
    hide IsTopLevelKey;
  }

  /** Setting the top-level key keeps a located scalar on its line, exactly when the file is
      ready for the key: inserted above indented keys it takes their block over. */
  lemma KeyKeepsScalarIff(lines: seq<string>, key: string, rendered: string, dotted: string)
    requires IsMarked(lines) && IsBareKey(key) && '.' !in key && IsPlain(rendered) && dotted != key
    requires LocateIn(lines, dotted).Ok? && LinesWithTopLevel(lines, key, rendered).Ok?
    ensures var lines' := LinesWithTopLevel(lines, key, rendered).value;
            var j := LocateIn(lines, dotted).value;
            LocateIn(lines', dotted) == Ok(if |lines'| == |lines| then j else j + 1) <==> TopReady(lines, key)
  {
    hide IsContent, IndentOf, KeyOf, IsBareKey, IsPlain, KeysAt, ChildIndent, IsTopLevelKey, Locate, ReplaceScalar, TopLevelLine;
    var lines' := LinesWithTopLevel(lines, key, rendered).value;
    match TopLevelLine(lines, key, 0) {
      case Some(i) =>
        ReplacedLine(lines[i], rendered);
        ReplacedShape(lines, i, lines'[i]);
        LocateShape(lines, lines', 0, |lines|, dotted);
      case None =>
        NoTopLine(lines, key);
        assert lines' == Inserted(lines, key, rendered);
        if ChildIndent(lines, 0, |lines|) <= 0 {
          LocateBelowKey(lines, key, rendered, dotted);
        } else {
          LocatorLost(lines, key, rendered, dotted);
        }
    }
  }

  lemma ReplacedShape(lines: seq<string>, i: nat, line: string)
    requires i < |lines| && SameLineShape(lines[i], line)
    ensures SameShape(lines, lines[i := line])
  {
    hide SameLineShape;
    forall j | 0 <= j < |lines| ensures SameLineShape(lines[j], lines[j]) {
      ShapeReflexive(lines[j]);
    }
  }

  // ----- the two writes together -------------------------------------------------------------------------

  lemma {:induction false} TopLineShape(a: seq<string>, b: seq<string>, key: string, from: nat)
    requires SameShape(a, b) && from <= |a|
    ensures TopLevelLine(a, key, from) == TopLevelLine(b, key, from)
    decreases |a| - from
  {
    hide IsContent, IndentOf, KeyOf, IsTopLevelKey;
    if from < |a| {
      assert SameLineShape(a[from], b[from]);
      TopKeyIndent(a[from], key);
      TopKeyIndent(b[from], key);
      TopLineShape(a, b, key, from + 1);
    }
  }

  lemma ReadyShape(a: seq<string>, b: seq<string>, key: string)
    requires SameShape(a, b)
    ensures TopReady(a, key) <==> TopReady(b, key)
  {
    hide TopLevelLine, ChildIndent, SameLineShape;
    TopLineShape(a, b, key, 0);
    ChildrenShape(a, b, 0, |a|, 0);
  }

  /** A scalar other than the key itself is on another line than the key. */
  lemma OtherLine(lines: seq<string>, key: string, dotted: string)
    requires LocateIn(lines, dotted).Ok? && TopLevelLine(lines, key, 0).Some? && dotted != key
    ensures LocateIn(lines, dotted).value != TopLevelLine(lines, key, 0).value
  {
    hide IsContent, IndentOf, KeyOf, ChildIndent, IsTopLevelKey, Locate;
    LocatedInBlock(lines, 0, |lines|, dotted);
    TopKeyIndent(lines[TopLevelLine(lines, key, 0).value], key);
  }

  /** In a file that is ready for the key, the key and a scalar can be set in either order,
      and neither decides whether the other can be set. */
  ghost predicate Commutes(lines: seq<string>, key: string, text: string, dotted: string, rendered: string)
    requires lines != []
  {
    var keyed, scalared := LinesWithTopLevel(lines, key, text), LinesWithScalar(lines, dotted, rendered);
    && (keyed.Ok? ==> LinesWithScalar(keyed.value, dotted, rendered).Ok? == scalared.Ok?)
    && (scalared.Ok? ==> LinesWithTopLevel(scalared.value, key, text).Ok? == keyed.Ok?)
    && (keyed.Ok? && scalared.Ok? ==> LinesWithTopLevel(scalared.value, key, text) == LinesWithScalar(keyed.value, dotted, rendered))
  }

  lemma ReadyCommutes(lines: seq<string>, key: string, text: string, dotted: string, rendered: string)
    requires IsFile(lines) && IsMarked(lines) && IsBareKey(key) && '.' !in key && IsPlain(text) && IsPlain(rendered)
    requires dotted != key && TopReady(lines, key)
    ensures Commutes(lines, key, text, dotted, rendered)
  {
    hide TopReady, LinesWithTopLevel, LinesWithScalar, IsFile, IsMarked, IsBareKey, IsPlain;
    if TopLevelLine(lines, key, 0).Some? {
      PresentCommutes(lines, key, text, dotted, rendered);
    } else {
      AbsentCommutes(lines, key, text, dotted, rendered);
    }
  }

  lemma PresentCommutes(lines: seq<string>, key: string, text: string, dotted: string, rendered: string)
    requires IsFile(lines) && IsPlain(text) && IsPlain(rendered) && dotted != key && TopLevelLine(lines, key, 0).Some?
    ensures Commutes(lines, key, text, dotted, rendered)
  {
    hide TopLevelLine, Locate, ReplaceScalar, IsFile, IsPlain, SameShape;
    var i := TopLevelLine(lines, key, 0).value;
    var keyed, scalared := LinesWithTopLevel(lines, key, text), LinesWithScalar(lines, dotted, rendered);
    if keyed.Ok? {
      KeyedShape(lines, key, text);
      LocateShape(lines, keyed.value, 0, |lines|, dotted);
    }
    if scalared.Ok? {
      LinesWithScalarFrame(lines, dotted, rendered);
      TopLineShape(lines, scalared.value, key, 0);
    }
    if LocateIn(lines, dotted).Ok? {
      OtherLine(lines, key, dotted);
      LocateFacts(lines, 0, |lines|, dotted);
    }
    if keyed.Ok? && scalared.Ok? {
      var j := LocateIn(lines, dotted).value;
      assert keyed.value[j := scalared.value[j]] == scalared.value[i := keyed.value[i]];
    }
  }

  lemma KeyedShape(lines: seq<string>, key: string, text: string)
    requires lines != [] && IsPlain(text) && TopLevelLine(lines, key, 0).Some? && LinesWithTopLevel(lines, key, text).Ok?
    ensures var lines' := LinesWithTopLevel(lines, key, text).value;
            SameShape(lines, lines') && lines' == lines[TopLevelLine(lines, key, 0).value := lines'[TopLevelLine(lines, key, 0).value]]
  {
    hide TopLevelLine, SameLineShape, ReplaceScalar, IsPlain, SameShape;
    var i := TopLevelLine(lines, key, 0).value;
    ReplacedLine(lines[i], text);
    ReplacedShape(lines, i, ReplaceScalar(lines[i], text).value);
  }

  lemma AbsentCommutes(lines: seq<string>, key: string, text: string, dotted: string, rendered: string)
    requires IsFile(lines) && IsMarked(lines) && IsBareKey(key) && '.' !in key && IsPlain(text) && IsPlain(rendered)
    requires dotted != key && TopReady(lines, key) && TopLevelLine(lines, key, 0).None?
    ensures Commutes(lines, key, text, dotted, rendered)
  {
    hide TopLevelLine, Locate, ReplaceScalar, IsFile, IsPlain, IsBareKey, SameShape, IsContent, ChildIndent;
    var keyed, scalared := Inserted(lines, key, text), LinesWithScalar(lines, dotted, rendered);
    NoTopLine(lines, key);
    LocateBelowKey(lines, key, text, dotted);
    if LocateIn(lines, dotted).Ok? {
      var j := LocateIn(lines, dotted).value;
      LocateFacts(lines, 0, |lines|, dotted);
      InsertedFacts(lines, key, text);
      SameLine(lines, keyed, j);
      if scalared.Ok? {
        LinesWithScalarFrame(lines, dotted, rendered);
        TopLineShape(lines, scalared.value, key, 0);
        assert keyed[j + 1 := scalared.value[j]] == Inserted(scalared.value, key, text);
      }
    }
  }

  // ----- texts -----------------------------------------------------------------------------------------------

  /** The lines of a text once it carries the marker. */
  function MarkedLines(text: string): (lines: seq<string>)
    requires Adopted(text).Ok?
    ensures lines != [] && IsFile(lines) && lines[0] == MARKER_COMMENT && IsMarked(lines)
  {
    AdoptedLines(text);
    MarkerLine();
    LinesOf(Adopted(text).value).value
  }

  /** A text that is ready for the key (or not patched at all). */
  predicate Ready(text: string, key: string) {
    Adopted(text).Ok? ==> TopReady(MarkedLines(text), key)
  }

  lemma MarkedJoin(lines: seq<string>)
    requires IsFile(lines) && lines[0] == MARKER_COMMENT
    ensures Adopted(Join(lines)) == Ok(Join(lines)) && MarkedLines(Join(lines)) == lines
  {
    LinesOfJoin(lines);
    AdoptedTwice(Join(lines));
  }

  /** Both writes work on the marked lines. */
  lemma ThroughLines(text: string, key: string, dotted: string, rendered: string)
    requires Adopted(text).Ok?
    ensures WithTopLevelScalar(text, key, rendered)
         == match LinesWithTopLevel(MarkedLines(text), key, rendered) case Ok(lines) => Ok(Join(lines)) case Err(e) => Err(e)
    ensures AdoptedWithScalar(text, dotted, rendered)
         == match LinesWithScalar(MarkedLines(text), dotted, rendered) case Ok(lines) => Ok(Join(lines)) case Err(e) => Err(e)
  {
    hide LinesWithTopLevel, LinesWithScalar, Adopted;
    AdoptedLines(text);
  }

  /** A keyed text, through its lines. */
  lemma KeyedText(text: string, key: string, rendered: string)
    requires IsBareKey(key) && IsPlain(rendered)
    ensures WithTopLevelScalar(text, key, rendered).Ok? <==> Adopted(text).Ok? && LinesWithTopLevel(MarkedLines(text), key, rendered).Ok?
    ensures WithTopLevelScalar(text, key, rendered).Ok? ==>
              var lines' := LinesWithTopLevel(MarkedLines(text), key, rendered).value;
              var keyed := WithTopLevelScalar(text, key, rendered).value;
              && keyed == Join(lines') && Adopted(keyed) == Ok(keyed) && MarkedLines(keyed) == lines'
              && TopLevelLine(lines', key, 0).Some?
  {
    hide IsBareKey, IsPlain, TopLevelLine, LinesWithTopLevel, ScalarOf, Adopted, IsMarked, MarkedLines;
    if Adopted(text).Ok? {
      ThroughLines(text, key, "", rendered);
      if LinesWithTopLevel(MarkedLines(text), key, rendered).Ok? {
        TopLevelFrame(MarkedLines(text), key, rendered);
        MarkedJoin(LinesWithTopLevel(MarkedLines(text), key, rendered).value);
      }
    }
  }

  lemma ScalaredText(text: string, dotted: string, rendered: string)
    requires IsPlain(rendered)
    ensures AdoptedWithScalar(text, dotted, rendered).Ok? <==> Adopted(text).Ok? && LinesWithScalar(MarkedLines(text), dotted, rendered).Ok?
    ensures AdoptedWithScalar(text, dotted, rendered).Ok? ==>
              var lines' := LinesWithScalar(MarkedLines(text), dotted, rendered).value;
              var scalared := AdoptedWithScalar(text, dotted, rendered).value;
              && scalared == Join(lines') && Adopted(scalared) == Ok(scalared) && MarkedLines(scalared) == lines'
              && SameShape(MarkedLines(text), lines')
  {
    hide IsPlain, LinesWithScalar, WithScalar, Adopted, IsMarked, IsContent, SameShape, ReplaceScalar, MarkedLines;
    if Adopted(text).Ok? {
      ThroughLines(text, "", dotted, rendered);
      if LinesWithScalar(MarkedLines(text), dotted, rendered).Ok? {
        var lines, lines' := MarkedLines(text), LinesWithScalar(MarkedLines(text), dotted, rendered).value;
        LinesWithScalarFrame(lines, dotted, rendered);
        MarkedContent(lines);
        MarkedJoin(lines');
      }
    }
  }

  lemma MarkedContent(lines: seq<string>)
    requires IsMarked(lines)
    ensures forall i :: 0 <= i < |lines| && IsContent(lines[i]) ==> i != 0
  {
  }

  /** Readiness for the key survives adoption, a scalar and the key itself. */
  lemma ReadyKept(text: string, key: string, dotted: string, rendered: string)
    requires IsBareKey(key) && IsPlain(rendered)
    ensures Adopted(text).Ok? ==> (Ready(text, key) <==> Ready(Adopted(text).value, key))
    ensures AdoptedWithScalar(text, dotted, rendered).Ok? ==> (Ready(text, key) <==> Ready(AdoptedWithScalar(text, dotted, rendered).value, key))
    ensures WithTopLevelScalar(text, key, rendered).Ok? ==> Ready(WithTopLevelScalar(text, key, rendered).value, key)
  {
    hide IsBareKey, IsPlain, TopLevelLine, LinesWithTopLevel, LinesWithScalar, AdoptedWithScalar, WithTopLevelScalar, IsFile, Adopted, IsMarked, SameShape, ChildIndent;
    if Adopted(text).Ok? {
      AdoptedFacts(text);
      ScalaredText(text, dotted, rendered);
      if AdoptedWithScalar(text, dotted, rendered).Ok? {
        ReadyShape(MarkedLines(text), MarkedLines(AdoptedWithScalar(text, dotted, rendered).value), key);
      }
    }
    ScalaredText(text, dotted, rendered);
    KeyedText(text, key, rendered);
  }

  /** In a text that is ready for the key, a scalar and the key can be set in either order. */
  lemma ScalarAndKey(text: string, key: string, value: string, dotted: string, rendered: string)
    requires IsBareKey(key) && '.' !in key && IsPlain(value) && IsPlain(rendered) && dotted != key && Ready(text, key)
    ensures WithTopLevelScalar(text, key, value).Ok? ==>
              var after := AdoptedWithScalar(WithTopLevelScalar(text, key, value).value, dotted, rendered);
              && after.Ok? == AdoptedWithScalar(text, dotted, rendered).Ok?
              && (after.Ok? ==> after == WithTopLevelScalar(AdoptedWithScalar(text, dotted, rendered).value, key, value))
    ensures AdoptedWithScalar(text, dotted, rendered).Ok? ==>
              var after := WithTopLevelScalar(AdoptedWithScalar(text, dotted, rendered).value, key, value);
              && after.Ok? == WithTopLevelScalar(text, key, value).Ok?
              && (after.Ok? ==> after == AdoptedWithScalar(WithTopLevelScalar(text, key, value).value, dotted, rendered))
  {
    hide IsBareKey, IsPlain, TopLevelLine, LinesWithTopLevel, LinesWithScalar, AdoptedWithScalar, WithTopLevelScalar, IsFile, Adopted, IsMarked, SameShape, TopReady;
    if Adopted(text).Ok? {
      ReadyCommutes(MarkedLines(text), key, value, dotted, rendered);
      KeyedText(text, key, value);
      ScalaredText(text, dotted, rendered);
      if WithTopLevelScalar(text, key, value).Ok? {
        ScalaredText(WithTopLevelScalar(text, key, value).value, dotted, rendered);
      }
      if AdoptedWithScalar(text, dotted, rendered).Ok? {
        KeyedText(AdoptedWithScalar(text, dotted, rendered).value, key, value);
      }
    } else {
      KeyedText(text, key, value);
      ScalaredText(text, dotted, rendered);
    }
  }

  /** Adoption before or after the key makes no difference. */
  lemma AdoptAndKey(text: string, key: string, value: string)
    requires IsBareKey(key) && IsPlain(value)
    ensures WithTopLevelScalar(text, key, value).Ok? ==>
              && Adopted(text).Ok?
              && Adopted(WithTopLevelScalar(text, key, value).value) == WithTopLevelScalar(text, key, value)
    ensures Adopted(text).Ok? ==> WithTopLevelScalar(Adopted(text).value, key, value) == WithTopLevelScalar(text, key, value)
  {
    hide IsBareKey, IsPlain, LinesWithTopLevel, Adopted, IsAdopted;
    if Adopted(text).Ok? {
      AdoptedFacts(text);
    }
    KeyedText(text, key, value);
  }

  // ----- a file that is not ready ---------------------------------------------------------------------------

  const INDENTED: seq<string> := [MARKER_COMMENT, "  a: 1", ""]

  lemma IndentedLine()
    ensures IsContent("  a: 1") && IndentOf("  a: 1") == 2 && ParseKey("  a: 1") == Some(KeyToken(4, "a")) && KeyOf("  a: 1") == Some("a")
  {
    var line := "  a: 1";
    SkipSpacesIs(line, 0, 2);
    SkipKeyCharsIs(line, 2, 3);
    assert line[2..3] == "a" && line[1..] == " a: 1" && line[1..][1..] == "a: 1";
  }

  lemma IndentedScalar()
    ensures ScalarOf("  a: 1") == Ok(("1", ""))
  {
    IndentedLine();
    hide ParseKey, SkipSpaces;
    assert "  a: 1"[4..] == " " + "1" + "";
    assert IsPlain("1") && IsComment("");
    SplitScalarWritten("1", "");
  }

  lemma IndentedFound()
    ensures IsFile(INDENTED) && IsMarked(INDENTED) && LocateIn(INDENTED, "a") == Ok(1)
    ensures ChildIndent(INDENTED, 0, 3) == 2 && LinesWithScalar(INDENTED, "a", "2").Ok?
  {
    IndentedLine();
    IndentedScalar();
    MarkerLine();
    EmptyIsNotContent();
    hide IsContent, IndentOf, KeyOf, ScalarOf, Extends;
    var entry := Entry(1, "a");
    assert KeysAt(INDENTED, 3, 3, 2) == Ok([]);
    assert KeysAt(INDENTED, 2, 3, 2) == Ok([]);
    assert [entry] + [] == [entry];
    assert KeysAt(INDENTED, 1, 3, 2) == Ok([entry]);
    assert KeysAt(INDENTED, 0, 3, 2) == Ok([entry]);
    assert ChildIndent(INDENTED, 1, 3) == 2;
    StepFrom(INDENTED, 0, 3, "a", 2, [entry]);
  }

  /** In an indented file a scalar is written, then the key: the scalar cannot be written
      again, so a render that succeeded cannot be planned a second time. */
  lemma IndentedFileFails(key: string)
    requires IsBareKey(key) && '.' !in key && key != "a"
    ensures var text := Join(INDENTED);
            var once := AdoptedWithScalar(text, "a", "2");
            && once.Ok? && WithTopLevelScalar(once.value, key, "b").Ok?
            && AdoptedWithScalar(WithTopLevelScalar(once.value, key, "b").value, "a", "2").Err?
  {
    hide IsContent, IndentOf, KeyOf, ScalarOf, Extends, IsBareKey, Locate, LinesWithScalar, LinesWithTopLevel, AdoptedWithScalar, WithTopLevelScalar, IsFile, IsMarked;
    var text := Join(INDENTED);
    assert IsPlain("2") && IsPlain("b");
    IndentedFound();
    MarkedJoin(INDENTED);
    ScalaredText(text, "a", "2");
    var once := AdoptedWithScalar(text, "a", "2").value;
    KeyedText(once, key, "b");
    IndentedKeyed(MarkedLines(once), key);
    ScalaredText(WithTopLevelScalar(once, key, "b").value, "a", "2");
  }

  lemma IndentedKeyed(lines: seq<string>, key: string)
    requires SameShape(INDENTED, lines) && IsBareKey(key) && key != "a"
    ensures LinesWithTopLevel(lines, key, "b").Ok?
    ensures LinesWithScalar(LinesWithTopLevel(lines, key, "b").value, "a", "2").Err?
  {
    IndentedLine();
    MarkerLine();
    EmptyIsNotContent();
    assert SameLineShape(INDENTED[0], lines[0]) && SameLineShape(INDENTED[1], lines[1]) && SameLineShape(INDENTED[2], lines[2]);
    assert IsPlain("b");
    hide IsContent, IndentOf, KeyOf, ScalarOf, IsBareKey, IsPlain, SameShape;
    TopKeyIndent(lines[0], key);
    TopKeyIndent(lines[1], key);
    TopKeyIndent(lines[2], key);
    NoTopLine(lines, key);
    var keyed := Inserted(lines, key, "b");
    InsertedFacts(lines, key, "b");
    assert keyed[2] == lines[1] && keyed[3] == lines[2];
    var entry := Entry(1, key);
    assert KeysAt(keyed, 4, 4, 0) == Ok([]);
    assert KeysAt(keyed, 3, 4, 0) == Ok([]);
    assert KeysAt(keyed, 2, 4, 0) == Ok([]);
    assert [entry] + [] == [entry];
    assert KeysAt(keyed, 1, 4, 0) == Ok([entry]);
    assert KeysAt(keyed, 0, 4, 0) == Ok([entry]);
    StepFrom(keyed, 0, 4, "a", 0, [entry]);
    assert !Extends("a", key) by {
      ShortKey(key);
    }
  }

  lemma ShortKey(key: string)
    requires IsBareKey(key)
    ensures !Extends("a", key)
  {
  }
}
