/** How the patcher's view of a block changes when lines strictly inside the
    file are replaced by others. */
module YamlSplice {
  import opened Results
  import opened YamlLines

  /** A content line that ends a scan at the given indentation. */
  predicate Breaks(line: string, indent: int) {
    IsContent(line) && IndentOf(line) < indent
  }

  predicate Outdents(line: string, indent: int) {
    IsContent(line) && IndentOf(line) <= indent
  }

  ghost predicate NoBreak(lines: seq<string>, lo: nat, hi: nat, indent: int)
    requires lo <= hi <= |lines|
  {
    forall i :: lo <= i < hi ==> !Breaks(lines[i], indent)
  }

  ghost predicate NoOutdent(lines: seq<string>, lo: nat, hi: nat, indent: int)
    requires lo <= hi <= |lines|
  {
    forall i :: lo <= i < hi ==> !Outdents(lines[i], indent)
  }

  ghost predicate NoContent(lines: seq<string>, lo: nat, hi: nat)
    requires lo <= hi <= |lines|
  {
    forall i :: lo <= i < hi ==> !IsContent(lines[i])
  }

  /** Lines a[lo..hi] are the lines of b that start at `at`. */
  ghost predicate Agree(a: seq<string>, lo: nat, hi: nat, b: seq<string>, at: nat)
    requires lo <= hi <= |a|
  {
    at + (hi - lo) <= |b| && forall i :: lo <= i < hi ==> b[at + (i - lo)] == a[i]
  }

  /** The keys of a block moved to where the block now starts. */
  function Moved(entries: seq<Entry>, from: nat, to: nat): (r: seq<Entry>)
    requires forall k :: 0 <= k < |entries| ==> entries[k].index >= from
    ensures |r| == |entries|
    ensures forall k :: 0 <= k < |r| ==> r[k].key == entries[k].key && r[k].index == entries[k].index - from + to
  {
    seq(|entries|, k requires 0 <= k < |entries| => Entry(entries[k].index - from + to, entries[k].key))
  }

  lemma MovedCons(key: string, rest: seq<Entry>, from: nat, to: nat)
    requires forall k :: 0 <= k < |rest| ==> rest[k].index >= from + 1
    ensures Moved([Entry(from, key)] + rest, from, to) == [Entry(to, key)] + Moved(rest, from + 1, to + 1)
  {
  }

  lemma {:induction false} KeysAtMoved(a: seq<string>, lo: nat, hi: nat, b: seq<string>, at: nat, indent: int)
    requires lo <= hi <= |a| && Agree(a, lo, hi, b, at)
    requires KeysAt(a, lo, hi, indent).Ok?
    ensures forall k :: 0 <= k < |KeysAt(a, lo, hi, indent).value| ==> KeysAt(a, lo, hi, indent).value[k].index >= lo
    ensures KeysAt(b, at, at + (hi - lo), indent) == Ok(Moved(KeysAt(a, lo, hi, indent).value, lo, at))
    decreases hi - lo
  {
    hide IsContent, IndentOf, KeyOf;
    KeysAtFacts(a, lo, hi, indent);
    if lo < hi {
      assert b[at] == a[lo];
      if !Breaks(a[lo], indent) {
        KeysAtMoved(a, lo + 1, hi, b, at + 1, indent);
        var keys, rest := KeysAt(a, lo, hi, indent).value, KeysAt(a, lo + 1, hi, indent).value;
        if keys != rest {
          assert keys == [Entry(lo, keys[0].key)] + rest;
          MovedCons(keys[0].key, rest, lo, at);
        } else {
          assert Moved(rest, lo + 1, at + 1) == Moved(rest, lo, at);
        }
      }
    }
  }

  lemma {:induction false} ScansMoved(a: seq<string>, lo: nat, hi: nat, b: seq<string>, at: nat, indent: int)
    requires lo <= hi <= |a| && Agree(a, lo, hi, b, at)
    ensures ChildIndent(b, at, at + (hi - lo)) == ChildIndent(a, lo, hi)
    ensures Outdent(b, at, indent, at + (hi - lo)) == Outdent(a, lo, indent, hi) - lo + at
    decreases hi - lo
  {
    hide IsContent, IndentOf;
    if lo < hi {
      assert b[at] == a[lo];
      ScansMoved(a, lo + 1, hi, b, at + 1, indent);
    }
  }

  lemma {:induction false} KeysAtSplit(lines: seq<string>, lo: nat, m: nat, hi: nat, indent: int)
    requires lo <= m <= hi <= |lines| && NoBreak(lines, lo, m, indent)
    ensures KeysAt(lines, lo, hi, indent) ==
            match KeysAt(lines, lo, m, indent)
            case Err(e) => Err(e)
            case Ok(entries) => Prepend(entries, KeysAt(lines, m, hi, indent))
    decreases m - lo
  {
    hide IsContent, IndentOf, KeyOf;
    if lo == m {
      assert forall more: seq<Entry> :: [] + more == more;
    } else {
      assert !Breaks(lines[lo], indent);
      KeysAtSplit(lines, lo + 1, m, hi, indent);
      var head := [Entry(lo, if KeyOf(lines[lo]).Some? then KeyOf(lines[lo]).value else "")];
      if KeysAt(lines, lo + 1, m, indent).Ok? && KeysAt(lines, m, hi, indent).Ok? {
        var e1, e2 := KeysAt(lines, lo + 1, m, indent).value, KeysAt(lines, m, hi, indent).value;
        assert (head + e1) + e2 == head + (e1 + e2);
      }
    }
  }

  /** A stretch without a line at or above the indentation holds no keys. */
  lemma {:induction false} KeysAtNone(lines: seq<string>, lo: nat, hi: nat, indent: int)
    requires lo <= hi <= |lines| && NoOutdent(lines, lo, hi, indent)
    ensures KeysAt(lines, lo, hi, indent) == Ok([]) && NoBreak(lines, lo, hi, indent)
    decreases hi - lo
  {
    hide IsContent, IndentOf, KeyOf;
    if lo < hi {
      assert !Outdents(lines[lo], indent);
      KeysAtNone(lines, lo + 1, hi, indent);
    }
  }

  lemma {:induction false} OutdentSplit(lines: seq<string>, from: nat, m: nat, indent: int, hi: nat)
    requires from <= m <= hi <= |lines| && NoOutdent(lines, from, m, indent)
    ensures Outdent(lines, from, indent, hi) == Outdent(lines, m, indent, hi)
    decreases m - from
  {
    hide IsContent, IndentOf;
    if from < m {
      assert !Outdents(lines[from], indent);
      OutdentSplit(lines, from + 1, m, indent, hi);
    }
  }

  lemma {:induction false} ChildIndentSkip(lines: seq<string>, lo: nat, m: nat, hi: nat)
    requires lo <= m <= hi <= |lines| && NoContent(lines, lo, m)
    ensures ChildIndent(lines, lo, hi) == ChildIndent(lines, m, hi)
    decreases m - lo
  {
    hide IsContent, IndentOf;
    if lo < m {
      ChildIndentSkip(lines, lo + 1, m, hi);
    }
  }

  /** The first content line of a range fixes the child indentation. */
  lemma {:induction false} ChildIndentFirst(lines: seq<string>, lo: nat, hi: nat) returns (c: nat)
    requires lo <= hi <= |lines| && ChildIndent(lines, lo, hi) >= 0
    ensures lo <= c < hi && IsContent(lines[c]) && NoContent(lines, lo, c)
    ensures IndentOf(lines[c]) == ChildIndent(lines, lo, hi)
    decreases hi - lo
  {
    hide IsContent, IndentOf;
    if IsContent(lines[lo]) {
      c := lo;
    } else {
      c := ChildIndentFirst(lines, lo + 1, hi);
    }
  }

  lemma {:induction false} ChildIndentNone(lines: seq<string>, lo: nat, hi: nat)
    requires lo <= hi <= |lines|
    ensures ChildIndent(lines, lo, hi) < 0 <==> NoContent(lines, lo, hi)
    decreases hi - lo
  {
    hide IsContent, IndentOf;
    if lo < hi {
      ChildIndentNone(lines, lo + 1, hi);
    }
  }

  /** Keys up to a break do not depend on what follows it. */
  lemma {:induction false} KeysAtBreak(lines: seq<string>, lo: nat, b: nat, hi: nat, indent: int)
    requires lo <= b < hi <= |lines| && NoBreak(lines, lo, b, indent) && Breaks(lines[b], indent)
    ensures KeysAt(lines, lo, hi, indent) == KeysAt(lines, lo, b, indent)
    decreases b - lo
  {
    hide IsContent, IndentOf, KeyOf;
    if lo < b {
      assert !Breaks(lines[lo], indent);
      KeysAtBreak(lines, lo + 1, b, hi, indent);
    }
  }

  /** A key is found only where nothing before it breaks the scan. */
  lemma {:induction false} FoundNoBreak(lines: seq<string>, lo: nat, hi: nat, indent: int, k: nat)
    requires lo <= hi <= |lines|
    requires KeysAt(lines, lo, hi, indent).Ok? && k < |KeysAt(lines, lo, hi, indent).value|
    ensures var at := KeysAt(lines, lo, hi, indent).value[k].index;
            lo <= at < hi && NoBreak(lines, lo, at + 1, indent)
    decreases hi - lo
  {
    hide IsContent, IndentOf, KeyOf;
    if IsContent(lines[lo]) && IndentOf(lines[lo]) == indent {
      if k > 0 {
        FoundNoBreak(lines, lo + 1, hi, indent, k - 1);
      }
    } else {
      FoundNoBreak(lines, lo + 1, hi, indent, k);
    }
  }

  // ----- one splice ---------------------------------------------------------------

  /** lines[p..q] replaced by `added`. */
  function Splice(lines: seq<string>, p: nat, q: nat, added: seq<string>): seq<string>
    requires p <= q <= |lines|
  {
    lines[..p] + added + lines[q..]
  }

  /** The keys of a block after a splice inside it: the keys before the splice,
      those of the new lines, and the old ones behind it, moved. */
  lemma KeysAtSplice(lines: seq<string>, lo: nat, p: nat, q: nat, hi: nat, added: seq<string>, indent: int)
      returns (before: seq<Entry>, removed: seq<Entry>, after: seq<Entry>, addedKeys: seq<Entry>, after': seq<Entry>)
    requires lo <= p <= q <= hi <= |lines|
    requires NoBreak(lines, lo, q, indent) && NoBreak(added, 0, |added|, indent)
    requires KeysAt(lines, lo, hi, indent).Ok? && KeysAt(added, 0, |added|, indent).Ok?
    ensures KeysAt(lines, lo, p, indent) == Ok(before) && KeysAt(lines, p, q, indent) == Ok(removed)
    ensures KeysAt(lines, q, hi, indent) == Ok(after)
    ensures KeysAt(lines, lo, hi, indent) == Ok(before + removed + after)
    ensures forall k :: 0 <= k < |after| ==> after[k].index >= q
    ensures after' == Moved(after, q, p + |added|)
    ensures |addedKeys| == |KeysAt(added, 0, |added|, indent).value|
    ensures addedKeys == Moved(KeysAt(added, 0, |added|, indent).value, 0, p)
    ensures KeysAt(Splice(lines, p, q, added), lo, hi - q + p + |added|, indent) == Ok(before + addedKeys + after')
  {
    hide KeysAt, Breaks;
    var lines' := Splice(lines, p, q, added);
    var hi' := hi - q + p + |added|;
    KeysAtSplit(lines, lo, p, hi, indent);
    KeysAtSplit(lines, p, q, hi, indent);
    before := KeysAt(lines, lo, p, indent).value;
    removed := KeysAt(lines, p, q, indent).value;
    after := KeysAt(lines, q, hi, indent).value;
    assert before + (removed + after) == before + removed + after;
    KeysAtMoved(lines, lo, p, lines', lo, indent);
    KeysAtMoved(added, 0, |added|, lines', p, indent);
    KeysAtMoved(lines, q, hi, lines', p + |added|, indent);
    addedKeys := Moved(KeysAt(added, 0, |added|, indent).value, 0, p);
    after' := Moved(after, q, p + |added|);
    assert Moved(before, lo, lo) == before;
    KeysAtSplit(lines', lo, p, hi', indent);
    KeysAtSplit(lines', p, p + |added|, hi', indent);
    assert before + (addedKeys + after') == before + addedKeys + after';
  }

  /** A splice strictly inside a block moves the block's end by the difference. */
  lemma OutdentSplice(lines: seq<string>, from: nat, p: nat, q: nat, hi: nat, added: seq<string>, indent: int)
    requires from <= p <= q <= hi <= |lines|
    requires NoOutdent(lines, from, q, indent) && NoOutdent(added, 0, |added|, indent)
    ensures Outdent(Splice(lines, p, q, added), from, indent, hi - q + p + |added|) ==
            Outdent(lines, from, indent, hi) - q + p + |added|
  {
    hide Outdent, Outdents;
    var lines' := Splice(lines, p, q, added);
    OutdentSplit(lines, from, q, indent, hi);
    OutdentSplit(lines', from, p + |added|, indent, hi - q + p + |added|);
    ScansMoved(lines, q, hi, lines', p + |added|, indent);
  }

  function KeysOf(entries: seq<Entry>): (keys: seq<string>)
    ensures |keys| == |entries| && forall k :: 0 <= k < |keys| ==> keys[k] == entries[k].key
  {
    seq(|entries|, k requires 0 <= k < |entries| => entries[k].key)
  }

  /** Keys of one level are pairwise distinct exactly when no duplicate is reported. */
  lemma {:induction false} FirstDuplicateNone(entries: seq<Entry>, seen: set<string>)
    ensures FirstDuplicate(entries, seen) == None <==>
            (forall j, k :: 0 <= j < k < |entries| ==> entries[j].key != entries[k].key)
            && (forall k :: 0 <= k < |entries| ==> entries[k].key !in seen)
  {
    if entries != [] {
      var rest := entries[1..];
      FirstDuplicateNone(rest, seen + {entries[0].key});
      assert forall k :: 0 < k < |entries| ==> rest[k - 1] == entries[k];
      assert forall k :: 0 <= k < |rest| ==> entries[k + 1] == rest[k];
    }
  }
}
