/** The structural view the YAML patcher has of a file: which lines are content,
    which are mapping keys, where a block ends, and which line a dotted locator
    names (tools/obskit/obskit/configrender/patch.py). */
module YamlLines {
  import opened Results
  import opened Text

  datatype PatchError =
    | CarriageReturn
    | NoFinalNewline
    | NotAKeyLine(line: nat)
    | DuplicateKey(key: string)
    | EmptyBlock
    | NoMatchingKey
    | NestedBlock
    | NotPlainScalar
    | UnsafeScalar
    | MultiDocument
    | NoSpec
    | EmptySpec
    | InvalidJson
    | RootNotObject
    | Unresolved

  /** `key` up to its colon; `end` is the index just past the colon. */
  datatype KeyToken = KeyToken(end: nat, key: string)

  /** A mapping key found at a given line. */
  datatype Entry = Entry(index: nat, key: string)

  // ----- one line ----------------------------------------------------------

  predicate IsKeyChar(c: char) {
    IsAlnum(c) || c == '.' || c == '_' || c == '/' || c == '-'
  }

  function SkipKeyChars(s: string, from: nat): (k: nat)
    requires from <= |s|
    ensures from <= k <= |s|
    ensures forall i :: from <= i < k ==> IsKeyChar(s[i])
    ensures k < |s| ==> !IsKeyChar(s[k])
    decreases |s| - from
  {
    if from < |s| && IsKeyChar(s[from]) then SkipKeyChars(s, from + 1) else from
  }

  /** The key-line pattern: whitespace, a key token, a colon followed by
      whitespace or the end of the line. */
  function ParseKey(line: string): (token: Option<KeyToken>)
    ensures token.Some? ==> 0 < token.value.end <= |line| && token.value.key != ""
  {
    var start := SkipSpaces(line, 0);
    var stop := SkipKeyChars(line, start);
    if start < stop < |line| && line[stop] == ':' && (stop + 1 == |line| || IsSpace(line[stop + 1]))
    then Some(KeyToken(stop + 1, line[start..stop]))
    else None
  }

  function KeyOf(line: string): Option<string> {
    match ParseKey(line)
    case Some(token) => Some(token.key)
    case None => None
  }

  function IndentOf(line: string): (n: nat)
    ensures n <= |line|
  {
    if line != "" && line[0] == ' ' then 1 + IndentOf(line[1..]) else 0
  }

  predicate IsContent(line: string) {
    var first := SkipSpaces(line, 0);
    first < |line| && line[first] != '#'
  }

  // ----- one block ---------------------------------------------------------

  /** Indentation of the first content line of lines[lo..hi], or -1. */
  function ChildIndent(lines: seq<string>, lo: nat, hi: nat): (indent: int)
    requires lo <= hi <= |lines|
    ensures indent >= -1
    decreases hi - lo
  {
    if lo == hi then -1
    else if IsContent(lines[lo]) then IndentOf(lines[lo])
    else ChildIndent(lines, lo + 1, hi)
  }

  /** The keys at the given indentation, up to the first content line that is
      indented less. */
  function KeysAt(lines: seq<string>, lo: nat, hi: nat, indent: int): (r: Result<seq<Entry>, PatchError>)
    requires lo <= hi <= |lines|
    decreases hi - lo
  {
    if lo == hi then Ok([])
    else if !IsContent(lines[lo]) || IndentOf(lines[lo]) > indent then KeysAt(lines, lo + 1, hi, indent)
    else if IndentOf(lines[lo]) < indent then Ok([])
    else
      match KeyOf(lines[lo])
      case None => Err(NotAKeyLine(lo))
      case Some(key) =>
        var rest :- KeysAt(lines, lo + 1, hi, indent);
        Ok([Entry(lo, key)] + rest)
  }

  /** The first key that repeats an earlier one. */
  function FirstDuplicate(entries: seq<Entry>, seen: set<string>): Option<string> {
    if entries == [] then None
    else if entries[0].key in seen then Some(entries[0].key)
    else FirstDuplicate(entries[1..], seen + {entries[0].key})
  }

  /** `_children`: the child indentation and the mapping keys of a block. */
  function ChildrenOf(lines: seq<string>, lo: nat, hi: nat): Result<(int, seq<Entry>), PatchError>
    requires lo <= hi <= |lines|
  {
    var indent := ChildIndent(lines, lo, hi);
    var entries :- KeysAt(lines, lo, hi, indent);
    match FirstDuplicate(entries, {})
    case Some(key) => Err(DuplicateKey(key))
    case None => Ok((indent, entries))
  }

  /** First content line at or after `from` that is indented no deeper than `indent`. */
  function Outdent(lines: seq<string>, from: nat, indent: int, hi: nat): (end: nat)
    requires from <= hi <= |lines|
    ensures from <= end <= hi
    ensures forall i :: from <= i < end ==> !(IsContent(lines[i]) && IndentOf(lines[i]) <= indent)
    ensures end < hi ==> IsContent(lines[end]) && IndentOf(lines[end]) <= indent
    decreases hi - from
  {
    if from == hi || (IsContent(lines[from]) && IndentOf(lines[from]) <= indent) then from
    else Outdent(lines, from + 1, indent, hi)
  }

  /** `_block_end`: end (exclusive) of the block owned by the key at `entry`. */
  function BlockEndOf(lines: seq<string>, entry: nat, indent: int, hi: nat): nat
    requires entry < hi <= |lines|
  {
    Outdent(lines, entry + 1, indent, hi)
  }

  // ----- the loops of the program, proved against the functions above -----------

  function Prepend(entries: seq<Entry>, rest: Result<seq<Entry>, PatchError>): Result<seq<Entry>, PatchError> {
    match rest
    case Ok(more) => Ok(entries + more)
    case Err(e) => Err(e)
  }

  method Children(lines: seq<string>, lo: nat, hi: nat) returns (r: Result<(int, seq<Entry>), PatchError>)
    requires lo <= hi <= |lines|
    ensures r == ChildrenOf(lines, lo, hi)
  {
    var childIndent: int := -1;
    var entries: seq<Entry> := [];
    var index := lo;
    ghost var indent := ChildIndent(lines, lo, hi);
    assert forall more: seq<Entry> :: [] + more == more;
    while index < hi
      invariant lo <= index <= hi
      invariant childIndent >= -1
      invariant childIndent < 0 ==> entries == [] && indent == ChildIndent(lines, index, hi)
      invariant childIndent >= 0 ==> childIndent == indent
      invariant KeysAt(lines, lo, hi, indent) == Prepend(entries, KeysAt(lines, index, hi, indent))
    {
      var line := lines[index];
      if IsContent(line) {
        if childIndent < 0 {
          childIndent := IndentOf(line);
        }
        if IndentOf(line) < childIndent {
          break;
        }
        if IndentOf(line) == childIndent {
          match KeyOf(line) {
            case None => return Err(NotAKeyLine(index));
            case Some(key) =>
              assert forall more: seq<Entry> :: entries + ([Entry(index, key)] + more) == (entries + [Entry(index, key)]) + more;
              entries := entries + [Entry(index, key)];
          }
        }
      }
      index := index + 1;
    }
    assert entries + [] == entries && entries[0..] == entries;
    var seen: set<string> := {};
    var k := 0;
    while k < |entries|
      invariant 0 <= k <= |entries|
      invariant FirstDuplicate(entries, {}) == FirstDuplicate(entries[k..], seen)
    {
      assert entries[k..][1..] == entries[k + 1..];
      if entries[k].key in seen {
        return Err(DuplicateKey(entries[k].key));
      }
      seen := seen + {entries[k].key};
      k := k + 1;
    }
    r := Ok((childIndent, entries));
  }

  method BlockEnd(lines: seq<string>, entry: nat, indent: int, hi: nat) returns (end: nat)
    requires entry < hi <= |lines|
    ensures end == BlockEndOf(lines, entry, indent, hi)
  {
    for index := entry + 1 to hi
      invariant Outdent(lines, entry + 1, indent, hi) == Outdent(lines, index, indent, hi)
    {
      if IsContent(lines[index]) && IndentOf(lines[index]) <= indent {
        return index;
      }
    }
    end := hi;
  }

  // ----- locators ----------------------------------------------------------

  predicate Extends(dotted: string, key: string) {
    key + "." <= dotted
  }

  function IndexOfKey(entries: seq<Entry>, key: string): (k: Option<nat>)
    ensures k.Some? ==> k.value < |entries| && entries[k.value].key == key
    ensures k.None? ==> forall i :: 0 <= i < |entries| ==> entries[i].key != key
  {
    if entries == [] then None
    else if entries[0].key == key then Some(0)
    else match IndexOfKey(entries[1..], key)
         case Some(k) => Some(k + 1)
         case None => None
  }

  /** The longest key the locator extends; the first one among equals. */
  function LongestPrefix(entries: seq<Entry>, dotted: string): (k: Option<nat>)
    ensures k.Some? ==> k.value < |entries| && Extends(dotted, entries[k.value].key)
    ensures k.Some? ==> forall i :: 0 <= i < |entries| && Extends(dotted, entries[i].key) ==> |entries[i].key| <= |entries[k.value].key|
    ensures k.None? ==> forall i :: 0 <= i < |entries| ==> !Extends(dotted, entries[i].key)
  {
    if entries == [] then None
    else
      var later := LongestPrefix(entries[1..], dotted);
      if Extends(dotted, entries[0].key) && (later.None? || |entries[1..][later.value].key| <= |entries[0].key|) then Some(0)
      else match later
           case Some(k) => Some(k + 1)
           case None => None
  }

  /** One level of `_locate`: stop at a key, or descend into a key's block. */
  datatype Step = Here(entry: Entry) | Down(entry: Entry, end: nat)

  /** The key a locator goes through at one level, and whether it goes deeper:
      an exact key first, the longest prefix otherwise. */
  function Choose(entries: seq<Entry>, dotted: string): (r: Result<(Entry, bool), PatchError>)
    ensures r.Ok? ==> r.value.0 in entries
    ensures r.Ok? ==> if r.value.1 then Extends(dotted, r.value.0.key) else dotted == r.value.0.key
  {
    if entries == [] then Err(EmptyBlock)
    else
      match IndexOfKey(entries, dotted)
      case Some(k) => Ok((entries[k], false))
      case None =>
        match LongestPrefix(entries, dotted)
        case None => Err(NoMatchingKey)
        case Some(k) => Ok((entries[k], true))
  }

  function NextStep(lines: seq<string>, lo: nat, hi: nat, dotted: string): (r: Result<Step, PatchError>)
    requires lo <= hi <= |lines|
    ensures r.Ok? ==> lo <= r.value.entry.index < hi
    ensures r.Ok? && r.value.Down? ==>
      Extends(dotted, r.value.entry.key) && r.value.entry.index < r.value.end <= hi
  {
    var (indent, entries) :- ChildrenOf(lines, lo, hi);
    KeysAtFacts(lines, lo, hi, indent);
    var (entry, deeper) :- Choose(entries, dotted);
    Ok(if deeper then Down(entry, BlockEndOf(lines, entry.index, indent, hi)) else Here(entry))
  }

  /** What is left of a locator below a key it extends. */
  function Below(dotted: string, key: string): string
    requires Extends(dotted, key)
  {
    dotted[|key| + 1..]
  }

  /** `_locate`: the line a dotted locator names inside lines[lo..hi]. */
  function Locate(lines: seq<string>, lo: nat, hi: nat, dotted: string): (r: Result<nat, PatchError>)
    requires lo <= hi <= |lines|
    decreases hi - lo
  {
    match NextStep(lines, lo, hi, dotted)
    case Err(e) => Err(e)
    case Ok(Here(entry)) => Ok(entry.index)
    case Ok(Down(entry, end)) => Locate(lines, entry.index + 1, end, Below(dotted, entry.key))
  }

  /** Every key found is a content line of the block at the child indentation,
      and they are found in increasing line order. */
  lemma {:induction false} KeysAtFacts(lines: seq<string>, lo: nat, hi: nat, indent: int)
    requires lo <= hi <= |lines|
    ensures var r := KeysAt(lines, lo, hi, indent);
            r.Ok? ==>
              && (forall k :: 0 <= k < |r.value| ==> IsEntry(lines, lo, hi, indent, r.value[k]))
              && (forall j, k :: 0 <= j < k < |r.value| ==> r.value[j].index < r.value[k].index)
    decreases hi - lo
  {
    hide IsContent, IndentOf, KeyOf;
    if lo < hi {
      KeysAtFacts(lines, lo + 1, hi, indent);
    }
  }

  predicate IsEntry(lines: seq<string>, lo: nat, hi: nat, indent: int, entry: Entry)
    requires lo <= hi <= |lines|
  {
    && lo <= entry.index < hi
    && IsContent(lines[entry.index])
    && IndentOf(lines[entry.index]) == indent
    && KeyOf(lines[entry.index]) == Some(entry.key)
  }

  /** The key a step goes through is one of the block's keys; a block it
      descends into ends before the next of those keys. */
  lemma StepFacts(lines: seq<string>, lo: nat, hi: nat, dotted: string)
    requires lo <= hi <= |lines|
    requires NextStep(lines, lo, hi, dotted).Ok?
    ensures var indent := ChildIndent(lines, lo, hi);
            var step := NextStep(lines, lo, hi, dotted).value;
            && IsEntry(lines, lo, hi, indent, step.entry)
            && (step.Here? ==> dotted == step.entry.key)
            && (step.Down? ==> step.end == BlockEndOf(lines, step.entry.index, indent, hi))
  {
    KeysAtFacts(lines, lo, hi, ChildIndent(lines, lo, hi));
  }

  /** A resolved locator names a content line of the range that is a mapping key. */
  lemma {:induction false} LocateFacts(lines: seq<string>, lo: nat, hi: nat, dotted: string)
    requires lo <= hi <= |lines|
    requires Locate(lines, lo, hi, dotted).Ok?
    ensures var i := Locate(lines, lo, hi, dotted).value;
            lo <= i < hi && IsContent(lines[i]) && KeyOf(lines[i]).Some?
    decreases hi - lo
  {
    StepFacts(lines, lo, hi, dotted);
    match NextStep(lines, lo, hi, dotted).value {
      case Here(_) =>
      case Down(entry, end) => LocateFacts(lines, entry.index + 1, end, Below(dotted, entry.key));
    }
  }

  /** The line found below a key lies strictly inside that key's block and is
      indented deeper than the key. */
  lemma DownFacts(lines: seq<string>, lo: nat, hi: nat, dotted: string)
    requires lo <= hi <= |lines|
    requires Locate(lines, lo, hi, dotted).Ok? && NextStep(lines, lo, hi, dotted).value.Down?
    ensures var i := Locate(lines, lo, hi, dotted).value;
            var step := NextStep(lines, lo, hi, dotted).value;
            step.entry.index < i < step.end && IndentOf(lines[i]) > ChildIndent(lines, lo, hi)
  {
    hide NextStep, IsContent, IndentOf, KeyOf, ChildIndent;
    StepFacts(lines, lo, hi, dotted);
    var step := NextStep(lines, lo, hi, dotted).value;
    LocateFacts(lines, step.entry.index + 1, step.end, Below(dotted, step.entry.key));
  }

  /** The block a line lies in is determined by the line. */
  lemma StepDetermined(lines: seq<string>, lo: nat, hi: nat, indent: int, s1: Step, s2: Step, i: nat)
    requires lo <= hi <= |lines|
    requires IsEntry(lines, lo, hi, indent, s1.entry) && IsEntry(lines, lo, hi, indent, s2.entry)
    requires forall s :: s in [s1, s2] ==>
      if s.Here? then i == s.entry.index
      else s.end == BlockEndOf(lines, s.entry.index, indent, hi) && s.entry.index < i < s.end && IndentOf(lines[i]) > indent
    ensures s1 == s2
  {
    assert s1 in [s1, s2] && s2 in [s1, s2];
  }

  /** Two locators that resolve to the same line are the same locator: the
      blocks of distinct keys are disjoint and hold no line at the keys' own
      indentation, so the line determines the chain of keys above it. */
  lemma {:induction false} LocateInjective(lines: seq<string>, lo: nat, hi: nat, d1: string, d2: string)
    requires lo <= hi <= |lines|
    requires Locate(lines, lo, hi, d1).Ok? && Locate(lines, lo, hi, d1) == Locate(lines, lo, hi, d2)
    ensures d1 == d2
    decreases hi - lo
  {
    hide NextStep, ChildrenOf, KeyOf, IsContent, IndentOf;
    StepFacts(lines, lo, hi, d1);
    StepFacts(lines, lo, hi, d2);
    var s1, s2 := NextStep(lines, lo, hi, d1).value, NextStep(lines, lo, hi, d2).value;
    if s1.Down? {
      DownFacts(lines, lo, hi, d1);
    }
    if s2.Down? {
      DownFacts(lines, lo, hi, d2);
    }
    StepDetermined(lines, lo, hi, ChildIndent(lines, lo, hi), s1, s2, Locate(lines, lo, hi, d1).value);
    if s1.Down? {
      var key := s1.entry.key;
      LocateInjective(lines, s1.entry.index + 1, s1.end, Below(d1, key), Below(d2, key));
      assert d1 == key + "." + Below(d1, key);
      assert d2 == key + "." + Below(d2, key);
    }
  }

  // ----- lines that look alike to the patcher ----------------------------------

  predicate SameLineShape(a: string, b: string) {
    && IsContent(a) == IsContent(b)
    && (IsContent(a) ==> IndentOf(a) == IndentOf(b))
    && KeyOf(a) == KeyOf(b)
  }

  ghost predicate SameShape(a: seq<string>, b: seq<string>) {
    |a| == |b| && forall i :: 0 <= i < |a| ==> SameLineShape(a[i], b[i])
  }

  lemma {:induction false} ChildrenShape(a: seq<string>, b: seq<string>, lo: nat, hi: nat, indent: int)
    requires SameShape(a, b) && lo <= hi <= |a|
    ensures ChildIndent(a, lo, hi) == ChildIndent(b, lo, hi)
    ensures KeysAt(a, lo, hi, indent) == KeysAt(b, lo, hi, indent)
    ensures Outdent(a, lo, indent, hi) == Outdent(b, lo, indent, hi)
    decreases hi - lo
  {
    if lo < hi {
      assert SameLineShape(a[lo], b[lo]);
      ChildrenShape(a, b, lo + 1, hi, indent);
    }
  }

  lemma StepShape(a: seq<string>, b: seq<string>, lo: nat, hi: nat, dotted: string)
    requires SameShape(a, b) && lo <= hi <= |a|
    ensures NextStep(a, lo, hi, dotted) == NextStep(b, lo, hi, dotted)
  {
    hide SameLineShape, Choose, KeysAt, ChildIndent, Outdent, FirstDuplicate;
    var indent := ChildIndent(a, lo, hi);
    ChildrenShape(a, b, lo, hi, indent);
    var step := NextStep(a, lo, hi, dotted);
    if step.Ok? {
      ChildrenShape(a, b, step.value.entry.index + 1, hi, indent);
    }
  }

  /** Resolution depends on the shape of the lines only, error cases included. */
  lemma {:induction false} LocateShape(a: seq<string>, b: seq<string>, lo: nat, hi: nat, dotted: string)
    requires SameShape(a, b) && lo <= hi <= |a|
    ensures Locate(a, lo, hi, dotted) == Locate(b, lo, hi, dotted)
    decreases hi - lo
  {
    StepShape(a, b, lo, hi, dotted);
    match NextStep(a, lo, hi, dotted) {
      case Err(_) =>
      case Ok(Here(_)) =>
      case Ok(Down(entry, end)) => LocateShape(a, b, entry.index + 1, end, Below(dotted, entry.key));
    }
  }
}
