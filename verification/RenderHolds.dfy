/** What a file holds after the patches of a render: each undisputed place, read back. */
module RenderHolds {
  import opened Results
  import opened Json
  import opened JsonKeys
  import opened JsonPatch
  import opened Text
  import opened YamlLines
  import opened YamlScalars
  import opened YamlLens
  import opened YamlTopLevel
  import opened YamlMixed
  import opened SyncPolicy
  import SyncPolicyLaws
  import SyncDisable
  import opened RenderOps

  // ----- what a sequence of patches leaves -------------------------------------------------

  /** The patch changes nothing: its place already says what it would write. */
  ghost predicate Holds(codec: Codec, op: Op, path: string, text: string) {
    ValidOp(op) && Apply(codec, op, path, Some(text)) == Ok(text)
  }

  /** No patch writes the same place otherwise. */
  ghost predicate Undisputed(ops: seq<Op>, op: Op) {
    forall x :: x in ops && SamePlace(x, op) ==> x == op
  }

  /** A text that a patch leaves alone lets that patch meet those to come. */
  ghost predicate Mixable(ops: seq<Op>, op: Op, text: string) {
    (op.SetScalar? && HasTop(ops)) || (op.SetTopLevel? && HasScalar(ops)) ==> Ready(text, ISOLATION_KEY)
  }

  lemma MeetsNext(ops: seq<Op>, op: Op, text: string)
    requires ops != [] && !SamePlace(op, ops[0]) && Fit(op, ops[0]) && Mixable(ops, op, text)
    ensures Receives(op, ops[0], Some(text))
  {
    hide Ready, SyncStable;
    assert ops[0] in ops;
  }

  lemma MixableRest(codec: Codec, ops: seq<Op>, op: Op, path: string, text: string)
    requires ops != [] && Fit(op, ops[0]) && Mixable(ops, op, text) && Replaceable(codec, ops[0])
    requires Apply(codec, ops[0], path, Some(text)).Ok?
    ensures Mixable(ops[1..], op, Apply(codec, ops[0], path, Some(text)).value)
  {
    hide Ready, Apply, Replaceable;
    assert forall x :: x in ops[1..] ==> x in ops;
    if LinePatch(ops[0]) {
      StaysReady(codec, ops[0], path, text);
    }
  }

  /** Later patches of other places leave a place as it is. */
  lemma {:induction false} StaysHeld(codec: Codec, ops: seq<Op>, op: Op, path: string, text: string)
    requires codec.Lawful() && FitTogether(codec, ops, ops) && Replaceable(codec, op) && (forall x :: x in ops ==> Fit(op, x) && ValidOp(x))
    requires Holds(codec, op, path, text) && Undisputed(ops, op) && Mixable(ops, op, text)
    requires RunOps(codec, ops, path, Some(text)).Ok?
    ensures RunOps(codec, ops, path, Some(text)).value.Some? && Holds(codec, op, path, RunOps(codec, ops, path, Some(text)).value.value)
    decreases |ops|
  {
    hide Apply, Replaceable, SamePlace, Fit, Mixable, Receives, ValidOp, Codec.Lawful;
    if ops != [] {
      var b := ops[0];
      assert b in ops && Replaceable(codec, b);
      var after := Apply(codec, b, path, Some(text)).value;
      SamePlaceSymmetric(op, b);
      if SamePlace(b, op) {
        assert b == op;
      } else {
        MeetsNext(ops, op, text);
        Independence(codec, op, b, path, Some(text));
      }
      MixableRest(codec, ops, op, path, text);
      forall x | x in ops[1..] ensures x in ops {
      }
      StaysHeld(codec, ops[1..], op, path, after);
    }
  }

  /** The first patch of a prepared sequence leaves a prepared text. */
  lemma PreparedRest(codec: Codec, ops: seq<Op>, path: string, text: Option<string>)
    requires ops != [] && FitTogether(codec, ops, ops) && Prepared(ops, text) && ValidOp(ops[0])
    requires Apply(codec, ops[0], path, text).Ok?
    ensures Prepared(ops[1..], Some(Apply(codec, ops[0], path, text).value))
  {
    hide Ready, SyncStable, Apply, Replaceable;
    var a := ops[0];
    assert a in ops && Fit(a, a);
    forall x | x in ops[1..] ensures x in ops && Fit(x, a) && Fit(a, x) {
      assert x in ops;
    }
    if LinePatch(a) {
      LineNeedsText(codec, a, path, text);
      StaysReady(codec, a, path, text.value);
    } else if a.SyncBlock? {
      SyncNeedsText(codec, a, path, text);
      SyncApplied(codec, a, path, text.value);
      SettledStable(text.value, a.enabled);
    }
  }

  lemma SyncNeedsText(codec: Codec, op: Op, path: string, text: Option<string>)
    requires op.SyncBlock? && Apply(codec, op, path, text).Ok?
    ensures text.Some?
  {
  }

  lemma SyncApplied(codec: Codec, op: Op, path: string, text: string)
    requires op.SyncBlock? && Apply(codec, op, path, Some(text)).Ok?
    ensures WithSyncPolicy(text, op.enabled) == Ok(Apply(codec, op, path, Some(text)).value)
  {
    hide WithSyncPolicy;
  }

  /** After a patch that opens a prepared sequence, the rest may follow. */
  lemma MixableAfter(codec: Codec, ops: seq<Op>, path: string, text: Option<string>)
    requires ops != [] && FitTogether(codec, ops, ops) && Prepared(ops, text) && ValidOp(ops[0])
    requires Apply(codec, ops[0], path, text).Ok?
    ensures Mixable(ops[1..], ops[0], Apply(codec, ops[0], path, text).value)
  {
    hide Ready, SyncStable, Apply, Replaceable;
    var a := ops[0];
    assert a in ops && Fit(a, a);
    forall x | x in ops[1..] ensures x in ops {
    }
    if LinePatch(a) {
      LineNeedsText(codec, a, path, text);
      StaysReady(codec, a, path, text.value);
    }
  }

  lemma ReceivesItself(ops: seq<Op>, op: Op, text: Option<string>)
    requires op in ops && Prepared(ops, text)
    ensures Receives(op, op, text)
  {
    hide Ready, SyncStable;
  }

  /** What a prepared, fitting sequence leaves holds every undisputed patch of it. */
  lemma {:induction false} RunHolds(codec: Codec, ops: seq<Op>, op: Op, path: string, text: Option<string>)
    requires codec.Lawful() && FitTogether(codec, ops, ops) && Prepared(ops, text)
    requires forall x :: x in ops ==> ValidOp(x)
    requires op in ops && Undisputed(ops, op) && RunOps(codec, ops, path, text).Ok?
    ensures RunOps(codec, ops, path, text).value.Some? && Holds(codec, op, path, RunOps(codec, ops, path, text).value.value)
    decreases |ops|
  {
    hide Apply, Replaceable, SamePlace, Fit, Mixable, Receives, ValidOp, Codec.Lawful, Prepared;
    var a := ops[0];
    assert a in ops && Replaceable(codec, a) && Fit(a, a);
    var after := Apply(codec, a, path, text).value;
    forall x | x in ops[1..] ensures x in ops {
    }
    if a == op {
      SameAsItself(op);
      ReceivesItself(ops, op, text);
      Overwrite(codec, op, op, path, text);
      MixableAfter(codec, ops, path, text);
      StaysHeld(codec, ops[1..], op, path, after);
    } else {
      PreparedRest(codec, ops, path, text);
      RunHolds(codec, ops[1..], op, path, Some(after));
    }
  }

  lemma SameAsItself(op: Op)
    ensures SamePlace(op, op)
  {
  }

  // ----- what a text that holds a patch says -------------------------------------------------------

  lemma ScalarHeld(codec: Codec, dotted: string, rendered: string, path: string, text: string)
    requires IsPlain(rendered) && Holds(codec, SetScalar(dotted, rendered), path, text)
    ensures ScalarAt(text, dotted) == Ok(rendered) && IsAdopted(text)
  {
    hide WithScalar, IsPlain, IsAdopted, Adopted, ScalarAt;
    AdoptedFacts(text);
    var adopted := Adopted(text).value;
    ScalarKeepsMarker(adopted, dotted, rendered);
    PutGet(adopted, dotted, rendered);
  }

  lemma TopLevelHeld(codec: Codec, rendered: string, path: string, text: string)
    requires IsPlain(rendered) && Holds(codec, SetTopLevel(rendered), path, text)
    ensures TopLevelScalarAt(text, ISOLATION_KEY) == Ok(rendered) && IsAdopted(text)
  {
    hide WithTopLevelScalar, IsPlain, IsAdopted, TopLevelScalarAt, IsBareKey;
    IsolationKeyBare();
    TopLevelLaws(text, ISOLATION_KEY, rendered, rendered);
  }

  lemma MarkerHeld(codec: Codec, path: string, text: string)
    requires Holds(codec, Adopt, path, text)
    ensures IsAdopted(text)
  {
    hide IsAdopted;
    AdoptedFacts(text);
  }

  /** The automated block a manifest holds: its own key, found below spec and syncPolicy, and
      the two fixed settings, with nothing else. */
  ghost predicate HasPolicy(text: string) {
    var lines := LinesOf(text);
    && lines.Ok? && Navigate(lines.value).Ok? && Navigate(lines.value).value.sync.Some?
    && Navigate(lines.value).value.sync.value.automated.Some?
    && var (at, end) := Navigate(lines.value).value.sync.value.automated.value;
       && at + 3 <= end <= |lines.value|
       && (exists indent: nat ::
             && lines.value[at] == Pad(indent) + "automated:"
             && lines.value[at + 1] == Pad(indent) + "  prune: true"
             && lines.value[at + 2] == Pad(indent) + "  selfHeal: true")
       && forall i :: at + 3 <= i < end ==> !IsContent(lines.value[i])
  }

  /** The manifest can be read, and has no automated key. */
  ghost predicate HasNoPolicy(text: string) {
    var lines := LinesOf(text);
    && lines.Ok? && Navigate(lines.value).Ok?
    && (Navigate(lines.value).value.sync.Some? ==> Navigate(lines.value).value.sync.value.automated.None?)
  }

  lemma PolicyHeld(codec: Codec, enabled: bool, path: string, text: string)
    requires Holds(codec, SyncBlock(enabled), path, text)
    ensures if enabled then HasPolicy(text) else HasNoPolicy(text)
  {
    hide Navigate, IsContent, SyncDisable.DisableSettles, Block;
    assert WithSyncPolicy(text, enabled) == Ok(text) by {
      SyncApplied(codec, SyncBlock(enabled), path, text);
    }
    SyncDisable.PolicySettledIff(text, enabled);
    if enabled {
      EnabledHeld(text);
    } else {
      DisabledHeld(text);
    }
  }

  lemma StaysAdopted(text: string, enabled: bool)
    requires WithSyncPolicy(text, enabled) == Ok(text)
    ensures Adopted(text).Ok? && LinesOf(Adopted(text).value).Ok? && Navigate(LinesOf(Adopted(text).value).value).Ok?
  {
    hide Navigate;
  }

  /** A file that an enable leaves as it is has the lines of an enabled one. */
  lemma EnabledLines(text: string)
    requires WithSyncPolicy(text, true) == Ok(text) && SyncDisable.PolicySettles(text, true)
    ensures Adopted(text).Ok? && LinesOf(Adopted(text).value).Ok?
    ensures var lines := LinesOf(Adopted(text).value).value;
            && Navigate(lines).Ok? && SyncPolicyLaws.FindsItsBlock(lines, Navigate(lines).value)
            && LinesOf(text) == Ok(SyncPolicyLaws.Enabled(lines, Navigate(lines).value))
  {
    hide Navigate, IsContent, Block, Join, SyncPolicyLaws.Enabled, SyncPolicyLaws.FindsItsBlock, SyncPolicyLaws.BlockStart, IsAdopted;
    StaysAdopted(text, true);
    AdoptedFacts(text);
    LinesOfFile(Adopted(text).value);
    var lines := LinesOf(Adopted(text).value).value;
    var site := Navigate(lines).value;
    SyncPolicyLaws.EnableIsEnabled(lines);
    SyncPolicyLaws.EnabledFile(lines, site);
    SyncPolicyLaws.FollowedAfter(lines, site);
    LinesOfJoin(SyncPolicyLaws.Enabled(lines, site));
  }

  lemma EnabledHeld(text: string)
    requires WithSyncPolicy(text, true) == Ok(text) && SyncDisable.PolicySettles(text, true)
    ensures HasPolicy(text)
  {
    hide Navigate, IsContent, Block, WithSyncPolicy, Adopted, LinesOf, SyncPolicyLaws.Enabled, SyncPolicyLaws.FindsItsBlock, SyncDisable.PolicySettles,
         SyncPolicyLaws.BlockStart, SyncPolicyLaws.BlockIndent, LinesWithSyncPolicy;
    EnabledLines(text);
    var lines := LinesOf(Adopted(text).value).value;
    var site := Navigate(lines).value;
    SyncPolicyLaws.EnableLeavesFixedBlock(lines);
    var once := SyncPolicyLaws.Enabled(lines, site);
    BlockLiterals(once, Navigate(once).value.sync.value.automated.value.0, SyncPolicyLaws.BlockIndent(site));
  }

  lemma BlockLiterals(lines: seq<string>, at: nat, indent: nat)
    requires at + 3 <= |lines| && lines[at..at + 3] == Block(indent)
    ensures lines[at] == Pad(indent) + "automated:"
    ensures lines[at + 1] == Pad(indent) + "  prune: true"
    ensures lines[at + 2] == Pad(indent) + "  selfHeal: true"
  {
    assert lines[at] == lines[at..at + 3][0] && lines[at + 1] == lines[at..at + 3][1] && lines[at + 2] == lines[at..at + 3][2];
  }

  lemma DisabledHeld(text: string)
    requires WithSyncPolicy(text, false) == Ok(text)
    ensures HasNoPolicy(text)
  {
    hide Navigate, IsContent, Join, SyncPolicyLaws.Disabled;
    StaysAdopted(text, false);
    AdoptedFacts(text);
    LinesOfFile(Adopted(text).value);
    var lines := LinesOf(Adopted(text).value).value;
    var site := Navigate(lines).value;
    if site.sync.Some? && site.sync.value.automated.Some? {
      SyncPolicyLaws.DisabledIs(lines, site);
      SyncPolicyLaws.DisabledFile(lines, site);
      var once := SyncPolicyLaws.Disabled(lines, site);
      Shorter(lines, site);
      if SyncPolicyLaws.KeepsFinalNewline(lines, site) {
        LinesOfJoin(once);
        SyncDisable.SecondDisable(once);
        SyncDisable.UntouchedIff(once);
      } else {
        LinesOfFile(text);
      }
    } else {
      assert text == Adopted(text).value;
    }
  }

  lemma Shorter(lines: seq<string>, site: Site)
    requires Navigate(lines) == Ok(site) && site.sync.Some? && site.sync.value.automated.Some?
    ensures |SyncPolicyLaws.Disabled(lines, site)| < |lines|
  {
    hide Navigate;
  }

  // ----- JSON --------------------------------------------------------------------------------------------

  lemma {:induction false} GetsAlike(floats: real -> bool, a: Json, b: Json, path: seq<Segment>)
    requires Proper(floats, a) && Proper(floats, b) && Alike(a, b)
    ensures GetAt(a, path).Some? == GetAt(b, path).Some?
    ensures GetAt(a, path).Some? ==> Alike(GetAt(a, path).value, GetAt(b, path).value)
    decreases |path|
  {
    hide SortedKeys, Child, ChildIndex, Alike;
    if path != [] {
      AlikeIndex(a, b, path[0]);
      if ChildIndex(a, path[0]).Some? {
        var k, m := ChildIndex(a, path[0]).value, ChildIndex(b, path[0]).value;
        ProperChild(floats, a, k);
        ProperChild(floats, b, m);
        GetsAlike(floats, Child(a, k), Child(b, m), path[1..]);
      }
    }
  }

  /** The document of the text has the value at the path. */
  ghost predicate Says(codec: Codec, text: string, path: seq<Segment>, value: Json) {
    var data := codec.parse(text);
    data.Some? && GetAt(data.value, path).Some? && Alike(GetAt(data.value, path).value, value)
  }

  lemma JsonHeld(codec: Codec, segments: Option<seq<Segment>>, value: Json, path: string, text: string)
    requires codec.Lawful() && Proper(codec.floats, value) && Holds(codec, SetJson(segments, value), path, text)
    ensures segments.Some? && Says(codec, text, segments.value, value)
  {
    hide SetAt, GetAt, Alike, Codec.Lawful;
    var data := codec.parse(text).value;
    PatchIs(codec, text);
    SetGet(data, segments.value, value);
    SetKeepsObject(data, segments.value, value);
    SetProper(codec.floats, data, segments.value, value);
    var patched := SetAt(data, segments.value, value).value;
    assert text == codec.emit(patched);
    ParsesBack(codec, patched);
    GetsAlike(codec.floats, codec.parse(text).value, patched, segments.value);
    AlikeItself(value);
  }

  lemma AlikeItself(j: Json)
    ensures Alike(j, j)
  {
  }

  lemma ParsesBack(codec: Codec, j: Json)
    requires codec.Lawful() && j.Obj? && Proper(codec.floats, j)
    ensures var parsed := codec.parse(codec.emit(j));
            parsed == Some(SortedKeys(j)) && Proper(codec.floats, parsed.value) && Alike(parsed.value, j)
  {
    SortedProper(codec.floats, j);
    SortedTwice(codec.floats, j);
  }
}
