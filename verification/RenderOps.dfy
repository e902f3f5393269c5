/** The patch one binding applies to one file, and what sequences of such patches
    do (the strategy handlers of render.py, seen file by file). */
module RenderOps {
  import opened Results
  import opened Json
  import opened JsonKeys
  import opened JsonPatch
  import opened YamlLines
  import opened YamlScalars
  import opened YamlLens
  import opened YamlTopLevel
  import opened YamlMixed
  import opened SyncPolicy
  import SyncPolicyLaws
  import SyncDisable

  const ISOLATION_KEY := "default_isolation_class"

  /** `Own` writes a whole file; every other patch rewrites an existing text. */
  datatype Op =
    | SetJson(path: Option<seq<Segment>>, value: Json)
    | SetScalar(dotted: string, rendered: string)
    | SetTopLevel(text: string)
    | Adopt
    | SyncBlock(enabled: bool)
    | Own(content: string)

  datatype RenderError =
    | Patch(reason: PatchError)
    | MissingTarget(path: string)
    | MissingDirectory(path: string)
    | OutOfScope(path: string)
    | Uncataloged
    | BadTransform
    | BadValue
    | BadTarget
    | NoManifests
    | NoLeaf

  predicate ValidOp(op: Op) {
    op.SetJson? && op.path.Some? ==> op.path.value != []
  }

  /** The new text of a file after one patch; `None` is a file that does not exist. */
  function Apply(codec: Codec, op: Op, path: string, text: Option<string>): Result<string, RenderError>
    requires ValidOp(op)
  {
    if op.Own? then Ok(op.content)
    else if text.None? then Err(MissingTarget(path))
    else
      var r := match op
        case SetJson(segments, value) => PatchJson(codec, text.value, segments, value)
        case SetScalar(dotted, rendered) => AdoptedWithScalar(text.value, dotted, rendered)
        case SetTopLevel(rendered) => WithTopLevelScalar(text.value, ISOLATION_KEY, rendered)
        case Adopt => Adopted(text.value)
        case SyncBlock(enabled) => WithSyncPolicy(text.value, enabled);
      match r
      case Ok(patched) => Ok(patched)
      case Err(reason) => Err(Patch(reason))
  }

  // ----- which patches fit together ---------------------------------------------------

  /** Rendered scalars the patcher can replace again. */
  predicate PlainText(op: Op) {
    && ValidOp(op)
    && (op.SetScalar? ==> IsPlain(op.rendered))
    && (op.SetTopLevel? ==> IsPlain(op.text))
  }

  /** The same, and JSON values that are documents of the codec. */
  predicate Replaceable(codec: Codec, op: Op) {
    PlainText(op) && (op.SetJson? ==> Proper(codec.floats, op.value))
  }

  /** Two patches that write the same place: the later one decides. */
  predicate SamePlace(a: Op, b: Op) {
    match (a, b)
    case (SetJson(p, _), SetJson(q, _)) => p == q
    case (SetScalar(d, _), SetScalar(e, _)) => d == e
    case (SetTopLevel(_), SetTopLevel(_)) => true
    case (Adopt, Adopt) => true
    case (SyncBlock(e), SyncBlock(f)) => e == f
    case (Own(_), Own(_)) => true
    case _ => false
  }

  /** Patches of the line editor that keep to their own lines. */
  predicate LinePatch(op: Op) {
    op.SetScalar? || op.SetTopLevel? || op.Adopt?
  }

  /** The isolation key and the same key as a dotted scalar. */
  predicate Clash(a: Op, b: Op) {
    a.SetTopLevel? && b.SetScalar? && b.dotted == ISOLATION_KEY
  }

  /** Two patches of one file that may meet in one render: JSON locators equal or
      prefix-free, line patches that do not write the isolation key in two ways, the same
      sync policy, or whole files. */
  predicate Fit(a: Op, b: Op) {
    match (a, b)
    case (SetJson(p, _), SetJson(q, _)) => p.Some? && q.Some? && (p == q || Diverge(p.value, q.value))
    case (SyncBlock(e), SyncBlock(f)) => e == f
    case (Own(_), Own(_)) => true
    case _ => LinePatch(a) && LinePatch(b) && !Clash(a, b) && !Clash(b, a)
  }

  // ----- what the text must be like ------------------------------------------------------

  /** A second run of the sync policy changes nothing. */
  ghost predicate SyncStable(text: string, enabled: bool) {
    var once := WithSyncPolicy(text, enabled);
    once.Ok? ==> WithSyncPolicy(once.value, enabled) == once
  }

  lemma SettlesStable(text: string, enabled: bool)
    requires SyncDisable.PolicySettles(text, enabled)
    ensures SyncStable(text, enabled)
  {
    hide WithSyncPolicy, SyncDisable.PolicySettles;
    if WithSyncPolicy(text, enabled).Ok? {
      SyncDisable.PolicySettledIff(text, enabled);
    }
  }

  predicate Mixes(a: Op, b: Op) {
    (a.SetTopLevel? && b.SetScalar?) || (a.SetScalar? && b.SetTopLevel?)
  }

  /** The text lets the two patches meet: it is ready for the isolation key when a scalar
      and that key are written, and the sync policy settles on it. */
  ghost predicate Receives(a: Op, b: Op, text: Option<string>) {
    text.Some? ==>
      && (Mixes(a, b) ==> Ready(text.value, ISOLATION_KEY))
      && (a.SyncBlock? && b.SyncBlock? ==> SyncStable(text.value, a.enabled))
  }

  lemma {:induction false} DivergeSymmetric(p: seq<Segment>, q: seq<Segment>)
    requires Diverge(p, q)
    ensures Diverge(q, p)
    decreases |p|
  {
    if p[0] == q[0] {
      DivergeSymmetric(p[1..], q[1..]);
    }
  }

  lemma FitSymmetric(a: Op, b: Op)
    requires Fit(a, b)
    ensures Fit(b, a)
  {
    if a.SetJson? && a.path != b.path {
      DivergeSymmetric(a.path.value, b.path.value);
    }
  }

  lemma IsolationKeyBare()
    ensures IsBareKey(ISOLATION_KEY) && '.' !in ISOLATION_KEY
  {
    var parts := ["default_", "isolation_", "class"];
    assert ISOLATION_KEY == parts[0] + parts[1] + parts[2];
    assert forall i :: 0 <= i < |parts[0]| ==> IsKeyChar(parts[0][i]) && parts[0][i] != '.';
    assert forall i :: 0 <= i < |parts[1]| ==> IsKeyChar(parts[1][i]) && parts[1][i] != '.';
    assert forall i :: 0 <= i < |parts[2]| ==> IsKeyChar(parts[2][i]) && parts[2][i] != '.';
  }

  // ----- the two laws of fitting patches --------------------------------------------------

  /** Overwrite: a patch at the same place makes the earlier one irrelevant. */
  lemma Overwrite(codec: Codec, a: Op, b: Op, path: string, text: Option<string>)
    requires codec.Lawful() && Replaceable(codec, a) && Replaceable(codec, b) && Fit(a, b) && SamePlace(a, b) && Receives(a, b, text)
    requires Apply(codec, a, path, text).Ok?
    ensures Apply(codec, b, path, Some(Apply(codec, a, path, text).value)) == Apply(codec, b, path, text)
  {
    hide WithScalar, Adopted, WithTopLevelScalar, WithSyncPolicy, IsPlain, PatchJson, IsBareKey, Ready;
    match a {
      case SetJson(p, v) => PatchTwice(codec, text.value, p.value, v, b.value);
      case SetScalar(d, r) => OverwriteScalar(text.value, d, r, b.rendered);
      case SetTopLevel(r) =>
        IsolationKeyBare();
        TopLevelLaws(text.value, ISOLATION_KEY, r, b.text);
      case Adopt => AdoptedFacts(text.value);
      case SyncBlock(_) =>
      case Own(_) =>
    }
  }

  lemma OverwriteScalar(text: string, dotted: string, first: string, second: string)
    requires IsPlain(first) && AdoptedWithScalar(text, dotted, first).Ok?
    ensures AdoptedWithScalar(AdoptedWithScalar(text, dotted, first).value, dotted, second) == AdoptedWithScalar(text, dotted, second)
  {
    hide WithScalar, IsPlain, IsAdopted, Adopted;
    AdoptedFacts(text);
    var adopted := Adopted(text).value;
    ScalarKeepsMarker(adopted, dotted, first);
    AdoptedTwice(WithScalar(adopted, dotted, first).value);
    PutPut(adopted, dotted, first, second);
  }

  /** Independence: patches at different places commute, and neither decides
      whether the other succeeds. */
  lemma Independence(codec: Codec, a: Op, b: Op, path: string, text: Option<string>)
    requires codec.Lawful() && Replaceable(codec, a) && Replaceable(codec, b) && Fit(a, b) && !SamePlace(a, b) && Receives(a, b, text)
    requires Apply(codec, a, path, text).Ok?
    ensures var after := Apply(codec, b, path, Some(Apply(codec, a, path, text).value));
            && after.Ok? == Apply(codec, b, path, text).Ok?
            && (after.Ok? ==> after == Apply(codec, a, path, Some(Apply(codec, b, path, text).value)))
  {
    hide WithScalar, Adopted, WithTopLevelScalar, AdoptedWithScalar, WithSyncPolicy, IsPlain, PatchJson, IsBareKey, Ready;
    IsolationKeyBare();
    match (a, b) {
      case (SetJson(p, v), SetJson(q, w)) => PatchesCommute(codec, text.value, p.value, v, q.value, w);
      case (SetScalar(d, r), SetScalar(e, s)) => IndependentScalars(text.value, d, r, e, s);
      case (SetScalar(d, r), Adopt) => AdoptAfterScalar(text.value, d, r);
      case (Adopt, SetScalar(d, r)) => AdoptBeforeScalar(text.value, d, r);
      case (SetTopLevel(t), Adopt) => AdoptAndKey(text.value, ISOLATION_KEY, t);
      case (Adopt, SetTopLevel(t)) => AdoptAndKey(text.value, ISOLATION_KEY, t);
      case (SetTopLevel(t), SetScalar(d, r)) => ScalarAndKey(text.value, ISOLATION_KEY, t, d, r);
      case (SetScalar(d, r), SetTopLevel(t)) => ScalarAndKey(text.value, ISOLATION_KEY, t, d, r);
    }
  }

  lemma AdoptBeforeScalar(text: string, dotted: string, rendered: string)
    requires IsPlain(rendered) && Adopted(text).Ok?
    ensures AdoptedWithScalar(Adopted(text).value, dotted, rendered).Ok? == AdoptedWithScalar(text, dotted, rendered).Ok?
    ensures AdoptedWithScalar(text, dotted, rendered).Ok? ==>
              AdoptedWithScalar(Adopted(text).value, dotted, rendered) == Adopted(AdoptedWithScalar(text, dotted, rendered).value)
  {
    hide WithScalar, IsPlain, IsAdopted, Adopted;
    AdoptedFacts(text);
    if AdoptedWithScalar(text, dotted, rendered).Ok? {
      AdoptAfterScalar(text, dotted, rendered);
    }
  }

  lemma AdoptAfterScalar(text: string, dotted: string, rendered: string)
    requires IsPlain(rendered) && AdoptedWithScalar(text, dotted, rendered).Ok?
    ensures Adopted(text).Ok?
    ensures Adopted(AdoptedWithScalar(text, dotted, rendered).value) == AdoptedWithScalar(text, dotted, rendered)
    ensures AdoptedWithScalar(Adopted(text).value, dotted, rendered) == AdoptedWithScalar(text, dotted, rendered)
  {
    hide WithScalar, IsPlain, IsAdopted, Adopted;
    AdoptedFacts(text);
    var adopted := Adopted(text).value;
    ScalarKeepsMarker(adopted, dotted, rendered);
    AdoptedTwice(WithScalar(adopted, dotted, rendered).value);
  }

  lemma IndependentScalars(text: string, d: string, r: string, e: string, s: string)
    requires d != e && IsPlain(r) && IsPlain(s) && AdoptedWithScalar(text, d, r).Ok?
    ensures var after := AdoptedWithScalar(AdoptedWithScalar(text, d, r).value, e, s);
            && after.Ok? == AdoptedWithScalar(text, e, s).Ok?
            && (after.Ok? ==> after == AdoptedWithScalar(AdoptedWithScalar(text, e, s).value, d, r))
  {
    hide WithScalar, IsPlain, IsAdopted, Adopted;
    AdoptedFacts(text);
    var adopted := Adopted(text).value;
    ScalarKeepsMarker(adopted, d, r);
    AdoptedTwice(WithScalar(adopted, d, r).value);
    PutsCommute(adopted, d, r, e, s);
    if WithScalar(adopted, e, s).Ok? {
      ScalarKeepsMarker(adopted, e, s);
      AdoptedTwice(WithScalar(adopted, e, s).value);
    }
  }

  // ----- sequences of patches ----------------------------------------------------------------

  /** All patches of one file, in order. */
  function RunOps(codec: Codec, ops: seq<Op>, path: string, text: Option<string>): Result<Option<string>, RenderError>
    requires forall op :: op in ops ==> ValidOp(op)
  {
    if ops == [] then Ok(text)
    else
      var patched :- Apply(codec, ops[0], path, text);
      RunOps(codec, ops[1..], path, Some(patched))
  }

  ghost predicate FitTogether(codec: Codec, ops: seq<Op>, others: seq<Op>) {
    forall a, b :: a in ops && b in others ==> Replaceable(codec, a) && Replaceable(codec, b) && Fit(a, b)
  }

  predicate HasTop(ops: seq<Op>) {
    exists op :: op in ops && op.SetTopLevel?
  }

  predicate HasScalar(ops: seq<Op>) {
    exists op :: op in ops && op.SetScalar?
  }

  /** The isolation key is set before any scalar. */
  predicate TopFirst(ops: seq<Op>) {
    ops != [] && (ops[0].SetTopLevel? || (ops[0].Adopt? && TopFirst(ops[1..])))
  }

  /** What a file must be like for its patches to settle: ready for the isolation key if a
      scalar is written before it, and stable under the sync policy. */
  ghost predicate Prepared(ops: seq<Op>, text: Option<string>) {
    text.Some? ==>
      && (HasTop(ops) && HasScalar(ops) ==> Ready(text.value, ISOLATION_KEY) || TopFirst(ops))
      && forall op :: op in ops && op.SyncBlock? ==> SyncStable(text.value, op.enabled)
  }

  /** The same as conditions a caller can check before the render. */
  ghost predicate Receptive(ops: seq<Op>, text: Option<string>) {
    text.Some? ==>
      && (HasTop(ops) && HasScalar(ops) ==> Ready(text.value, ISOLATION_KEY) || TopFirst(ops))
      && forall op :: op in ops && op.SyncBlock? ==> SyncDisable.PolicySettles(text.value, op.enabled)
  }

  lemma ReceptivePrepared(ops: seq<Op>, text: Option<string>)
    requires Receptive(ops, text)
    ensures Prepared(ops, text)
  {
    hide Ready, SyncStable, SyncDisable.PolicySettles;
    if text.Some? {
      forall op | op in ops && op.SyncBlock? ensures SyncStable(text.value, op.enabled) {
        SettlesStable(text.value, op.enabled);
      }
    }
  }

  /** The same for a patch that comes before a sequence that writes its place. */
  ghost predicate PreparedFor(ops: seq<Op>, b: Op, text: Option<string>) {
    text.Some? ==>
      && (HasTop(ops) && (HasScalar(ops) || b.SetScalar?) ==> Ready(text.value, ISOLATION_KEY) || (TopFirst(ops) && !b.SetScalar?))
      && (b.SyncBlock? ==> SyncStable(text.value, b.enabled))
  }

  /** One line patch keeps a text ready, and the key itself makes it so. */
  lemma StaysReady(codec: Codec, op: Op, path: string, text: string)
    requires LinePatch(op) && Replaceable(codec, op) && Apply(codec, op, path, Some(text)).Ok?
    ensures Ready(text, ISOLATION_KEY) || op.SetTopLevel? ==> Ready(Apply(codec, op, path, Some(text)).value, ISOLATION_KEY)
  {
    hide WithScalar, Adopted, WithTopLevelScalar, AdoptedWithScalar, IsPlain, IsBareKey, Ready;
    IsolationKeyBare();
    match op {
      case SetScalar(d, r) => ReadyKept(text, ISOLATION_KEY, d, r);
      case SetTopLevel(t) => ReadyKept(text, ISOLATION_KEY, "", t);
      case Adopt =>
        assert IsPlain("a") by {
          OneLetter();
        }
        ReadyKept(text, ISOLATION_KEY, "", "a");
    }
  }

  lemma OneLetter()
    ensures IsPlain("a")
  {
  }

  /** The first patch of a sequence meets the patch that comes before it. */
  lemma FirstReceives(ops: seq<Op>, b: Op, text: Option<string>)
    requires ops != [] && Fit(ops[0], b) && PreparedFor(ops, b, text) && exists op :: op in ops && SamePlace(op, b)
    ensures Receives(b, ops[0], text)
  {
    hide Ready, SyncStable;
    var a := ops[0];
    assert a in ops;
    if text.Some? && Mixes(b, a) {
      var op :| op in ops && SamePlace(op, b);
      assert HasTop(ops) && (HasScalar(ops) || b.SetScalar?);
    }
  }

  /** After the first patch the rest of the sequence is prepared. */
  lemma RestPrepared(codec: Codec, ops: seq<Op>, b: Op, path: string, text: Option<string>)
    requires ops != [] && (forall op :: op in ops ==> Fit(op, b)) && !SamePlace(ops[0], b) && PreparedFor(ops, b, text) && Replaceable(codec, ops[0])
    requires Apply(codec, ops[0], path, text).Ok?
    ensures PreparedFor(ops[1..], b, Some(Apply(codec, ops[0], path, text).value))
  {
    hide Ready, SyncStable, Apply, Replaceable;
    var a, rest := ops[0], ops[1..];
    assert a in ops;
    forall op | op in rest ensures Fit(op, b) {
      assert op in ops;
    }
    if LinePatch(a) {
      LineNeedsText(codec, a, path, text);
      StaysReady(codec, a, path, text.value);
      if HasTop(rest) && (HasScalar(rest) || b.SetScalar?) {
        assert HasTop(ops) && (HasScalar(ops) || b.SetScalar?);
      }
    }
  }

  lemma LineNeedsText(codec: Codec, op: Op, path: string, text: Option<string>)
    requires LinePatch(op) && ValidOp(op) && Apply(codec, op, path, text).Ok?
    ensures text.Some?
  {
  }

  /** A patch whose place a later sequence writes anyway leaves no trace. */
  lemma {:induction false} Absorb(codec: Codec, ops: seq<Op>, b: Op, path: string, text: Option<string>)
    requires codec.Lawful() && FitTogether(codec, ops, [b]) && Replaceable(codec, b) && ValidOp(b)
    requires exists op :: op in ops && SamePlace(op, b)
    requires forall op :: op in ops ==> ValidOp(op)
    requires Apply(codec, b, path, text).Ok? && PreparedFor(ops, b, text)
    ensures var first := RunOps(codec, ops, path, Some(Apply(codec, b, path, text).value));
            first.Ok? == RunOps(codec, ops, path, text).Ok?
            && (first.Ok? ==> first == RunOps(codec, ops, path, text))
    decreases |ops|
  {
    hide Apply, Replaceable, SamePlace, Fit, ValidOp, PreparedFor, Receives;
    var a := ops[0];
    var rest := ops[1..];
    assert a in ops && b in [b];
    var u := Apply(codec, b, path, text).value;
    FirstReceives(ops, b, text);
    FitSymmetric(a, b);
    SamePlaceSymmetric(a, b);
    if SamePlace(b, a) {
      Overwrite(codec, b, a, path, text);
    } else {
      Independence(codec, b, a, path, text);
      if Apply(codec, a, path, text).Ok? {
        var op :| op in ops && SamePlace(op, b);
        assert op in rest;
        forall x | x in ops ensures Fit(x, b) {
          assert x in ops && b in [b];
        }
        RestPrepared(codec, ops, b, path, text);
        Absorb(codec, rest, b, path, Some(Apply(codec, a, path, text).value));
      }
    }
  }

  lemma SamePlaceSymmetric(a: Op, b: Op)
    ensures SamePlace(a, b) == SamePlace(b, a)
  {
  }

  /** Every place `others` writes, `ops` writes too. */
  ghost predicate Covers(ops: seq<Op>, others: seq<Op>) {
    forall b :: b in others ==> exists op :: op in ops && SamePlace(op, b)
  }

  lemma CoversRest(ops: seq<Op>, others: seq<Op>)
    requires others != [] && Covers(ops, others)
    ensures Covers(ops, others[1..])
  {
    hide SamePlace;
    forall b | b in others[1..] ensures exists op :: op in ops && SamePlace(op, b) {
      assert b in others;
    }
  }

  /** Prepared for two sequences: for the one that runs last, and when the text is not ready
      for the isolation key, both set it first. */
  ghost predicate PreparedBoth(ops: seq<Op>, others: seq<Op>, text: Option<string>) {
    && Prepared(ops, text)
    && (text.Some? && HasTop(ops) && HasScalar(ops) ==> Ready(text.value, ISOLATION_KEY) || TopFirst(others))
  }

  lemma PreparedOne(ops: seq<Op>, others: seq<Op>, text: Option<string>)
    requires others != [] && PreparedBoth(ops, others, text) && Covers(ops, others)
    ensures PreparedFor(ops, others[0], text)
  {
    hide Ready, SyncStable;
    var b := others[0];
    assert b in others;
    var op :| op in ops && SamePlace(op, b);
    if b.SetScalar? {
      assert HasScalar(ops);
    }
  }

  /** A sync policy that settled stays settled. */
  lemma SettledStable(text: string, enabled: bool)
    requires SyncStable(text, enabled) && WithSyncPolicy(text, enabled).Ok?
    ensures SyncStable(WithSyncPolicy(text, enabled).value, enabled)
  {
    hide WithSyncPolicy;
  }

  lemma OthersPrepared(codec: Codec, ops: seq<Op>, others: seq<Op>, path: string, text: Option<string>)
    requires others != [] && PreparedBoth(ops, others, text) && Covers(ops, others) && FitTogether(codec, ops, others) && ValidOp(others[0])
    requires Apply(codec, others[0], path, text).Ok?
    ensures PreparedBoth(ops, others[1..], Some(Apply(codec, others[0], path, text).value))
  {
    hide Ready, WithSyncPolicy, WithScalar, WithTopLevelScalar, AdoptedWithScalar, Adopted, SyncStable, Replaceable, TopFirst;
    var b := others[0];
    assert b in others;
    var op :| op in ops && SamePlace(op, b);
    assert op in ops && b in others && Fit(op, b) && Replaceable(codec, b);
    forall x | x in ops ensures Fit(x, b) {
      assert x in ops && b in others;
    }
    if LinePatch(b) {
      StaysReady(codec, b, path, text.value);
      if HasTop(ops) && HasScalar(ops) && !Ready(text.value, ISOLATION_KEY) {
        FirstOfTop(others);
      }
    } else if b.SyncBlock? {
      SettledStable(text.value, b.enabled);
    }
  }

  lemma FirstOfTop(ops: seq<Op>)
    requires TopFirst(ops)
    ensures ops != [] && (ops[0].SetTopLevel? || TopFirst(ops[1..]))
  {
  }

  /** Running covered patches first does not change what `ops` produce. */
  lemma {:induction false} AbsorbAll(codec: Codec, ops: seq<Op>, others: seq<Op>, path: string, text: Option<string>)
    requires codec.Lawful() && FitTogether(codec, ops, others) && Covers(ops, others) && PreparedBoth(ops, others, text)
    requires forall op :: op in ops + others ==> ValidOp(op)
    requires RunOps(codec, others, path, text).Ok? && RunOps(codec, ops, path, text).Ok?
    ensures RunOps(codec, ops, path, RunOps(codec, others, path, text).value) == RunOps(codec, ops, path, text)
    decreases |others|
  {
    hide Apply, Replaceable, SamePlace, Fit, ValidOp, PreparedBoth, PreparedFor;
    if others != [] {
      var b := others[0];
      assert b in others;
      PreparedOne(ops, others, text);
      Absorb(codec, ops, b, path, text);
      OthersPrepared(codec, ops, others, path, text);
      CoversRest(ops, others);
      AbsorbAll(codec, ops, others[1..], path, Some(Apply(codec, b, path, text).value));
    }
  }

  /** Running a fitting sequence on its own result changes nothing. */
  lemma Idempotent(codec: Codec, ops: seq<Op>, path: string, text: Option<string>)
    requires codec.Lawful() && FitTogether(codec, ops, ops) && Prepared(ops, text)
    requires forall op :: op in ops ==> ValidOp(op)
    requires RunOps(codec, ops, path, text).Ok?
    ensures RunOps(codec, ops, path, RunOps(codec, ops, path, text).value) == RunOps(codec, ops, path, text)
  {
    hide Apply, Ready, SyncStable;
    forall b | b in ops ensures exists op :: op in ops && SamePlace(op, b) {
      assert Fit(b, b);
      assert SamePlace(b, b);
    }
    AbsorbAll(codec, ops, ops, path, text);
  }

  /** What a sequence of sync policies leaves is stable under them. */
  lemma {:induction false} LeavesStable(codec: Codec, ops: seq<Op>, path: string, text: string, enabled: bool)
    requires forall op :: op in ops ==> op == SyncBlock(enabled)
    requires SyncStable(text, enabled) && RunOps(codec, ops, path, Some(text)).Ok?
    ensures RunOps(codec, ops, path, Some(text)).value.Some? && SyncStable(RunOps(codec, ops, path, Some(text)).value.value, enabled)
    decreases |ops|
  {
    hide SyncStable, WithSyncPolicy;
    if ops != [] {
      assert ops[0] in ops;
      SettledStable(text, enabled);
      forall op | op in ops[1..] ensures op == SyncBlock(enabled) {
        assert op in ops;
      }
      LeavesStable(codec, ops[1..], path, WithSyncPolicy(text, enabled).value, enabled);
    }
  }

  /** What a sequence leaves is ready for the isolation key, if the sequence sets it. */
  lemma {:induction false} LeavesReady(codec: Codec, ops: seq<Op>, path: string, text: string)
    requires forall op :: op in ops ==> ValidOp(op) && LinePatch(op) && Replaceable(codec, op)
    requires RunOps(codec, ops, path, Some(text)).Ok? && (HasTop(ops) || Ready(text, ISOLATION_KEY))
    ensures RunOps(codec, ops, path, Some(text)).value.Some? && Ready(RunOps(codec, ops, path, Some(text)).value.value, ISOLATION_KEY)
    decreases |ops|
  {
    hide Apply, Ready, Replaceable;
    if ops != [] {
      assert ops[0] in ops;
      StaysReady(codec, ops[0], path, text);
      if HasTop(ops) && !ops[0].SetTopLevel? {
        var op :| op in ops && op.SetTopLevel?;
        assert op in ops[1..];
      }
      LeavesReady(codec, ops[1..], path, Apply(codec, ops[0], path, Some(text)).value);
    }
  }

  lemma FirstNeedsText(codec: Codec, ops: seq<Op>, path: string, text: Option<string>)
    requires forall op :: op in ops ==> ValidOp(op)
    requires ops != [] && !ops[0].Own? && RunOps(codec, ops, path, text).Ok?
    ensures text.Some?
  {
  }

  /** After a sequence ran, any sequence may run before it again. */
  lemma LeavesPrepared(codec: Codec, ops: seq<Op>, others: seq<Op>, path: string, text: Option<string>)
    requires FitTogether(codec, ops, ops) && Prepared(ops, text)
    requires forall op :: op in ops ==> ValidOp(op)
    requires RunOps(codec, ops, path, text).Ok?
    ensures PreparedBoth(ops, others, RunOps(codec, ops, path, text).value)
  {
    hide RunOps, Ready, SyncStable, Replaceable, ValidOp, TopFirst;
    if HasTop(ops) {
      var top :| top in ops && top.SetTopLevel?;
      forall op | op in ops ensures LinePatch(op) && Replaceable(codec, op) {
        assert Fit(op, top);
      }
      assert ops[0] in ops;
      FirstNeedsText(codec, ops, path, text);
      LeavesReady(codec, ops, path, text.value);
    }
    if sync :| sync in ops && sync.SyncBlock? {
      forall op | op in ops ensures op == SyncBlock(sync.enabled) {
        assert Fit(op, sync);
      }
      assert ops[0] in ops;
      FirstNeedsText(codec, ops, path, text);
      LeavesStable(codec, ops, path, text.value, sync.enabled);
    }
  }

  // ----- line ends -----------------------------------------------------------------------------

  /** What a patch writes holds no carriage return. */
  lemma ApplyNoReturn(codec: Codec, op: Op, path: string, text: Option<string>)
    requires codec.Lawful() && PlainText(op) && (op.Own? ==> '\r' !in op.content)
    requires Apply(codec, op, path, text).Ok?
    ensures '\r' !in Apply(codec, op, path, text).value
  {
    hide WithScalar, Adopted, WithTopLevelScalar, AdoptedWithScalar, WithSyncPolicy, IsPlain, PatchJson, IsBareKey, IsAdopted, Codec.Lawful;
    match op {
      case SetJson(p, v) => JsonNoReturn(codec, text.value, p, v);
      case SetScalar(d, r) => ScalarNoReturn(text.value, d, r);
      case SetTopLevel(t) =>
        IsolationKeyBare();
        TopLevelLaws(text.value, ISOLATION_KEY, t, t);
        TopLevelNoReturn(Apply(codec, op, path, text).value, t);
      case Adopt =>
        AdoptedFacts(text.value);
        AdoptedNoReturn(Apply(codec, op, path, text).value);
      case SyncBlock(e) => SyncPolicyLaws.PolicyNoReturn(text.value, e);
      case Own(_) =>
    }
  }

  lemma EmitNoReturn(codec: Codec, j: Json)
    requires codec.Lawful()
    ensures '\r' !in codec.emit(j)
  {
    hide Proper, SortedKeys, Alike;
  }

  lemma JsonNoReturn(codec: Codec, text: string, path: Option<seq<Segment>>, value: Json)
    requires codec.Lawful() && (path.Some? ==> path.value != []) && PatchJson(codec, text, path, value).Ok?
    ensures '\r' !in PatchJson(codec, text, path, value).value
  {
    hide SetAt, Codec.Lawful;
    EmitNoReturn(codec, SetAt(codec.parse(text).value, path.value, value).value);
  }

  lemma AdoptedNoReturn(text: string)
    requires Adopted(text).Ok?
    ensures '\r' !in text
  {
  }

  lemma TopLevelNoReturn(text: string, rendered: string)
    requires WithTopLevelScalar(text, ISOLATION_KEY, rendered).Ok?
    ensures '\r' !in text
  {
    hide LinesWithTopLevel;
  }

  lemma ScalarNoReturn(text: string, dotted: string, rendered: string)
    requires IsPlain(rendered) && AdoptedWithScalar(text, dotted, rendered).Ok?
    ensures '\r' !in AdoptedWithScalar(text, dotted, rendered).value
  {
    hide WithScalar, IsPlain, IsAdopted, Adopted;
    AdoptedFacts(text);
    ScalarKeepsMarker(Adopted(text).value, dotted, rendered);
    AdoptedTwice(AdoptedWithScalar(text, dotted, rendered).value);
    AdoptedNoReturn(AdoptedWithScalar(text, dotted, rendered).value);
  }

  lemma {:induction false} RunNoReturn(codec: Codec, ops: seq<Op>, path: string, text: Option<string>)
    requires codec.Lawful() && forall op :: op in ops ==> ValidOp(op) && PlainText(op) && (op.Own? ==> '\r' !in op.content)
    requires text.Some? ==> '\r' !in text.value
    requires RunOps(codec, ops, path, text).Ok?
    ensures var after := RunOps(codec, ops, path, text).value;
            after.Some? ==> '\r' !in after.value
    decreases |ops|
  {
    hide Apply, PlainText, Codec.Lawful;
    if ops != [] {
      assert ops[0] in ops;
      ApplyNoReturn(codec, ops[0], path, text);
      RunNoReturn(codec, ops[1..], path, Some(Apply(codec, ops[0], path, text).value));
    }
  }
}
