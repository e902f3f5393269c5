/** What a contract file may say besides its facts: comments and unknown blocks do not
    change the loaded machine, except for lists that follow the audit fields. */
module MachineProse {
  import opened Results
  import opened Text
  import opened Indented
  import opened MachineFile
  import opened MachineLaws

  lemma {:induction false} ReadLinesAppend(p: Reader, a: seq<string>, b: seq<string>)
    requires p.Valid()
    ensures ReadLines(p, a + b) == ReadLines(ReadLines(p, a), b)
    decreases |a|
  {
    hide ReadLine;
    if a == [] {
      assert a + b == b;
    } else {
      assert (a + b)[1..] == a[1..] + b;
      ReadLinesAppend(ReadLine(p, a[0]), a[1..], b);
    }
  }

  // ----- comments ------------------------------------------------------------------------------

  lemma {:induction false} SilentLines(p: Reader, noise: seq<string>)
    requires p.Valid() && forall i :: 0 <= i < |noise| ==> Tokenize(noise[i]).None?
    ensures ReadLines(p, noise) == p
    decreases |noise|
  {
    hide Tokenize;
    if noise != [] {
      SilentLines(p, noise[1..]);
    }
  }

  /** Blank lines and comments, at any indentation and anywhere in the file. */
  lemma CommentsDoNothing(before: seq<string>, noise: seq<string>, after: seq<string>)
    requires forall i :: 0 <= i < |noise| ==> Tokenize(noise[i]).None?
    ensures Load(before + noise + after) == Load(before + after)
  {
    hide Tokenize, ReadLine, Finish;
    var p := ReadLines(START, before);
    ReadLinesAppend(START, before, noise);
    ReadLinesAppend(START, before + noise, after);
    ReadLinesAppend(START, before, after);
    SilentLines(p, noise);
  }

  // ----- unknown blocks ---------------------------------------------------------------------------

  /** An unknown field of the section being read: its head line. */
  predicate UnknownHead(p: Reader, t: Token) {
    || (p.section == Some("state_machine") && t.indent == 2 && t.text != "states:" && t.text != "terminal_states:"
        && !StartsWith(t.text, "initial_state:"))
    || (p.section == Some("transitions") && p.current.Some? && t.indent == 4 && t.text != "from:" && t.text != "approval:"
        && t.text != "audit:" && !StartsWith(t.text, "to:") && !StartsWith(t.text, "idempotent:"))
  }

  /** The head of the unknown field and whatever is indented deeper, in any wording. */
  predicate UnknownBlock(p: Reader, block: seq<string>) {
    && block != [] && Tokenize(block[0]).Some? && UnknownHead(p, Tokenize(block[0]).value)
    && forall i :: 1 <= i < |block| && Tokenize(block[i]).Some? ==> Tokenize(block[i]).value.indent > Tokenize(block[0]).value.indent
  }

  /** A line that leaves any field: a section, a transition's name, or the next field. */
  predicate Resumes(p: Reader, raw: string) {
    match Tokenize(raw)
    case None => false
    case Some(t) =>
      || t.indent == 0
      || (t.indent == 2 && (p.section == Some("state_machine") || EndsWithColon(t.text)))
      || (t.indent == 4 && p.section == Some("transitions"))
  }

  /** Outside any field. */
  function Aside(p: Reader): (q: Reader)
    requires p.Valid()
    ensures q.Valid()
  {
    if p.section == Some("state_machine") then p.(list := NoList) else p.(field := NoField, inRequired := false)
  }

  lemma HeadIsAside(p: Reader, t: Token)
    requires p.Valid() && t.text != "" && UnknownHead(p, t)
    ensures Read(p, t) == Aside(p)
  {
    hide ReadBelow;
  }

  lemma DeeperIgnored(p: Reader, t: Token)
    requires p.Valid() && t.text != ""
    requires (p.section == Some("state_machine") && p.list == NoList && t.indent > 2)
             || (p.section == Some("transitions") && p.current.Some? && p.field == NoField && !p.inRequired && t.indent > 4)
    ensures Read(p, t) == p
  {
    hide ReadField;
  }

  lemma {:induction false} ProseIgnored(p: Reader, prose: seq<string>)
    requires p.Valid()
    requires (p.section == Some("state_machine") && p.list == NoList)
             || (p.section == Some("transitions") && p.current.Some? && p.field == NoField && !p.inRequired)
    requires forall i :: 0 <= i < |prose| && Tokenize(prose[i]).Some? ==>
               Tokenize(prose[i]).value.indent > if p.section == Some("state_machine") then 2 else 4
    ensures ReadLines(p, prose) == p
    decreases |prose|
  {
    hide Strip, Read;
    if prose != [] {
      if Tokenize(prose[0]).Some? {
        DeeperIgnored(p, Tokenize(prose[0]).value);
      }
      assert ReadLine(p, prose[0]) == p;
      ProseIgnored(p, prose[1..]);
    }
  }

  lemma UnknownBlockIsAside(p: Reader, block: seq<string>)
    requires p.Valid() && UnknownBlock(p, block)
    ensures ReadLines(p, block) == Aside(p)
  {
    hide Strip, Read;
    HeadIsAside(p, Tokenize(block[0]).value);
    assert ReadLine(p, block[0]) == Aside(p);
    forall i | 0 <= i < |block[1..]| && Tokenize(block[1..][i]).Some?
      ensures Tokenize(block[1..][i]).value.indent > Tokenize(block[0]).value.indent
    {
      assert block[1..][i] == block[i + 1];
    }
    ProseIgnored(Aside(p), block[1..]);
  }

  lemma ResumeForgets(p: Reader, raw: string)
    requires p.Valid() && Resumes(p, raw) && (p.section == Some("state_machine") || (p.section == Some("transitions") && p.current.Some?))
    ensures ReadLine(Aside(p), raw) == ReadLine(p, raw)
  {
    hide Strip, After, StartsWith, ReadBelow;
  }

  /** An unknown field with prose of any wording below it changes nothing, wherever in the
      two sections it stands: before a section, a transition, another field or the end. */
  lemma ProseDoesNothing(before: seq<string>, block: seq<string>, after: seq<string>)
    requires UnknownBlock(ReadLines(START, before), block)
    requires after == [] || Resumes(ReadLines(START, before), after[0])
    ensures Load(before + block + after) == Load(before + after)
  {
    hide Tokenize, ReadLine, UnknownBlock, Resumes;
    var p := ReadLines(START, before);
    ReadLinesAppend(START, before, block);
    ReadLinesAppend(START, before + block, after);
    ReadLinesAppend(START, before, after);
    UnknownBlockIsAside(p, block);
    if after != [] {
      BlockSection(p, block);
      ResumeForgets(p, after[0]);
    }
  }

  lemma BlockSection(p: Reader, block: seq<string>)
    requires UnknownBlock(p, block)
    ensures p.section == Some("state_machine") || (p.section == Some("transitions") && p.current.Some?)
  {
  }

  // ----- what follows the audit fields ----------------------------------------------------------------

  predicate IsLateItem(raw: string) {
    match Tokenize(raw)
    case None => false
    case Some(t) => t.indent == 8 && StartsWith(t.text, "- ")
  }

  /** The 8-indent items of some lines. */
  function LateItems(lines: seq<string>): seq<string> {
    if lines == [] then []
    else (if IsLateItem(lines[0]) then [After(Tokenize(lines[0]).value.text, "- ")] else []) + LateItems(lines[1..])
  }

  lemma AuditLine(p: Reader, raw: string)
    requires p.Valid() && InAudit(p) && (Tokenize(raw).Some? ==> Tokenize(raw).value.indent > 4)
    ensures ReadLine(p, raw) == Pushed(p, 8, LateItems([raw]))
  {
    PushedNothing(p, 8);
    hide Strip, After, ReadField;
    assert [raw][1..] == [] && LateItems([]) == [];
    if IsLateItem(raw) {
      assert LateItems([raw]) == [After(Tokenize(raw).value.text, "- ")];
    } else {
      assert LateItems([raw]) == [];
    }
  }

  lemma {:induction false} AuditLines(p: Reader, lines: seq<string>)
    requires p.Valid() && InAudit(p)
    requires forall i :: 0 <= i < |lines| && Tokenize(lines[i]).Some? ==> Tokenize(lines[i]).value.indent > 4
    ensures ReadLines(p, lines) == Pushed(p, 8, LateItems(lines))
    decreases |lines|
  {
    hide Tokenize, ReadLine, IsLateItem;
    if lines == [] {
      PushedNothing(p, 8);
    } else {
      AuditLine(p, lines[0]);
      var first := LateItems([lines[0]]);
      AuditLines(Pushed(p, 8, first), lines[1..]);
      PushedTwice(p, 8, first, LateItems(lines[1..]));
      assert [lines[0]][1..] == [] && LateItems([]) == [];
      assert LateItems(lines) == first + LateItems(lines[1..]);
    }
  }

  /** Once the audit fields have begun, a further key of the audit block does not end them:
      lines of that block are ignored exactly when none is an item at the fields' indentation,
      and every such item becomes a required audit field. */
  lemma AuditBlockIgnoredIff(p: Reader, block: seq<string>)
    requires p.Valid() && InAudit(p)
    requires forall i :: 0 <= i < |block| && Tokenize(block[i]).Some? ==> Tokenize(block[i]).value.indent > 4
    ensures ReadLines(p, block) == p <==> LateItems(block) == []
    ensures var name, q := p.current.value, ReadLines(p, block);
            name in q.drafts && q.drafts[name].required == p.drafts[name].required + LateItems(block)
  {
    hide ReadLines, LateItems, Tokenize;
    AuditLines(p, block);
    PushedNothing(p, 8);
    var name, q := p.current.value, ReadLines(p, block);
    assert q.drafts[name].required == p.drafts[name].required + LateItems(block);
    if LateItems(block) != [] {
      assert |q.drafts[name].required| > |p.drafts[name].required|;
    }
  }

  const NOTES: seq<string> := ["      notes:", "        - extra"]

  lemma NotesSay()
    ensures Line(Token(6, "notes:")) == NOTES[0] && Says(Token(6, "notes:"))
    ensures Line(Token(8, "- extra")) == NOTES[1] && Says(Token(8, "- extra"))
  {
  }

  lemma NotesTokens()
    ensures Tokenize(NOTES[0]) == Some(Token(6, "notes:")) && Tokenize(NOTES[1]) == Some(Token(8, Item("extra")))
    ensures After(Item("extra"), "- ") == "extra" && AllOneLine(NOTES)
  {
    hide Tokenize, After, Says, Line, OneLine;
    NotesSay();
    LineReads(Token(6, "notes:"));
    LineReads(Token(8, "- extra"));
    assert Item("extra") == "- extra";
    ExtraReads();
  }

  lemma ExtraReads()
    ensures Clean("extra") && StartsWith(Item("extra"), "- ") && After(Item("extra"), "- ") == "extra"
  {
    hide After;
    assert Clean("extra");
    ItemReads("extra");
  }

  lemma NotesItems()
    ensures LateItems(NOTES) == ["extra"]
  {
    hide Tokenize, After;
    NotesTokens();
    ExtraReads();
    assert NOTES[1..] == [NOTES[1]] && [NOTES[1]][1..] == [];
    assert LateItems([NOTES[1]]) == ["extra"] + LateItems([]);
  }

  /** The last transition with one more required field. */
  function WithExtra(m: Machine, name: string): Machine
    requires name in m.specs
  {
    m.(specs := m.specs[name := m.specs[name].(required := m.specs[name].required + ["extra"])])
  }

  /** So a list under any other key of an audit block joins the required fields: every
      loadable machine has such a file. */
  lemma LateListJoins(m: Machine, order: seq<string>)
    requires Printable(m) && Orders(order, m)
    ensures order != [] && order[|order| - 1] in m.specs
    ensures LoadText(FileOf(Print(m, order) + NOTES)) == Ok(WithExtra(m, order[|order| - 1]))
  {
    hide SpecOk, Tokenize, After, Print, ReadLines, Holds, OneLine, SplitLines, FileOf, WithExtra, Finish, LateItems, Pushed;
    assert "purge" in m.specs && "purge" in order;
    PrintedMachineReads(m, order);
    NotesTokens();
    NotesItems();
    var p := ReadLines(START, Print(m, order));
    HoldsInAudit(p, m, order);
    AuditLines(p, NOTES);
    ReadLinesAppend(START, Print(m, order), NOTES);
    SplitFile(Print(m, order) + NOTES);
    JoinedFinishes(m, order, p);
  }

  lemma HoldsInAudit(p: Reader, m: Machine, order: seq<string>)
    requires Holds(p, m, order) && order != []
    ensures InAudit(p)
  {
  }

  lemma ExtraPrintable(m: Machine, name: string)
    requires Printable(m) && name in m.specs
    ensures Printable(WithExtra(m, name))
  {
    hide Clean, Trimmed, NameOk, Within;
    ExtraReads();
    AppendClean(m.specs[name].required, "extra");
  }

  lemma JoinedFinishes(m: Machine, order: seq<string>, p: Reader)
    requires Printable(m) && Orders(order, m) && order != [] && p.Valid() && Holds(p, m, order)
    ensures Finish(Pushed(p, 8, ["extra"])) == Ok(WithExtra(m, order[|order| - 1]))
  {
    hide SpecOk, Clean, Trimmed, AllClean, CheckDrafts, SpecsOf, DraftPasses;
    var name := order[|order| - 1];
    var m' := WithExtra(m, name);
    ExtraPrintable(m, name);
    SpecsBack(m');
    AllPassIff(order, DraftsOf(m'.specs), m.states);
    var q := Pushed(p, 8, ["extra"]);
    assert q.drafts == DraftsOf(m'.specs);
    assert m'.specs.Keys == m.specs.Keys == SpecsOf(q.drafts).Keys;
  }

  // ----- the machine the service runs on ------------------------------------------------------------------

  /** Whatever loads meets what the tenant service's theorems ask of its machine. */
  lemma LoadedServes(text: string)
    requires LoadText(text).Ok?
    ensures ForService(LoadText(text).value).WellFormed()
    ensures forall n :: n in {"provision", "suspend", "resume", "offboard", "purge"} ==> n in ForService(LoadText(text).value).specs
  {
    LoadedIsPrintable(text);
    hide LoadText, Trimmed;
    var m := LoadText(text).value;
    forall n | n in m.specs ensures m.specs[n].to in SetOf(m.states) && SetOf(m.specs[n].from) <= SetOf(m.states) {
      assert SpecOk(m.specs[n], m.states);
    }
  }
}
