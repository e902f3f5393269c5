/** What loading the lifecycle contract guarantees: printing and loading are inverse on
    exactly the machines that can be loaded, and prose does not change the result. */
module MachineLaws {
  import opened Results
  import opened Text
  import opened Indented
  import opened MachineFile
  import Ordering

  // ----- printing ---------------------------------------------------------------------------

  function Items(n: nat, xs: seq<string>): (tokens: seq<Token>)
    ensures |tokens| == |xs|
  {
    seq(|xs|, i requires 0 <= i < |xs| => Token(n, Item(xs[i])))
  }

  function RiskTokens(risk: Option<string>): seq<Token> {
    match risk
    case None => []
    case Some(text) => [Token(4, "approval:"), Token(6, Field("risk_class:", text))]
  }

  function ScalarTokens(s: TransitionSpec): seq<Token> {
    [Token(4, Field("to:", s.to)), Token(4, Field("idempotent:", if s.idempotent then "true" else "false"))]
  }

  function SpecTokens(s: TransitionSpec): seq<Token> {
    [Token(2, s.name + ":"), Token(4, "from:")] + (Items(6, s.from)
    + (ScalarTokens(s)
    + (RiskTokens(s.risk) + ([Token(4, "audit:"), Token(6, "required_fields:")] + Items(8, s.required)))))
  }

  function SpecsTokens(specs: map<string, TransitionSpec>, order: seq<string>): seq<Token>
    requires forall n :: n in order ==> n in specs
  {
    if order == [] then [] else SpecTokens(specs[order[0]]) + SpecsTokens(specs, order[1..])
  }

  function HeadTokens(m: Machine): seq<Token> {
    [Token(0, "state_machine:"), Token(2, "states:")] + (Items(4, m.states)
    + ([Token(2, Field("initial_state:", m.initial)), Token(2, "terminal_states:")] + Items(4, m.terminals)))
  }

  /** The machine in the contract's indentation shape, its transitions in any order. */
  function Print(m: Machine, order: seq<string>): seq<string>
    requires forall n :: n in order ==> n in m.specs
  {
    Lines(HeadTokens(m) + ([Token(0, "transitions:")] + SpecsTokens(m.specs, order)))
  }

  // ----- the machines a file can hold ---------------------------------------------------------

  predicate AllClean(xs: seq<string>) {
    forall i :: 0 <= i < |xs| ==> Clean(xs[i])
  }

  predicate NameOk(name: string) {
    OneLine(name) && (name == "" || (!IsSpace(name[0]) && name[0] != '#'))
  }

  predicate Within(xs: seq<string>, states: seq<string>) {
    forall i :: 0 <= i < |xs| ==> xs[i] in states
  }

  predicate SpecOk(s: TransitionSpec, states: seq<string>) {
    && NameOk(s.name)
    && s.from != [] && AllClean(s.from) && Within(s.from, states)
    && Trimmed(s.to) && s.to in states
    && (s.risk.Some? ==> Trimmed(s.risk.value))
    && s.required != [] && AllClean(s.required)
  }

  /** Loadable facts: known states, no missing fact, the five transitions, and texts that
      stripping leaves alone. */
  ghost predicate Printable(m: Machine) {
    && m.states != [] && AllClean(m.states)
    && Trimmed(m.initial)
    && m.terminals != [] && AllClean(m.terminals)
    && {"provision", "suspend", "resume", "offboard", "purge"} <= m.specs.Keys
    && forall n :: n in m.specs ==> m.specs[n].name == n && SpecOk(m.specs[n], m.states)
  }

  // ----- everything that loads is printable -------------------------------------------------------

  ghost predicate DraftOk(d: Draft) {
    AllClean(d.from) && AllClean(d.required) && (d.to.Some? ==> Trimmed(d.to.value)) && (d.risk.Some? ==> Trimmed(d.risk.value))
  }

  ghost predicate ReaderOk(p: Reader) {
    && p.Valid()
    && AllClean(p.states) && AllClean(p.terminals)
    && (p.initial.Some? ==> Trimmed(p.initial.value))
    && forall n :: n in p.drafts ==> NameOk(n) && DraftOk(p.drafts[n])
  }

  lemma AfterTrims(text: string, prefix: string)
    requires StartsWith(text, prefix) && OneLine(text)
    ensures Trimmed(After(text, prefix))
  {
    StripTrims(text[|prefix|..]);
  }

  lemma AppendClean(xs: seq<string>, x: string)
    requires AllClean(xs) && Clean(x)
    ensures AllClean(xs + [x])
  {
  }

  lemma ItemAppends(xs: seq<string>, t: Token)
    requires AllClean(xs) && Says(t) && StartsWith(t.text, "- ")
    ensures AllClean(xs + [After(t.text, "- ")])
  {
    ItemIsClean(t.text);
    AppendClean(xs, After(t.text, "- "));
  }

  lemma ReadMachineKeepsOk(p: Reader, t: Token)
    requires ReaderOk(p) && Says(t)
    ensures ReaderOk(ReadMachine(p, t))
  {
    hide After, Clean, Trimmed, DraftOk, NameOk, AllClean, OneLine, Says, IsSpace, IsBreak;
    SaysOneLine(t);
    if t.indent == 4 && StartsWith(t.text, "- ") {
      ItemAppends(p.states, t);
      ItemAppends(p.terminals, t);
    } else if t.indent == 2 && StartsWith(t.text, "initial_state:") {
      AfterTrims(t.text, "initial_state:");
    }
  }

  lemma DraftUpdateOk(p: Reader, name: string, d: Draft)
    requires ReaderOk(p) && name in p.drafts && DraftOk(d)
    ensures ReaderOk(p.(drafts := p.drafts[name := d]))
  {
    hide DraftOk, AllClean;
  }

  lemma ReadFieldKeepsOk(p: Reader, name: string, text: string)
    requires ReaderOk(p) && name in p.drafts && OneLine(text)
    ensures ReaderOk(ReadField(p, p.drafts[name], name, text))
  {
    hide AllClean, After, Trimmed;
    var d := p.drafts[name];
    if StartsWith(text, "to:") {
      AfterTrims(text, "to:");
      DraftUpdateOk(p, name, d.(to := Some(After(text, "to:"))));
    } else if StartsWith(text, "idempotent:") {
      DraftUpdateOk(p, name, d.(idempotent := Some(After(text, "idempotent:") == "true")));
    }
  }

  lemma ReadBelowKeepsOk(p: Reader, name: string, t: Token)
    requires ReaderOk(p) && name in p.drafts && Says(t)
    ensures ReaderOk(ReadBelow(p, p.drafts[name], name, t))
  {
    hide Clean, After, Trimmed, AllClean, OneLine, Says, IsSpace, IsBreak, StartsWith, NameOk;
    SaysOneLine(t);
    var d := p.drafts[name];
    if StartsWith(t.text, "- ") {
      var x := After(t.text, "- ");
      ItemAppends(d.from, t);
      ItemAppends(d.required, t);
      DraftUpdateOk(p, name, d.(from := d.from + [x]));
      DraftUpdateOk(p, name, d.(required := d.required + [x]));
    }
    if StartsWith(t.text, "risk_class:") {
      AfterTrims(t.text, "risk_class:");
      DraftUpdateOk(p, name, d.(risk := Some(After(t.text, "risk_class:"))));
    }
  }

  lemma NewDraftOk(p: Reader, text: string)
    requires ReaderOk(p) && Clean(text) && text[0] != '#' && EndsWithColon(text)
    ensures ReaderOk(ReadTransition(p, Token(2, text)))
  {
    var name := text[..|text| - 1];
    assert NameOk(name);
    assert DraftOk(BLANK);
    hide DraftOk, NameOk, AllClean, Clean;
  }

  lemma ReadKeepsOk(p: Reader, t: Token)
    requires ReaderOk(p) && Says(t)
    ensures ReaderOk(Read(p, t))
  {
    SaysOneLine(t);
    hide ReadMachine, ReadField, ReadBelow, DraftOk, AllClean, NameOk, Trimmed, OneLine;
    if t.indent == 0 {
    } else if p.section == Some("state_machine") {
      ReadMachineKeepsOk(p, t);
    } else if p.section == Some("transitions") {
      if t.indent == 2 && EndsWithColon(t.text) {
        NewDraftOk(p, t.text);
      } else if p.current.Some? {
        ReadFieldKeepsOk(p, p.current.value, t.text);
        ReadBelowKeepsOk(p, p.current.value, t);
      }
    }
  }

  lemma {:induction false} ReadLinesKeepOk(p: Reader, lines: seq<string>)
    requires ReaderOk(p) && AllOneLine(lines)
    ensures ReaderOk(ReadLines(p, lines))
    decreases |lines|
  {
    hide OneLine;
    if lines != [] {
      if Tokenize(lines[0]).Some? {
        TokenIsClean(lines[0]);
        ReadKeepsOk(p, Tokenize(lines[0]).value);
      }
      ReadLinesKeepOk(ReadLine(p, lines[0]), lines[1..]);
    }
  }

  lemma {:induction false} NoUnknownIff(wanted: seq<string>, states: seq<string>)
    ensures FirstUnknown(wanted, states).None? <==> Within(wanted, states)
  {
    if wanted != [] {
      NoUnknownIff(wanted[1..], states);
      if wanted[0] in states && Within(wanted[1..], states) {
        forall i | 0 <= i < |wanted| ensures wanted[i] in states {
          assert i > 0 ==> wanted[i] == wanted[1..][i - 1];
        }
      }
    }
  }

  predicate DraftPasses(d: Draft, states: seq<string>) {
    Complete(d) && Within(d.from, states) && d.to.value in states
  }

  lemma PassesIff(name: string, d: Draft, states: seq<string>)
    ensures CheckDraft(name, d, states).None? <==> DraftPasses(d, states)
  {
    if Complete(d) {
      var wanted := d.from + [d.to.value];
      NoUnknownIff(wanted, states);
      if Within(wanted, states) {
        assert wanted[|d.from|] in states;
        forall i | 0 <= i < |d.from| ensures d.from[i] in states {
          assert wanted[i] in states;
        }
      }
    }
  }

  lemma {:induction false} AllPassIff(names: seq<string>, drafts: map<string, Draft>, states: seq<string>)
    requires forall n :: n in names ==> n in drafts
    ensures CheckDrafts(names, drafts, states).None? <==> forall n :: n in names ==> DraftPasses(drafts[n], states)
  {
    hide DraftPasses, CheckDraft;
    if names != [] {
      PassesIff(names[0], drafts[names[0]], states);
      AllPassIff(names[1..], drafts, states);
      assert forall n :: n in names <==> n == names[0] || n in names[1..];
    }
  }

  lemma FinishedIsPrintable(p: Reader)
    requires ReaderOk(p) && Finish(p).Ok?
    ensures Printable(Finish(p).value)
  {
    hide OneLine, Trimmed, Clean, CheckDrafts, AllClean, Within;
    AllPassIff(p.names, p.drafts, p.states);
  }

  /** Whatever a file says, what loads from it has every fact and can be printed. */
  lemma LoadedIsPrintable(text: string)
    requires LoadText(text).Ok?
    ensures Printable(LoadText(text).value)
  {
    hide OneLine, SplitLines, Finish, Printable, ReaderOk, ReadLines;
    var lines := SplitLines(text);
    SplitLinesAreLines(text);
    StartOk();
    ReadLinesKeepOk(START, lines);
    FinishedIsPrintable(ReadLines(START, lines));
  }

  lemma StartOk()
    ensures ReaderOk(START)
  {
  }

  // ----- a printed machine reads back ----------------------------------------------------------------

  ghost predicate AllSay(tokens: seq<Token>) {
    forall i :: 0 <= i < |tokens| ==> Says(tokens[i])
  }

  function ReadTokens(p: Reader, tokens: seq<Token>): (q: Reader)
    requires p.Valid() && forall i :: 0 <= i < |tokens| ==> tokens[i].text != ""
    ensures q.Valid()
    decreases |tokens|
  {
    if tokens == [] then p else ReadTokens(Read(p, tokens[0]), tokens[1..])
  }

  lemma {:induction false} PrintedReads(p: Reader, tokens: seq<Token>)
    requires p.Valid() && AllSay(tokens)
    ensures ReadLines(p, Lines(tokens)) == ReadTokens(p, tokens) && AllOneLine(Lines(tokens))
    decreases |tokens|
  {
    hide Read, OneLine, Clean;
    if tokens != [] {
      LineReads(tokens[0]);
      assert Lines(tokens)[1..] == Lines(tokens[1..]);
      PrintedReads(Read(p, tokens[0]), tokens[1..]);
    }
  }

  lemma {:induction false} ReadTokensAppend(p: Reader, a: seq<Token>, b: seq<Token>)
    requires p.Valid() && AllSay(a) && AllSay(b)
    ensures AllSay(a + b) && ReadTokens(p, a + b) == ReadTokens(ReadTokens(p, a), b)
    decreases |a|
  {
    hide Read;
    if a == [] {
      assert a + b == b;
    } else {
      assert (a + b)[1..] == a[1..] + b;
      ReadTokensAppend(Read(p, a[0]), a[1..], b);
    }
  }

  lemma ReadTwo(p: Reader, s: Token, t: Token)
    requires p.Valid() && Says(s) && Says(t)
    ensures AllSay([s, t]) && ReadTokens(p, [s, t]) == Read(Read(p, s), t)
  {
    hide Read;
    assert [s, t][1..] == [t] && [t][1..] == [];
    assert ReadTokens(Read(p, s), [t]) == Read(Read(p, s), t);
  }

  /** A list of the given indentation is open. */
  predicate Open(p: Reader, n: nat) {
    || (n == 4 && p.section == Some("state_machine") && p.list != NoList)
    || (n == 6 && p.section == Some("transitions") && p.current.Some? && p.field == FromField)
    || (n == 8 && p.section == Some("transitions") && p.current.Some? && p.inRequired)
  }

  /** The open list grows by the items. */
  function Pushed(p: Reader, n: nat, xs: seq<string>): (q: Reader)
    requires p.Valid() && Open(p, n)
    ensures q.Valid() && Open(q, n)
  {
    if n == 4 then
      if p.list == StatesList then p.(states := p.states + xs) else p.(terminals := p.terminals + xs)
    else
      var name := p.current.value;
      var d := p.drafts[name];
      if n == 6 then p.(drafts := p.drafts[name := d.(from := d.from + xs)])
      else p.(drafts := p.drafts[name := d.(required := d.required + xs)])
  }

  lemma PushedTwice(p: Reader, n: nat, xs: seq<string>, ys: seq<string>)
    requires p.Valid() && Open(p, n)
    ensures Pushed(Pushed(p, n, xs), n, ys) == Pushed(p, n, xs + ys)
  {
    if n == 4 {
      assert (p.states + xs) + ys == p.states + (xs + ys);
      assert (p.terminals + xs) + ys == p.terminals + (xs + ys);
    } else {
      var d := p.drafts[p.current.value];
      assert (d.from + xs) + ys == d.from + (xs + ys);
      assert (d.required + xs) + ys == d.required + (xs + ys);
    }
  }

  lemma PushedNothing(p: Reader, n: nat)
    requires p.Valid() && Open(p, n)
    ensures Pushed(p, n, []) == p
  {
    assert p.states + [] == p.states && p.terminals + [] == p.terminals;
    if n != 4 {
      var d := p.drafts[p.current.value];
      assert d.from + [] == d.from && d.required + [] == d.required;
    }
  }

  lemma ItemsSay(n: nat, xs: seq<string>)
    requires AllClean(xs)
    ensures AllSay(Items(n, xs))
  {
    forall i | 0 <= i < |xs| ensures Says(Items(n, xs)[i]) {
      ItemReads(xs[i]);
    }
  }

  lemma PushOne(p: Reader, n: nat, x: string)
    requires p.Valid() && Open(p, n) && Clean(x)
    ensures Read(p, Token(n, Item(x))) == Pushed(p, n, [x])
  {
    ItemReads(x);
    hide After, Clean, Says;
  }

  lemma {:induction false} ItemsRead(p: Reader, n: nat, xs: seq<string>)
    requires p.Valid() && Open(p, n) && AllClean(xs)
    ensures AllSay(Items(n, xs)) && ReadTokens(p, Items(n, xs)) == Pushed(p, n, xs)
    decreases |xs|
  {
    hide After, Clean, Says, Read;
    ItemsSay(n, xs);
    if xs == [] {
      PushedNothing(p, n);
    } else {
      ItemReads(xs[0]);
      assert Items(n, xs)[1..] == Items(n, xs[1..]);
      PushOne(p, n, xs[0]);
      ItemsRead(Pushed(p, n, [xs[0]]), n, xs[1..]);
      PushedTwice(p, n, [xs[0]], xs[1..]);
      assert [xs[0]] + xs[1..] == xs;
    }
  }

  ghost predicate Inside(p: Reader, name: string) {
    p.Valid() && p.section == Some("transitions") && p.current == Some(name)
  }

  function With(p: Reader, name: string, d: Draft, field: OpenField, inRequired: bool): (q: Reader)
    requires Inside(p, name)
    ensures Inside(q, name)
  {
    p.(drafts := p.drafts[name := d], field := field, inRequired := inRequired)
  }

  function Started(p: Reader, name: string): (q: Reader)
    requires p.Valid() && p.section == Some("transitions")
    ensures Inside(q, name) && q.drafts == p.drafts[name := BLANK]
  {
    p.(names := if name in p.drafts then p.names else p.names + [name],
       drafts := p.drafts[name := BLANK], current := Some(name), field := FromField, inRequired := false)
  }

  lemma NameSays(name: string)
    requires NameOk(name)
    ensures Says(Token(2, name + ":")) && (name + ":")[..|name + ":"| - 1] == name && EndsWithColon(name + ":")
  {
    var text := name + ":";
    assert text[0] == if name == "" then ':' else name[0];
  }

  lemma StartReads(p: Reader, name: string)
    requires p.Valid() && p.section == Some("transitions") && NameOk(name)
    ensures AllSay([Token(2, name + ":"), Token(4, "from:")])
    ensures ReadTokens(p, [Token(2, name + ":"), Token(4, "from:")]) == Started(p, name)
  {
    hide Says, NameOk, ReadMachine, ReadBelow, ReadTokens;
    NameSays(name);
    assert Says(Token(4, "from:")) by {
      KeySays("from:");
    }
    var s, t := Token(2, name + ":"), Token(4, "from:");
    ReadTwo(p, s, t);
    FieldRead(Read(p, s), name, "from:");
  }

  lemma KeySays(text: string)
    requires IsKey(text)
    ensures forall n :: Says(Token(n, text))
  {
  }

  lemma FieldRead(p: Reader, name: string, text: string)
    requires Inside(p, name) && text != ""
    ensures Read(p, Token(4, text)) == ReadField(p, p.drafts[name], name, text)
  {
    hide ReadField, ReadMachine, ReadBelow;
  }

  lemma BelowRead(p: Reader, name: string, text: string)
    requires Inside(p, name) && text != ""
    ensures Read(p, Token(6, text)) == ReadBelow(p, p.drafts[name], name, Token(6, text))
  {
    hide ReadField, ReadMachine, ReadBelow;
  }

  lemma ToReads(p: Reader, name: string, to: string)
    requires Inside(p, name) && Trimmed(to)
    ensures Says(Token(4, Field("to:", to)))
    ensures Read(p, Token(4, Field("to:", to))) == With(p, name, p.drafts[name].(to := Some(to)), NoField, false)
  {
    hide After, Field, Trimmed, Read, ReadBelow, ReadMachine;
    FieldReads("to:", to) by {
      KeyOk("to:");
    }
    var text := Field("to:", to);
    FieldRead(p, name, text);
    assert text != "from:" by {
      assert text[0] == 't';
    }
  }

  lemma KeyOk(key: string)
    requires key != "" && !IsSpace(key[0]) && !IsSpace(key[|key| - 1]) && key[0] != '#' && OneLine(key)
    ensures IsKey(key)
  {
  }

  lemma IdempotentReads(p: Reader, name: string, idempotent: bool)
    requires Inside(p, name)
    ensures var text := Field("idempotent:", if idempotent then "true" else "false");
            Says(Token(4, text)) && Read(p, Token(4, text)) == With(p, name, p.drafts[name].(idempotent := Some(idempotent)), NoField, false)
  {
    hide After, Field, Trimmed, Read, ReadBelow, ReadMachine;
    var flag := if idempotent then "true" else "false";
    assert Trimmed(flag) by {
      KeyOk(flag);
    }
    FieldReads("idempotent:", flag) by {
      KeyOk("idempotent:");
    }
    var text := Field("idempotent:", flag);
    FieldRead(p, name, text);
    assert text[0] == 'i';
    assert !StartsWith(text, "to:") && text != "from:";
  }

  lemma ScalarsRead(p: Reader, name: string, to: string, idempotent: bool)
    requires Inside(p, name) && Trimmed(to)
    ensures var tokens := [Token(4, Field("to:", to)), Token(4, Field("idempotent:", if idempotent then "true" else "false"))];
            var d := p.drafts[name].(to := Some(to), idempotent := Some(idempotent));
            AllSay(tokens) && ReadTokens(p, tokens) == With(p, name, d, NoField, false)
  {
    hide After, Field, Trimmed, Read, ReadTokens, Says;
    ToReads(p, name, to);
    var q := With(p, name, p.drafts[name].(to := Some(to)), NoField, false);
    IdempotentReads(q, name, idempotent);
    ReadTwo(p, Token(4, Field("to:", to)), Token(4, Field("idempotent:", if idempotent then "true" else "false")));
  }

  lemma RiskReads(p: Reader, name: string, risk: Option<string>)
    requires Inside(p, name) && (risk.Some? ==> Trimmed(risk.value)) && p.drafts[name].risk.None? && p.field == NoField && !p.inRequired
    ensures AllSay(RiskTokens(risk))
    ensures ReadTokens(p, RiskTokens(risk))
         == With(p, name, p.drafts[name].(risk := risk), if risk.Some? then ApprovalField else NoField, false)
  {
    hide After, Field, Trimmed, Read, ReadMachine, Says;
    if risk.Some? {
      var s, t := Token(4, "approval:"), Token(6, Field("risk_class:", risk.value));
      KeySays("approval:") by {
        KeyOk("approval:");
      }
      FieldReads("risk_class:", risk.value) by {
        KeyOk("risk_class:");
      }
      assert Says(t) by {
        assert t.text[0] == 'r';
        SaysIs(t);
      }
      FieldRead(p, name, s.text);
      assert s.text[0] == 'a';
      assert !StartsWith(s.text, "to:") && !StartsWith(s.text, "idempotent:");
      var q := With(p, name, p.drafts[name], ApprovalField, false);
      assert Read(p, s) == q;
      BelowRead(q, name, t.text);
      ReadTwo(p, s, t);
    } else {
      assert p.drafts[name].(risk := None) == p.drafts[name];
    }
  }

  lemma SaysIs(t: Token)
    ensures Says(t) <==> Clean(t.text) && t.text[0] != '#'
  {
  }

  lemma AuditSays()
    ensures Says(Token(4, "audit:")) && Says(Token(6, "required_fields:"))
  {
  }

  lemma AuditReads(p: Reader, name: string)
    requires Inside(p, name)
    ensures var tokens := [Token(4, "audit:"), Token(6, "required_fields:")];
            AllSay(tokens) && ReadTokens(p, tokens) == With(p, name, p.drafts[name], AuditField, true)
  {
    hide Read, ReadMachine, Says, ReadTokens, OneLine, IsSpace;
    var s, t := Token(4, "audit:"), Token(6, "required_fields:");
    AuditSays();
    FieldRead(p, name, s.text);
    assert s.text[0] == 'a';
    assert !StartsWith(s.text, "to:") && !StartsWith(s.text, "idempotent:");
    var q := With(p, name, p.drafts[name], AuditField, false);
    assert Read(p, s) == q;
    BelowRead(q, name, t.text);
    ReadTwo(p, s, t);
  }

  function DraftOf(s: TransitionSpec): Draft {
    Draft(s.from, Some(s.to), Some(s.idempotent), s.risk, s.required)
  }

  function Loaded(p: Reader, s: TransitionSpec): (q: Reader)
    requires p.Valid() && p.section == Some("transitions")
    ensures Inside(q, s.name)
  {
    With(Started(p, s.name), s.name, DraftOf(s), AuditField, true)
  }

  /** Reading the printed tokens takes one reader to the other. */
  ghost predicate Takes(p: Reader, tokens: seq<Token>, q: Reader) {
    p.Valid() && AllSay(tokens) && ReadTokens(p, tokens) == q
  }

  lemma TakesThen(p: Reader, a: seq<Token>, q: Reader, b: seq<Token>, r: Reader)
    requires Takes(p, a, q) && Takes(q, b, r)
    ensures Takes(p, a + b, r)
  {
    hide ReadTokens, AllSay;
    ReadTokensAppend(p, a, b);
  }

  lemma ItemsTake(p: Reader, n: nat, xs: seq<string>)
    requires p.Valid() && Open(p, n) && AllClean(xs)
    ensures Takes(p, Items(n, xs), Pushed(p, n, xs))
  {
    hide ReadTokens, Items, AllSay, Pushed, Open;
    ItemsRead(p, n, xs);
  }

  /** Reading the first half of a printed transition, up to its scalars. */
  lemma FirstHalf(p: Reader, s: TransitionSpec, states: seq<string>)
    requires p.Valid() && p.section == Some("transitions") && SpecOk(s, states)
    ensures Takes(p, [Token(2, s.name + ":"), Token(4, "from:")], Started(p, s.name))
    ensures Takes(Started(p, s.name), Items(6, s.from), With(Started(p, s.name), s.name, BLANK.(from := s.from), FromField, false))
  {
    hide ReadTokens, Items, AllSay, Takes, AllClean, NameOk;
    StartReads(p, s.name);
    var p0 := Started(p, s.name);
    ItemsTake(p0, 6, s.from);
    assert [] + s.from == s.from;
    assert Pushed(p0, 6, s.from) == With(p0, s.name, BLANK.(from := s.from), FromField, false);
    TakesIs(p, [Token(2, s.name + ":"), Token(4, "from:")], p0);
  }

  lemma TakesIs(p: Reader, tokens: seq<Token>, q: Reader)
    requires p.Valid() && AllSay(tokens) && ReadTokens(p, tokens) == q
    ensures Takes(p, tokens, q)
  {
  }

  lemma SecondHalf(p: Reader, s: TransitionSpec, d: Draft)
    requires Inside(p, s.name) && p.drafts[s.name] == d && d.risk.None? && d.required == [] && p.field == NoField && !p.inRequired
    requires (s.risk.Some? ==> Trimmed(s.risk.value)) && AllClean(s.required)
    ensures Takes(p, RiskTokens(s.risk) + ([Token(4, "audit:"), Token(6, "required_fields:")] + Items(8, s.required)),
                  With(p, s.name, d.(risk := s.risk, required := s.required), AuditField, true))
  {
    hide ReadTokens, Items, AllSay, Takes, AllClean, Trimmed, RiskTokens;
    RiskReads(p, s.name, s.risk);
    var q := With(p, s.name, d.(risk := s.risk), if s.risk.Some? then ApprovalField else NoField, false);
    TakesIs(p, RiskTokens(s.risk), q);
    AuditReads(q, s.name);
    var q1 := With(p, s.name, d.(risk := s.risk), AuditField, true);
    var audits := [Token(4, "audit:"), Token(6, "required_fields:")];
    TakesIs(q, audits, q1);
    ItemsTake(q1, 8, s.required);
    assert [] + s.required == s.required;
    var q2 := With(p, s.name, d.(risk := s.risk, required := s.required), AuditField, true);
    assert Pushed(q1, 8, s.required) == q2;
    TakesThen(q, audits, q1, Items(8, s.required), q2);
    TakesThen(p, RiskTokens(s.risk), q, audits + Items(8, s.required), q2);
  }

  lemma Middle(p: Reader, s: TransitionSpec, d: Draft)
    requires Inside(p, s.name) && p.drafts[s.name] == d && Trimmed(s.to)
    ensures Takes(p, ScalarTokens(s), With(p, s.name, d.(to := Some(s.to), idempotent := Some(s.idempotent)), NoField, false))
  {
    hide ReadTokens, AllSay, Takes, Trimmed, Field;
    ScalarsRead(p, s.name, s.to, s.idempotent);
    TakesIs(p, ScalarTokens(s), With(p, s.name, d.(to := Some(s.to), idempotent := Some(s.idempotent)), NoField, false));
  }

  lemma SpecReads(p: Reader, s: TransitionSpec, states: seq<string>)
    requires p.Valid() && p.section == Some("transitions") && SpecOk(s, states)
    ensures Takes(p, SpecTokens(s), Loaded(p, s))
  {
    hide ReadTokens, Items, AllSay, Takes, AllClean, Trimmed, RiskTokens, NameOk, ScalarTokens, Within;
    var heads := [Token(2, s.name + ":"), Token(4, "from:")];
    var rest := RiskTokens(s.risk) + ([Token(4, "audit:"), Token(6, "required_fields:")] + Items(8, s.required));
    var p0 := Started(p, s.name);
    var d := BLANK.(from := s.from);
    var p1 := With(p0, s.name, d, FromField, false);
    var p2 := With(p0, s.name, d.(to := Some(s.to), idempotent := Some(s.idempotent)), NoField, false);
    FirstHalf(p, s, states);
    assert Takes(p1, ScalarTokens(s), p2) by {
      Middle(p1, s, d);
      assert With(p1, s.name, d.(to := Some(s.to), idempotent := Some(s.idempotent)), NoField, false) == p2;
    }
    assert Takes(p2, rest, Loaded(p, s)) by {
      SecondHalf(p2, s, p2.drafts[s.name]);
      assert With(p2, s.name, DraftOf(s), AuditField, true) == Loaded(p, s);
    }
    hide Started, With, Loaded;
    TakesThen(p1, ScalarTokens(s), p2, rest, Loaded(p, s));
    TakesThen(p0, Items(6, s.from), p1, ScalarTokens(s) + rest, Loaded(p, s));
    TakesThen(p, heads, p0, Items(6, s.from) + (ScalarTokens(s) + rest), Loaded(p, s));
  }

  /** The names to come are new. */
  ghost predicate Fresh(p: Reader, specs: map<string, TransitionSpec>, order: seq<string>) {
    && (forall i :: 0 <= i < |order| ==> order[i] in specs && specs[order[i]].name == order[i] && order[i] !in p.drafts)
    && forall i, j :: 0 <= i < j < |order| ==> order[i] != order[j]
  }

  lemma FreshStep(p: Reader, specs: map<string, TransitionSpec>, order: seq<string>)
    requires p.Valid() && p.section == Some("transitions") && order != [] && Fresh(p, specs, order)
    ensures Fresh(Loaded(p, specs[order[0]]), specs, order[1..])
    ensures var q := Loaded(p, specs[order[0]]);
            q.names == p.names + [order[0]] && q.drafts == p.drafts[order[0] := DraftOf(specs[order[0]])]
  {
    var q := Loaded(p, specs[order[0]]);
    forall i | 0 <= i < |order[1..]| ensures order[1..][i] == order[i + 1] && order[i + 1] in specs
                && specs[order[i + 1]].name == order[i + 1] && order[i + 1] !in q.drafts {
    }
  }

  function DraftsOf(specs: map<string, TransitionSpec>): map<string, Draft> {
    map n | n in specs :: DraftOf(specs[n])
  }

  /** The reader after the transitions of `order`. */
  function ReadAll(p: Reader, specs: map<string, TransitionSpec>, order: seq<string>): (q: Reader)
    requires p.Valid() && p.section == Some("transitions") && forall n :: n in order ==> n in specs && specs[n].name == n
    ensures q.Valid()
    decreases |order|
  {
    if order == [] then p else ReadAll(Loaded(p, specs[order[0]]), specs, order[1..])
  }

  lemma {:induction false} SpecsRead(p: Reader, specs: map<string, TransitionSpec>, order: seq<string>, states: seq<string>)
    requires p.Valid() && p.section == Some("transitions")
    requires forall n :: n in order ==> n in specs && specs[n].name == n && SpecOk(specs[n], states)
    ensures Takes(p, SpecsTokens(specs, order), ReadAll(p, specs, order))
    decreases |order|
  {
    hide SpecOk, SpecTokens, Takes, Loaded;
    if order == [] {
      ReadNothing(p);
      TakesIs(p, [], p);
    } else {
      var q := Loaded(p, specs[order[0]]);
      SpecReads(p, specs[order[0]], states);
      SectionKept(p, specs[order[0]]);
      SpecsRead(q, specs, order[1..], states);
      TakesThen(p, SpecTokens(specs[order[0]]), q, SpecsTokens(specs, order[1..]), ReadAll(q, specs, order[1..]));
    }
  }

  lemma SectionKept(p: Reader, s: TransitionSpec)
    requires p.Valid() && p.section == Some("transitions")
    ensures var q := Loaded(p, s);
            q.Valid() && q.section == p.section && (q.states, q.initial, q.terminals) == (p.states, p.initial, p.terminals)
            && q.drafts == p.drafts[s.name := DraftOf(s)]
            && q.names == if s.name in p.drafts then p.names else p.names + [s.name]
  {
  }

  /** What reading the transitions of `order` does to the reader. */
  ghost predicate Grown(p: Reader, q: Reader, specs: map<string, TransitionSpec>, order: seq<string>)
    requires forall n :: n in order ==> n in specs
  {
    && q.names == p.names + order
    && (q.states, q.initial, q.terminals) == (p.states, p.initial, p.terminals)
    && (forall n :: n in q.drafts <==> n in p.drafts || n in order)
    && (forall n :: n in q.drafts ==> q.drafts[n] == if n in order then DraftOf(specs[n]) else p.drafts[n])
  }

  lemma GrownStep(p: Reader, p1: Reader, q: Reader, specs: map<string, TransitionSpec>, order: seq<string>)
    requires order != [] && forall n :: n in order ==> n in specs
    requires p1.drafts == p.drafts[order[0] := DraftOf(specs[order[0]])] && p1.names == p.names + [order[0]]
    requires (p1.states, p1.initial, p1.terminals) == (p.states, p.initial, p.terminals)
    requires Grown(p1, q, specs, order[1..])
    ensures Grown(p, q, specs, order)
  {
    hide DraftOf;
    assert order == [order[0]] + order[1..];
    assert (p.names + [order[0]]) + order[1..] == p.names + order;
    assert forall n :: n in order <==> n == order[0] || n in order[1..];
  }

  lemma {:induction false} AfterAll(p: Reader, specs: map<string, TransitionSpec>, order: seq<string>)
    requires p.Valid() && p.section == Some("transitions") && Fresh(p, specs, order)
    ensures Grown(p, ReadAll(p, specs, order), specs, order)
    decreases |order|
  {
    hide Loaded, Grown, DraftOf;
    if order == [] {
      GrownNot(p, specs);
    } else {
      var p1 := Loaded(p, specs[order[0]]);
      SectionKept(p, specs[order[0]]);
      FreshStep(p, specs, order);
      hide Fresh;
      AfterAll(p1, specs, order[1..]);
      GrownStep(p, p1, ReadAll(p1, specs, order[1..]), specs, order);
    }
  }

  lemma GrownNot(p: Reader, specs: map<string, TransitionSpec>)
    ensures Grown(p, p, specs, [])
  {
    assert p.names + [] == p.names;
  }

  lemma ReadNothing(p: Reader)
    requires p.Valid()
    ensures ReadTokens(p, []) == p
  {
  }

  /** A head line that opens a list takes the reader there; a head field is stored. */
  lemma ListHead(p: Reader, list: OpenList)
    requires p.Valid() && p.section == Some("state_machine") && list != NoList
    ensures Takes(p, [Token(2, if list == StatesList then "states:" else "terminal_states:")], p.(list := list))
  {
    hide ReadTransition;
    var t := Token(2, if list == StatesList then "states:" else "terminal_states:");
    assert t.text[0] == if list == StatesList then 's' else 't';
    assert [t][1..] == [];
    ReadNothing(Read(p, t));
  }

  lemma InitialHead(p: Reader, initial: string)
    requires p.Valid() && p.section == Some("state_machine") && Trimmed(initial)
    ensures Takes(p, [Token(2, Field("initial_state:", initial))], p.(initial := Some(initial), list := NoList))
  {
    hide After, Field, Trimmed, ReadTransition;
    FieldReads("initial_state:", initial) by {
      KeyOk("initial_state:");
    }
    var t := Token(2, Field("initial_state:", initial));
    SaysIs(t);
    assert t.text[0] == 'i';
    assert [t][1..] == [];
    ReadNothing(Read(p, t));
  }

  lemma SectionHead(p: Reader)
    requires p.Valid() && p.current.None? && p.field == NoField && !p.inRequired
    ensures Takes(p, [Token(0, "state_machine:")], p.(section := Some("state_machine"), list := NoList))
    ensures Takes(p, [Token(0, "transitions:")], p.(section := Some("transitions"), list := NoList))
  {
    var s, t := Token(0, "state_machine:"), Token(0, "transitions:");
    assert s.text[..|s.text| - 1] == "state_machine" && t.text[..|t.text| - 1] == "transitions";
    assert [s][1..] == [] && [t][1..] == [];
    ReadNothing(Read(p, s));
    ReadNothing(Read(p, t));
  }

  lemma HeadTakes(m: Machine)
    requires AllClean(m.states) && AllClean(m.terminals) && Trimmed(m.initial)
    ensures Takes(START, HeadTokens(m) + [Token(0, "transitions:")],
                  START.(section := Some("transitions"), states := m.states, initial := Some(m.initial), terminals := m.terminals))
  {
    hide ReadTokens, Read, AllSay, Takes, Says, AllClean, Trimmed, Items, Field;
    var a, b := [Token(0, "state_machine:")], [Token(2, "states:")];
    var c, d := [Token(2, Field("initial_state:", m.initial))], [Token(2, "terminal_states:")];
    var e := [Token(0, "transitions:")];
    var p0 := START.(section := Some("state_machine"));
    SectionHead(START);
    ListHead(p0, StatesList);
    var p1 := p0.(list := StatesList);
    ItemsTake(p1, 4, m.states);
    assert [] + m.states == m.states && [] + m.terminals == m.terminals;
    var p2 := p1.(states := m.states);
    InitialHead(p2, m.initial);
    var p3 := p2.(initial := Some(m.initial), list := NoList);
    ListHead(p3, TerminalsList);
    var p4 := p3.(list := TerminalsList);
    ItemsTake(p4, 4, m.terminals);
    var p5 := p4.(terminals := m.terminals);
    SectionHead(p5);
    var q := p5.(section := Some("transitions"), list := NoList);
    TakesThen(START, a, p0, b, p1);
    TakesThen(START, a + b, p1, Items(4, m.states), p2);
    TakesThen(START, a + b + Items(4, m.states), p2, c, p3);
    TakesThen(START, a + b + Items(4, m.states) + c, p3, d, p4);
    TakesThen(START, a + b + Items(4, m.states) + c + d, p4, Items(4, m.terminals), p5);
    TakesThen(START, a + b + Items(4, m.states) + c + d + Items(4, m.terminals), p5, e, q);
    assert HeadTokens(m) == a + b + Items(4, m.states) + c + d + Items(4, m.terminals);
  }

  /** An order lists every transition once. */
  ghost predicate Orders(order: seq<string>, m: Machine) {
    && (forall n :: n in order <==> n in m.specs)
    && forall i, j :: 0 <= i < j < |order| ==> order[i] != order[j]
  }

  /** The reader that is done with the head of the file. */
  function HeadRead(m: Machine): (p: Reader)
    ensures p.Valid() && p.section == Some("transitions")
  {
    START.(section := Some("transitions"), states := m.states, initial := Some(m.initial), terminals := m.terminals)
  }

  /** What the reader holds after the whole printed machine. */
  ghost predicate Holds(p: Reader, m: Machine, order: seq<string>) {
    && (p.states, p.initial, p.terminals) == (m.states, Some(m.initial), m.terminals)
    && p.names == order && p.drafts == DraftsOf(m.specs)
    && (order != [] ==> InAudit(p) && p.current == Some(order[|order| - 1]))
  }

  lemma OrderNames(m: Machine, order: seq<string>)
    requires Orders(order, m)
    ensures forall n :: n in order <==> n in m.specs
  {
  }

  lemma HeadIsFresh(m: Machine, order: seq<string>)
    requires Printable(m) && Orders(order, m)
    ensures Fresh(HeadRead(m), m.specs, order)
  {
    hide SpecOk, AllClean, Trimmed;
  }

  lemma AllRead(m: Machine, order: seq<string>)
    requires Printable(m) && Orders(order, m)
    ensures Holds(ReadAll(HeadRead(m), m.specs, order), m, order)
  {
    hide SpecOk, AllClean, Trimmed, Loaded, ReadAll, InAudit, DraftOf, Fresh, Orders;
    var p := HeadRead(m);
    HeadIsFresh(m, order);
    AfterAll(p, m.specs, order);
    assert forall n :: n in order <==> n in m.specs by {
      OrderNames(m, order);
    }
    if order != [] {
      EndsInAudit(p, m.specs, order);
    }
    assert [] + order == order;
  }

  lemma PrintedMachineReads(m: Machine, order: seq<string>)
    requires Printable(m) && Orders(order, m)
    ensures AllOneLine(Print(m, order)) && Holds(ReadLines(START, Print(m, order)), m, order)
  {
    hide SpecOk, ReadTokens, AllSay, HeadTokens, AllClean, Trimmed, Takes, Loaded, ReadAll, ReadLines, SpecsTokens, Holds, OneLine;
    var p := HeadRead(m);
    var rest := SpecsTokens(m.specs, order);
    HeadTakes(m);
    SpecsRead(p, m.specs, order, m.states);
    AllRead(m, order);
    var q := ReadAll(p, m.specs, order);
    TakesThen(START, HeadTokens(m) + [Token(0, "transitions:")], p, rest, q);
    assert HeadTokens(m) + [Token(0, "transitions:")] + rest == HeadTokens(m) + ([Token(0, "transitions:")] + rest);
    PrintTakes(HeadTokens(m) + ([Token(0, "transitions:")] + rest), q);
  }

  lemma PrintTakes(tokens: seq<Token>, q: Reader)
    requires Takes(START, tokens, q)
    ensures ReadLines(START, Lines(tokens)) == q && AllOneLine(Lines(tokens))
  {
    hide ReadTokens, ReadLines;
    PrintedReads(START, tokens);
  }

  lemma SpecsBack(m: Machine)
    requires Printable(m)
    ensures SpecsOf(DraftsOf(m.specs)) == m.specs
    ensures forall n :: n in m.specs ==> DraftPasses(DraftOf(m.specs[n]), m.states)
  {
    forall n | n in m.specs ensures SpecOf(n, DraftOf(m.specs[n])) == m.specs[n] && DraftPasses(DraftOf(m.specs[n]), m.states) {
      assert SpecOk(m.specs[n], m.states);
    }
  }

  /** The reader is still inside the last transition's audit fields. */
  predicate InAudit(p: Reader) {
    p.section == Some("transitions") && p.current.Some? && p.field == AuditField && p.inRequired
  }

  lemma {:induction false} EndsInAudit(p: Reader, specs: map<string, TransitionSpec>, order: seq<string>)
    requires p.Valid() && p.section == Some("transitions") && order != [] && forall n :: n in order ==> n in specs && specs[n].name == n
    ensures InAudit(ReadAll(p, specs, order)) && ReadAll(p, specs, order).current == Some(order[|order| - 1])
    decreases |order|
  {
    var q := Loaded(p, specs[order[0]]);
    if |order| > 1 {
      EndsInAudit(q, specs, order[1..]);
    } else {
      assert ReadAll(q, specs, []) == q;
    }
  }

  /** Printing any loadable machine, its transitions in any order, loads as that machine. */
  lemma RoundTrip(m: Machine, order: seq<string>)
    requires Printable(m) && Orders(order, m)
    ensures LoadText(FileOf(Print(m, order))) == Ok(m)
  {
    PrintedMachineReads(m, order);
    SpecsBack(m);
    AllPassIff(order, DraftsOf(m.specs), m.states);
    hide Print, DraftPasses, CheckDrafts, SpecsOf, SplitLines, FileOf;
    assert SpecsOf(DraftsOf(m.specs)).Keys == m.specs.Keys;
    SplitFile(Print(m, order));
  }

  /** A machine can be loaded from some file exactly when it is printable. */
  lemma LoadableIff(m: Machine)
    ensures (exists text :: LoadText(text) == Ok(m)) <==> Printable(m)
  {
    hide Print, LoadText, Printable;
    if text :| LoadText(text) == Ok(m) {
      LoadedIsPrintable(text);
    }
    if Printable(m) {
      SomeOrder(m);
      var order :| Orders(order, m);
      RoundTrip(m, order);
      assert LoadText(FileOf(Print(m, order))) == Ok(m);
    }
  }

  lemma SomeOrder(m: Machine)
    ensures exists order :: Orders(order, m)
  {
    assert Orders(Ordering.Sorted(m.specs.Keys, false), m);
  }
}
