/** Loading the lifecycle machine from its contract file (tenantctl: state_machine.py). */
module MachineFile {
  import opened Results
  import opened Text
  import opened Indented
  import Tenants

  // ----- what is loaded -------------------------------------------------------------------

  datatype TransitionSpec = TransitionSpec(
    name: string, from: seq<string>, to: string, idempotent: bool, risk: Option<string>, required: seq<string>)

  datatype Machine = Machine(states: seq<string>, initial: string, terminals: seq<string>, specs: map<string, TransitionSpec>)

  datatype LoadError =
    | NoMachineBlock
    | MissingFacts(name: string)
    | UnknownState(name: string, state: string)
    | MissingTransitions(names: set<string>)

  const EXPECTED: set<string> := {"provision", "suspend", "resume", "offboard", "purge"}

  // ----- reading one line --------------------------------------------------------------------

  /** The list the state_machine section is inside. */
  datatype OpenList = NoList | StatesList | TerminalsList

  /** The 4-indent field a transition is inside. */
  datatype OpenField = NoField | FromField | ApprovalField | AuditField

  datatype Draft = Draft(from: seq<string>, to: Option<string>, idempotent: Option<bool>, risk: Option<string>, required: seq<string>)

  const BLANK := Draft([], None, None, None, [])

  datatype Reader = Reader(
    section: Option<string>, list: OpenList, states: seq<string>, initial: Option<string>, terminals: seq<string>,
    names: seq<string>, drafts: map<string, Draft>, current: Option<string>, field: OpenField, inRequired: bool)
  {
    /** The drafts are kept in the order their names first appeared. */
    ghost predicate Valid() {
      && (forall n :: n in names <==> n in drafts)
      && (current.Some? ==> current.value in drafts)
    }
  }

  const START := Reader(None, NoList, [], None, [], [], map[], None, NoField, false)

  function ReadSection(p: Reader, text: string): Reader
    requires text != ""
  {
    p.(section := if EndsWithColon(text) then Some(text[..|text| - 1]) else None,
       list := NoList, current := None, field := NoField, inRequired := false)
  }

  function ReadMachine(p: Reader, t: Token): Reader {
    if t.indent == 2 then
      if t.text == "states:" then p.(list := StatesList)
      else if t.text == "terminal_states:" then p.(list := TerminalsList)
      else if StartsWith(t.text, "initial_state:") then p.(initial := Some(After(t.text, "initial_state:")), list := NoList)
      else p.(list := NoList)
    else if t.indent == 4 && StartsWith(t.text, "- ") then
      match p.list
      case StatesList => p.(states := p.states + [After(t.text, "- ")])
      case TerminalsList => p.(terminals := p.terminals + [After(t.text, "- ")])
      case NoList => p
    else p
  }

  function ReadField(p: Reader, draft: Draft, name: string, text: string): Reader {
    var q := p.(inRequired := false);
    if text == "from:" then q.(field := FromField)
    else if StartsWith(text, "to:") then q.(drafts := p.drafts[name := draft.(to := Some(After(text, "to:")))], field := NoField)
    else if StartsWith(text, "idempotent:") then
      q.(drafts := p.drafts[name := draft.(idempotent := Some(After(text, "idempotent:") == "true"))], field := NoField)
    else if text == "approval:" then q.(field := ApprovalField)
    else if text == "audit:" then q.(field := AuditField)
    else q.(field := NoField)
  }

  function ReadBelow(p: Reader, draft: Draft, name: string, t: Token): Reader {
    if t.indent == 6 then
      if p.field == FromField && StartsWith(t.text, "- ") then
        p.(drafts := p.drafts[name := draft.(from := draft.from + [After(t.text, "- ")])])
      else if p.field == ApprovalField && StartsWith(t.text, "risk_class:") then
        p.(drafts := p.drafts[name := draft.(risk := Some(After(t.text, "risk_class:")))])
      else if p.field == AuditField && t.text == "required_fields:" then p.(inRequired := true)
      else p
    else if t.indent == 8 && p.inRequired && StartsWith(t.text, "- ") then
      p.(drafts := p.drafts[name := draft.(required := draft.required + [After(t.text, "- ")])])
    else p
  }

  function ReadTransition(p: Reader, t: Token): Reader
    requires p.Valid()
  {
    if t.indent == 2 && EndsWithColon(t.text) then
      var name := t.text[..|t.text| - 1];
      p.(names := if name in p.drafts then p.names else p.names + [name],
         drafts := p.drafts[name := BLANK], current := Some(name), field := NoField, inRequired := false)
    else if p.current.None? then p
    else if t.indent == 4 then ReadField(p, p.drafts[p.current.value], p.current.value, t.text)
    else ReadBelow(p, p.drafts[p.current.value], p.current.value, t)
  }

  /** One line of the file that says something. */
  function Read(p: Reader, t: Token): (q: Reader)
    requires p.Valid() && t.text != ""
    ensures q.Valid()
  {
    if t.indent == 0 then ReadSection(p, t.text)
    else if p.section == Some("state_machine") then ReadMachine(p, t)
    else if p.section == Some("transitions") then ReadTransition(p, t)
    else p
  }

  function ReadLine(p: Reader, raw: string): (q: Reader)
    requires p.Valid()
    ensures q.Valid()
  {
    match Tokenize(raw)
    case None => p
    case Some(t) => Read(p, t)
  }

  function ReadLines(p: Reader, lines: seq<string>): (q: Reader)
    requires p.Valid()
    ensures q.Valid()
    decreases |lines|
  {
    if lines == [] then p else ReadLines(ReadLine(p, lines[0]), lines[1..])
  }

  // ----- checking what was read -----------------------------------------------------------------

  function FirstUnknown(wanted: seq<string>, states: seq<string>): Option<string> {
    if wanted == [] then None
    else if wanted[0] !in states then Some(wanted[0])
    else FirstUnknown(wanted[1..], states)
  }

  predicate Complete(d: Draft) {
    d.from != [] && d.to.Some? && d.idempotent.Some? && d.required != []
  }

  function CheckDraft(name: string, d: Draft, states: seq<string>): Option<LoadError> {
    if !Complete(d) then Some(MissingFacts(name))
    else
      match FirstUnknown(d.from + [d.to.value], states)
      case Some(state) => Some(UnknownState(name, state))
      case None => None
  }

  function CheckDrafts(names: seq<string>, drafts: map<string, Draft>, states: seq<string>): Option<LoadError>
    requires forall n :: n in names ==> n in drafts
  {
    if names == [] then None
    else
      var first := CheckDraft(names[0], drafts[names[0]], states);
      if first.Some? then first else CheckDrafts(names[1..], drafts, states)
  }

  function SpecOf(name: string, d: Draft): TransitionSpec {
    if Complete(d) then TransitionSpec(name, d.from, d.to.value, d.idempotent.value, d.risk, d.required)
    else TransitionSpec(name, [], "", false, None, [])
  }

  function SpecsOf(drafts: map<string, Draft>): map<string, TransitionSpec> {
    map n | n in drafts :: SpecOf(n, drafts[n])
  }

  function Finish(p: Reader): Result<Machine, LoadError>
    requires p.Valid()
  {
    if p.states == [] || p.initial.None? || p.terminals == [] then Err(NoMachineBlock)
    else
      match CheckDrafts(p.names, p.drafts, p.states)
      case Some(error) => Err(error)
      case None =>
        var specs := SpecsOf(p.drafts);
        if !(EXPECTED <= specs.Keys) then Err(MissingTransitions(EXPECTED - specs.Keys))
        else Ok(Machine(p.states, p.initial.value, p.terminals, specs))
  }

  function Load(lines: seq<string>): Result<Machine, LoadError> {
    Finish(ReadLines(START, lines))
  }

  /** `load_state_machine`, of the file's text. */
  function LoadText(text: string): Result<Machine, LoadError> {
    Load(SplitLines(text))
  }

  // ----- the loops of the program ----------------------------------------------------------------

  method LoadStateMachine(text: string) returns (r: Result<Machine, LoadError>)
    ensures r == LoadText(text)
  {
    hide Tokenize, After, StartsWith, CheckDrafts, SplitLines;
    var lines := SplitLines(text);
    var states: seq<string> := [];
    var initial: Option<string> := None;
    var terminals: seq<string> := [];
    var names: seq<string> := [];
    var drafts: map<string, Draft> := map[];
    var section: Option<string> := None;
    var list := NoList;
    var current: Option<string> := None;
    var field := NoField;
    var inRequired := false;
    var i := 0;
    while i < |lines|
      invariant i <= |lines|
      invariant Reader(section, list, states, initial, terminals, names, drafts, current, field, inRequired).Valid()
      invariant ReadLines(Reader(section, list, states, initial, terminals, names, drafts, current, field, inRequired), lines[i..])
             == ReadLines(START, lines)
    {
      var raw := lines[i];
      ghost var before := Reader(section, list, states, initial, terminals, names, drafts, current, field, inRequired);
      var token := Tokenize(raw);
      if token.Some? {
        var Token(indent, text) := token.value;
        if indent == 0 {
          section := if EndsWithColon(text) then Some(text[..|text| - 1]) else None;
          list, current, field, inRequired := NoList, None, NoField, false;
        } else if section == Some("state_machine") {
          if indent == 2 {
            if text == "states:" {
              list := StatesList;
            } else if text == "terminal_states:" {
              list := TerminalsList;
            } else {
              if StartsWith(text, "initial_state:") {
                initial := Some(After(text, "initial_state:"));
              }
              list := NoList;
            }
          } else if indent == 4 && StartsWith(text, "- ") {
            if list == StatesList {
              states := states + [After(text, "- ")];
            } else if list == TerminalsList {
              terminals := terminals + [After(text, "- ")];
            }
          }
        } else if section == Some("transitions") {
          if indent == 2 && EndsWithColon(text) {
            var name := text[..|text| - 1];
            if name !in drafts {
              names := names + [name];
            }
            drafts := drafts[name := BLANK];
            current, field, inRequired := Some(name), NoField, false;
          } else if current.Some? {
            var name := current.value;
            var draft := drafts[name];
            if indent == 4 {
              inRequired := false;
              if text == "from:" {
                field := FromField;
              } else if StartsWith(text, "to:") {
                drafts := drafts[name := draft.(to := Some(After(text, "to:")))];
                field := NoField;
              } else if StartsWith(text, "idempotent:") {
                drafts := drafts[name := draft.(idempotent := Some(After(text, "idempotent:") == "true"))];
                field := NoField;
              } else if text == "approval:" {
                field := ApprovalField;
              } else if text == "audit:" {
                field := AuditField;
              } else {
                field := NoField;
              }
            } else if indent == 6 {
              if field == FromField && StartsWith(text, "- ") {
                drafts := drafts[name := draft.(from := draft.from + [After(text, "- ")])];
              } else if field == ApprovalField && StartsWith(text, "risk_class:") {
                drafts := drafts[name := draft.(risk := Some(After(text, "risk_class:")))];
              } else if field == AuditField && text == "required_fields:" {
                inRequired := true;
              }
            } else if indent == 8 && inRequired && StartsWith(text, "- ") {
              drafts := drafts[name := draft.(required := draft.required + [After(text, "- ")])];
            }
          }
        }
      }
      assert Reader(section, list, states, initial, terminals, names, drafts, current, field, inRequired) == ReadLine(before, raw);
      assert lines[i..][1..] == lines[i + 1..];
      i := i + 1;
    }
    ghost var p := ReadLines(START, lines);
    if states == [] || initial.None? || terminals == [] {
      return Err(NoMachineBlock);
    }
    var error := Check(names, drafts, states);
    if error.Some? {
      return Err(error.value);
    }
    var specs := SpecsOf(drafts);
    if !(EXPECTED <= specs.Keys) {
      return Err(MissingTransitions(EXPECTED - specs.Keys));
    }
    r := Ok(Machine(states, initial.value, terminals, specs));
  }

  /** The second loop: every transition has its facts and names known states. */
  method Check(names: seq<string>, drafts: map<string, Draft>, states: seq<string>) returns (error: Option<LoadError>)
    requires forall n :: n in names ==> n in drafts
    ensures error == CheckDrafts(names, drafts, states)
  {
    var i := 0;
    while i < |names|
      invariant i <= |names|
      invariant CheckDrafts(names[i..], drafts, states) == CheckDrafts(names, drafts, states)
    {
      var name, draft := names[i], drafts[names[i]];
      assert names[i..][1..] == names[i + 1..];
      if !Complete(draft) {
        return Some(MissingFacts(name));
      }
      var wanted := draft.from + [draft.to.value];
      var k := 0;
      while k < |wanted|
        invariant k <= |wanted|
        invariant FirstUnknown(wanted[k..], states) == FirstUnknown(wanted, states)
      {
        assert wanted[k..][1..] == wanted[k + 1..];
        if wanted[k] !in states {
          return Some(UnknownState(name, wanted[k]));
        }
        k := k + 1;
      }
      i := i + 1;
    }
    error := None;
  }

  // ----- what the control plane gets ------------------------------------------------------------------

  function RiskOf(text: string): Tenants.Risk {
    if text == "write.high-risk" then Tenants.High else if text == "write.critical" then Tenants.Critical else Tenants.UnknownRisk
  }

  function SetOf(xs: seq<string>): (s: set<string>) {
    set x | x in xs
  }

  /** The machine the tenant service runs on. */
  function ForService(m: Machine): Tenants.Machine {
    Tenants.Machine(SetOf(m.states), m.initial, SetOf(m.terminals),
      map n | n in m.specs ::
        var s := m.specs[n];
        Tenants.Spec(s.name, SetOf(s.from), s.to, match s.risk case None => None case Some(text) => Some(RiskOf(text)), SetOf(s.required)))
  }
}
