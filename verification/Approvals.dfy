/** The casefile and approval protocol of the AI controller (kagent.py, policy.py). Each
    HTTP handler, and each part of an investigation, is one atomic step. Clock readings,
    fresh identifiers and gateway replies arrive with the step. Times are integers. */
module Approvals {
  import opened Results

  const CEO := "ops-ceo-agent"
  const MANAGER := "investigation-manager"
  const SUMMARIZER := "evidence-summarizer"
  const PLANNER := "runbook-planner"
  const RUNBOOK := "runbook-plan.v1"
  const MINUTE := 60_000_000

  // ----- policy -----------------------------------------------------------------------

  datatype Risk = ReadSafe | ReadSensitive | WriteLow | WriteHigh | WriteCritical

  datatype ApprovalState = Pending | Approved | Rejected | Expired

  datatype Escalation = Escalation(role: string, sla: int, at: int)

  datatype Approval = Approval(
    id: string, casefile: string, tool: string, risk: Risk, requestedBy: string,
    requestedAt: int, warning: int, deadline: int,
    state: ApprovalState, approver: Option<string>, decidedAt: Option<int>, ticket: Option<string>,
    chain: seq<Escalation>)

  /** Pending and warning minutes of the classes that need approval. */
  function TimeoutRules(risk: Risk): Option<(int, int)> {
    match risk
    case WriteHigh => Some((60, 30))
    case WriteCritical => Some((120, 60))
    case _ => None
  }

  const ESCALATION: seq<(string, int)> := [("oncall-sre", 30), ("incident-commander", 60), ("platform-director", 120)]

  /** Each role is paged once the roles before it have had their minutes. */
  function ChainFrom(roles: seq<(string, int)>, at: int): (chain: seq<Escalation>)
    ensures |chain| == |roles|
  {
    if roles == [] then []
    else [Escalation(roles[0].0, roles[0].1, at)] + ChainFrom(roles[1..], at + roles[0].1 * MINUTE)
  }

  /** `new_approval`. */
  function NewApproval(id: string, casefile: string, tool: string, risk: Risk, requestedBy: string, now: int): Option<Approval> {
    match TimeoutRules(risk)
    case None => None
    case Some((pending, warning)) =>
      var deadline := now + pending * MINUTE;
      Some(Approval(id, casefile, tool, risk, requestedBy, now, now + warning * MINUTE, deadline, Pending, None, None, None,
                    ChainFrom(ESCALATION, deadline)))
  }

  datatype Refusal = NotPending | SelfApproval | NotADecision | PastDeadline | TicketMissing | FieldsMissing

  /** `decide_approval`: the decided record, or why the decision is refused. */
  function DecideApproval(a: Approval, approver: string, decision: string, now: int, ticket: Option<string>): Result<Approval, Refusal> {
    if !a.state.Pending? then Err(NotPending)
    else if approver == a.requestedBy then Err(SelfApproval)
    else if decision != "approved" && decision != "rejected" then Err(NotADecision)
    else if now > a.deadline then Err(PastDeadline)
    else if a.risk.WriteCritical? && decision == "approved" && (ticket.None? || ticket.value == "") then Err(TicketMissing)
    else if TimeoutRules(a.risk).Some? && (a.id == "" || approver == "") then Err(FieldsMissing)
    else
      Ok(a.(state := if decision == "approved" then Approved else Rejected, approver := Some(approver), decidedAt := Some(now),
            ticket := if ticket.Some? then ticket else a.ticket))
  }

  datatype Evaluation = Unpending | NotDue | Warning | TimedOut(escalated: seq<Escalation>, finalDenial: bool)

  function Escalated(chain: seq<Escalation>, asOf: int): seq<Escalation> {
    if chain == [] then []
    else if chain[0].at <= asOf then [chain[0]] + Escalated(chain[1..], asOf)
    else Escalated(chain[1..], asOf)
  }

  /** `evaluate_timeout`, against a supplied clock. */
  function EvaluateTimeout(a: Approval, asOf: int): Evaluation {
    if !a.state.Pending? then Unpending
    else if asOf < a.warning then NotDue
    else if asOf < a.deadline then Warning
    else
      var escalated := Escalated(a.chain, asOf);
      TimedOut(escalated, |escalated| == |a.chain|)
  }

  // ----- casefiles and the store ----------------------------------------------------------

  datatype Status = Open | Triaging | Investigating | AwaitingApproval | Executing | Resolved | Closed | Refused

  predicate Terminal(status: Status) {
    status.Resolved? || status.Closed? || status.Refused?
  }

  datatype Gate = NotRequired | Waiting(reference: string) | Granted(reference: string) | Denied(reference: string) | TimedOutGate(reference: string)

  datatype JournalEntry = JournalEntry(action: string, outcome: string)

  datatype Casefile = Casefile(
    id: string, correlation: string, status: Status, gate: Gate, outputs: seq<string>, evidence: seq<string>, journal: seq<JournalEntry>)

  datatype Audit = Audit(event: string, actor: string, casefile: string, outcome: string)

  /** A gateway call on the write path, with the approval record it carried. */
  datatype Call = Call(tool: string, approval: Approval)

  /** The store, the gateway's write-path calls, and how far each running investigation
      has come. */
  datatype World = World(
    casefiles: map<string, Casefile>,
    approvals: map<string, Approval>,
    audit: seq<Audit>,
    calls: seq<Call>,
    running: map<string, nat>)

  const EMPTY: World := World(map[], map[], [], [], map[])

  function Saved(w: World, c: Casefile): World {
    w.(casefiles := w.casefiles[c.id := c])
  }

  function Stored(w: World, a: Approval): World {
    w.(approvals := w.approvals[a.id := a])
  }

  function Audited(w: World, record: Audit): World {
    w.(audit := w.audit + [record])
  }

  // ----- triggers ---------------------------------------------------------------------------

  datatype Response = Accepted(case_: string) | Deduplicated | BadRequest | NotFound | Decided(executed: bool) | Evaluated(evaluation: Evaluation) | Crash | Done

  predicate Active(w: World, correlation: string) {
    exists id :: id in w.casefiles && w.casefiles[id].correlation == correlation && !Terminal(w.casefiles[id].status)
  }

  /** `_handle_trigger`. `complete` says that the envelope has every field. */
  function HandleTrigger(w: World, complete: bool, correlation: string, id: string): (World, Response) {
    if !complete || |correlation| < 8 then (w, BadRequest)
    else if Active(w, correlation) then (w, Deduplicated)
    else
      var c := Casefile(id, correlation, Open, NotRequired, [], [], []);
      (Audited(Saved(w, c), Audit("casefile-created", "kagent-controller", id, "")).(running := w.running[id := 0]), Accepted(id))
  }

  // ----- investigations --------------------------------------------------------------------------

  const SPECIALISTS: seq<string> := ["incident-investigator", "trace-analyst", "metrics-correlator", "graph-analyst", "change-correlator"]

  datatype Reply = Reply(status: int, outcome: Option<string>, evidence: seq<string>) | Lost

  /** One part of `run_investigation`: triage, delegation, a specialist, or the action
      proposal that waits for approval. A specialist the gateway denies ends the run. */
  function Investigate(w: World, id: string, reply: Reply, approvalId: string, now: int): (World, Response) {
    if id !in w.running || id !in w.casefiles then (w, NotFound)
    else
      var c := w.casefiles[id];
      var part := w.running[id];
      var next := w.(running := w.running[id := part + 1]);
      if part == 0 then
        (Audited(Saved(next, c.(status := Triaging)), Audit("status-transition", CEO, id, "")), Done)
      else if part == 1 then
        var delegated := c.(outputs := c.outputs + [CEO], status := Investigating);
        (Audited(Saved(Audited(next, Audit("agent-delegation", CEO, id, "")), delegated), Audit("status-transition", MANAGER, id, "")), Done)
      else if part < 2 + |SPECIALISTS| then
        var specialist := SPECIALISTS[part - 2];
        if reply.Lost? || reply.status != 200 then (w.(running := w.running - {id}), Crash)
        else
          var found := c.(evidence := c.evidence + reply.evidence, outputs := c.outputs + [specialist]);
          (Saved(Audited(next, Audit("specialist-finding", specialist, id, "executed")), found), Done)
      else
        match NewApproval(approvalId, id, RUNBOOK, WriteHigh, CEO, now)
        case None => (w, Crash)
        case Some(approval) =>
          var proposed := c.(outputs := c.outputs + [SUMMARIZER], gate := Waiting(approvalId), status := AwaitingApproval);
          var synthesized := Audited(w.(running := w.running - {id}), Audit("evidence-synthesis", SUMMARIZER, id, ""));
          (Audited(Saved(Stored(synthesized, approval), proposed), Audit("approval-requested", CEO, id, "")), Done)
  }

  // ----- decisions ----------------------------------------------------------------------------------

  predicate KnownOutcome(outcome: string) {
    outcome in {"executed", "blocked", "rolled-back", "failed"}
  }

  /** The outcome the gateway reports; a denied call is blocked. */
  function OutcomeOf(reply: Reply): string
    requires reply.Reply?
  {
    if reply.status != 200 then "blocked" else if reply.outcome.Some? then reply.outcome.value else "executed"
  }

  /** `_execute_approved_action`: the call is made once, after the approval is stored. An
      outcome the audit schema does not know raises, as a lost gateway does. */
  function Execute(w: World, c: Casefile, a: Approval, reply: Reply): (World, Response) {
    var executing := c.(status := Executing, gate := Granted(a.id));
    var called := Saved(w, executing).(calls := w.calls + [Call(a.tool, a)]);
    if reply.Lost? || !KnownOutcome(OutcomeOf(reply)) then (called, Crash)
    else
      var outcome := OutcomeOf(reply);
      var finished := executing.(
        journal := c.journal + [JournalEntry(a.tool, outcome)], evidence := c.evidence + reply.evidence,
        status := if outcome == "executed" then Resolved else Refused);
      (Saved(Audited(called, Audit("action-executed", PLANNER, c.id, outcome)), finished), Decided(outcome == "executed"))
  }

  /** `_decide`, for an approval in the store. */
  function HandleDecision(w: World, a: Approval, approver: Option<string>, decision: Option<string>, ticket: Option<string>, now: int, reply: Reply)
      : (World, Response)
  {
    if approver.None? || decision.None? then (w, BadRequest)
    else
      match DecideApproval(a, approver.value, decision.value, now, ticket)
      case Err(_) => (w, BadRequest)
      case Ok(updated) =>
        var stored := Stored(w, updated);
        if updated.casefile !in w.casefiles then (stored, Crash)
        else
          var c := w.casefiles[updated.casefile];
          var outcome := if updated.state.Approved? then "executed" else "blocked";
          var audited := Audited(stored, Audit("approval-decision", approver.value, c.id, outcome));
          if updated.state.Approved? then Execute(audited, c, updated, reply)
          else
            (Saved(audited, c.(gate := Denied(updated.id), journal := c.journal + [JournalEntry(updated.tool, "blocked")], status := Refused)),
             Decided(false))
  }

  function EscalationAudits(escalated: seq<Escalation>, casefile: string): seq<Audit> {
    seq(|escalated|, i requires 0 <= i < |escalated| => Audit("approval-escalation", "kagent-controller", casefile, escalated[i].role))
  }

  /** `_evaluate_timeout`, for an approval in the store. */
  function HandleTimeout(w: World, a: Approval, asOf: Option<int>): (World, Response) {
    if asOf.None? then (w, BadRequest)
    else
      var evaluation := EvaluateTimeout(a, asOf.value);
      if !evaluation.TimedOut? then (w, Evaluated(evaluation))
      else
        var stored := Stored(w, a.(state := Expired));
        if a.casefile !in w.casefiles then (stored, Crash)
        else
          var c := w.casefiles[a.casefile];
          var escalated := stored.(audit := w.audit + EscalationAudits(evaluation.escalated, c.id));
          var denied := Audited(escalated, Audit("approval-timeout-deny", "kagent-controller", c.id, "blocked"));
          (Saved(denied, c.(gate := TimedOutGate(a.id), journal := c.journal + [JournalEntry(a.tool, "blocked")], status := Refused)),
           Evaluated(evaluation))
  }

  // ----- the machine ------------------------------------------------------------------------------------

  /** Everything that can happen. Fresh identifiers come with the step that needs them. */
  datatype Event =
    | Trigger(complete: bool, correlation: string, newId: string)
    | Advance(casefile: string, reply: Reply, newId: string, now: int)
    | Decide(approval: string, approver: Option<string>, decision: Option<string>, ticket: Option<string>, now: int, reply: Reply)
    | Timeout(approval: string, asOf: Option<int>)

  /** Identifiers are universally unique. */
  predicate Fresh(w: World, e: Event) {
    match e
    case Trigger(_, _, id) => id !in w.casefiles && id !in w.running
    case Advance(_, _, id, _) => id !in w.approvals && id != ""
    case _ => true
  }

  function Step(w: World, e: Event): (World, Response) {
    match e
    case Trigger(complete, correlation, id) => HandleTrigger(w, complete, correlation, id)
    case Advance(id, reply, newId, now) => Investigate(w, id, reply, newId, now)
    case Decide(id, approver, decision, ticket, now, reply) =>
      if id !in w.approvals then (w, NotFound) else HandleDecision(w, w.approvals[id], approver, decision, ticket, now, reply)
    case Timeout(id, asOf) =>
      if id !in w.approvals then (w, NotFound) else HandleTimeout(w, w.approvals[id], asOf)
  }
}
