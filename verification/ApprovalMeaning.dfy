/** What each event of the approval protocol does, and what a store says after any run. */
module ApprovalMeaning {
  import opened Results
  import opened Approvals
  import opened ApprovalLaws

  // ----- decisions --------------------------------------------------------------------------

  /** The stored record says what was decided, by whom and when, and is otherwise the request. */
  ghost predicate Records(a: Approval, b: Approval, approver: string, decision: string, now: int, ticket: Option<string>) {
    && (decision == "approved" || decision == "rejected")
    && (b.state == Approved <==> decision == "approved") && (b.state == Rejected <==> decision == "rejected")
    && b.approver == Some(approver) && b.decidedAt == Some(now)
    && (ticket.Some? ==> b.ticket == ticket) && (ticket.None? ==> b.ticket == a.ticket)
    && (b.id, b.casefile, b.tool, b.risk, b.requestedBy) == (a.id, a.casefile, a.tool, a.risk, a.requestedBy)
    && (b.requestedAt, b.warning, b.deadline, b.chain) == (a.requestedAt, a.warning, a.deadline, a.chain)
  }

  lemma DecisionRecords(a: Approval, approver: string, decision: string, now: int, ticket: Option<string>)
    requires DecideApproval(a, approver, decision, now, ticket).Ok?
    ensures Records(a, DecideApproval(a, approver, decision, now, ticket).value, approver, decision, now, ticket)
  {
    assert "approved"[0] != "rejected"[0];
  }

  /** What the gateway's reply says happened: a denied call is blocked, and a reply without an
      outcome is an execution. */
  ghost predicate Reports(reply: Reply, outcome: string) {
    reply.Reply? && outcome == if reply.status != 200 then "blocked" else if reply.outcome.None? then "executed" else reply.outcome.value
  }

  /** One casefile and one approval changed, and nothing else. */
  ghost predicate OnlyThese(w: World, v: World, id: string, casefile: string) {
    && id in v.approvals && v.approvals.Keys == w.approvals.Keys && (forall x :: x in w.approvals && x != id ==> v.approvals[x] == w.approvals[x])
    && casefile in v.casefiles && v.casefiles.Keys == w.casefiles.Keys
    && (forall x :: x in w.casefiles && x != casefile ==> v.casefiles[x] == w.casefiles[x])
    && v.running == w.running
  }

  /** A rejection calls nothing: it is stored, audited and journaled as blocked, and its
      casefile is refused with its gate denied. */
  lemma RejectionEffects(w: World, id: string, approver: string, ticket: Option<string>, now: int, reply: Reply)
    requires Inv(w) && id in w.approvals && DecideApproval(w.approvals[id], approver, "rejected", now, ticket).Ok?
    ensures var a := w.approvals[id];
            var (v, response) := HandleDecision(w, a, Some(approver), Some("rejected"), ticket, now, reply);
            && a.casefile in w.casefiles && OnlyThese(w, v, id, a.casefile)
            && Records(a, v.approvals[id], approver, "rejected", now, ticket)
            && v.calls == w.calls
            && v.audit == w.audit + [Audit("approval-decision", approver, a.casefile, "blocked")]
            && v.casefiles[a.casefile] == w.casefiles[a.casefile].(
                 gate := Denied(id), status := Refused, journal := w.casefiles[a.casefile].journal + [JournalEntry(a.tool, "blocked")])
            && response == Decided(false)
  {
    hide Inv, DecideApproval;
    DecisionRecords(w.approvals[id], approver, "rejected", now, ticket);
    CasefileOf(w, id);
  }

  lemma CasefileOf(w: World, id: string)
    requires Inv(w) && id in w.approvals
    ensures w.approvals[id].id == id && w.approvals[id].casefile in w.casefiles && w.casefiles[w.approvals[id].casefile].id == w.approvals[id].casefile
  {
    hide ApprovalsSound, Waits, CallsApproved, ResolvedExecuted, RunningSound, OneActive;
  }

  /** An approval makes one call with the stored record. A known outcome is journaled and
      audited, and resolves the casefile exactly when it is an execution. */
  lemma ApprovalEffects(w: World, id: string, approver: string, ticket: Option<string>, now: int, reply: Reply, outcome: string)
    requires Inv(w) && id in w.approvals && DecideApproval(w.approvals[id], approver, "approved", now, ticket).Ok?
    requires Reports(reply, outcome) && outcome in {"executed", "blocked", "rolled-back", "failed"}
    ensures var a := w.approvals[id];
            var (v, response) := HandleDecision(w, a, Some(approver), Some("approved"), ticket, now, reply);
            && a.casefile in w.casefiles && OnlyThese(w, v, id, a.casefile)
            && Records(a, v.approvals[id], approver, "approved", now, ticket)
            && v.calls == w.calls + [Call(a.tool, v.approvals[id])]
            && v.audit == w.audit + [Audit("approval-decision", approver, a.casefile, "executed"),
                                     Audit("action-executed", "runbook-planner", a.casefile, outcome)]
            && v.casefiles[a.casefile] == w.casefiles[a.casefile].(
                 gate := Granted(id), status := if outcome == "executed" then Resolved else Refused,
                 journal := w.casefiles[a.casefile].journal + [JournalEntry(a.tool, outcome)],
                 evidence := w.casefiles[a.casefile].evidence + reply.evidence)
            && response == Decided(outcome == "executed")
  {
    hide Inv, DecideApproval, HandleDecision, Execute;
    DecisionRecords(w.approvals[id], approver, "approved", now, ticket);
    CasefileOf(w, id);
    ApprovedIs(w, id, approver, ticket, now, reply);
    var a := DecideApproval(w.approvals[id], approver, "approved", now, ticket).value;
    ExecuteEffects(WithDecision(w, a, approver), w.casefiles[a.casefile], a, reply, outcome);
    var first, second := Audit("approval-decision", approver, a.casefile, "executed"), Audit("action-executed", "runbook-planner", a.casefile, outcome);
    assert w.audit + [first] + [second] == w.audit + [first, second];
  }

  /** The store once a decision is stored and audited, before the call. */
  function WithDecision(w: World, a: Approval, approver: string): World {
    w.(approvals := w.approvals[a.id := a], audit := w.audit + [Audit("approval-decision", approver, a.casefile, "executed")])
  }

  lemma ApprovedIs(w: World, id: string, approver: string, ticket: Option<string>, now: int, reply: Reply)
    requires Inv(w) && id in w.approvals && DecideApproval(w.approvals[id], approver, "approved", now, ticket).Ok?
    ensures var a := DecideApproval(w.approvals[id], approver, "approved", now, ticket).value;
            && a.casefile in w.casefiles
            && HandleDecision(w, w.approvals[id], Some(approver), Some("approved"), ticket, now, reply) ==
                 Execute(WithDecision(w, a, approver), w.casefiles[a.casefile], a, reply)
  {
    hide Inv, DecideApproval, Execute;
    DecisionRecords(w.approvals[id], approver, "approved", now, ticket);
    CasefileOf(w, id);
  }

  lemma ExecuteEffects(w: World, c: Casefile, a: Approval, reply: Reply, outcome: string)
    requires Reports(reply, outcome) && outcome in {"executed", "blocked", "rolled-back", "failed"}
    ensures var (v, response) := Execute(w, c, a, reply);
            && v.approvals == w.approvals && v.running == w.running
            && v.calls == w.calls + [Call(a.tool, a)]
            && v.audit == w.audit + [Audit("action-executed", "runbook-planner", c.id, outcome)]
            && v.casefiles == w.casefiles[c.id := c.(
                 gate := Granted(a.id), status := if outcome == "executed" then Resolved else Refused,
                 journal := c.journal + [JournalEntry(a.tool, outcome)], evidence := c.evidence + reply.evidence)]
            && response == Decided(outcome == "executed")
  {
  }

  /** A call whose reply is lost, or reports an outcome the audit does not know, leaves the
      casefile executing. */
  lemma LostEffects(w: World, c: Casefile, a: Approval, reply: Reply)
    requires forall outcome :: Reports(reply, outcome) ==> outcome !in {"executed", "blocked", "rolled-back", "failed"}
    ensures Execute(w, c, a, reply) ==
              (w.(casefiles := w.casefiles[c.id := c.(status := Executing, gate := Granted(a.id))], calls := w.calls + [Call(a.tool, a)]), Crash)
  {
    if reply.Reply? {
      assert Reports(reply, OutcomeOf(reply));
    }
  }

  /** A timeout that expires a pending approval calls nothing, pages the roles whose turn has
      come, and refuses the casefile. */
  lemma ExpiryEffects(w: World, id: string, asOf: int)
    requires Inv(w) && id in w.approvals && EvaluateTimeout(w.approvals[id], asOf).TimedOut?
    ensures var a := w.approvals[id];
            var pages := EvaluateTimeout(a, asOf).escalated;
            var (v, response) := HandleTimeout(w, a, Some(asOf));
            && a.casefile in w.casefiles && OnlyThese(w, v, id, a.casefile)
            && v.approvals[id] == a.(state := Expired) && v.calls == w.calls
            && |v.audit| == |w.audit| + |pages| + 1 && v.audit[..|w.audit|] == w.audit
            && (forall i :: 0 <= i < |pages| ==>
                  v.audit[|w.audit| + i] == Audit("approval-escalation", "kagent-controller", a.casefile, pages[i].role))
            && v.audit[|v.audit| - 1] == Audit("approval-timeout-deny", "kagent-controller", a.casefile, "blocked")
            && v.casefiles[a.casefile] == w.casefiles[a.casefile].(
                 gate := TimedOutGate(id), status := Refused, journal := w.casefiles[a.casefile].journal + [JournalEntry(a.tool, "blocked")])
  {
    hide Inv, EvaluateTimeout, EscalationAudits;
    CasefileOf(w, id);
    var a := w.approvals[id];
    PagesAudited(w.audit, EvaluateTimeout(a, asOf).escalated, a.casefile);
  }

  lemma PagesAudited(audit: seq<Audit>, pages: seq<Escalation>, casefile: string)
    ensures var after := audit + EscalationAudits(pages, casefile) + [Audit("approval-timeout-deny", "kagent-controller", casefile, "blocked")];
            && |after| == |audit| + |pages| + 1 && after[..|audit|] == audit
            && (forall i :: 0 <= i < |pages| ==> after[|audit| + i] == Audit("approval-escalation", "kagent-controller", casefile, pages[i].role))
            && after[|after| - 1] == Audit("approval-timeout-deny", "kagent-controller", casefile, "blocked")
  {
  }

  /** Any other decision or timeout changes nothing. */
  lemma RefusedChangesNothing(w: World, a: Approval, approver: Option<string>, decision: Option<string>, ticket: Option<string>, now: int, reply: Reply)
    requires approver.None? || decision.None? || DecideApproval(a, approver.value, decision.value, now, ticket).Err?
    ensures HandleDecision(w, a, approver, decision, ticket, now, reply) == (w, BadRequest)
  {
    hide DecideApproval;
  }

  /** A trigger opens a casefile exactly when it is complete, its correlation id has at least
      eight characters, and no casefile with that id is open; the casefile starts empty. */
  lemma OpensIff(w: World, complete: bool, correlation: string, id: string)
    ensures var (v, response) := HandleTrigger(w, complete, correlation, id);
            && (response == Accepted(id) <==>
                  complete && |correlation| >= 8
                  && forall x :: x in w.casefiles && w.casefiles[x].correlation == correlation ==> w.casefiles[x].status in {Resolved, Closed, Refused})
            && (response == Accepted(id) ==>
                  && v == w.(casefiles := w.casefiles[id := Casefile(id, correlation, Open, NotRequired, [], [], [])], running := w.running[id := 0],
                             audit := w.audit + [Audit("casefile-created", "kagent-controller", id, "")]))
            && (response != Accepted(id) ==> v == w && response == if complete && |correlation| >= 8 then Deduplicated else BadRequest)
  {
  }

  // ----- over runs ----------------------------------------------------------------------------------

  /** The consent a call rests on: a decision of the run for this approval, with the word
      "approved", by the approver and at the time the call's record names. */
  ghost predicate Consented(events: seq<Event>, call: Call) {
    exists i :: 0 <= i < |events| && IsConsent(events[i], call)
  }

  predicate IsConsent(e: Event, call: Call) {
    && e.Decide? && e.approval == call.approval.id && e.decision == Some("approved")
    && e.approver.Some? && e.approver == call.approval.approver && call.approval.decidedAt == Some(e.now)
  }

  lemma StepCalls(w: World, e: Event)
    requires Inv(w)
    ensures w.calls <= Step(w, e).0.calls && |Step(w, e).0.calls| <= |w.calls| + 1
    ensures |Step(w, e).0.calls| > |w.calls| ==> IsConsent(e, Step(w, e).0.calls[|w.calls|])
  {
    hide Inv, HandleDecision, HandleTimeout, Investigate, HandleTrigger, Executed;
    match e {
      case Trigger(complete, correlation, id) => TriggerCallsNothing(w, complete, correlation, id);
      case Advance(id, reply, newId, now) => PartCallsNothing(w, id, reply, newId, now);
      case Decide(id, approver, decision, ticket, now, reply) =>
        if id in w.approvals {
          DecisionCalls(w, id, approver, decision, ticket, now, reply);
        }
      case Timeout(id, asOf) =>
        if id in w.approvals {
          TimeoutCallsNothing(w, w.approvals[id], asOf);
        }
    }
  }

  lemma TriggerCallsNothing(w: World, complete: bool, correlation: string, id: string)
    ensures HandleTrigger(w, complete, correlation, id).0.calls == w.calls
  {
  }

  lemma PartCallsNothing(w: World, id: string, reply: Reply, newId: string, now: int)
    ensures Investigate(w, id, reply, newId, now).0.calls == w.calls
  {
    hide ChainFrom;
  }

  lemma TimeoutCallsNothing(w: World, a: Approval, asOf: Option<int>)
    ensures HandleTimeout(w, a, asOf).0.calls == w.calls
  {
    hide EvaluateTimeout;
  }

  lemma DecisionCalls(w: World, id: string, approver: Option<string>, decision: Option<string>, ticket: Option<string>, now: int, reply: Reply)
    requires Inv(w) && id in w.approvals
    ensures var v := HandleDecision(w, w.approvals[id], approver, decision, ticket, now, reply).0;
            && w.calls <= v.calls && |v.calls| <= |w.calls| + 1
            && (|v.calls| > |w.calls| ==> IsConsent(Decide(id, approver, decision, ticket, now, reply), v.calls[|w.calls|]))
  {
    hide Inv, DecideApproval, HandleDecision, Execute;
    var a := w.approvals[id];
    if approver.None? || decision.None? || DecideApproval(a, approver.value, decision.value, now, ticket).Err? {
      RefusedChangesNothing(w, a, approver, decision, ticket, now, reply);
    } else {
      DecisionRecords(a, approver.value, decision.value, now, ticket);
      CasefileOf(w, id);
      if decision.value == "approved" {
        ApprovedIs(w, id, approver.value, ticket, now, reply);
        var b := DecideApproval(a, approver.value, "approved", now, ticket).value;
        OneCall(WithDecision(w, b, approver.value), w.casefiles[b.casefile], b, reply);
      } else {
        RejectionEffects(w, id, approver.value, ticket, now, reply);
      }
    }
  }

  lemma OneCall(w: World, c: Casefile, a: Approval, reply: Reply)
    ensures Execute(w, c, a, reply).0.calls == w.calls + [Call(a.tool, a)]
  {
  }

  lemma {:induction false} CallsFrom(w: World, events: seq<Event>)
    requires Inv(w) && AllFresh(w, events)
    ensures w.calls <= Run(w, events).calls
    ensures forall k :: |w.calls| <= k < |Run(w, events).calls| ==> Consented(events, Run(w, events).calls[k])
    decreases |events|
  {
    hide Inv, Step, Fresh, IsConsent;
    if events != [] {
      var v := Step(w, events[0]).0;
      StepKeeps(w, events[0]);
      StepCalls(w, events[0]);
      CallsFrom(v, events[1..]);
      var u := Run(w, events);
      forall k | |w.calls| <= k < |u.calls| ensures Consented(events, u.calls[k]) {
        if k < |v.calls| {
          assert u.calls[k] == v.calls[k];
          assert IsConsent(events[0], u.calls[k]);
        } else {
          var i :| 0 <= i < |events[1..]| && IsConsent(events[1..][i], u.calls[k]);
          assert IsConsent(events[i + 1], u.calls[k]);
        }
      }
    }
  }

  /** Every call of a run from the empty store comes from a decision of the run that approved
      it by name. */
  lemma EveryCallConsented(events: seq<Event>)
    requires AllFresh(EMPTY, events)
    ensures forall k :: 0 <= k < |Run(EMPTY, events).calls| ==> Consented(events, Run(EMPTY, events).calls[k])
  {
    hide Run, Inv, Consented;
    EmptyInv();
    CallsFrom(EMPTY, events);
  }

  /** A rejected approval is never called, whatever follows. */
  lemma RejectedNeverCalled(first: seq<Event>, id: string, approver: string, ticket: Option<string>, now: int, reply: Reply, rest: seq<Event>)
    requires AllFresh(EMPTY, first) && id in Run(EMPTY, first).approvals
    requires DecideApproval(Run(EMPTY, first).approvals[id], approver, "rejected", now, ticket).Ok?
    requires AllFresh(Step(Run(EMPTY, first), Decide(id, Some(approver), Some("rejected"), ticket, now, reply)).0, rest)
    ensures var v := Run(Step(Run(EMPTY, first), Decide(id, Some(approver), Some("rejected"), ticket, now, reply)).0, rest);
            forall k :: 0 <= k < |v.calls| ==> v.calls[k].approval.id != id
  {
    hide Run, Inv, AllFresh, DecideApproval, HandleDecision;
    EmptyInv();
    RunKeeps(EMPTY, first);
    var w := Run(EMPTY, first);
    var decide := Decide(id, Some(approver), Some("rejected"), ticket, now, reply);
    RejectionEffects(w, id, approver, ticket, now, reply);
    StepKeeps(w, decide);
    var v := Step(w, decide).0;
    RunKeeps(v, rest);
    CalledAreApproved(Run(v, rest));
  }

  lemma CalledAreApproved(w: World)
    requires Inv(w)
    ensures forall k :: 0 <= k < |w.calls| ==> w.calls[k].approval.id in w.approvals && w.approvals[w.calls[k].approval.id].state == Approved
  {
    hide Keyed, ApprovalsSound, Waits, ResolvedExecuted, RunningSound, OneActive;
  }

  // ----- gates ------------------------------------------------------------------------------------------

  /** The casefile's gate and status say what became of its approval. */
  predicate Tells(a: Approval, c: Casefile) {
    match a.state
    case Pending => c.gate == Waiting(a.id) && c.status == AwaitingApproval
    case Approved => c.gate == Granted(a.id) && c.status in {Executing, Resolved, Refused}
    case Rejected => c.gate == Denied(a.id) && c.status == Refused
    case Expired => c.gate == TimedOutGate(a.id) && c.status == Refused
  }

  ghost predicate GatesTell(w: World) {
    forall id :: id in w.approvals && w.approvals[id].casefile in w.casefiles ==> Tells(w.approvals[id], w.casefiles[w.approvals[id].casefile])
  }

  const ROLES: seq<string> :=
    ["ops-ceo-agent", "incident-investigator", "trace-analyst", "metrics-correlator", "graph-analyst", "change-correlator", "evidence-summarizer"]

  /** How many roles have worked on a casefile after so many parts. */
  function RolesAfter(parts: nat): nat {
    if parts == 0 then 0 else parts - 1
  }

  /** The roles worked in order so far, and all of them when approval was asked. */
  ghost predicate Worked(c: Casefile, part: Option<nat>) {
    && c.outputs <= ROLES
    && (part.Some? && RolesAfter(part.value) <= |ROLES| ==> c.outputs == ROLES[..RolesAfter(part.value)])
    && (c.status in {AwaitingApproval, Executing, Resolved, Refused} ==> c.outputs == ROLES)
  }

  function PartOf(w: World, id: string): Option<nat> {
    if id in w.running then Some(w.running[id]) else None
  }

  /** Every role works on a casefile once, in order, and all have when approval is asked. */
  ghost predicate RolesTell(w: World) {
    forall id :: id in w.casefiles ==> Worked(w.casefiles[id], PartOf(w, id))
  }

  lemma GatesAfterChange(w: World, v: World, id: string, casefile: string)
    requires Inv(w) && GatesTell(w) && id in w.approvals && w.approvals[id].casefile == casefile && OnlyThese(w, v, id, casefile)
    requires v.approvals[id].casefile == casefile && Tells(v.approvals[id], v.casefiles[casefile])
    ensures GatesTell(v)
  {
    hide Tells;
    OneApproval(w, id);
    hide Inv;
  }

  lemma OneApproval(w: World, id: string)
    requires Inv(w) && id in w.approvals
    ensures forall b :: b in w.approvals && w.approvals[b].casefile == w.approvals[id].casefile ==> b == id
  {
    hide Keyed, Waits, CallsApproved, ResolvedExecuted, RunningSound, OneActive;
  }

  lemma RolesAfterChange(w: World, v: World, id: string, casefile: string)
    requires RolesTell(w) && casefile in w.casefiles && OnlyThese(w, v, id, casefile)
    requires v.casefiles[casefile].outputs == w.casefiles[casefile].outputs && w.casefiles[casefile].status == AwaitingApproval
    ensures RolesTell(v)
  {
  }

  lemma WaitingOf(w: World, id: string)
    requires Inv(w) && id in w.approvals && w.approvals[id].state.Pending?
    ensures w.approvals[id].casefile in w.casefiles && w.casefiles[w.approvals[id].casefile].status == AwaitingApproval
  {
    hide CallsApproved, ResolvedExecuted, RunningSound, OneActive, ApprovalsSound;
  }

  /** What an approved decision leaves, whatever the gateway answers. */
  lemma ApprovedTells(w: World, id: string, approver: string, ticket: Option<string>, now: int, reply: Reply)
    requires Inv(w) && id in w.approvals && DecideApproval(w.approvals[id], approver, "approved", now, ticket).Ok?
    ensures var a := w.approvals[id];
            var v := HandleDecision(w, a, Some(approver), Some("approved"), ticket, now, reply).0;
            && OnlyThese(w, v, id, a.casefile) && v.approvals[id].casefile == a.casefile && a.casefile in w.casefiles
            && Tells(v.approvals[id], v.casefiles[a.casefile])
            && v.casefiles[a.casefile].outputs == w.casefiles[a.casefile].outputs
  {
    hide Inv, DecideApproval, HandleDecision, Execute;
    DecisionRecords(w.approvals[id], approver, "approved", now, ticket);
    CasefileOf(w, id);
    ApprovedIs(w, id, approver, ticket, now, reply);
    var a := DecideApproval(w.approvals[id], approver, "approved", now, ticket).value;
    ExecuteTells(WithDecision(w, a, approver), w.casefiles[a.casefile], a, reply);
  }

  lemma ExecuteTells(w: World, c: Casefile, a: Approval, reply: Reply)
    requires a.state.Approved?
    ensures var v := Execute(w, c, a, reply).0;
            && v.approvals == w.approvals && v.running == w.running && c.id in v.casefiles && v.casefiles == w.casefiles[c.id := v.casefiles[c.id]]
            && Tells(a, v.casefiles[c.id]) && v.casefiles[c.id].outputs == c.outputs
  {
  }

  lemma DecisionTells(w: World, id: string, approver: Option<string>, decision: Option<string>, ticket: Option<string>, now: int, reply: Reply)
    requires Inv(w) && GatesTell(w) && RolesTell(w) && id in w.approvals
    ensures var v := HandleDecision(w, w.approvals[id], approver, decision, ticket, now, reply).0;
            GatesTell(v) && RolesTell(v)
  {
    hide Inv, GatesTell, RolesTell, DecideApproval, HandleDecision, OnlyThese;
    var a := w.approvals[id];
    if approver.None? || decision.None? || DecideApproval(a, approver.value, decision.value, now, ticket).Err? {
      RefusedChangesNothing(w, a, approver, decision, ticket, now, reply);
    } else {
      DecisionRecords(a, approver.value, decision.value, now, ticket);
      WasPending(a, approver.value, decision.value, now, ticket);
      CasefileOf(w, id);
      WaitingOf(w, id);
      if decision.value == "approved" {
        ApprovedTells(w, id, approver.value, ticket, now, reply);
      } else {
        RejectionEffects(w, id, approver.value, ticket, now, reply);
      }
      var v := HandleDecision(w, a, approver, decision, ticket, now, reply).0;
      GatesAfterChange(w, v, id, a.casefile);
      RolesAfterChange(w, v, id, a.casefile);
    }
  }

  lemma WasPending(a: Approval, approver: string, decision: string, now: int, ticket: Option<string>)
    requires DecideApproval(a, approver, decision, now, ticket).Ok?
    ensures a.state.Pending?
  {
  }

  lemma TimeoutTells(w: World, id: string, asOf: Option<int>)
    requires Inv(w) && GatesTell(w) && RolesTell(w) && id in w.approvals
    ensures var v := HandleTimeout(w, w.approvals[id], asOf).0;
            GatesTell(v) && RolesTell(v)
  {
    hide Inv, GatesTell, RolesTell, OnlyThese, Escalated;
    var a := w.approvals[id];
    if asOf.Some? && EvaluateTimeout(a, asOf.value).TimedOut? {
      ExpiryEffects(w, id, asOf.value);
      CasefileOf(w, id);
      WaitingOf(w, id);
      var v := HandleTimeout(w, a, asOf).0;
      GatesAfterChange(w, v, id, a.casefile);
      RolesAfterChange(w, v, id, a.casefile);
    }
  }

  lemma TriggerTells(w: World, complete: bool, correlation: string, id: string)
    requires Inv(w) && GatesTell(w) && RolesTell(w) && Fresh(w, Trigger(complete, correlation, id))
    ensures var v := HandleTrigger(w, complete, correlation, id).0;
            GatesTell(v) && RolesTell(v)
  {
    hide Keyed, ApprovalsSound, Waits, CallsApproved, ResolvedExecuted, RunningSound, OneActive, HandleTrigger, GatesTell, RolesTell;
    OpensIff(w, complete, correlation, id);
    if HandleTrigger(w, complete, correlation, id).1 == Accepted(id) {
      NewHasNoApproval(w, id);
      var v := HandleTrigger(w, complete, correlation, id).0;
      NewGates(w, v, id, v.casefiles[id]);
      NewRoles(w, v, id, v.casefiles[id]);
    }
  }

  lemma NewGates(w: World, v: World, id: string, c: Casefile)
    requires GatesTell(w) && v.approvals == w.approvals && v.casefiles == w.casefiles[id := c] && id !in w.casefiles
    requires forall a :: a in w.approvals ==> w.approvals[a].casefile != id
    ensures GatesTell(v)
  {
    hide Tells;
  }

  lemma NewRoles(w: World, v: World, id: string, c: Casefile)
    requires RolesTell(w) && v.casefiles == w.casefiles[id := c] && v.running == w.running[id := 0] && id !in w.casefiles
    requires c.outputs == [] && c.status == Open
    ensures RolesTell(v)
  {
    hide ROLES;
  }

  lemma PartTells(w: World, id: string, reply: Reply, newId: string, now: int)
    requires Inv(w) && GatesTell(w) && RolesTell(w) && Fresh(w, Advance(id, reply, newId, now))
    ensures var v := Investigate(w, id, reply, newId, now).0;
            GatesTell(v) && RolesTell(v)
  {
    if id in w.running {
      assert RunningSound(w) && Keyed(w);
      RunningCase(w, id);
      CaseKeyed(w, id);
      hide Inv, RunningSound, Keyed, ChainFrom, GatesTell;
      PartGates(w, id, reply, newId, now);
      PartRoles(w, id, reply, newId, now);
    }
  }

  lemma PartGates(w: World, id: string, reply: Reply, newId: string, now: int)
    requires GatesTell(w) && id in w.running && id in w.casefiles && w.casefiles[id].id == id && newId !in w.approvals
    requires forall a :: a in w.approvals ==> w.approvals[a].casefile != id
    ensures GatesTell(Investigate(w, id, reply, newId, now).0)
  {
    hide ChainFrom;
  }

  /** What a part leaves of a casefile's roles: one role more in its turn, or, for a denied
      specialist, the same roles and no more parts. */
  ghost predicate PartMoves(w: World, v: World, id: string)
    requires id in w.running && id in w.casefiles
  {
    var part := w.running[id];
    && v.casefiles.Keys == w.casefiles.Keys && (forall x :: x in w.casefiles && x != id ==> v.casefiles[x] == w.casefiles[x])
    && (forall x :: x != id ==> (x in v.running <==> x in w.running) && (x in v.running ==> v.running[x] == w.running[x]))
    && var outputs := w.casefiles[id].outputs;
       if id !in v.running && part < 7 then v.casefiles[id] == w.casefiles[id]
       else
         && v.casefiles[id].outputs == (if part == 0 then outputs
                                        else outputs + [if part == 1 then CEO else if part < 7 then SPECIALISTS[part - 2] else SUMMARIZER])
         && (part < 7 ==> id in v.running && v.running[id] == part + 1 && v.casefiles[id].status in {Triaging, Investigating})
         && (part == 7 ==> id !in v.running)
  }

  lemma PartMovesOn(w: World, id: string, reply: Reply, newId: string, now: int)
    requires id in w.running && id in w.casefiles && w.casefiles[id].id == id && w.running[id] <= 7
    requires w.casefiles[id].status == (if w.running[id] == 0 then Open else if w.running[id] == 1 then Triaging else Investigating)
    ensures PartMoves(w, Investigate(w, id, reply, newId, now).0, id)
  {
    hide ChainFrom;
  }

  lemma PartRoles(w: World, id: string, reply: Reply, newId: string, now: int)
    requires RolesTell(w) && id in w.running && id in w.casefiles && w.casefiles[id].id == id && w.running[id] <= 7
    requires w.casefiles[id].status == (if w.running[id] == 0 then Open else if w.running[id] == 1 then Triaging else Investigating)
    ensures RolesTell(Investigate(w, id, reply, newId, now).0)
  {
    hide Investigate;
    PartMovesOn(w, id, reply, newId, now);
    RolesMoved(w, Investigate(w, id, reply, newId, now).0, id);
  }

  lemma RolesMoved(w: World, v: World, id: string)
    requires RolesTell(w) && id in w.running && id in w.casefiles && w.running[id] <= 7 && PartMoves(w, v, id)
    requires w.casefiles[id].status in {Open, Triaging, Investigating}
    ensures RolesTell(v)
  {
    hide Worked, ROLES, SPECIALISTS, CEO, SUMMARIZER;
    forall x | x in v.casefiles ensures Worked(v.casefiles[x], PartOf(v, x)) {
      assert x in w.casefiles && Worked(w.casefiles[x], PartOf(w, x));
      if x == id {
        OwnRoles(w, v, id);
      } else {
        assert PartOf(v, x) == PartOf(w, x) && v.casefiles[x] == w.casefiles[x];
      }
    }
  }

  lemma OwnRoles(w: World, v: World, id: string)
    requires id in w.running && id in w.casefiles && w.running[id] <= 7 && PartMoves(w, v, id)
    requires w.casefiles[id].status in {Open, Triaging, Investigating} && Worked(w.casefiles[id], PartOf(w, id))
    ensures Worked(v.casefiles[id], PartOf(v, id))
  {
    hide ROLES, SPECIALISTS, CEO, SUMMARIZER;
    SevenRoles();
    var part := w.running[id];
    if part > 0 {
      RoleNext(part);
    }
  }

  lemma SevenRoles()
    ensures |ROLES| == 7 && ROLES[..0] == [] && ROLES[..7] == ROLES
  {
  }

  /** The role that works in a part is the next of the list. */
  lemma RoleNext(part: nat)
    requires 1 <= part <= 7
    ensures var role := if part == 1 then CEO else if part < 7 then SPECIALISTS[part - 2] else SUMMARIZER;
            ROLES[..part - 1] + [role] == ROLES[..part]
  {
    assert ROLES[part - 1] == if part == 1 then CEO else if part < 7 then SPECIALISTS[part - 2] else SUMMARIZER;
  }

  lemma StepTells(w: World, e: Event)
    requires Inv(w) && GatesTell(w) && RolesTell(w) && Fresh(w, e)
    ensures GatesTell(Step(w, e).0) && RolesTell(Step(w, e).0)
  {
    hide Inv, GatesTell, RolesTell, HandleTrigger, Investigate, HandleDecision, HandleTimeout;
    match e {
      case Trigger(complete, correlation, id) => TriggerTells(w, complete, correlation, id);
      case Advance(id, reply, newId, now) => PartTells(w, id, reply, newId, now);
      case Decide(id, approver, decision, ticket, now, reply) =>
        if id in w.approvals {
          DecisionTells(w, id, approver, decision, ticket, now, reply);
        }
      case Timeout(id, asOf) =>
        if id in w.approvals {
          TimeoutTells(w, id, asOf);
        }
    }
  }

  lemma {:induction false} RunTells(w: World, events: seq<Event>)
    requires Inv(w) && GatesTell(w) && RolesTell(w) && AllFresh(w, events)
    ensures GatesTell(Run(w, events)) && RolesTell(Run(w, events))
    decreases |events|
  {
    hide Inv, GatesTell, RolesTell, Step, Fresh;
    if events != [] {
      StepKeeps(w, events[0]);
      StepTells(w, events[0]);
      RunTells(Step(w, events[0]).0, events[1..]);
    }
  }

  /** After any run, every casefile's gate says what became of its approval, and a casefile
      that asked for one was worked on by the seven roles in order. */
  lemma StoreTells(events: seq<Event>)
    requires AllFresh(EMPTY, events)
    ensures GatesTell(Run(EMPTY, events)) && RolesTell(Run(EMPTY, events))
  {
    hide Run, Inv;
    EmptyInv();
    RunTells(EMPTY, events);
  }
}
