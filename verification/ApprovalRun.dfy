/** The controller as it runs: handlers read and write the store statement by statement,
    proved against the steps of the protocol. */
module ApprovalRun {
  import opened Results
  import opened Approvals

  class Store {
    var casefiles: map<string, Casefile>
    var approvals: map<string, Approval>
    var audit: seq<Audit>

    constructor ()
      ensures casefiles == map[] && approvals == map[] && audit == []
    {
      casefiles, approvals, audit := map[], map[], [];
    }

    method UpsertCasefile(c: Casefile)
      modifies this`casefiles
      ensures casefiles == old(casefiles)[c.id := c]
    {
      casefiles := casefiles[c.id := c];
    }

    method PutApproval(a: Approval)
      modifies this`approvals
      ensures approvals == old(approvals)[a.id := a]
    {
      approvals := approvals[a.id := a];
    }

    method AppendAudit(record: Audit)
      modifies this`audit
      ensures audit == old(audit) + [record]
    {
      audit := audit + [record];
    }

    method ListCasefiles() returns (all: seq<Casefile>)
      ensures forall c :: c in all <==> exists id :: id in casefiles && casefiles[id] == c
    {
      all := [];
      var left := casefiles.Keys;
      while left != {}
        invariant left <= casefiles.Keys
        invariant forall c :: c in all <==> exists id :: id in casefiles && id !in left && casefiles[id] == c
        decreases |left|
      {
        var id :| id in left;
        left := left - {id};
        all := all + [casefiles[id]];
      }
    }
  }

  /** `new_approval`'s escalation clock, accumulated role by role. */
  method EscalationChain(deadline: int) returns (chain: seq<Escalation>)
    ensures chain == ChainFrom(ESCALATION, deadline)
  {
    chain := [];
    var offset := 0;
    var i := 0;
    while i < |ESCALATION|
      invariant 0 <= i <= |ESCALATION|
      invariant ChainFrom(ESCALATION, deadline) == chain + ChainFrom(ESCALATION[i..], deadline + offset * MINUTE)
    {
      var (role, sla) := ESCALATION[i];
      chain := chain + [Escalation(role, sla, deadline + offset * MINUTE)];
      offset := offset + sla;
      i := i + 1;
    }
  }

  method BuildApproval(id: string, casefile: string, tool: string, risk: Risk, requestedBy: string, now: int) returns (r: Option<Approval>)
    ensures r == NewApproval(id, casefile, tool, risk, requestedBy, now)
  {
    var rules := TimeoutRules(risk);
    if rules.None? {
      return None;
    }
    var (pending, warning) := rules.value;
    var deadline := now + pending * MINUTE;
    var chain := EscalationChain(deadline);
    r := Some(Approval(id, casefile, tool, risk, requestedBy, now, now + warning * MINUTE, deadline, Pending, None, None, None, chain));
  }

  class Kagent {
    const store: Store
    var calls: seq<Call>
    var running: map<string, nat>

    function View(): World
      reads this, store
    {
      World(store.casefiles, store.approvals, store.audit, calls, running)
    }

    constructor ()
      ensures View() == EMPTY && fresh(store)
    {
      store := new Store();
      calls, running := [], map[];
    }

    /** `_handle_trigger`. */
    method Trigger(complete: bool, correlation: string, id: string) returns (response: Response)
      modifies this, store
      ensures (View(), response) == HandleTrigger(old(View()), complete, correlation, id)
    {
      if !complete {
        return BadRequest;
      }
      if |correlation| < 8 {
        return BadRequest;
      }
      var all := store.ListCasefiles();
      var i := 0;
      while i < |all|
        invariant 0 <= i <= |all|
        invariant forall k :: 0 <= k < i ==> all[k].correlation != correlation || Terminal(all[k].status)
      {
        if all[i].correlation == correlation && !Terminal(all[i].status) {
          assert all[i] in all;
          return Deduplicated;
        }
        i := i + 1;
      }
      assert !Active(View(), correlation) by {
        forall x | x in store.casefiles ensures store.casefiles[x].correlation != correlation || Terminal(store.casefiles[x].status) {
          assert store.casefiles[x] in all;
        }
      }
      store.UpsertCasefile(Casefile(id, correlation, Open, NotRequired, [], [], []));
      store.AppendAudit(Audit("casefile-created", "kagent-controller", id, ""));
      running := running[id := 0];
      response := Accepted(id);
    }

    /** `_decide`. */
    method Decide(a: Approval, approver: Option<string>, decision: Option<string>, ticket: Option<string>, now: int, reply: Reply)
        returns (response: Response)
      modifies this, store
      ensures (View(), response) == HandleDecision(old(View()), a, approver, decision, ticket, now, reply)
    {
      hide DecideApproval, Approvals.Execute;
      if approver.None? || decision.None? {
        return BadRequest;
      }
      var decided := DecideApproval(a, approver.value, decision.value, now, ticket);
      if decided.Err? {
        return BadRequest;
      }
      var updated := decided.value;
      store.PutApproval(updated);
      if updated.casefile !in store.casefiles {
        return Crash;
      }
      var c := store.casefiles[updated.casefile];
      store.AppendAudit(Audit("approval-decision", approver.value, c.id, if updated.state.Approved? then "executed" else "blocked"));
      if updated.state.Approved? {
        response := Execute(c, updated, reply);
        return;
      }
      c := c.(gate := Denied(updated.id));
      c := c.(journal := c.journal + [JournalEntry(updated.tool, "blocked")]);
      c := c.(status := Refused);
      store.UpsertCasefile(c);
      response := Decided(false);
    }

    /** `_execute_approved_action`: the casefile is saved as executing before the call. */
    method Execute(casefile: Casefile, a: Approval, reply: Reply) returns (response: Response)
      modifies this, store
      ensures (View(), response) == Approvals.Execute(old(View()), casefile, a, reply)
    {
      var c := casefile.(status := Executing);
      c := c.(gate := Granted(a.id));
      store.UpsertCasefile(c);
      calls := calls + [Call(a.tool, a)];
      if reply.Lost? {
        return Crash;
      }
      var outcome := OutcomeOf(reply);
      if !KnownOutcome(outcome) {
        return Crash;
      }
      store.AppendAudit(Audit("action-executed", PLANNER, c.id, outcome));
      c := c.(journal := c.journal + [JournalEntry(a.tool, outcome)]);
      c := c.(evidence := c.evidence + reply.evidence);
      c := c.(status := if outcome == "executed" then Resolved else Refused);
      store.UpsertCasefile(c);
      response := Decided(outcome == "executed");
    }

    /** `_evaluate_timeout`: one escalation record per paged role, then the denial. */
    method EvaluateTimeout(a: Approval, asOf: Option<int>) returns (response: Response)
      modifies this, store
      ensures (View(), response) == HandleTimeout(old(View()), a, asOf)
    {
      hide Escalated;
      if asOf.None? {
        return BadRequest;
      }
      var evaluation := Approvals.EvaluateTimeout(a, asOf.value);
      if !evaluation.TimedOut? {
        return Evaluated(evaluation);
      }
      store.PutApproval(a.(state := Expired));
      if a.casefile !in store.casefiles {
        return Crash;
      }
      var c := store.casefiles[a.casefile];
      var events := evaluation.escalated;
      ghost var before := store.audit;
      var i := 0;
      while i < |events|
        invariant 0 <= i <= |events|
        invariant store.audit == before + EscalationAudits(events, c.id)[..i]
        invariant store.casefiles == old(store.casefiles) && store.approvals == old(store.approvals)[a.id := a.(state := Expired)]
        invariant calls == old(calls) && running == old(running)
      {
        store.AppendAudit(Audit("approval-escalation", "kagent-controller", c.id, events[i].role));
        i := i + 1;
      }
      assert EscalationAudits(events, c.id)[..i] == EscalationAudits(events, c.id);
      store.AppendAudit(Audit("approval-timeout-deny", "kagent-controller", c.id, "blocked"));
      c := c.(gate := TimedOutGate(a.id));
      c := c.(journal := c.journal + [JournalEntry(a.tool, "blocked")]);
      c := c.(status := Refused);
      store.UpsertCasefile(c);
      response := Evaluated(evaluation);
    }

    // ----- run_investigation --------------------------------------------------------------

    method Triage(id: string)
      requires id in running && running[id] == 0 && id in store.casefiles && store.casefiles[id].id == id
      modifies this, store
      ensures View() == Investigate(old(View()), id, Lost, "", 0).0
      ensures id in running && running[id] == 1 && id in store.casefiles && store.casefiles[id].id == id
    {
      store.UpsertCasefile(store.casefiles[id].(status := Triaging));
      store.AppendAudit(Audit("status-transition", CEO, id, ""));
      running := running[id := 1];
    }

    method Delegate(id: string)
      requires id in running && running[id] == 1 && id in store.casefiles && store.casefiles[id].id == id
      modifies this, store
      ensures View() == Investigate(old(View()), id, Lost, "", 0).0
      ensures id in running && running[id] == 2 && id in store.casefiles && store.casefiles[id].id == id
    {
      var c := store.casefiles[id];
      c := c.(outputs := c.outputs + [CEO]);
      store.AppendAudit(Audit("agent-delegation", CEO, id, ""));
      c := c.(status := Investigating);
      store.UpsertCasefile(c);
      store.AppendAudit(Audit("status-transition", MANAGER, id, ""));
      running := running[id := 2];
    }

    method Consult(id: string, k: nat, reply: Reply) returns (ok: bool)
      requires k < |SPECIALISTS| && id in running && running[id] == 2 + k && id in store.casefiles && store.casefiles[id].id == id
      modifies this, store
      ensures View() == Investigate(old(View()), id, reply, "", 0).0
      ensures ok == (Investigate(old(View()), id, reply, "", 0).1 == Done)
      ensures ok ==> id in running && running[id] == 3 + k && id in store.casefiles && store.casefiles[id].id == id
    {
      var c := store.casefiles[id];
      if reply.Lost? || reply.status != 200 {
        running := running - {id};
        return false;
      }
      c := c.(evidence := c.evidence + reply.evidence);
      c := c.(outputs := c.outputs + [SPECIALISTS[k]]);
      store.AppendAudit(Audit("specialist-finding", SPECIALISTS[k], id, "executed"));
      store.UpsertCasefile(c);
      running := running[id := 3 + k];
      ok := true;
    }

    method Propose(id: string, approvalId: string, now: int)
      requires id in running && running[id] == 2 + |SPECIALISTS| && id in store.casefiles && store.casefiles[id].id == id
      modifies this, store
      ensures View() == Investigate(old(View()), id, Lost, approvalId, now).0
    {
      var c := store.casefiles[id];
      c := c.(outputs := c.outputs + [SUMMARIZER]);
      store.AppendAudit(Audit("evidence-synthesis", SUMMARIZER, id, ""));
      var approval := BuildApproval(approvalId, id, RUNBOOK, WriteHigh, CEO, now);
      store.PutApproval(approval.value);
      c := c.(gate := Waiting(approvalId));
      c := c.(status := AwaitingApproval);
      store.UpsertCasefile(c);
      store.AppendAudit(Audit("approval-requested", CEO, id, ""));
      running := running - {id};
    }

    /** The whole investigation: triage, delegation, the specialists in turn, and the
        proposal. It is the steps of the protocol run one after the other, and it stops at
        the first specialist the gateway denies. */
    method RunInvestigation(id: string, replies: seq<Reply>, approvalId: string, now: int) returns (finished: bool)
      requires |replies| == |SPECIALISTS|
      requires id in running && running[id] == 0 && id in store.casefiles && store.casefiles[id].id == id
      modifies this, store
      ensures View() == Advanced(old(View()), id, replies, approvalId, now, 3 + |SPECIALISTS|)
      ensures finished <==> forall k :: 0 <= k < |replies| ==> replies[k].Reply? && replies[k].status == 200
    {
      hide Investigate;
      ghost var start := View();
      FirstParts(start, id, replies, approvalId, now);
      Triage(id);
      Delegate(id);
      var k := 0;
      while k < |SPECIALISTS|
        invariant 0 <= k <= |SPECIALISTS|
        invariant id in running && running[id] == 2 + k && id in store.casefiles && store.casefiles[id].id == id
        invariant View() == Advanced(start, id, replies, approvalId, now, 2 + k)
        invariant forall m :: 0 <= m < k ==> replies[m].Reply? && replies[m].status == 200
      {
        ConsultPart(View(), id, k, replies[k], approvalId, now);
        var ok := Consult(id, k, replies[k]);
        if !ok {
          StoppedStays(start, id, replies, approvalId, now, 3 + k, 3 + |SPECIALISTS|);
          return false;
        }
        k := k + 1;
      }
      ProposePart(View(), id, approvalId, now);
      Propose(id, approvalId, now);
      finished := true;
    }
  }

  /** The first `n` parts of an investigation, the k-th specialist answered by the k-th reply. */
  function Advanced(w: World, id: string, replies: seq<Reply>, approvalId: string, now: int, n: nat): World {
    if n == 0 then w
    else
      var before := Advanced(w, id, replies, approvalId, now, n - 1);
      var reply := if 2 < n && n - 3 < |replies| then replies[n - 3] else Lost;
      Investigate(before, id, reply, approvalId, now).0
  }

  lemma FirstParts(w: World, id: string, replies: seq<Reply>, approvalId: string, now: int)
    requires id in w.running && w.running[id] == 0 && id in w.casefiles && w.casefiles[id].id == id
    ensures Advanced(w, id, replies, approvalId, now, 2) ==
            Investigate(Investigate(w, id, Lost, "", 0).0, id, Lost, "", 0).0
  {
    assert Advanced(w, id, replies, approvalId, now, 1) == Investigate(w, id, Lost, approvalId, now).0;
  }

  lemma ConsultPart(w: World, id: string, k: nat, reply: Reply, approvalId: string, now: int)
    requires k < |SPECIALISTS| && id in w.running && w.running[id] == 2 + k && id in w.casefiles
    ensures Investigate(w, id, reply, approvalId, now) == Investigate(w, id, reply, "", 0)
    ensures Investigate(w, id, reply, "", 0).1 == Done <==> reply.Reply? && reply.status == 200
    ensures Investigate(w, id, reply, "", 0).1 != Done ==> id !in Investigate(w, id, reply, "", 0).0.running
  {
  }

  lemma ProposePart(w: World, id: string, approvalId: string, now: int)
    ensures forall reply :: id in w.running && w.running[id] == 2 + |SPECIALISTS| ==>
              Investigate(w, id, reply, approvalId, now) == Investigate(w, id, Lost, approvalId, now)
  {
  }

  /** An investigation that has stopped stays where it is. */
  lemma {:induction false} StoppedStays(w: World, id: string, replies: seq<Reply>, approvalId: string, now: int, m: nat, n: nat)
    requires m <= n && id !in Advanced(w, id, replies, approvalId, now, m).running
    ensures Advanced(w, id, replies, approvalId, now, n) == Advanced(w, id, replies, approvalId, now, m)
    decreases n
  {
    if m < n {
      StoppedStays(w, id, replies, approvalId, now, m, n - 1);
    }
  }
}
