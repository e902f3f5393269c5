/** What every run of the approval protocol keeps. */
module ApprovalLaws {
  import opened Results
  import opened Approvals

  // ----- the invariant --------------------------------------------------------------------

  ghost predicate Keyed(w: World) {
    && (forall id :: id in w.casefiles ==> w.casefiles[id].id == id)
    && (forall id :: id in w.approvals ==> w.approvals[id].id == id && w.approvals[id].casefile in w.casefiles)
  }

  /** Every approval is one the controller proposed. */
  ghost predicate Proposed(a: Approval) {
    && a.requestedBy == CEO && a.risk == WriteHigh && a.tool == RUNBOOK && a.id != ""
    && a.warning == a.requestedAt + 30 * 60_000_000 && a.deadline == a.requestedAt + 60 * 60_000_000
    && a.chain == ChainFrom(ESCALATION, a.deadline)
  }

  /** An approved record names someone other than the requester, in time. */
  predicate Legitimate(a: Approval) {
    a.state.Approved? && a.approver.Some? && a.approver.value != a.requestedBy && a.decidedAt.Some? && a.decidedAt.value <= a.deadline
  }

  ghost predicate ApprovalsSound(w: World) {
    && (forall id :: id in w.approvals ==> Proposed(w.approvals[id]))
    && (forall id :: id in w.approvals && w.approvals[id].state.Approved? ==> Legitimate(w.approvals[id]))
    && (forall a, b :: a in w.approvals && b in w.approvals && w.approvals[a].casefile == w.approvals[b].casefile ==> a == b)
  }

  /** While an approval is pending its casefile waits for it and nothing was called. */
  ghost predicate PendingWaits(w: World) {
    forall id :: id in w.approvals && w.approvals[id].state.Pending? && w.approvals[id].casefile in w.casefiles ==>
      && w.casefiles[w.approvals[id].casefile].status == AwaitingApproval
      && w.casefiles[w.approvals[id].casefile].gate == Waiting(id)
      && Uncalled(w, id)
  }

  ghost predicate Uncalled(w: World, id: string) {
    forall k :: 0 <= k < |w.calls| ==> w.calls[k].approval.id != id
  }

  /** A casefile that waits names a pending approval of its own. */
  ghost predicate WaitingNames(w: World) {
    forall id :: id in w.casefiles && w.casefiles[id].status == AwaitingApproval ==>
      && w.casefiles[id].gate.Waiting? && w.casefiles[id].gate.reference in w.approvals
      && w.approvals[w.casefiles[id].gate.reference].casefile == id
      && w.approvals[w.casefiles[id].gate.reference].state.Pending?
  }

  ghost predicate Waits(w: World) {
    PendingWaits(w) && WaitingNames(w)
  }

  /** The write path was called at most once per approval, and only for one that is
      stored approved, as the call carried it. */
  ghost predicate CallsApproved(w: World) {
    && (forall k :: 0 <= k < |w.calls| ==>
          && w.calls[k].approval.id in w.approvals && w.approvals[w.calls[k].approval.id] == w.calls[k].approval
          && Legitimate(w.calls[k].approval))
    && (forall k, l :: 0 <= k < l < |w.calls| ==> w.calls[k].approval.id != w.calls[l].approval.id)
  }

  /** A resolved casefile's approved action was called and reported executed. */
  ghost predicate ResolvedExecuted(w: World) {
    forall id :: id in w.casefiles && w.casefiles[id].status == Resolved ==> Executed(w, w.casefiles[id])
  }

  ghost predicate Executed(w: World, c: Casefile) {
    && c.gate.Granted?
    && c.journal != [] && c.journal[|c.journal| - 1].outcome == "executed"
    && (exists k :: 0 <= k < |w.calls| && w.calls[k].approval.id == c.gate.reference && w.calls[k].approval.casefile == c.id)
    && (exists k :: 0 <= k < |w.audit| && w.audit[k] == Audit("action-executed", PLANNER, c.id, "executed"))
  }

  ghost predicate RunningSound(w: World) {
    && (forall id :: id in w.running ==>
          && id in w.casefiles && w.running[id] <= 2 + |SPECIALISTS|
          && w.casefiles[id].status == (if w.running[id] == 0 then Open else if w.running[id] == 1 then Triaging else Investigating))
    && (forall id, a :: id in w.running && a in w.approvals ==> w.approvals[a].casefile != id)
  }

  /** At most one open casefile per correlation id. */
  ghost predicate OneActive(w: World) {
    forall a, b :: a in w.casefiles && b in w.casefiles && Rivals(w.casefiles[a], w.casefiles[b]) ==> a == b
  }

  predicate Rivals(a: Casefile, b: Casefile) {
    !Terminal(a.status) && !Terminal(b.status) && a.correlation == b.correlation
  }

  ghost predicate Inv(w: World) {
    Keyed(w) && ApprovalsSound(w) && Waits(w) && CallsApproved(w) && ResolvedExecuted(w) && RunningSound(w) && OneActive(w)
  }

  // ----- what one step leaves alone ----------------------------------------------------------

  /** Decided approvals and terminal casefiles never change, and the audit trail and the
      record of calls only grow. */
  ghost predicate Settled(w: World, v: World) {
    && (forall id :: id in w.approvals ==> id in v.approvals && (!w.approvals[id].state.Pending? ==> v.approvals[id] == w.approvals[id]))
    && (forall id :: id in w.casefiles ==> id in v.casefiles && v.casefiles[id].correlation == w.casefiles[id].correlation)
    && (forall id :: id in w.casefiles && Terminal(w.casefiles[id].status) ==> v.casefiles[id] == w.casefiles[id])
    && w.audit <= v.audit
    && w.calls <= v.calls
  }

  lemma SettledTransitive(u: World, v: World, w: World)
    requires Settled(u, v) && Settled(v, w)
    ensures Settled(u, w)
  {
  }

  lemma AuditKept(w: World, v: World, c: Casefile)
    requires Executed(w, c) && w.audit <= v.audit && w.calls <= v.calls
    ensures Executed(v, c)
  {
    var i :| 0 <= i < |w.calls| && w.calls[i].approval.id == c.gate.reference && w.calls[i].approval.casefile == c.id;
    assert v.calls[i] == w.calls[i];
    var j :| 0 <= j < |w.audit| && w.audit[j] == Audit("action-executed", PLANNER, c.id, "executed");
    assert v.audit[j] == w.audit[j];
  }

  lemma ExecutedKept(w: World, v: World)
    requires ResolvedExecuted(w) && w.audit <= v.audit && w.calls <= v.calls
    requires forall id :: id in v.casefiles && v.casefiles[id].status == Resolved ==>
               (id in w.casefiles && w.casefiles[id] == v.casefiles[id]) || Executed(v, v.casefiles[id])
    ensures ResolvedExecuted(v)
  {
    hide Executed;
    forall id | id in v.casefiles && v.casefiles[id].status == Resolved ensures Executed(v, v.casefiles[id]) {
      if id in w.casefiles && w.casefiles[id] == v.casefiles[id] {
        AuditKept(w, v, w.casefiles[id]);
      }
    }
  }

  // ----- one casefile and at most one approval change ------------------------------------------

  /** A step that saves casefile `c`, and perhaps stores approval `a` and makes a call. */
  ghost predicate Touches(w: World, v: World, c: Casefile, a: Option<Approval>, called: bool) {
    && v.casefiles == w.casefiles[c.id := c]
    && v.approvals == (if a.Some? then w.approvals[a.value.id := a.value] else w.approvals)
    && v.calls == (if called && a.Some? then w.calls + [Call(a.value.tool, a.value)] else w.calls)
    && w.audit <= v.audit
    && (a.Some? ==> a.value.casefile == c.id)
  }

  lemma KeyedKept(w: World, v: World, c: Casefile, a: Option<Approval>, called: bool)
    requires Keyed(w) && Touches(w, v, c, a, called)
    ensures Keyed(v)
  {
  }

  lemma ApprovalsKept(w: World, v: World, c: Casefile, a: Option<Approval>, called: bool)
    requires Keyed(w) && ApprovalsSound(w) && Touches(w, v, c, a, called)
    requires a.Some? ==> Proposed(a.value) && (a.value.state.Approved? ==> Legitimate(a.value))
    requires a.Some? ==> forall id :: id in w.approvals && w.approvals[id].casefile == c.id ==> id == a.value.id
    requires a.Some? && a.value.id in w.approvals ==> w.approvals[a.value.id].casefile == c.id
    ensures ApprovalsSound(v)
  {
    hide Proposed, Legitimate;
  }

  /** What a change must say about waiting. */
  ghost predicate WaitsChange(w: World, c: Casefile, a: Option<Approval>, called: bool) {
    && (a.None? ==> c.status != AwaitingApproval && (c.id in w.casefiles ==> w.casefiles[c.id].status != AwaitingApproval))
    && (a.Some? && a.value.state.Pending? ==>
          && !called && a.value.id !in w.approvals && c.status == AwaitingApproval && c.gate == Waiting(a.value.id)
          && (forall id :: id in w.approvals ==> w.approvals[id].casefile != c.id)
          && Uncalled(w, a.value.id))
    && (a.Some? && !a.value.state.Pending? ==>
          && c.status != AwaitingApproval && a.value.id in w.approvals && w.approvals[a.value.id].casefile == c.id)
  }

  lemma PendingWaitsKept(w: World, v: World, c: Casefile, a: Option<Approval>, called: bool)
    requires Keyed(w) && ApprovalsSound(w) && PendingWaits(w) && Touches(w, v, c, a, called) && WaitsChange(w, c, a, called)
    ensures PendingWaits(v)
  {
    hide Proposed, Legitimate;
    forall id | id in v.approvals && v.approvals[id].state.Pending? && v.approvals[id].casefile in v.casefiles
      ensures v.casefiles[v.approvals[id].casefile].status == AwaitingApproval
      ensures v.casefiles[v.approvals[id].casefile].gate == Waiting(id) && Uncalled(v, id)
    {
      if !(a.Some? && a.value.id == id) {
        assert v.approvals[id] == w.approvals[id];
        assert w.approvals[id].casefile in w.casefiles;
        assert w.approvals[id].casefile != c.id;
      }
    }
  }

  lemma WaitsKept(w: World, v: World, c: Casefile, a: Option<Approval>, called: bool)
    requires Keyed(w) && ApprovalsSound(w) && Waits(w) && Touches(w, v, c, a, called) && WaitsChange(w, c, a, called)
    ensures Waits(v)
  {
    hide Proposed, Legitimate, PendingWaits;
    PendingWaitsKept(w, v, c, a, called);
  }

  lemma CallsKept(w: World, v: World, c: Casefile, a: Option<Approval>, called: bool)
    requires CallsApproved(w) && Touches(w, v, c, a, called)
    requires a.Some? && a.value.id in w.approvals ==> !w.approvals[a.value.id].state.Approved?
    requires a.Some? && called ==> Legitimate(a.value)
    requires a.Some? && a.value.id !in w.approvals ==> !called
    ensures CallsApproved(v)
  {
  }

  lemma RunningKept(w: World, v: World, c: Casefile, a: Option<Approval>, called: bool)
    requires RunningSound(w) && Touches(w, v, c, a, called)
    requires forall id :: id in v.running && id != c.id ==> id in w.running && v.running[id] == w.running[id]
    requires c.id in v.running ==>
      && v.running[c.id] <= 2 + |SPECIALISTS|
      && c.status == (if v.running[c.id] == 0 then Open else if v.running[c.id] == 1 then Triaging else Investigating)
      && (forall id :: id in w.approvals ==> w.approvals[id].casefile != c.id)
    requires a.Some? ==> c.id !in v.running
    ensures RunningSound(v)
  {
  }

  lemma OneActiveKept(w: World, v: World, c: Casefile, a: Option<Approval>, called: bool)
    requires OneActive(w) && Touches(w, v, c, a, called)
    requires if c.id in w.casefiles then
               w.casefiles[c.id].correlation == c.correlation && (Terminal(w.casefiles[c.id].status) ==> Terminal(c.status))
             else !Active(w, c.correlation)
    ensures OneActive(v)
  {
    assert c.id in w.casefiles ==> forall z :: z in w.casefiles && z != c.id ==>
      !Rivals(w.casefiles[z], w.casefiles[c.id]) && !Rivals(w.casefiles[c.id], w.casefiles[z]);
  }

  lemma SettledKept(w: World, v: World, c: Casefile, a: Option<Approval>, called: bool)
    requires Touches(w, v, c, a, called)
    requires c.id in w.casefiles ==> w.casefiles[c.id].correlation == c.correlation && !Terminal(w.casefiles[c.id].status)
    requires a.Some? && a.value.id in w.approvals ==> w.approvals[a.value.id].state.Pending?
    ensures Settled(w, v)
  {
  }

  // ----- triggers and investigations --------------------------------------------------------------

  lemma TriggerKeeps(w: World, complete: bool, correlation: string, id: string)
    requires Inv(w) && Fresh(w, Trigger(complete, correlation, id))
    ensures Inv(HandleTrigger(w, complete, correlation, id).0) && Settled(w, HandleTrigger(w, complete, correlation, id).0)
  {
    hide Keyed, ApprovalsSound, Waits, CallsApproved, ResolvedExecuted, RunningSound, OneActive, Executed, Active;
    var (v, response) := HandleTrigger(w, complete, correlation, id);
    if response.Accepted? {
      var c := v.casefiles[id];
      assert Touches(w, v, c, None, false);
      KeyedKept(w, v, c, None, false);
      ApprovalsKept(w, v, c, None, false);
      WaitsKept(w, v, c, None, false);
      CallsKept(w, v, c, None, false);
      NewHasNoApproval(w, id);
      RunningKept(w, v, c, None, false);
      OneActiveKept(w, v, c, None, false);
      SettledKept(w, v, c, None, false);
      ExecutedKept(w, v);
    }
  }

  lemma NewHasNoApproval(w: World, id: string)
    requires Keyed(w) && id !in w.casefiles
    ensures forall a :: a in w.approvals ==> w.approvals[a].casefile != id
  {
  }

  lemma RunningCase(w: World, id: string)
    requires RunningSound(w) && id in w.running
    ensures id in w.casefiles && w.running[id] <= 2 + |SPECIALISTS|
    ensures w.casefiles[id].status == (if w.running[id] == 0 then Open else if w.running[id] == 1 then Triaging else Investigating)
    ensures forall a :: a in w.approvals ==> w.approvals[a].casefile != id
  {
  }

  /** A part before the proposal moves only its own casefile on. */
  lemma EarlierPart(w: World, id: string, reply: Reply, newId: string, now: int)
    requires Keyed(w) && RunningSound(w) && id in w.running && w.running[id] < 2 + |SPECIALISTS|
    ensures var v := Investigate(w, id, reply, newId, now).0;
            && id in v.casefiles && v.casefiles[id].id == id && Touches(w, v, v.casefiles[id], None, false)
            && v.casefiles[id].correlation == w.casefiles[id].correlation
            && (v.casefiles[id].status == Triaging || v.casefiles[id].status == Investigating)
            && (forall x :: x in v.running && x != id ==> x in w.running && v.running[x] == w.running[x])
            && (id in v.running ==> 1 <= v.running[id] <= 2 + |SPECIALISTS|
                                    && v.casefiles[id].status == (if v.running[id] == 1 then Triaging else Investigating))
  {
    RunningCase(w, id);
    CaseKeyed(w, id);
    hide Keyed, RunningSound;
    var c := w.casefiles[id];
    assert w.casefiles[id := c] == w.casefiles;
  }

  lemma ProposalPart(w: World, id: string, reply: Reply, newId: string, now: int)
    requires Keyed(w) && RunningSound(w) && id in w.running && w.running[id] == 2 + |SPECIALISTS| && newId != ""
    ensures var v := Investigate(w, id, reply, newId, now).0;
            && id in v.casefiles && v.casefiles[id].id == id && newId in v.approvals
            && Touches(w, v, v.casefiles[id], Some(v.approvals[newId]), false)
            && v.casefiles[id].correlation == w.casefiles[id].correlation
            && v.casefiles[id].status == AwaitingApproval && v.casefiles[id].gate == Waiting(newId)
            && v.approvals[newId].id == newId && Proposed(v.approvals[newId]) && v.approvals[newId].state.Pending?
            && v.running == w.running - {id}
  {
    RunningCase(w, id);
    CaseKeyed(w, id);
    hide Keyed, RunningSound, ChainFrom;
  }

  lemma InvestigateKeeps(w: World, id: string, reply: Reply, newId: string, now: int)
    requires Inv(w) && Fresh(w, Advance(id, reply, newId, now))
    ensures Inv(Investigate(w, id, reply, newId, now).0) && Settled(w, Investigate(w, id, reply, newId, now).0)
  {
    if id in w.running {
      RunningCase(w, id);
      CaseKeyed(w, id);
      CallsKnown(w);
      hide Keyed, ApprovalsSound, Waits, CallsApproved, ResolvedExecuted, RunningSound, OneActive, Executed, Proposed, Legitimate, Investigate, Settled, Touches;
      var v := Investigate(w, id, reply, newId, now).0;
      var a := None;
      if w.running[id] < 2 + |SPECIALISTS| {
        EarlierPart(w, id, reply, newId, now);
      } else {
        ProposalPart(w, id, reply, newId, now);
        a := Some(v.approvals[newId]);
      }
      PartKeeps(w, v, v.casefiles[id], a);
    }
  }

  lemma PartKeeps(w: World, v: World, c: Casefile, a: Option<Approval>)
    requires Inv(w) && c.id in w.running && c.id in w.casefiles && Touches(w, v, c, a, false)
    requires c.correlation == w.casefiles[c.id].correlation
    requires a.None? ==> c.status == Triaging || c.status == Investigating
    requires a.Some? ==> c.status == AwaitingApproval && c.gate == Waiting(a.value.id) && Proposed(a.value) && a.value.state.Pending?
    requires a.Some? ==> a.value.id !in w.approvals && c.id !in v.running
    requires forall x :: x in v.running && x != c.id ==> x in w.running && v.running[x] == w.running[x]
    requires c.id in v.running ==> 1 <= v.running[c.id] <= 2 + |SPECIALISTS|
                                   && c.status == (if v.running[c.id] == 1 then Triaging else Investigating)
    ensures Inv(v) && Settled(w, v)
  {
    hide WaitsChange, Keyed, ApprovalsSound, Waits, CallsApproved, ResolvedExecuted, RunningSound, OneActive, Proposed, Settled, Touches;
    RunningCase(w, c.id);
    PartWaits(w, c, a);
    PartApprovals(w, v, c, a);
    PartCasefiles(w, v, c, a);
  }

  lemma PartApprovals(w: World, v: World, c: Casefile, a: Option<Approval>)
    requires Keyed(w) && ApprovalsSound(w) && Waits(w) && CallsApproved(w) && Touches(w, v, c, a, false) && WaitsChange(w, c, a, false)
    requires a.Some? ==> Proposed(a.value) && a.value.state.Pending? && a.value.id !in w.approvals
    requires a.Some? ==> forall id :: id in w.approvals ==> w.approvals[id].casefile != c.id
    ensures Keyed(v) && ApprovalsSound(v) && Waits(v) && CallsApproved(v)
  {
    hide WaitsChange, Keyed, ApprovalsSound, Waits, CallsApproved, Proposed, Legitimate, Touches;
    KeyedKept(w, v, c, a, false);
    ApprovalsKept(w, v, c, a, false);
    WaitsKept(w, v, c, a, false);
    CallsKept(w, v, c, a, false);
  }

  lemma PartCasefiles(w: World, v: World, c: Casefile, a: Option<Approval>)
    requires RunningSound(w) && OneActive(w) && ResolvedExecuted(w) && Touches(w, v, c, a, false)
    requires c.id in w.running && c.id in w.casefiles && !Terminal(w.casefiles[c.id].status)
    requires c.correlation == w.casefiles[c.id].correlation && c.status != Resolved
    requires forall id :: id in w.approvals ==> w.approvals[id].casefile != c.id
    requires a.Some? ==> a.value.id !in w.approvals && c.id !in v.running
    requires forall x :: x in v.running && x != c.id ==> x in w.running && v.running[x] == w.running[x]
    requires c.id in v.running ==> 1 <= v.running[c.id] <= 2 + |SPECIALISTS|
                                   && c.status == (if v.running[c.id] == 1 then Triaging else Investigating)
    ensures RunningSound(v) && OneActive(v) && ResolvedExecuted(v) && Settled(w, v)
  {
    CallsBefore(w, v, c, a);
    hide ResolvedExecuted, RunningSound, OneActive, Executed, Proposed, Settled, Touches;
    RunningKept(w, v, c, a, false);
    OneActiveKept(w, v, c, a, false);
    SettledKept(w, v, c, a, false);
    ExecutedKept(w, v);
  }

  lemma PartWaits(w: World, c: Casefile, a: Option<Approval>)
    requires CallsApproved(w) && RunningSound(w) && c.id in w.running
    requires a.None? ==> c.status == Triaging || c.status == Investigating
    requires a.Some? ==> c.status == AwaitingApproval && c.gate == Waiting(a.value.id) && a.value.state.Pending? && a.value.id !in w.approvals
    ensures WaitsChange(w, c, a, false)
  {
    RunningCase(w, c.id);
    CallsKnown(w);
  }

  /** What `ExecutedKept` needs of a change that resolves nothing. */
  lemma CallsBefore(w: World, v: World, c: Casefile, a: Option<Approval>)
    requires Touches(w, v, c, a, false) && c.status != Resolved
    ensures w.audit <= v.audit && w.calls <= v.calls
    ensures forall id :: id in v.casefiles && v.casefiles[id].status == Resolved ==> id in w.casefiles && w.casefiles[id] == v.casefiles[id]
  {
  }

  lemma CaseKeyed(w: World, id: string)
    requires Keyed(w) && id in w.casefiles
    ensures w.casefiles[id].id == id
  {
  }

  lemma CallsKnown(w: World)
    requires CallsApproved(w)
    ensures forall k :: 0 <= k < |w.calls| ==> w.calls[k].approval.id in w.approvals
  {
  }

  // ----- decisions and timeouts ------------------------------------------------------------------------

  /** What a pending approval in the store is known to be. */
  lemma PendingFacts(w: World, id: string)
    requires Keyed(w) && ApprovalsSound(w) && Waits(w) && RunningSound(w)
    requires id in w.approvals && w.approvals[id].state.Pending?
    ensures w.approvals[id].id == id && w.approvals[id].casefile in w.casefiles && Proposed(w.approvals[id])
    ensures var c := w.casefiles[w.approvals[id].casefile];
            c.id == w.approvals[id].casefile && c.status == AwaitingApproval && c.gate == Waiting(id) && c.id !in w.running
    ensures forall b :: b in w.approvals && w.approvals[b].casefile == w.approvals[id].casefile ==> b == id
  {
    hide Proposed, Legitimate;
  }

  /** A pending approval is decided, and its casefile leaves the waiting state. */
  lemma DecidedKeeps(w: World, v: World, id: string, c: Casefile, a: Approval, called: bool)
    requires Inv(w) && id in w.approvals && w.approvals[id].state.Pending?
    requires Touches(w, v, c, Some(a), called) && v.running == w.running
    requires a.id == id && a.casefile == w.approvals[id].casefile && Proposed(a) && !a.state.Pending?
    requires a.state.Approved? ==> Legitimate(a)
    requires called ==> a.state.Approved?
    requires a.casefile in w.casefiles
    requires c.correlation == w.casefiles[a.casefile].correlation && c.status != AwaitingApproval
    requires c.status == Resolved ==> Executed(v, c)
    ensures Inv(v) && Settled(w, v)
  {
    hide Settled, Keyed, ApprovalsSound, Waits, CallsApproved, ResolvedExecuted, RunningSound, OneActive, Executed, Legitimate, Proposed;
    PendingFacts(w, id);
    KeyedKept(w, v, c, Some(a), called);
    ApprovalsKept(w, v, c, Some(a), called);
    WaitsKept(w, v, c, Some(a), called);
    CallsKept(w, v, c, Some(a), called);
    RunningKept(w, v, c, Some(a), called);
    OneActiveKept(w, v, c, Some(a), called);
    SettledKept(w, v, c, Some(a), called);
    ExecutedKept(w, v);
  }

  lemma TimeoutKeeps(w: World, id: string, asOf: Option<int>)
    requires Inv(w) && id in w.approvals
    ensures Inv(HandleTimeout(w, w.approvals[id], asOf).0) && Settled(w, HandleTimeout(w, w.approvals[id], asOf).0)
  {
    hide Keyed, ApprovalsSound, Waits, CallsApproved, ResolvedExecuted, RunningSound, OneActive, Executed, Escalated, Legitimate;
    var (v, response) := HandleTimeout(w, w.approvals[id], asOf);
    if asOf.Some? && EvaluateTimeout(w.approvals[id], asOf.value).TimedOut? {
      PendingFacts(w, id);
      var a := w.approvals[id].(state := Expired);
      var c := v.casefiles[a.casefile];
      DecidedKeeps(w, v, id, c, a, false);
    }
  }

  /** An accepted decision stores the record, saves its casefile and, when it approves,
      makes the one call. */
  lemma DecisionTouches(w: World, id: string, approver: string, decision: string, ticket: Option<string>, now: int, reply: Reply)
    requires Keyed(w) && id in w.approvals && DecideApproval(w.approvals[id], approver, decision, now, ticket).Ok?
    ensures var a := DecideApproval(w.approvals[id], approver, decision, now, ticket).value;
            var v := HandleDecision(w, w.approvals[id], Some(approver), Some(decision), ticket, now, reply).0;
            && a.casefile in v.casefiles
            && var c := v.casefiles[a.casefile];
               && c.id == a.casefile && Touches(w, v, c, Some(a), a.state.Approved?) && v.running == w.running
               && c.correlation == w.casefiles[a.casefile].correlation && c.status != AwaitingApproval
               && (c.status == Resolved ==> Executed(v, c))
  {
    hide DecideApproval, Executed;
    var a := DecideApproval(w.approvals[id], approver, decision, now, ticket).value;
    DecidedKeepsPlace(w.approvals[id], approver, decision, now, ticket);
    var v := HandleDecision(w, w.approvals[id], Some(approver), Some(decision), ticket, now, reply).0;
    var c := v.casefiles[a.casefile];
    if c.status == Resolved {
      ResolvedHere(w, v, c, a);
    }
  }

  lemma DecidedKeepsPlace(a: Approval, approver: string, decision: string, now: int, ticket: Option<string>)
    requires DecideApproval(a, approver, decision, now, ticket).Ok?
    ensures var b := DecideApproval(a, approver, decision, now, ticket).value;
            && b.id == a.id && b.casefile == a.casefile && a.state.Pending? && !b.state.Pending?
            && (Proposed(a) ==> Proposed(b)) && (b.state.Approved? ==> Legitimate(b))
  {
  }

  lemma DecisionKeeps(w: World, id: string, approver: Option<string>, decision: Option<string>, ticket: Option<string>, now: int, reply: Reply)
    requires Inv(w) && id in w.approvals
    ensures var v := HandleDecision(w, w.approvals[id], approver, decision, ticket, now, reply).0;
            Inv(v) && Settled(w, v)
  {
    var a := w.approvals[id];
    if approver.Some? && decision.Some? && DecideApproval(a, approver.value, decision.value, now, ticket).Ok? {
      DecidedKeepsPlace(a, approver.value, decision.value, now, ticket);
      PendingFacts(w, id);
      DecisionTouches(w, id, approver.value, decision.value, ticket, now, reply);
      hide Keyed, ApprovalsSound, Waits, CallsApproved, ResolvedExecuted, RunningSound, OneActive, Executed, Touches, Proposed, Legitimate, DecideApproval, HandleDecision, Settled;
      var updated := DecideApproval(a, approver.value, decision.value, now, ticket).value;
      var v := HandleDecision(w, a, approver, decision, ticket, now, reply).0;
      DecidedKeeps(w, v, id, v.casefiles[a.casefile], updated, updated.state.Approved?);
    } else {
      Unchanged(w);
    }
  }

  lemma ResolvedHere(w: World, v: World, c: Casefile, a: Approval)
    requires v.calls == w.calls + [Call(a.tool, a)] && c.gate == Granted(a.id) && a.casefile == c.id
    requires c.journal != [] && c.journal[|c.journal| - 1].outcome == "executed"
    requires v.audit != [] && v.audit[|v.audit| - 1] == Audit("action-executed", PLANNER, c.id, "executed")
    ensures Executed(v, c)
  {
    assert v.calls[|w.calls|].approval.id == c.gate.reference;
  }

  // ----- every run -----------------------------------------------------------------------------------------

  /** Every step keeps the protocol's invariant and leaves what is settled alone. */
  lemma StepKeeps(w: World, e: Event)
    requires Inv(w) && Fresh(w, e)
    ensures Inv(Step(w, e).0) && Settled(w, Step(w, e).0)
  {
    hide Inv, Settled, HandleTrigger, Investigate, HandleDecision, HandleTimeout;
    match e {
      case Trigger(complete, correlation, id) => TriggerKeeps(w, complete, correlation, id);
      case Advance(id, reply, newId, now) => InvestigateKeeps(w, id, reply, newId, now);
      case Decide(id, approver, decision, ticket, now, reply) =>
        if id in w.approvals {
          DecisionKeeps(w, id, approver, decision, ticket, now, reply);
        } else {
          Unchanged(w);
        }
      case Timeout(id, asOf) =>
        if id in w.approvals {
          TimeoutKeeps(w, id, asOf);
        } else {
          Unchanged(w);
        }
    }
  }

  lemma Unchanged(w: World)
    ensures Settled(w, w)
  {
  }

  function Run(w: World, events: seq<Event>): World
    decreases |events|
  {
    if events == [] then w else Run(Step(w, events[0]).0, events[1..])
  }

  /** Identifiers stay unique along the run. */
  predicate AllFresh(w: World, events: seq<Event>)
    decreases |events|
  {
    events == [] || (Fresh(w, events[0]) && AllFresh(Step(w, events[0]).0, events[1..]))
  }

  lemma {:induction false} RunKeeps(w: World, events: seq<Event>)
    requires Inv(w) && AllFresh(w, events)
    ensures Inv(Run(w, events)) && Settled(w, Run(w, events))
    decreases |events|
  {
    hide Inv, Settled, Step, Fresh;
    if events == [] {
      Unchanged(w);
    } else {
      StepKeeps(w, events[0]);
      RunKeeps(Step(w, events[0]).0, events[1..]);
      SettledTransitive(w, Step(w, events[0]).0, Run(w, events));
    }
  }

  /** Safety of every run from the empty store: the write path is called at most once per
      approval, only for one stored approved by someone other than its requester no
      later than its deadline; a resolved casefile's action was called and executed; and
      each correlation id has at most one open casefile. */
  lemma ProtocolSafety(events: seq<Event>)
    requires AllFresh(EMPTY, events)
    ensures var w := Run(EMPTY, events);
            && CallsApproved(w)
            && ResolvedExecuted(w)
            && OneActive(w)
  {
    hide Step, Run;
    EmptyInv();
    RunKeeps(EMPTY, events);
  }

  lemma EmptyInv()
    ensures Inv(EMPTY)
  {
  }

  /** Once decided, an approval is the same after every continuation of the run, and so
      is a casefile once it is terminal. */
  lemma DecidedForever(first: seq<Event>, rest: seq<Event>, id: string)
    requires AllFresh(EMPTY, first) && AllFresh(Run(EMPTY, first), rest)
    ensures var w := Run(EMPTY, first);
            var v := Run(w, rest);
            && (id in w.approvals && !w.approvals[id].state.Pending? ==> id in v.approvals && v.approvals[id] == w.approvals[id])
            && (id in w.casefiles && Terminal(w.casefiles[id].status) ==> id in v.casefiles && v.casefiles[id] == w.casefiles[id])
  {
    hide Step, Run, Inv;
    EmptyInv();
    RunKeeps(EMPTY, first);
    RunKeeps(Run(EMPTY, first), rest);
  }

  // ----- what the deadline means ------------------------------------------------------------------------------

  /** A record made by `NewApproval`, whatever has been decided since. */
  ghost predicate Made(a: Approval) {
    exists p: Approval ::
      && NewApproval(a.id, a.casefile, a.tool, a.risk, a.requestedBy, a.requestedAt) == Some(p)
      && (a.warning, a.deadline, a.chain) == (p.warning, p.deadline, p.chain)
  }

  /** Approvals exist for the two highest risk classes only, with 60 and 120 minutes. */
  lemma MadeMeans(a: Approval)
    ensures Made(a) <==>
            && a.risk in {WriteHigh, WriteCritical}
            && a.deadline == a.requestedAt + (if a.risk == WriteHigh then 60 else 120) * 60_000_000
            && a.warning == a.requestedAt + (if a.risk == WriteHigh then 30 else 60) * 60_000_000
            && a.chain == ChainFrom(ESCALATION, a.deadline)
  {
    hide ChainFrom;
    var made := NewApproval(a.id, a.casefile, a.tool, a.risk, a.requestedBy, a.requestedAt);
    if made.Some? && (a.warning, a.deadline, a.chain) == (made.value.warning, made.value.deadline, made.value.chain) {
      assert Made(a);
    }
  }

  /** A decision goes through exactly when the approval is pending, the approver is named
      and is not the requester, the word is one of the two, the deadline holds, and an
      approved critical write names its change ticket. */
  lemma DecisionIff(a: Approval, approver: string, decision: string, now: int, ticket: Option<string>)
    requires Made(a)
    ensures DecideApproval(a, approver, decision, now, ticket).Ok? <==>
            && a.state.Pending? && a.id != "" && approver != "" && approver != a.requestedBy
            && (decision == "approved" || decision == "rejected") && now <= a.deadline
            && (a.risk == WriteCritical && decision == "approved" ==> ticket.Some? && ticket.value != "")
    ensures DecideApproval(a, approver, decision, now, ticket).Ok? && decision == "approved" ==>
              var approved := DecideApproval(a, approver, decision, now, ticket).value;
              Legitimate(approved) && (a.risk == WriteCritical ==> approved.ticket.Some? && approved.ticket.value != "")
  {
    MadeMeans(a);
  }

  /** From its deadline on a pending approval always expires, having paged exactly the
      roles whose turn has come; 90 minutes later the whole chain has been. */
  lemma TimeoutIff(a: Approval, asOf: int)
    requires Made(a) && a.state.Pending?
    ensures EvaluateTimeout(a, asOf).TimedOut? <==> asOf >= a.requestedAt + (if a.risk == WriteHigh then 60 else 120) * 60_000_000
    ensures EvaluateTimeout(a, asOf).Warning? <==>
              a.requestedAt + (if a.risk == WriteHigh then 30 else 60) * 60_000_000 <= asOf < a.deadline
    ensures EvaluateTimeout(a, asOf).TimedOut? ==>
              var e := EvaluateTimeout(a, asOf);
              && e.escalated <= a.chain
              && |e.escalated| == (if asOf < a.deadline + 30 * 60_000_000 then 1 else if asOf < a.deadline + 90 * 60_000_000 then 2 else 3)
              && (e.finalDenial <==> asOf >= a.deadline + 90 * 60_000_000)
  {
    MadeMeans(a);
    var chain := a.chain;
    ChainIs(a.deadline);
    assert chain[1..] == [chain[1], chain[2]] && chain[1..][1..] == [chain[2]] && chain[1..][1..][1..] == [];
    assert Escalated(chain[1..][1..], asOf) == if chain[2].at <= asOf then [chain[2]] else [];
    assert Escalated(chain[1..], asOf) == (if chain[1].at <= asOf then [chain[1]] else []) + Escalated(chain[1..][1..], asOf);
  }

  /** What the controller proposes is such a record. */
  lemma ProposedMade(a: Approval)
    requires Proposed(a)
    ensures Made(a)
  {
    MadeMeans(a);
  }

  /** The chain pages its three roles at the deadline, 30 and 90 minutes after it. */
  lemma ChainIs(deadline: int)
    ensures ChainFrom(ESCALATION, deadline) ==
            [Escalation("oncall-sre", 30, deadline), Escalation("incident-commander", 60, deadline + 30 * 60_000_000),
             Escalation("platform-director", 120, deadline + 90 * 60_000_000)]
  {
    var second := ESCALATION[1..];
    var third := second[1..];
    assert third[1..] == [];
    assert ChainFrom(third[1..], deadline + 210 * 60_000_000) == [];
    assert ChainFrom(third, deadline + 90 * 60_000_000) == [Escalation("platform-director", 120, deadline + 90 * 60_000_000)];
    assert ChainFrom(second, deadline + 30 * 60_000_000) ==
      [Escalation("incident-commander", 60, deadline + 30 * 60_000_000)] + ChainFrom(third, deadline + 90 * 60_000_000);
  }

  /** An approved action leaves its casefile executing, with the call made and no audit of
      it, exactly when the gateway is lost or reports an outcome the audit does not know. */
  lemma StuckIff(w: World, id: string, approver: string, ticket: Option<string>, now: int, reply: Reply)
    requires Inv(w) && id in w.approvals
    requires DecideApproval(w.approvals[id], approver, "approved", now, ticket).Ok?
    ensures var (v, response) := HandleDecision(w, w.approvals[id], Some(approver), Some("approved"), ticket, now, reply);
            && w.approvals[id].casefile in v.casefiles
            && var c := v.casefiles[w.approvals[id].casefile];
            && |v.calls| == |w.calls| + 1
            && (c.status == Executing <==> reply.Lost? || !KnownOutcome(OutcomeOf(reply)))
            && (c.status == Executing <==> response.Crash?)
            && (c.status == Executing ==> |v.audit| == |w.audit| + 1)
  {
    hide ApprovalsSound, CallsApproved, ResolvedExecuted, OneActive, Waits, RunningSound;
  }

  /** While a casefile is open, further triggers of its correlation id change nothing. */
  lemma TriggerAbsorbed(w: World, id: string, newId: string)
    requires Inv(w) && id in w.casefiles && !Terminal(w.casefiles[id].status)
    ensures HandleTrigger(w, true, w.casefiles[id].correlation, newId).0 == w
  {
    assert Active(w, w.casefiles[id].correlation);
  }

  // ----- a run that ends with a lost reply --------------------------------------------------

  const FINE: Reply := Reply(200, None, [])

  function Parts(k: nat): (events: seq<Event>)
    ensures |events| == k
  {
    seq(k, _ => Advance("c", FINE, "a", 0))
  }

  const OPENED: Event := Trigger(true, "disk-full", "c")
  const CONSENT: Event := Decide("a", Some("oncall-sre"), Some("approved"), None, 1, Lost)

  /** The investigation has done some of its parts, and proposed nothing yet. */
  predicate Underway(w: World, part: nat) {
    w.running == map["c" := part] && "c" in w.casefiles && w.casefiles["c"].id == "c" && w.approvals == map[]
  }

  predicate Proposes(w: World) {
    && "c" in w.casefiles && w.casefiles["c"].id == "c" && w.approvals.Keys == {"a"}
    && NewApproval("a", "c", RUNBOOK, WriteHigh, CEO, 0) == Some(w.approvals["a"])
  }

  lemma PartDone(w: World, part: nat)
    requires Underway(w, part) && part <= 7
    ensures Fresh(w, Advance("c", FINE, "a", 0))
    ensures var v := Step(w, Advance("c", FINE, "a", 0)).0;
            if part < 7 then Underway(v, part + 1) else Proposes(v)
  {
  }

  lemma {:induction false} PartsDone(w: World, k: nat)
    requires 1 <= k <= 8 && Underway(w, 8 - k)
    ensures AllFresh(w, Parts(k)) && Proposes(Run(w, Parts(k)))
    decreases k
  {
    hide Step, Fresh, Underway, Proposes;
    PartDone(w, 8 - k);
    var v := Step(w, Parts(k)[0]).0;
    assert Parts(k)[1..] == Parts(k - 1);
    if k > 1 {
      PartsDone(v, k - 1);
    } else {
      assert Parts(0) == [] && Run(v, []) == v && AllFresh(v, []);
    }
  }

  /** A run with fresh identifiers that reaches a proposal; the approval arrives in time, and
      the gateway's reply does not: the casefile stays executing. */
  lemma LostReplySticks()
    ensures var events := [OPENED] + Parts(8);
            var w := Run(EMPTY, events);
            var (v, response) := Step(w, CONSENT);
            && AllFresh(EMPTY, events)
            && response.Crash? && "c" in v.casefiles && v.casefiles["c"].status == Executing
            && |v.calls| == |w.calls| + 1 && "a" in v.approvals && v.approvals["a"].state == Approved
  {
    var events := [OPENED] + Parts(8);
    var first := Step(EMPTY, OPENED).0;
    assert Fresh(EMPTY, OPENED) && Underway(first, 0);
    assert events[1..] == Parts(8);
    PartsDone(first, 8);
    assert Run(EMPTY, events) == Run(first, Parts(8));
    Consents(Run(first, Parts(8)));
    hide Run, AllFresh, Step, Fresh, Proposes, Underway;
  }

  lemma Consents(w: World)
    requires Proposes(w)
    ensures var (v, response) := Step(w, CONSENT);
            && response.Crash? && "c" in v.casefiles && v.casefiles["c"].status == Executing
            && |v.calls| == |w.calls| + 1 && "a" in v.approvals && v.approvals["a"].state == Approved
  {
    hide ChainFrom;
    assert CEO[1] != "oncall-sre"[1];
  }

  // ----- an executing casefile stays so ---------------------------------------------------------

  lemma AdvanceKeepsExecuting(w: World, casefile: string, reply: Reply, newId: string, now: int, id: string)
    requires Keyed(w) && RunningSound(w) && id in w.casefiles && w.casefiles[id].status == Executing
    ensures var v := Investigate(w, casefile, reply, newId, now).0;
            id in v.casefiles && v.casefiles[id] == w.casefiles[id]
  {
    hide ChainFrom;
  }

  lemma DecideKeepsExecuting(w: World, approval: string, approver: Option<string>, decision: Option<string>, ticket: Option<string>, now: int,
                             reply: Reply, id: string)
    requires Keyed(w) && PendingWaits(w) && approval in w.approvals && id in w.casefiles && w.casefiles[id].status == Executing
    ensures var v := HandleDecision(w, w.approvals[approval], approver, decision, ticket, now, reply).0;
            id in v.casefiles && v.casefiles[id] == w.casefiles[id]
  {
    hide Uncalled;
  }

  lemma TimeoutKeepsExecuting(w: World, approval: string, asOf: Option<int>, id: string)
    requires Keyed(w) && PendingWaits(w) && approval in w.approvals && id in w.casefiles && w.casefiles[id].status == Executing
    ensures var v := HandleTimeout(w, w.approvals[approval], asOf).0;
            id in v.casefiles && v.casefiles[id] == w.casefiles[id]
  {
    hide Uncalled, Escalated;
  }

  /** No event ends an executing casefile. */
  lemma StepKeepsExecuting(w: World, e: Event, id: string)
    requires Inv(w) && Fresh(w, e) && id in w.casefiles && w.casefiles[id].status == Executing
    ensures id in Step(w, e).0.casefiles && Step(w, e).0.casefiles[id] == w.casefiles[id]
  {
    hide Investigate, HandleDecision, HandleTimeout, ApprovalsSound, CallsApproved, ResolvedExecuted, OneActive, WaitingNames;
    match e {
      case Trigger(_, _, _) =>
      case Advance(c, reply, newId, now) => AdvanceKeepsExecuting(w, c, reply, newId, now, id);
      case Decide(a, approver, decision, ticket, now, reply) =>
        if a in w.approvals {
          DecideKeepsExecuting(w, a, approver, decision, ticket, now, reply, id);
        }
      case Timeout(a, asOf) =>
        if a in w.approvals {
          TimeoutKeepsExecuting(w, a, asOf, id);
        }
    }
  }

  lemma {:induction false} RunKeepsExecuting(w: World, events: seq<Event>, id: string)
    requires Inv(w) && AllFresh(w, events) && id in w.casefiles && w.casefiles[id].status == Executing
    ensures Inv(Run(w, events)) && id in Run(w, events).casefiles && Run(w, events).casefiles[id] == w.casefiles[id]
    decreases |events|
  {
    hide Inv, Step, Fresh;
    if events != [] {
      StepKeeps(w, events[0]);
      StepKeepsExecuting(w, events[0], id);
      RunKeepsExecuting(Step(w, events[0]).0, events[1..], id);
    }
  }

  /** Over any run: once an approved call's reply is lost or unknown, the casefile is executing
      in every continuation, and every later trigger of its correlation id is absorbed. */
  lemma StuckForever(first: seq<Event>, id: string, approver: string, ticket: Option<string>, now: int, reply: Reply, rest: seq<Event>,
                     newId: string)
    requires AllFresh(EMPTY, first) && id in Run(EMPTY, first).approvals
    requires DecideApproval(Run(EMPTY, first).approvals[id], approver, "approved", now, ticket).Ok?
    requires reply.Lost? || !KnownOutcome(OutcomeOf(reply))
    requires AllFresh(Step(Run(EMPTY, first), Decide(id, Some(approver), Some("approved"), ticket, now, reply)).0, rest)
    ensures var w := Run(EMPTY, first);
            var stuck := Step(w, Decide(id, Some(approver), Some("approved"), ticket, now, reply)).0;
            var v := Run(stuck, rest);
            var c := w.approvals[id].casefile;
            && c in stuck.casefiles && c in v.casefiles
            && stuck.casefiles[c].status == Executing && v.casefiles[c] == stuck.casefiles[c]
            && HandleTrigger(v, true, v.casefiles[c].correlation, newId).0 == v
  {
    hide Run, Inv, AllFresh, DecideApproval, HandleDecision, HandleTrigger;
    EmptyInv();
    RunKeeps(EMPTY, first);
    var w := Run(EMPTY, first);
    var decide := Decide(id, Some(approver), Some("approved"), ticket, now, reply);
    StuckIff(w, id, approver, ticket, now, reply);
    StepKeeps(w, decide);
    var stuck := Step(w, decide).0;
    RunKeepsExecuting(stuck, rest, w.approvals[id].casefile);
    TriggerAbsorbed(Run(stuck, rest), w.approvals[id].casefile, newId);
  }
}
