/** What the gates of a transition admit, and what that means for every run: destructive
    transitions carry a fresh approval, and the audit record repeats it. */
module TenantGates {
  import opened Results
  import opened Audits
  import opened Tenants
  import opened TenantLaws
  import opened TenantRuns

  // ----- requests -----------------------------------------------------------------------------

  predicate HasText(fields: map<string, Field>, key: string) {
    key in fields && fields[key].Text? && fields[key].s != ""
  }

  /** The request bodies each transition takes, field by field. */
  predicate Asks(name: string, fields: map<string, Field>) {
    HasText(fields, "actor")
    && match name
       case "provision" => fields.Keys <= {"actor", "reason"}
       case "suspend" =>
         fields.Keys == {"actor", "trigger_type", "reason"} && HasText(fields, "reason")
         && (fields["trigger_type"] == Text("operator") || fields["trigger_type"] == Text("automated"))
       case "resume" => fields.Keys == {"actor", "reason"} && HasText(fields, "reason")
       case "offboard" => fields.Keys <= {"actor", "reason", "approval"} && HasText(fields, "reason")
       case "purge" =>
         fields.Keys <= {"actor", "reason", "approval"}
         && ("reason" in fields ==> fields["reason"] == Null || HasText(fields, "reason"))
       case _ => false
  }

  /** A request parses exactly when its body is an object with the fields its transition
      takes, and the parsed request repeats their texts. */
  lemma RequestIff(name: string, payload: Payload)
    ensures ParseRequest(name, payload).Ok? <==> payload.Some? && Asks(name, payload.value)
    ensures ParseRequest(name, payload).Ok? ==>
              var request := ParseRequest(name, payload).value;
              var fields := payload.value;
              && fields["actor"] == Text(request.actor)
              && (match name
                  case "provision" => request.kind == Provision
                  case "suspend" => request.kind.Suspend? && fields["trigger_type"] == Text(request.kind.trigger) && fields["reason"] == Text(request.kind.reason)
                  case "resume" => request.kind.Resume? && fields["reason"] == Text(request.kind.reason)
                  case "offboard" => request.kind.Offboard? && fields["reason"] == Text(request.kind.reason)
                  case _ => request.kind == Purge)
              && request.approval == if "approval" in fields && fields["approval"] != Null then Some(fields["approval"]) else None
  {
  }

  // ----- approvals ------------------------------------------------------------------------------

  /** An approval for a risk class, no older than an hour, or two for a critical one: these
      fields and no others, none of them empty. */
  ghost predicate Admissible(plane: Plane, block: Approval, risk: Risk, wall: int) {
    var texts := block.texts;
    && texts.Keys == (if risk == Critical then {"approval_id", "approver", "decision", "decided_at", "change_ticket"}
                      else {"approval_id", "approver", "decision", "decided_at"})
    && block.others <= texts.Keys
    && (forall key :: key in texts ==> texts[key] != "")
    && texts["decision"] == "approved"
    && plane.parseTime(texts["decided_at"]).Some?
    && wall - (if risk == Critical then 7_200_000_000 else 3_600_000_000) <= plane.parseTime(texts["decided_at"]).value <= wall
  }

  /** The approval gate opens exactly for an admissible block, and passes on its id and its
      change ticket. */
  lemma ApprovalIff(plane: Plane, field: Option<Field>, risk: Risk, wall: int)
    ensures ValidateApproval(plane, field, risk, wall).Ok? <==>
              (risk == High || risk == Critical) && field.Some? && field.value.Block? && Admissible(plane, field.value.approval, risk, wall)
    ensures ValidateApproval(plane, field, risk, wall).Ok? ==>
              var texts := field.value.approval.texts;
              ValidateApproval(plane, field, risk, wall).value ==
                Approved(texts["approval_id"], if risk == Critical then Some(texts["change_ticket"]) else None)
    ensures ValidateApproval(plane, field, risk, wall) == Err(ApprovalRequired) <==> (risk == High || risk == Critical) && field.None?
  {
    if field.Some? && field.value.Block? && !risk.UnknownRisk? {
      BlockFields(field.value.approval, risk);
      assert ApprovalFields(risk) == if risk == Critical then {"approval_id", "approver", "decision", "decided_at", "change_ticket"}
                                     else {"approval_id", "approver", "decision", "decided_at"};
      hide ApprovalFields;
    }
  }

  lemma BlockFields(block: Approval, risk: Risk)
    ensures block.texts.Keys + block.others == ApprovalFields(risk) && (forall k :: k in ApprovalFields(risk) ==> k in block.texts && block.texts[k] != "")
            <==> block.texts.Keys == ApprovalFields(risk) && block.others <= block.texts.Keys && forall k :: k in block.texts ==> block.texts[k] != ""
  {
    hide ApprovalFields;
  }

  /** The body carries an admissible approval for the risk class. */
  ghost predicate Carries(plane: Plane, payload: Payload, risk: Risk, wall: int) {
    && payload.Some? && "approval" in payload.value && payload.value["approval"].Block?
    && Admissible(plane, payload.value["approval"].approval, risk, wall)
  }

  /** What was admitted to a gated transition carried its approval. */
  lemma AdmittedCarries(plane: Plane, w: World, name: string, id: string, payload: Payload, scope: Option<string>, wall: int)
    requires plane.machine.WellFormed() && Admit(plane, w, name, id, payload, scope, wall).Ok?
    ensures name in plane.machine.specs && Asks(name, payload.value)
    ensures var a := Admit(plane, w, name, id, payload, scope, wall).value;
            var risk := plane.machine.specs[name].risk;
            && (risk.Some? ==>
                  && (risk.value == High || risk.value == Critical) && Carries(plane, payload, risk.value, wall)
                  && a.approved == Some(Approved(payload.value["approval"].approval.texts["approval_id"],
                       if risk.value == Critical then Some(payload.value["approval"].approval.texts["change_ticket"]) else None)))
            && (risk.None? ==> a.approved.None?)
  {
    hide Admit, ValidateApproval, Admissible, ParseRequest, Asks;
    AdmitFacts(plane, w, name, id, payload, scope, wall);
    RequestIff(name, payload);
    var a := Admit(plane, w, name, id, payload, scope, wall).value;
    if a.spec.risk.Some? {
      ApprovalIff(plane, a.request.approval, a.spec.risk.value, wall);
    }
  }

  // ----- over runs ------------------------------------------------------------------------------------

  lemma {:induction false} FactAt(plane: Plane, events: seq<Event>, k: nat)
    requires k < |events| && |Run(plane, events).1| == |events|
    ensures Run(plane, events).1[k] == FactOf(plane, Run(plane, events[..k]).0, events[k])
    decreases |events|
  {
    hide FactOf, Step;
    var n := |events| - 1;
    assert |Run(plane, events[..n]).1| == n;
    if k < n {
      FactAt(plane, events[..n], k);
      assert events[..n][..k] == events[..k];
    }
  }

  /** A call that moves a tenant was admitted. */
  lemma MovedAdmitted(plane: Plane, w: World, e: Event)
    requires plane.machine.WellFormed() && FactOf(plane, w, e).Moved?
    ensures e.CallTransition? && Admit(plane, w, e.name, e.id, e.payload, e.scope, e.wall).Ok?
    ensures FactOf(plane, w, e).name == e.name && FactOf(plane, w, e).id == e.id && FactOf(plane, w, e).at == e.now
  {
    hide Admit, PreconditionFails;
  }

  /** In any run, every transition that is applied and that the machine puts in a risk class
      carried an admissible approval for that class, and one of a class nobody knows is never
      applied. */
  lemma DestructionApproved(plane: Plane, events: seq<Event>, k: nat)
    requires plane.machine.WellFormed() && k < |Run(plane, events).1| && Run(plane, events).1[k].Moved?
    ensures k < |events|
    ensures var fact := Run(plane, events).1[k];
            && fact.name in plane.machine.specs && events[k].CallTransition? && events[k].name == fact.name && events[k].id == fact.id
            && (plane.machine.specs[fact.name].risk.Some? ==>
                  plane.machine.specs[fact.name].risk.value in {High, Critical}
                  && Carries(plane, events[k].payload, plane.machine.specs[fact.name].risk.value, events[k].wall))
  {
    hide Run, FactOf, Admit, Admissible, Asks, Told;
    RunTold(plane, events);
    FactAt(plane, events, k);
    var w := Run(plane, events[..k]).0;
    MovedAdmitted(plane, w, events[k]);
    AdmittedCarries(plane, w, events[k].name, events[k].id, events[k].payload, events[k].scope, events[k].wall);
  }

  /** A machine as the lifecycle contract has it: both destructive transitions are gated. */
  predicate GatesDestruction(machine: Machine) {
    && "offboard" in machine.specs && machine.specs["offboard"].risk == Some(High)
    && "purge" in machine.specs && machine.specs["purge"].risk == Some(Critical)
  }

  /** Under such a machine every offboarding of a run was approved within the hour before it,
      and every purge within two, with a change ticket. */
  lemma NeverUnapproved(plane: Plane, events: seq<Event>, k: nat)
    requires plane.machine.WellFormed() && GatesDestruction(plane.machine) && k < |Run(plane, events).1|
    requires Run(plane, events).1[k].Moved? && Run(plane, events).1[k].name in {"offboard", "purge"}
    ensures k < |events| && events[k].CallTransition?
    ensures Carries(plane, events[k].payload, if Run(plane, events).1[k].name == "purge" then Critical else High, events[k].wall)
  {
    hide Run, Admissible;
    DestructionApproved(plane, events, k);
    assert "offboard"[0] != "purge"[0];
  }

  // ----- what the audit record repeats -----------------------------------------------------------------

  /** The fields of the record beyond those every record has: the request's own texts, the
      approval's id and ticket, and the times of the completed transition. */
  ghost predicate Repeats(record: Record, name: string, fields: map<string, Field>, completed: Completed, now: int, replay: bool) {
    match name
    case "provision" =>
      var at := if replay && completed.provisioned.Some? then completed.provisioned.value else now;
      At(record, "requested_at", Time(at)) && At(record, "completed_at", Time(at))
    case "suspend" => TextAt(record, "trigger_type", fields) && TextAt(record, "reason", fields)
    case "resume" => TextAt(record, "reason", fields)
    case "offboard" =>
      && TextAt(record, "reason", fields) && ApprovalAt(record, "approval_id", fields)
      && completed.end.Some? && At(record, "retention_window_ends_at", Time(completed.end.value * 1_000_000))
    case _ =>
      && ApprovalAt(record, "approval_id", fields) && ApprovalAt(record, "change_ticket", fields)
      && completed.purged.Some? && At(record, "purged_at", Time(completed.purged.value))
  }

  ghost predicate At(record: Record, key: string, value: Audits.Value) {
    key in record && record[key] == value
  }

  ghost predicate TextAt(record: Record, key: string, fields: map<string, Field>) {
    key in fields && fields[key].Text? && At(record, key, Str(fields[key].s))
  }

  ghost predicate ApprovalAt(record: Record, key: string, fields: map<string, Field>) {
    && "approval" in fields && fields["approval"].Block? && key in fields["approval"].approval.texts
    && At(record, key, Str(fields["approval"].approval.texts[key]))
  }

  lemma ExtrasRepeat(name: string, payload: Payload, approved: Option<Approved>, completed: Completed, now: int, replay: bool)
    requires ParseRequest(name, payload).Ok?
    requires AuditExtras(ParseRequest(name, payload).value.kind, approved, completed, now, replay).Some?
    requires approved.Some? ==>
      && "approval" in payload.value && payload.value["approval"].Block?
      && ApprovedFrom(payload.value["approval"].approval.texts, approved.value)
    ensures Repeats(AuditExtras(ParseRequest(name, payload).value.kind, approved, completed, now, replay).value, name, payload.value, completed, now, replay)
  {
    hide ParseRequest;
    RequestIff(name, payload);
  }

  ghost predicate ApprovedFrom(texts: map<string, string>, approved: Approved) {
    && "approval_id" in texts && approved.id == texts["approval_id"]
    && (approved.ticket.Some? ==> "change_ticket" in texts && approved.ticket.value == texts["change_ticket"])
  }

  /** An assembled record has the extra fields. */
  lemma AssembledRepeats(id: string, name: string, actor: string, replay: bool, outcome: AuditOutcome, now: int, extra: Record,
                         fields: map<string, Field>, completed: Completed)
    requires Repeats(extra, name, fields, completed, now, replay)
    ensures Repeats(Assembled(id, name, actor, replay, outcome, now, extra), name, fields, completed, now, replay)
  {
    var record := Assembled(id, name, actor, replay, outcome, now, extra);
    assert forall key :: key in extra ==> key in record && record[key] == extra[key];
    hide Assembled;
  }

  lemma AttestedRepeats(w: World, spec: Spec, id: string, payload: Payload, approved: Option<Approved>, completed: Completed, now: int, replay: bool)
    requires ParseRequest(spec.name, payload).Ok?
    requires approved.Some? ==>
      && "approval" in payload.value && payload.value["approval"].Block?
      && ApprovedFrom(payload.value["approval"].approval.texts, approved.value)
    requires Attested(w, spec, id, ParseRequest(spec.name, payload).value, approved, completed, now, replay).Some?
    ensures var v := Attested(w, spec, id, ParseRequest(spec.name, payload).value, approved, completed, now, replay).value;
            && v == w.(audit := v.audit) && |w.audit| + 1 in v.audit
            && Repeats(v.audit[|w.audit| + 1], spec.name, payload.value, completed, now, replay)
  {
    hide AuditExtras, Assembled, BaseInvariants, HasRequired, Repeats, ParseRequest, Asks;
    var request := ParseRequest(spec.name, payload).value;
    RequestIff(spec.name, payload);
    ExtrasRepeat(spec.name, payload, approved, completed, now, replay);
    AssembledRepeats(id, spec.name, request.actor, replay, if replay then Replayed else Applied, now,
                     AuditExtras(request.kind, approved, completed, now, replay).value, payload.value, completed);
  }

  lemma AdmittedFrom(plane: Plane, w: World, name: string, id: string, payload: Payload, scope: Option<string>, wall: int)
    requires plane.machine.WellFormed() && Admit(plane, w, name, id, payload, scope, wall).Ok?
    ensures ParseRequest(name, payload).Ok?
    ensures var approved := Admit(plane, w, name, id, payload, scope, wall).value.approved;
            approved.Some? ==>
              && "approval" in payload.value && payload.value["approval"].Block?
              && ApprovedFrom(payload.value["approval"].approval.texts, approved.value)
  {
    hide Admit, ParseRequest, Asks;
    AdmitFacts(plane, w, name, id, payload, scope, wall);
    AdmittedCarries(plane, w, name, id, payload, scope, wall);
  }

  lemma ApplyRepeats(w: World, spec: Spec, id: string, tenant: Tenant, payload: Payload, approved: Option<Approved>, now: int)
    requires ParseRequest(spec.name, payload).Ok?
    requires approved.Some? ==>
      && "approval" in payload.value && payload.value["approval"].Block?
      && ApprovedFrom(payload.value["approval"].approval.texts, approved.value)
    ensures var (v, outcome) := Apply(w, spec, id, tenant, ParseRequest(spec.name, payload).value, approved, now);
            && !outcome.DidReplay? && !outcome.DidDeny?
            && (outcome.DidApply? ==>
                  (id, spec.name) in v.completed && |w.audit| + 1 in v.audit
                  && Repeats(v.audit[|w.audit| + 1], spec.name, payload.value, v.completed[(id, spec.name)], now, false))
  {
    hide CompletedNow, Repeats, ParseRequest, Attested;
    var request := ParseRequest(spec.name, payload).value;
    var record := CompletedNow(spec, tenant.document, request, approved, now);
    var saved := Saved(w, spec, id, tenant, record);
    if Attested(saved, spec, id, request, approved, record, now, false).Some? {
      AttestedRepeats(saved, spec, id, payload, approved, record, now, false);
    }
  }

  lemma ReplayRepeats(w: World, spec: Spec, id: string, payload: Payload, approved: Option<Approved>, completed: Completed, now: int)
    requires ParseRequest(spec.name, payload).Ok?
    requires approved.Some? ==>
      && "approval" in payload.value && payload.value["approval"].Block?
      && ApprovedFrom(payload.value["approval"].approval.texts, approved.value)
    ensures var (v, outcome) := Replay(w, spec, id, ParseRequest(spec.name, payload).value, approved, completed, now);
            && !outcome.DidApply? && !outcome.DidDeny? && v.completed == w.completed
            && (outcome.DidReplay? ==>
                  |w.audit| + 1 in v.audit && Repeats(v.audit[|w.audit| + 1], spec.name, payload.value, completed, now, true))
  {
    hide Repeats, ParseRequest, Attested;
    var request := ParseRequest(spec.name, payload).value;
    if Attested(w, spec, id, request, approved, completed, now, true).Some? {
      AttestedRepeats(w, spec, id, payload, approved, completed, now, true);
    }
  }

  /** The audit record of an applied or replayed transition repeats the texts of the request,
      the id and the ticket of its approval, and the times of the completed transition. */
  lemma AuditRepeats(plane: Plane, w: World, name: string, id: string, payload: Payload, scope: Option<string>, now: int, wall: int)
    requires plane.machine.WellFormed()
    ensures var (v, outcome) := Inner(plane, w, name, id, payload, scope, now, wall);
            outcome.DidApply? || outcome.DidReplay? ==>
              payload.Some? && (id, name) in v.completed && |w.audit| + 1 in v.audit
              && Repeats(v.audit[|w.audit| + 1], name, payload.value, v.completed[(id, name)], now, outcome.DidReplay?)
  {
    hide Admit, Apply, Replay, Repeats, ParseRequest, PreconditionFails;
    if Admit(plane, w, name, id, payload, scope, wall).Ok? {
      AdmitFacts(plane, w, name, id, payload, scope, wall);
      AdmittedFrom(plane, w, name, id, payload, scope, wall);
      RequestIff(name, payload);
      var a := Admit(plane, w, name, id, payload, scope, wall).value;
      ApplyRepeats(w, a.spec, id, a.tenant, payload, a.approved, now);
      if (id, name) in w.completed {
        ReplayRepeats(w, a.spec, id, payload, a.approved, w.completed[(id, name)], now);
      }
    }
  }

  /** The completed transition an applied call saves: when and by whom, the id and the ticket of
      the approval, and for each transition the times or the trigger it is later asked for. */
  ghost predicate Saves(c: Completed, name: string, fields: map<string, Field>, document: Document, now: int) {
    && c.appliedAt == now && fields.Keys >= {"actor"} && fields["actor"] == Text(c.actor)
    && c.provisioned == (if name == "provision" then Some(now) else None)
    && (if name == "suspend" then c.trigger.Some? && "trigger_type" in fields && fields["trigger_type"] == Text(c.trigger.value) else c.trigger == None)
    && c.end == (if name == "offboard" then Some(RetentionEnd(document, now)) else None)
    && c.purged == (if name == "purge" then Some(now) else None)
    && (c.approvalId.Some? ==> "approval" in fields && fields["approval"].Block? && "approval_id" in fields["approval"].approval.texts
                               && fields["approval"].approval.texts["approval_id"] == c.approvalId.value)
    && (c.ticket.Some? ==> "approval" in fields && fields["approval"].Block? && "change_ticket" in fields["approval"].approval.texts
                           && fields["approval"].approval.texts["change_ticket"] == c.ticket.value)
  }

  lemma AppliedSaves(plane: Plane, w: World, name: string, id: string, payload: Payload, scope: Option<string>, now: int, wall: int)
    requires plane.machine.WellFormed()
    ensures var (v, outcome) := Inner(plane, w, name, id, payload, scope, now, wall);
            outcome.DidApply? ==>
              && payload.Some? && id in w.tenants && (id, name) in v.completed
              && Saves(v.completed[(id, name)], name, payload.value, w.tenants[id].document, now)
              && (name in plane.machine.specs && plane.machine.specs[name].risk.Some? <==> v.completed[(id, name)].approvalId.Some?)
  {
    hide Admit, Replay, ParseRequest, PreconditionFails, RetentionEnd, Attested, Asks;
    if Admit(plane, w, name, id, payload, scope, wall).Ok? {
      AdmitFacts(plane, w, name, id, payload, scope, wall);
      AdmittedCarries(plane, w, name, id, payload, scope, wall);
      AdmittedFrom(plane, w, name, id, payload, scope, wall);
      RequestIff(name, payload);
      AsksKnown(name, payload.value);
      var a := Admit(plane, w, name, id, payload, scope, wall).value;
      AttestedKept(w, a, id, now);
      if (id, name) in w.completed {
        ReplayRepeats(w, a.spec, id, payload, a.approved, w.completed[(id, name)], now);
      }
    }
  }

  lemma AttestedKept(w: World, a: Admitted, id: string, now: int)
    ensures var (v, outcome) := Apply(w, a.spec, id, a.tenant, a.request, a.approved, now);
            && (id, a.spec.name) in v.completed
            && v.completed[(id, a.spec.name)] == CompletedNow(a.spec, a.tenant.document, a.request, a.approved, now)
  {
    hide Attested, CompletedNow;
    var record := CompletedNow(a.spec, a.tenant.document, a.request, a.approved, now);
    AttestedKeeps(Saved(w, a.spec, id, a.tenant, record), a.spec, id, a.request, a.approved, record, now, false);
  }

  lemma AsksKnown(name: string, fields: map<string, Field>)
    requires Asks(name, fields)
    ensures HasText(fields, "actor") && name in {"provision", "suspend", "resume", "offboard", "purge"}
    ensures name == "suspend" ==> "trigger_type" in fields
  {
  }

  /** A denied call on a well-formed id leaves one record of the attempt: who tried which
      transition on which tenant and when, the requester being the body's own actor if it names
      one, and the error. */
  lemma DenialSays(plane: Plane, w: World, name: string, id: string, payload: Payload, scope: Option<string>, now: int, wall: int)
    requires plane.machine.WellFormed() && Numbered(w) && plane.validId(id)
    requires Transition(plane, w, name, id, payload, scope, now, wall).1.Result? && Transition(plane, w, name, id, payload, scope, now, wall).1.outcome.DidDeny?
    ensures var (v, result) := Transition(plane, w, name, id, payload, scope, now, wall);
            && v.tenants == w.tenants && v.completed == w.completed && |w.audit| + 1 in v.audit
            && var record := v.audit[|w.audit| + 1];
               && At(record, "tenant_id", Str(id)) && At(record, "transition", Str(name)) && At(record, "recorded_at", Time(now))
               && At(record, "actor", if payload.Some? && HasText(payload.value, "actor") then Str(payload.value["actor"].s) else Str("unknown"))
               && At(record, "outcome", Tag(Denied)) && At(record, "replay", Flag(false)) && At(record, "error_code", Code(result.outcome.code))
  {
    hide Transition, Numbered, OnlyTenant;
    OneAuditPerCall(plane, w, name, id, payload, scope, now, wall);
  }

  // ----- documents -------------------------------------------------------------------------------------

  /** A tenant is created exactly from a valid document in the initial state, within the
      caller's scope, under an id that is free or whose tenant is gone; nothing of an earlier
      tenant of the id remains, and no other tenant is touched. */
  lemma CreatedIff(plane: Plane, w: World, document: Document, scope: Option<string>)
    ensures Create(plane, w, document, scope).Ok? <==>
              && plane.validDocument(document) && (scope == None || scope == Some(document.tenantId)) && document.state == plane.machine.initial
              && (document.tenantId in w.tenants ==> w.tenants[document.tenantId].document.state in plane.machine.terminal)
    ensures Create(plane, w, document, scope).Ok? ==>
              var v := Create(plane, w, document, scope).value;
              && v.tenants == w.tenants[document.tenantId := Tenant(document, false)] && v.audit == w.audit
              && (forall id, name :: (id, name) in v.completed <==> (id, name) in w.completed && (document.tenantId in w.tenants ==> id != document.tenantId))
              && (forall k :: k in v.completed ==> v.completed[k] == w.completed[k])
  {
  }

  /** An update keeps identity, state, creation time and hold, whatever else it changes. */
  lemma UpdateKeeps(plane: Plane, w: World, id: string, document: Document, scope: Option<string>)
    requires Update(plane, w, id, document, scope).Ok?
    ensures var v := Update(plane, w, id, document, scope).value;
            && id in w.tenants && v == w.(tenants := w.tenants[id := Tenant(document, w.tenants[id].hold)])
            && (document.tenantId, document.state, document.createdAt) ==
                 (w.tenants[id].document.tenantId, w.tenants[id].document.state, w.tenants[id].document.createdAt)
            && plane.validDocument(document) && (scope == None || scope == Some(id))
  {
  }

  /** A hold is set and lifted as asked, on a known tenant and nowhere else. */
  lemma HoldSets(plane: Plane, w: World, id: string, hold: bool)
    ensures SetHold(plane, w, id, hold).Ok? <==> plane.validId(id) && id in w.tenants
    ensures SetHold(plane, w, id, hold).Ok? ==>
              SetHold(plane, w, id, hold).value == w.(tenants := w.tenants[id := Tenant(w.tenants[id].document, hold)])
  {
  }

  /** Every applied provisioning found its region among the allowed ones, if any are named. */
  lemma ProvisionedInRegion(plane: Plane, w: World, e: Event)
    requires plane.machine.WellFormed() && FactOf(plane, w, e).Moved? && FactOf(plane, w, e).name == "provision"
    ensures var id := FactOf(plane, w, e).id;
            id in w.tenants
            && (w.tenants[id].document.allowedRegions.Some? ==> w.tenants[id].document.region in w.tenants[id].document.allowedRegions.value)
  {
    hide Admit;
    MovedAdmitted(plane, w, e);
    AdmitFacts(plane, w, e.name, e.id, e.payload, e.scope, e.wall);
  }
}
