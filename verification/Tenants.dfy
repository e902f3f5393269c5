/** The tenant control plane (tenantctl: service.py, store.py, approval.py) over
    any lifecycle machine. Times are integers, in microseconds; one clock reading serves
    a whole call. Rendered files and purge evidence are not part of this model. */
module Tenants {
  import opened Results
  import opened Audits

  const SECOND := 1_000_000
  const MINUTE := 60 * SECOND
  const DAY := 86_400 * SECOND

  // ----- the machine and the records -----------------------------------------------------

  datatype Risk = High | Critical | UnknownRisk

  datatype Spec = Spec(name: string, from: set<string>, to: string, risk: Option<Risk>, required: set<string>)

  datatype Machine = Machine(states: set<string>, initial: string, terminal: set<string>, specs: map<string, Spec>) {
    /** What loading a machine guarantees of its specs. */
    ghost predicate WellFormed() {
      forall name :: name in specs ==> specs[name].name == name && specs[name].to in states && specs[name].from <= states
    }
  }

  datatype Document = Document(
    tenantId: string, state: string, createdAt: string, region: string, allowedRegions: Option<seq<string>>,
    logsDays: int, metricsDays: int, tracesDays: int, rest: string)

  datatype Tenant = Tenant(document: Document, hold: bool)

  /** A completed transition: when a provisioning was requested and completed, what triggered
      a suspension, the retention window's end in seconds, when a purge was done. */
  datatype Completed = Completed(
    appliedAt: int, actor: string, provisioned: Option<int>, trigger: Option<string>, end: Option<int>, purged: Option<int>,
    approvalId: Option<string>, ticket: Option<string>)

  /** The store: tenant records, completed transitions and numbered audit records. */
  datatype World = World(
    tenants: map<string, Tenant>,
    completed: map<(string, string), Completed>,
    audit: map<nat, Record>)

  const EMPTY: World := World(map[], map[], map[])

  /** What the service is run with: the machine, the document schema, the tenant-id
      pattern, and the parser of approval timestamps. */
  datatype Plane = Plane(
    machine: Machine, validDocument: Document -> bool, validId: string -> bool, parseTime: string -> Option<int>)

  // ----- requests and approvals ------------------------------------------------------------------

  /** An approval block: its string fields, and the keys that hold something else. */
  datatype Approval = Approval(texts: map<string, string>, others: set<string>)

  datatype Field = Text(s: string) | Null | Block(approval: Approval) | Other

  /** A request body; `None` is a body that is no object. */
  type Payload = Option<map<string, Field>>

  /** The five request classes, with the texts they carry into the audit record. */
  datatype Kind = Provision | Suspend(trigger: string, reason: string) | Resume(reason: string) | Offboard(reason: string) | Purge

  datatype Request = Request(actor: string, kind: Kind, approval: Option<Field>)

  function RequiredFields(name: string): (set<string>, set<string>) {
    if name == "provision" then ({"actor"}, {"reason"})
    else if name == "suspend" then ({"actor", "trigger_type", "reason"}, {})
    else if name == "resume" then ({"actor", "reason"}, {})
    else if name == "offboard" then ({"actor", "reason"}, {"approval"})
    else ({"actor"}, {"reason", "approval"})
  }

  predicate KnownName(name: string) {
    name in {"provision", "suspend", "resume", "offboard", "purge"}
  }

  predicate NonEmptyText(f: Field) {
    f.Text? && f.s != ""
  }

  function KindOf(name: string, fields: map<string, Field>): Kind
    requires KnownName(name) && forall k :: k in RequiredFields(name).0 ==> k in fields && NonEmptyText(fields[k])
  {
    var required := RequiredFields(name).0;
    assert forall k :: k in required ==> NonEmptyText(fields[k]);
    if name == "provision" then Provision
    else if name == "suspend" then
      assert "trigger_type" in required && "reason" in required;
      Suspend(fields["trigger_type"].s, fields["reason"].s)
    else if name == "resume" then
      assert "reason" in required;
      Resume(fields["reason"].s)
    else if name == "offboard" then
      assert "reason" in required;
      Offboard(fields["reason"].s)
    else Purge
  }

  /** `parse_transition_request`. */
  function ParseRequest(name: string, payload: Payload): Result<Request, ErrorCode> {
    if !KnownName(name) || payload.None? then Err(ValidationFailed)
    else
      var fields := payload.value;
      var (required, optional) := RequiredFields(name);
      if !(required <= fields.Keys <= required + optional) || exists k :: k in required && k in fields && !NonEmptyText(fields[k]) then
        Err(ValidationFailed)
      else if name == "suspend" && fields["trigger_type"] != Text("operator") && fields["trigger_type"] != Text("automated") then
        Err(ValidationFailed)
      else if name == "purge" && "reason" in fields && fields["reason"] != Null && !NonEmptyText(fields["reason"]) then
        Err(ValidationFailed)
      else
        assert "actor" in required && NonEmptyText(fields["actor"]);
        Ok(Request(fields["actor"].s, KindOf(name, fields), if "approval" in fields && fields["approval"] != Null then Some(fields["approval"]) else None))
  }

  datatype Approved = Approved(id: string, ticket: Option<string>)

  function ApprovalFields(risk: Risk): set<string> {
    {"approval_id", "approver", "decision", "decided_at"} + if risk.Critical? then {"change_ticket"} else {}
  }

  function ApprovalWindow(risk: Risk): int {
    if risk.Critical? then 120 * MINUTE else 60 * MINUTE
  }

  /** `validate_approval`, against the wall clock. */
  function ValidateApproval(plane: Plane, field: Option<Field>, risk: Risk, wall: int): Result<Approved, ErrorCode> {
    if risk.UnknownRisk? then Err(ApprovalInvalid)
    else if field.None? then Err(ApprovalRequired)
    else if !field.value.Block? then Err(ApprovalInvalid)
    else
      var texts := field.value.approval.texts;
      var required := ApprovalFields(risk);
      if texts.Keys + field.value.approval.others != required || exists k :: k in required && (k !in texts || texts[k] == "") then
        Err(ApprovalInvalid)
      else
        assert forall k :: k in required ==> k in texts;
        if texts["decision"] != "approved" then Err(ApprovalInvalid)
        else
          match plane.parseTime(texts["decided_at"])
          case None => Err(ApprovalInvalid)
          case Some(decided) =>
            if decided > wall || wall - decided > ApprovalWindow(risk) then Err(ApprovalInvalid)
            else Ok(Approved(texts["approval_id"], if risk.Critical? then Some(texts["change_ticket"]) else None))
  }

  // ----- the audit trail --------------------------------------------------------------------------------

  /** `_audit_extras`; `None` where it asserts an approval that is not there, or reads a
      field the completed transition does not have. */
  function AuditExtras(kind: Kind, approved: Option<Approved>, completed: Completed, now: int, replay: bool): Option<Record> {
    match kind
    case Provision =>
      var at := if replay && completed.provisioned.Some? then completed.provisioned.value else now;
      Some(map["requested_at" := Time(at), "completed_at" := Time(at)])
    case Suspend(trigger, reason) => Some(map["trigger_type" := Str(trigger), "reason" := Str(reason)])
    case Resume(reason) => Some(map["reason" := Str(reason)])
    case Offboard(reason) =>
      if approved.None? || completed.end.None? then None
      else Some(map["approval_id" := Str(approved.value.id), "reason" := Str(reason),
                    "retention_window_ends_at" := Time(completed.end.value * SECOND)])
    case Purge =>
      if approved.None? || approved.value.ticket.None? || completed.purged.None? then None
      else Some(map["approval_id" := Str(approved.value.id), "change_ticket" := Str(approved.value.ticket.value),
                    "evidence_artifact_refs" := Opaque, "purged_at" := Time(completed.purged.value)])
  }

  /** The record of an applied or replayed transition, written if it passes the checks. */
  function Attested(w: World, spec: Spec, id: string, request: Request, approved: Option<Approved>, completed: Completed, now: int, replay: bool)
      : Option<World>
  {
    match AuditExtras(request.kind, approved, completed, now, replay)
    case None => None
    case Some(extra) =>
      var record := Assembled(id, spec.name, request.actor, replay, if replay then Replayed else Applied, now, extra);
      match Emit(w.audit, record, Some(spec.required))
      case None => None
      case Some(audit) => Some(w.(audit := audit))
  }

  /** The record of a denied attempt. */
  function DenialRecord(id: string, name: string, actor: string, code: ErrorCode, now: int): Record {
    Assembled(id, name, actor, false, Denied, now, map["error_code" := Code(code), "message" := Opaque])
  }

  // ----- transitions -----------------------------------------------------------------------------------------

  /** The outcome of a transition call. `Crashed` stands for an error that is not one of
      the contract's: an audit record that cannot be assembled. */
  datatype Outcome = DidApply | DidReplay | DidDeny(code: ErrorCode) | Crashed

  function Max(a: int, b: int): int {
    if a >= b then a else b
  }

  function RetentionDays(d: Document): int {
    Max(Max(d.logsDays, d.metricsDays), d.tracesDays)
  }

  /** `_retention_window_end`: the instant the longest retention ends, cut to seconds. */
  function RetentionEnd(d: Document, now: int): int {
    (now + RetentionDays(d) * DAY) / SECOND
  }

  /** `_check_preconditions`. */
  function PreconditionFails(w: World, spec: Spec, id: string, tenant: Tenant, now: int): bool {
    if spec.name == "provision" then
      tenant.document.allowedRegions.Some? && tenant.document.region !in tenant.document.allowedRegions.value
    else if spec.name == "purge" then
      (id, "offboard") !in w.completed || w.completed[(id, "offboard")].end.None?
      || now < w.completed[(id, "offboard")].end.value * SECOND
      || tenant.hold
    else false
  }

  /** The record of a transition that is applied now. */
  function CompletedNow(spec: Spec, document: Document, request: Request, approved: Option<Approved>, now: int): Completed {
    Completed(now, request.actor,
              if spec.name == "provision" then Some(now) else None,
              if request.kind.Suspend? then Some(request.kind.trigger) else None,
              if spec.name == "offboard" then Some(RetentionEnd(document, now)) else None,
              if spec.name !in {"provision", "suspend", "resume", "offboard"} then Some(now) else None,
              if approved.Some? then Some(approved.value.id) else None,
              if approved.Some? then approved.value.ticket else None)
  }

  /** The tenant and the completed transition are saved. */
  function Saved(w: World, spec: Spec, id: string, tenant: Tenant, completed: Completed): World {
    w.(tenants := w.tenants[id := tenant.(document := tenant.document.(state := spec.to))],
       completed := w.completed[(id, spec.name) := completed])
  }

  /** `_apply`, once the preconditions hold: saved first, audited after. */
  function Apply(w: World, spec: Spec, id: string, tenant: Tenant, request: Request, approved: Option<Approved>, now: int): (World, Outcome) {
    var record := CompletedNow(spec, tenant.document, request, approved, now);
    var saved := Saved(w, spec, id, tenant, record);
    match Attested(saved, spec, id, request, approved, record, now, false)
    case Some(v) => (v, DidApply)
    case None => (saved, Crashed)
  }

  /** `_replay`: the record of the completed transition is only read. */
  function Replay(w: World, spec: Spec, id: string, request: Request, approved: Option<Approved>, completed: Completed, now: int)
      : (World, Outcome)
  {
    match Attested(w, spec, id, request, approved, completed, now, true)
    case Some(v) => (v, DidReplay)
    case None => (w, Crashed)
  }

  /** The approval gate of a destructive transition. */
  function Gate(plane: Plane, spec: Spec, request: Request, wall: int): Result<Option<Approved>, ErrorCode> {
    if spec.risk.None? then Ok(None)
    else
      match ValidateApproval(plane, request.approval, spec.risk.value, wall)
      case Ok(approved) => Ok(Some(approved))
      case Err(code) => Err(code)
  }

  datatype Admitted = Admitted(spec: Spec, request: Request, tenant: Tenant, approved: Option<Approved>)

  /** Every gate before the lifecycle state is looked at, in order. */
  function Admit(plane: Plane, w: World, name: string, id: string, payload: Payload, scope: Option<string>, wall: int): Result<Admitted, ErrorCode> {
    if scope.Some? && scope.value != id then Err(CrossTenantDenied)
    else if name !in plane.machine.specs then Err(IllegalTransition)
    else
      var spec := plane.machine.specs[name];
      var request :- ParseRequest(name, payload);
      if id !in w.tenants then Err(TenantNotFound)
      else if w.tenants[id].document.tenantId != id then Err(ValidationFailed)
      else
        var approved :- Gate(plane, spec, request, wall);
        var document := w.tenants[id].document;
        if !plane.validDocument(document) then Err(ValidationFailed)
        else if document.state !in plane.machine.states then Err(TenantNotFound)
        else Ok(Admitted(spec, request, w.tenants[id], approved))
  }

  /** `_transition_inner`. */
  function Inner(plane: Plane, w: World, name: string, id: string, payload: Payload, scope: Option<string>, now: int, wall: int): (World, Outcome) {
    match Admit(plane, w, name, id, payload, scope, wall)
    case Err(code) => (w, DidDeny(code))
    case Ok(Admitted(spec, request, tenant, approved)) =>
      if tenant.document.state == spec.to && (id, name) in w.completed then
        Replay(w, spec, id, request, approved, w.completed[(id, name)], now)
      else if tenant.document.state !in spec.from then (w, DidDeny(IllegalTransition))
      else if PreconditionFails(w, spec, id, tenant, now) then (w, DidDeny(PreconditionFailed))
      else Apply(w, spec, id, tenant, request, approved, now)
  }

  function ActorOf(payload: Payload): string {
    if payload.Some? && "actor" in payload.value && NonEmptyText(payload.value["actor"]) then payload.value["actor"].s else "unknown"
  }

  datatype CallResult = BadId | Result(outcome: Outcome)

  /** `transition`: a denial is audited too. */
  function Transition(plane: Plane, w: World, name: string, id: string, payload: Payload, scope: Option<string>, now: int, wall: int)
      : (World, CallResult)
  {
    if !plane.validId(id) then (w, BadId)
    else
      var (v, outcome) := Inner(plane, w, name, id, payload, scope, now, wall);
      if outcome.DidDeny? then
        match Emit(v.audit, DenialRecord(id, name, ActorOf(payload), outcome.code, now), None)
        case Some(audit) => (v.(audit := audit), CallResult.Result(outcome))
        case None => (v, CallResult.Result(Crashed))
      else (v, CallResult.Result(outcome))
  }

  // ----- documents ------------------------------------------------------------------------------------------------

  function Cleared(completed: map<(string, string), Completed>, id: string): map<(string, string), Completed> {
    map k | k in completed && k.0 != id :: completed[k]
  }

  /** `create_tenant`: a purged id is reused with a clean slate. */
  function Create(plane: Plane, w: World, document: Document, scope: Option<string>): Result<World, ErrorCode> {
    var id := document.tenantId;
    if !plane.validDocument(document) then Err(ValidationFailed)
    else if scope.Some? && scope.value != id then Err(CrossTenantDenied)
    else if document.state != plane.machine.initial then Err(ValidationFailed)
    else if id in w.tenants && w.tenants[id].document.state !in plane.machine.terminal then Err(TenantConflict)
    else
      var completed := if id in w.tenants then Cleared(w.completed, id) else w.completed;
      Ok(w.(tenants := w.tenants[id := Tenant(document, false)], completed := completed))
  }

  /** `update_tenant`: identity, state and creation time are immutable. */
  function Update(plane: Plane, w: World, id: string, document: Document, scope: Option<string>): Result<World, ErrorCode> {
    if !plane.validId(id) then Err(ValidationFailed)
    else if scope.Some? && scope.value != id then Err(CrossTenantDenied)
    else if id !in w.tenants then Err(TenantNotFound)
    else
      var stored := w.tenants[id].document;
      if stored.tenantId != id then Err(ValidationFailed)
      else if document.tenantId != stored.tenantId || document.state != stored.state || document.createdAt != stored.createdAt then
        Err(ForbiddenFieldUpdate)
      else if !plane.validDocument(document) then Err(ValidationFailed)
      else Ok(w.(tenants := w.tenants[id := w.tenants[id].(document := document)]))
  }

  /** `set_legal_hold`. */
  function SetHold(plane: Plane, w: World, id: string, hold: bool): Result<World, ErrorCode> {
    if !plane.validId(id) then Err(ValidationFailed)
    else if id !in w.tenants then Err(TenantNotFound)
    else Ok(w.(tenants := w.tenants[id := w.tenants[id].(hold := hold)]))
  }
}
