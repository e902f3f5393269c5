/** What every run of the tenant control plane keeps. */
module TenantLaws {
  import opened Results
  import opened Audits
  import opened Tenants

  // ----- one call ---------------------------------------------------------------------

  /** Audit records are numbered from one without gaps, so the next number is fresh. */
  ghost predicate Numbered(w: World) {
    forall n: nat :: n in w.audit <==> 1 <= n <= |w.audit|
  }

  /** Exactly one audit record more, with a fresh number; the others as they were. */
  ghost predicate OneMore(before: map<nat, Record>, after: map<nat, Record>) {
    var n := |before| + 1;
    n !in before && n in after && after == before[n := after[n]]
  }

  /** What every audit record states. */
  ghost predicate States(record: Record, id: string, name: string, actor: string, replay: bool, outcome: AuditOutcome, now: int) {
    && BASE_FIELDS <= record.Keys
    && record["tenant_id"] == Str(id) && record["transition"] == Str(name) && record["actor"] == Str(actor)
    && record["replay"] == Flag(replay) && record["outcome"] == Tag(outcome) && record["recorded_at"] == Time(now)
  }

  lemma EmittedFresh(w: World, v: World, record: Record, required: Option<set<string>>)
    requires Numbered(w) && Emit(w.audit, record, required) == Some(v.audit)
    ensures OneMore(w.audit, v.audit) && v.audit[|w.audit| + 1] == record && Numbered(v)
    ensures BaseInvariants(record) && (required.Some? ==> HasRequired(record, required.value))
  {
    var n := |w.audit| + 1;
    assert n !in w.audit;
    assert |w.audit[n := record]| == |w.audit| + 1;
    hide BaseInvariants, HasRequired;
  }

  /** What happened to the tenant and its transition records in one transition call. */
  ghost predicate OnlyTenant(w: World, v: World, id: string, name: string) {
    && v.tenants.Keys == w.tenants.Keys
    && (forall t :: t in w.tenants && t != id ==> v.tenants[t] == w.tenants[t])
    && (forall k :: k != (id, name) ==> (k in v.completed <==> k in w.completed))
    && (forall k :: k in w.completed && k != (id, name) ==> k in v.completed && v.completed[k] == w.completed[k])
  }

  /** The record of an applied or replayed transition: what it states, and every field the
      contract requires of that transition. */
  ghost predicate Completes(spec: Spec, record: Record, id: string, actor: string, replay: bool, now: int) {
    && States(record, id, spec.name, actor, replay, if replay then Replayed else Applied, now)
    && HasRequired(record, spec.required)
  }

  /** The fields a transition adds to its record. */
  function ExtraFields(name: string): set<string> {
    if name == "provision" then {"requested_at", "completed_at"}
    else if name == "suspend" then {"trigger_type", "reason"}
    else if name == "resume" then {"reason"}
    else if name == "offboard" then {"approval_id", "reason", "retention_window_ends_at"}
    else {"approval_id", "change_ticket", "evidence_artifact_refs", "purged_at"}
  }

  function NameOf(kind: Kind): string {
    match kind
    case Provision => "provision"
    case Suspend(_, _) => "suspend"
    case Resume(_) => "resume"
    case Offboard(_) => "offboard"
    case Purge => "purge"
  }

  lemma ExtraFieldsApart(name: string)
    ensures ExtraFields(name) !! BASE_FIELDS
  {
    assert "reason"[2] != "replay"[2] && "approval_id"[0] != "recorded_at"[0] && "purged_at"[0] != "tenant_id"[0];
  }

  lemma ExtrasAre(kind: Kind, approved: Option<Approved>, completed: Completed, now: int, replay: bool)
    requires AuditExtras(kind, approved, completed, now, replay).Some?
    ensures AuditExtras(kind, approved, completed, now, replay).value.Keys == ExtraFields(NameOf(kind))
  {
  }

  lemma AttestedFacts(w: World, spec: Spec, id: string, request: Request, approved: Option<Approved>, completed: Completed, now: int, replay: bool)
    requires Numbered(w) && Attested(w, spec, id, request, approved, completed, now, replay).Some?
    ensures var v := Attested(w, spec, id, request, approved, completed, now, replay).value;
            && v == w.(audit := v.audit) && Numbered(v) && OneMore(w.audit, v.audit)
            && Completes(spec, v.audit[|w.audit| + 1], id, request.actor, replay, now)
  {
    hide AuditExtras, Assembled, Emit, BaseInvariants, HasRequired, ExtraFields, BASE_FIELDS, Numbered;
    var extra := AuditExtras(request.kind, approved, completed, now, replay).value;
    var outcome := if replay then Replayed else Applied;
    ExtrasAre(request.kind, approved, completed, now, replay);
    ExtraFieldsApart(NameOf(request.kind));
    BaseKept(id, spec.name, request.actor, replay, outcome, now, extra);
    var v := Attested(w, spec, id, request, approved, completed, now, replay).value;
    EmittedFresh(w, v, Assembled(id, spec.name, request.actor, replay, outcome, now, extra), Some(spec.required));
  }

  lemma InnerFacts(plane: Plane, w: World, name: string, id: string, payload: Payload, scope: Option<string>, now: int, wall: int)
    requires plane.machine.WellFormed() && Numbered(w)
    ensures var (v, outcome) := Inner(plane, w, name, id, payload, scope, now, wall);
            && (outcome.DidDeny? ==> v == w)
            && (outcome.DidReplay? ==> v == w.(audit := v.audit))
            && (outcome.DidApply? || outcome.DidReplay? ==>
                  ParseRequest(name, payload).Ok? && name in plane.machine.specs && Numbered(v) && OneMore(w.audit, v.audit)
                  && Completes(plane.machine.specs[name], v.audit[|w.audit| + 1], id, ParseRequest(name, payload).value.actor,
                               outcome.DidReplay?, now))
            && (outcome.Crashed? ==> v.audit == w.audit)
            && OnlyTenant(w, v, id, name)
  {
    hide Admit, PreconditionFails, RetentionEnd, ParseRequest, Gate, Apply, Replay, OnlyTenant, Completes, OneMore, Numbered;
    if Admit(plane, w, name, id, payload, scope, wall).Ok? {
      AdmitFacts(plane, w, name, id, payload, scope, wall);
      var a := Admit(plane, w, name, id, payload, scope, wall).value;
      ApplyFacts(w, a.spec, id, a.tenant, a.request, a.approved, now);
      if (id, name) in w.completed {
        ReplayFacts(w, a.spec, id, a.request, a.approved, w.completed[(id, name)], now);
      }
    }
    var (v, outcome) := Inner(plane, w, name, id, payload, scope, now, wall);
    if v.tenants == w.tenants && v.completed == w.completed {
      SameWorld(w, v, id, name);
    }
  }

  lemma SameWorld(w: World, v: World, id: string, name: string)
    requires v.tenants == w.tenants && v.completed == w.completed
    ensures OnlyTenant(w, v, id, name)
  {
  }

  lemma SavedOnly(w: World, spec: Spec, id: string, tenant: Tenant, completed: Completed, v: World)
    requires id in w.tenants && v.tenants == Saved(w, spec, id, tenant, completed).tenants && v.completed == Saved(w, spec, id, tenant, completed).completed
    ensures OnlyTenant(w, v, id, spec.name)
  {
  }

  lemma SavedNumbered(w: World, spec: Spec, id: string, tenant: Tenant, completed: Completed)
    requires Numbered(w)
    ensures Numbered(Saved(w, spec, id, tenant, completed)) && Saved(w, spec, id, tenant, completed).audit == w.audit
  {
  }

  lemma ApplyFacts(w: World, spec: Spec, id: string, tenant: Tenant, request: Request, approved: Option<Approved>, now: int)
    requires id in w.tenants && Numbered(w)
    ensures var (v, outcome) := Apply(w, spec, id, tenant, request, approved, now);
            && OnlyTenant(w, v, id, spec.name)
            && (outcome.DidApply? || outcome.Crashed?)
            && (outcome.DidApply? ==>
                  Numbered(v) && OneMore(w.audit, v.audit) && Completes(spec, v.audit[|w.audit| + 1], id, request.actor, false, now))
            && (outcome.Crashed? ==> v.audit == w.audit)
  {
    hide Attested, CompletedNow, OnlyTenant, Numbered, OneMore, Completes, Saved;
    var record := CompletedNow(spec, tenant.document, request, approved, now);
    var saved := Saved(w, spec, id, tenant, record);
    SavedNumbered(w, spec, id, tenant, record);
    if Attested(saved, spec, id, request, approved, record, now, false).Some? {
      AttestedFacts(saved, spec, id, request, approved, record, now, false);
    }
    SavedOnly(w, spec, id, tenant, record, Apply(w, spec, id, tenant, request, approved, now).0);
  }

  lemma ReplayFacts(w: World, spec: Spec, id: string, request: Request, approved: Option<Approved>, completed: Completed, now: int)
    requires Numbered(w)
    ensures var (v, outcome) := Replay(w, spec, id, request, approved, completed, now);
            && v == w.(audit := v.audit)
            && (outcome.DidReplay? || outcome.Crashed?)
            && (outcome.DidReplay? ==>
                  Numbered(v) && OneMore(w.audit, v.audit) && Completes(spec, v.audit[|w.audit| + 1], id, request.actor, true, now))
            && (outcome.Crashed? ==> v.audit == w.audit)
  {
    hide Attested, Numbered, OneMore, Completes;
    if Attested(w, spec, id, request, approved, completed, now, true).Some? {
      AttestedFacts(w, spec, id, request, approved, completed, now, true);
    }
  }

  /** What the gates establish. */
  lemma AdmitFacts(plane: Plane, w: World, name: string, id: string, payload: Payload, scope: Option<string>, wall: int)
    requires plane.machine.WellFormed() && Admit(plane, w, name, id, payload, scope, wall).Ok?
    ensures var a := Admit(plane, w, name, id, payload, scope, wall).value;
            && name in plane.machine.specs && a.spec == plane.machine.specs[name] && a.spec.name == name
            && id in w.tenants && a.tenant == w.tenants[id] && a.tenant.document.tenantId == id
            && ParseRequest(name, payload) == Ok(a.request)
            && Gate(plane, a.spec, a.request, wall) == Ok(a.approved)
            && plane.validDocument(a.tenant.document)
            && (scope.None? || scope == Some(id))
  {
    hide ParseRequest, Gate;
  }

  /** The audit record a call leaves. */
  ghost predicate Tells(plane: Plane, record: Record, name: string, id: string, payload: Payload, outcome: Outcome, now: int) {
    match outcome
    case DidDeny(code) =>
      && States(record, id, name, ActorOf(payload), false, Denied, now)
      && "error_code" in record && record["error_code"] == Code(code) && "message" in record
    case _ =>
      name in plane.machine.specs && Completes(plane.machine.specs[name], record, id, ActorOf(payload), outcome.DidReplay?, now)
  }

  lemma ParsedActor(name: string, payload: Payload)
    requires ParseRequest(name, payload).Ok?
    ensures ParseRequest(name, payload).value.actor == ActorOf(payload)
  {
  }

  lemma DenialStates(id: string, name: string, actor: string, code: ErrorCode, now: int)
    ensures var record := DenialRecord(id, name, actor, code, now);
            && States(record, id, name, actor, false, Denied, now)
            && "error_code" in record && record["error_code"] == Code(code) && "message" in record
  {
    FieldsApart();
    BaseKept(id, name, actor, false, Denied, now, map["error_code" := Code(code), "message" := Opaque]);
    hide BASE_FIELDS;
    assert "error_code" != "message";
  }

  /** Every call on a well-formed id that ends in one of the contract's ways, applied,
      replayed or denied, appends exactly one audit record, freshly numbered, that says who
      asked for what, how it ended and when, with the reason of a denial and every field the
      contract requires of the transition. A denial changes nothing else, a replay changes no
      tenant and no transition record, and no call touches another tenant. */
  lemma OneAuditPerCall(plane: Plane, w: World, name: string, id: string, payload: Payload, scope: Option<string>, now: int, wall: int)
    requires plane.machine.WellFormed() && Numbered(w) && plane.validId(id)
    ensures var (v, result) := Transition(plane, w, name, id, payload, scope, now, wall);
            && result.Result?
            && (!result.outcome.Crashed? ==>
                  OneMore(w.audit, v.audit) && Numbered(v)
                  && Tells(plane, v.audit[|w.audit| + 1], name, id, payload, result.outcome, now))
            && (result.outcome.DidDeny? || result.outcome.DidReplay? ==> v.tenants == w.tenants && v.completed == w.completed)
            && OnlyTenant(w, v, id, name)
  {
    hide Inner, OnlyTenant, ParseRequest, ActorOf, Numbered, OneMore, Completes, States, Emit, DenialRecord, BaseInvariants;
    InnerFacts(plane, w, name, id, payload, scope, now, wall);
    var (v, outcome) := Inner(plane, w, name, id, payload, scope, now, wall);
    if outcome.DidApply? || outcome.DidReplay? {
      ParsedActor(name, payload);
    }
    if outcome.DidDeny? {
      var record := DenialRecord(id, name, ActorOf(payload), outcome.code, now);
      DenialStates(id, name, ActorOf(payload), outcome.code, now);
      var emitted := Emit(w.audit, record, None);
      if emitted.Some? {
        EmittedFresh(w, w.(audit := emitted.value), record, None);
      }
      SameWorld(w, Transition(plane, w, name, id, payload, scope, now, wall).0, id, name);
    }
  }

  // ----- where the audit can be missing -----------------------------------------------------------

  /** The transition call reaches the apply path. */
  predicate Applies(plane: Plane, w: World, name: string, id: string, payload: Payload, scope: Option<string>, now: int, wall: int) {
    plane.validId(id)
    && match Admit(plane, w, name, id, payload, scope, wall)
       case Err(_) => false
       case Ok(Admitted(spec, _, tenant, _)) =>
         !(tenant.document.state == spec.to && (id, name) in w.completed)
         && tenant.document.state in spec.from && !PreconditionFails(w, spec, id, tenant, now)
  }

  /** The transition call reaches the replay path. */
  predicate Replays(plane: Plane, w: World, name: string, id: string, payload: Payload, scope: Option<string>, wall: int) {
    plane.validId(id)
    && match Admit(plane, w, name, id, payload, scope, wall)
       case Err(_) => false
       case Ok(Admitted(spec, _, tenant, _)) => tenant.document.state == spec.to && (id, name) in w.completed
  }

  /** The record of a transition can be written: the two destructive ones are gated at the
      risk classes that yield their fields, no field is required that the transition does not
      add, and the completed transition a replay reads has its end. */
  predicate CanRecord(spec: Spec, completed: Option<Completed>) {
    && (spec.name == "offboard" ==> spec.risk.Some? && (completed.Some? ==> completed.value.end.Some?))
    && (spec.name == "purge" ==> spec.risk == Some(Critical) && (completed.Some? ==> completed.value.purged.Some?))
    && spec.required <= BASE_FIELDS + ExtraFields(spec.name)
  }

  /** Texts a parsed request or a valid approval carries are not empty. */
  predicate RequestOk(request: Request, name: string) {
    && request.actor != "" && NameOf(request.kind) == name
    && (request.kind.Suspend? ==> request.kind.trigger != "" && request.kind.reason != "")
    && (request.kind.Resume? ==> request.kind.reason != "")
    && (request.kind.Offboard? ==> request.kind.reason != "")
  }

  predicate ApprovedOk(approved: Option<Approved>) {
    approved.Some? ==> approved.value.id != "" && (approved.value.ticket.Some? ==> approved.value.ticket.value != "")
  }

  lemma ParsedOk(name: string, payload: Payload)
    requires ParseRequest(name, payload).Ok?
    ensures KnownName(name) && RequestOk(ParseRequest(name, payload).value, name)
  {
    var fields := payload.value;
    var required := RequiredFields(name).0;
    assert forall k :: k in required ==> NonEmptyText(fields[k]);
    assert "actor" in required;
    if name == "suspend" || name == "resume" || name == "offboard" {
      assert "reason" in required;
    }
    if name == "suspend" {
      assert "trigger_type" in required;
    }
  }

  lemma GateMeans(plane: Plane, spec: Spec, request: Request, wall: int)
    requires Gate(plane, spec, request, wall).Ok?
    ensures var approved := Gate(plane, spec, request, wall).value;
            && approved.Some? == spec.risk.Some? && ApprovedOk(approved)
            && (approved.Some? ==> (approved.value.ticket.Some? <==> spec.risk == Some(Critical)))
  {
    hide ValidateApproval;
    if spec.risk.Some? {
      ApprovedTicket(plane, request.approval, spec.risk.value, wall);
    }
  }

  lemma ApprovedTicket(plane: Plane, field: Option<Field>, risk: Risk, wall: int)
    requires ValidateApproval(plane, field, risk, wall).Ok?
    ensures var approved := ValidateApproval(plane, field, risk, wall).value;
            (approved.ticket.Some? <==> risk.Critical?) && ApprovedOk(Some(approved))
  {
    var texts := field.value.approval.texts;
    assert "approval_id" in ApprovalFields(risk) && (risk.Critical? ==> "change_ticket" in ApprovalFields(risk));
  }

  lemma ExtrasProper(request: Request, name: string, approved: Option<Approved>, completed: Completed, now: int, replay: bool)
    requires RequestOk(request, name) && ApprovedOk(approved)
    requires AuditExtras(request.kind, approved, completed, now, replay).Some?
    ensures ProperExtra(AuditExtras(request.kind, approved, completed, now, replay).value)
  {
    ExtrasAre(request.kind, approved, completed, now, replay);
    ExtraFieldsApart(name);
    hide ExtraFields, BASE_FIELDS;
  }

  lemma ExtrasIff(request: Request, name: string, approved: Option<Approved>, completed: Completed, now: int, replay: bool)
    requires RequestOk(request, name)
    ensures AuditExtras(request.kind, approved, completed, now, replay).Some? <==>
            && (name == "offboard" ==> approved.Some? && completed.end.Some?)
            && (name == "purge" ==> approved.Some? && approved.value.ticket.Some? && completed.purged.Some?)
  {
  }

  lemma AttestedIff(w: World, plane: Plane, spec: Spec, id: string, request: Request, approved: Option<Approved>, completed: Completed,
                    now: int, wall: int, replay: bool)
    requires id != "" && KnownName(spec.name) && RequestOk(request, spec.name) && Gate(plane, spec, request, wall) == Ok(approved)
    ensures Attested(w, spec, id, request, approved, completed, now, replay).Some? <==> CanRecord(spec, Some(completed))
  {
    hide AuditExtras, Assembled, Emit, ExtraFields, BASE_FIELDS, Gate, ProperExtra;
    GateMeans(plane, spec, request, wall);
    ExtrasIff(request, spec.name, approved, completed, now, replay);
    if AuditExtras(request.kind, approved, completed, now, replay).Some? {
      var extra := AuditExtras(request.kind, approved, completed, now, replay).value;
      ExtrasAre(request.kind, approved, completed, now, replay);
      ExtrasProper(request, spec.name, approved, completed, now, replay);
      EmittedIff(w.audit, id, spec.name, request.actor, replay, if replay then Replayed else Applied, now, extra, Some(spec.required));
    }
  }

  lemma DenialEmitted(audit: map<nat, Record>, id: string, name: string, actor: string, code: ErrorCode, now: int)
    requires id != "" && actor != ""
    ensures Emit(audit, DenialRecord(id, name, actor, code, now), None).Some? <==> name != ""
  {
    hide Assembled, Emit;
    FieldsApart();
    EmittedIff(audit, id, name, actor, false, Denied, now, map["error_code" := Code(code), "message" := Opaque], None);
  }

  /** What reaches the apply path has the end and the purge time of its own record. */
  lemma ApplyRecords(spec: Spec, document: Document, request: Request, approved: Option<Approved>, now: int)
    requires KnownName(spec.name)
    ensures CanRecord(spec, Some(CompletedNow(spec, document, request, approved, now))) <==> CanRecord(spec, None)
  {
    hide RetentionEnd, ExtraFields, BASE_FIELDS;
  }

  /** The call moved the tenant and saved its completed transition. */
  ghost predicate Moves(plane: Plane, w: World, v: World, name: string, id: string) {
    && id in w.tenants && name in plane.machine.specs
    && v.tenants == w.tenants[id := w.tenants[id].(document := w.tenants[id].document.(state := plane.machine.specs[name].to))]
    && (id, name) in v.completed && v.completed == w.completed[(id, name) := v.completed[(id, name)]]
  }

  lemma InnerCrash(plane: Plane, w: World, name: string, id: string, payload: Payload, scope: Option<string>, now: int, wall: int)
    requires plane.machine.WellFormed() && plane.validId(id) && id != ""
    ensures var (v, outcome) := Inner(plane, w, name, id, payload, scope, now, wall);
            && (outcome.Crashed? <==>
                  || (Applies(plane, w, name, id, payload, scope, now, wall) && !CanRecord(plane.machine.specs[name], None))
                  || (Replays(plane, w, name, id, payload, scope, wall) && !CanRecord(plane.machine.specs[name], Some(w.completed[(id, name)]))))
            && (outcome.Crashed? ==> v.audit == w.audit)
            && (Applies(plane, w, name, id, payload, scope, now, wall) ==> Moves(plane, w, v, name, id))
            && (!outcome.DidDeny? ==> KnownName(name))
            && (outcome.DidDeny? ==> v == w)
  {
    hide Admit, PreconditionFails, ParseRequest, Gate, CanRecord, Attested, CompletedNow, KnownName, RequestOk;
    if Admit(plane, w, name, id, payload, scope, wall).Ok? {
      AdmitFacts(plane, w, name, id, payload, scope, wall);
      var a := Admit(plane, w, name, id, payload, scope, wall).value;
      ParsedOk(name, payload);
      var record := CompletedNow(a.spec, a.tenant.document, a.request, a.approved, now);
      AttestedIff(Saved(w, a.spec, id, a.tenant, record), plane, a.spec, id, a.request, a.approved, record, now, wall, false);
      ApplyRecords(a.spec, a.tenant.document, a.request, a.approved, now);
      AttestedKeeps(Saved(w, a.spec, id, a.tenant, record), a.spec, id, a.request, a.approved, record, now, false);
      if (id, name) in w.completed {
        AttestedIff(w, plane, a.spec, id, a.request, a.approved, w.completed[(id, name)], now, wall, true);
      }
    }
  }

  lemma AttestedKeeps(w: World, spec: Spec, id: string, request: Request, approved: Option<Approved>, completed: Completed, now: int, replay: bool)
    ensures var v := Attested(w, spec, id, request, approved, completed, now, replay);
            v.Some? ==> v.value.tenants == w.tenants && v.value.completed == w.completed
  {
    hide AuditExtras, Assembled, Emit;
  }

  lemma ActorNotEmpty(payload: Payload)
    ensures ActorOf(payload) != ""
  {
  }

  /** A call ends outside the contract, without its audit record, exactly when the transition
      has no name, or the call is admitted to a transition whose record cannot be written.
      The applied one has moved the tenant and saved its completion by then. */
  lemma UnauditedIff(plane: Plane, w: World, name: string, id: string, payload: Payload, scope: Option<string>, now: int, wall: int)
    requires plane.machine.WellFormed() && !plane.validId("")
    ensures var (v, result) := Transition(plane, w, name, id, payload, scope, now, wall);
            && (result == CallResult.Result(Crashed) <==>
                  plane.validId(id)
                  && (|| name == ""
                      || (Applies(plane, w, name, id, payload, scope, now, wall) && !CanRecord(plane.machine.specs[name], None))
                      || (Replays(plane, w, name, id, payload, scope, wall) && !CanRecord(plane.machine.specs[name], Some(w.completed[(id, name)])))))
            && (result == CallResult.Result(Crashed) ==> v.audit == w.audit)
            && (Applies(plane, w, name, id, payload, scope, now, wall) ==> Moves(plane, w, v, name, id))
  {
    hide Inner, Applies, Replays, CanRecord, Moves, ActorOf, Emit, DenialRecord;
    if plane.validId(id) {
      InnerCrash(plane, w, name, id, payload, scope, now, wall);
      var (v, outcome) := Inner(plane, w, name, id, payload, scope, now, wall);
      assert !KnownName("");
      AppliesAdmitted(plane, w, name, id, payload, scope, now, wall);
      if outcome.DidDeny? {
        ActorNotEmpty(payload);
        DenialEmitted(v.audit, id, name, ActorOf(payload), outcome.code, now);
        AppliesNotDenied(plane, w, name, id, payload, scope, now, wall);
      }
    } else {
      assert !Applies(plane, w, name, id, payload, scope, now, wall) && !Replays(plane, w, name, id, payload, scope, wall) by {
        BadIdEndsEarly(plane, w, name, id, payload, scope, now, wall);
      }
    }
  }

  lemma AppliesAdmitted(plane: Plane, w: World, name: string, id: string, payload: Payload, scope: Option<string>, now: int, wall: int)
    requires plane.machine.WellFormed()
    ensures Applies(plane, w, name, id, payload, scope, now, wall) || Replays(plane, w, name, id, payload, scope, wall) ==>
              name in plane.machine.specs && KnownName(name) && id in w.tenants
    ensures Replays(plane, w, name, id, payload, scope, wall) ==> (id, name) in w.completed
  {
    hide Admit, PreconditionFails, ParseRequest, Gate;
    if Admit(plane, w, name, id, payload, scope, wall).Ok? {
      AdmitFacts(plane, w, name, id, payload, scope, wall);
      ParsedOk(name, payload);
    }
  }

  lemma AppliesNotDenied(plane: Plane, w: World, name: string, id: string, payload: Payload, scope: Option<string>, now: int, wall: int)
    requires Inner(plane, w, name, id, payload, scope, now, wall).1.DidDeny?
    ensures !Applies(plane, w, name, id, payload, scope, now, wall)
  {
    hide Admit, PreconditionFails, Attested, CompletedNow;
  }

  lemma BadIdEndsEarly(plane: Plane, w: World, name: string, id: string, payload: Payload, scope: Option<string>, now: int, wall: int)
    requires !plane.validId(id)
    ensures !Applies(plane, w, name, id, payload, scope, now, wall) && !Replays(plane, w, name, id, payload, scope, wall)
  {
    hide Admit, PreconditionFails;
  }

  const STRICT: Spec := Spec("provision", {"new"}, "up", None, {"reason"})
  const NEWCOMER: Document := Document("t", "new", "", "", None, 1, 1, 1, "")

  /** A contract that asks for the reason of a provisioning, which may be given but is never
      recorded: the tenant is provisioned, and nothing is written about it. */
  lemma UnrecordedProvision(parse: string -> Option<int>, now: int, wall: int)
    ensures var plane := Plane(Machine({"new", "up"}, "new", {}, map["provision" := STRICT]), _ => true, (id: string) => id != "", parse);
            var w := EMPTY.(tenants := map["t" := Tenant(NEWCOMER, false)]);
            var payload := Some(map["actor" := Text("ops"), "reason" := Text("new customer")]);
            var (v, result) := Transition(plane, w, "provision", "t", payload, None, now, wall);
            && plane.machine.WellFormed() && result == CallResult.Result(Crashed)
            && v.tenants["t"].document.state == "up" && v.audit == map[]
  {
    var plane := Plane(Machine({"new", "up"}, "new", {}, map["provision" := STRICT]), _ => true, (id: string) => id != "", parse);
    var w := EMPTY.(tenants := map["t" := Tenant(NEWCOMER, false)]);
    var payload := Some(map["actor" := Text("ops"), "reason" := Text("new customer")]);
    ReasonUnrecorded();
    assert ParseRequest("provision", payload).Ok? by {
      ReasonParses();
    }
    assert Applies(plane, w, "provision", "t", payload, None, now, wall);
    UnauditedIff(plane, w, "provision", "t", payload, None, now, wall);
  }

  lemma ReasonUnrecorded()
    ensures !CanRecord(STRICT, None)
  {
    assert "reason" in STRICT.required;
    assert "reason" != "replay" by {
      assert "reason"[2] != "replay"[2];
    }
  }

  lemma ReasonParses()
    ensures ParseRequest("provision", Some(map["actor" := Text("ops"), "reason" := Text("new customer")])).Ok?
  {
    var fields := map["actor" := Text("ops"), "reason" := Text("new customer")];
    assert fields["actor"] == Text("ops");
    assert fields.Keys == {"actor", "reason"};
  }

  /** A machine all of whose transitions can be recorded when they are applied. */
  ghost predicate AuditableMachine(m: Machine) {
    forall name :: name in m.specs && KnownName(name) ==> CanRecord(m.specs[name], None)
  }

  /** Completed offboardings recorded the end of their retention window, and completed
      purges when they were done. */
  ghost predicate EndsRecorded(w: World) {
    forall id ::
      && ((id, "offboard") in w.completed ==> w.completed[(id, "offboard")].end.Some?)
      && ((id, "purge") in w.completed ==> w.completed[(id, "purge")].purged.Some?)
  }

  /** With such a machine no attempt escapes the audit trail. */
  lemma NeverUnaudited(plane: Plane, w: World, name: string, id: string, payload: Payload, scope: Option<string>, now: int, wall: int)
    requires plane.machine.WellFormed() && AuditableMachine(plane.machine) && EndsRecorded(w)
    requires plane.validId(id) && !plane.validId("") && name != ""
    ensures Transition(plane, w, name, id, payload, scope, now, wall).1.Result?
    ensures !Transition(plane, w, name, id, payload, scope, now, wall).1.outcome.Crashed?
  {
    hide Transition, Applies, Replays, ExtraFields, BASE_FIELDS, KnownName;
    UnauditedIff(plane, w, name, id, payload, scope, now, wall);
    AppliesAdmitted(plane, w, name, id, payload, scope, now, wall);
    ResultOf(plane, w, name, id, payload, scope, now, wall);
  }

  lemma ResultOf(plane: Plane, w: World, name: string, id: string, payload: Payload, scope: Option<string>, now: int, wall: int)
    requires plane.validId(id)
    ensures Transition(plane, w, name, id, payload, scope, now, wall).1.Result?
  {
    hide Inner, Emit;
  }
}
