/** The control-plane service as it runs: each step reads and writes the store in turn,
    proved against the calls of the model. */
module TenantService {
  import opened Results
  import opened Audits
  import opened Tenants

  class ControlPlaneStore {
    var tenants: map<string, Tenant>
    var completed: map<(string, string), Completed>
    var audit: map<nat, Record>

    function View(): World
      reads this
    {
      World(tenants, completed, audit)
    }

    constructor ()
      ensures View() == EMPTY
    {
      tenants, completed, audit := map[], map[], map[];
    }

    method SaveTenant(id: string, tenant: Tenant)
      modifies this`tenants
      ensures tenants == old(tenants)[id := tenant]
    {
      tenants := tenants[id := tenant];
    }

    method SaveTransition(id: string, name: string, record: Completed)
      modifies this`completed
      ensures completed == old(completed)[(id, name) := record]
    {
      completed := completed[(id, name) := record];
    }

    /** Drops the records of one tenant, one by one. */
    method ClearTransitions(id: string)
      modifies this`completed
      ensures completed == Cleared(old(completed), id)
    {
      var names := set k | k in completed && k.0 == id;
      var left := names;
      while left != {}
        invariant left <= names
        invariant completed == map k | k in old(completed) && (k.0 != id || k in left) :: old(completed)[k]
        decreases |left|
      {
        var k :| k in left;
        left := left - {k};
        completed := completed - {k};
      }
    }

    method AppendAudit(record: Record) returns (number: nat)
      modifies this`audit
      ensures number == |old(audit)| + 1 && audit == old(audit)[number := record]
    {
      number := |audit| + 1;
      audit := audit[number := record];
    }
  }

  class TenantControlPlaneService {
    const plane: Plane
    const store: ControlPlaneStore

    constructor (plane: Plane)
      ensures this.plane == plane && fresh(store) && store.View() == EMPTY
    {
      this.plane := plane;
      store := new ControlPlaneStore();
    }

    method CreateTenant(document: Document, scope: Option<string>) returns (error: Option<ErrorCode>)
      modifies store
      ensures match Create(plane, old(store.View()), document, scope)
              case Ok(w) => error.None? && store.View() == w
              case Err(code) => error == Some(code) && store.View() == old(store.View())
    {
      var id := document.tenantId;
      if !plane.validDocument(document) {
        return Some(ValidationFailed);
      }
      if scope.Some? && scope.value != id {
        return Some(CrossTenantDenied);
      }
      if document.state != plane.machine.initial {
        return Some(ValidationFailed);
      }
      if id in store.tenants {
        if store.tenants[id].document.state !in plane.machine.terminal {
          return Some(TenantConflict);
        }
        store.ClearTransitions(id);
      }
      store.SaveTenant(id, Tenant(document, false));
      error := None;
    }

    method UpdateTenant(id: string, document: Document, scope: Option<string>) returns (error: Option<ErrorCode>)
      modifies store
      ensures match Update(plane, old(store.View()), id, document, scope)
              case Ok(w) => error.None? && store.View() == w
              case Err(code) => error == Some(code) && store.View() == old(store.View())
    {
      if !plane.validId(id) {
        return Some(ValidationFailed);
      }
      if scope.Some? && scope.value != id {
        return Some(CrossTenantDenied);
      }
      if id !in store.tenants {
        return Some(TenantNotFound);
      }
      var record := store.tenants[id];
      var stored := record.document;
      if stored.tenantId != id {
        return Some(ValidationFailed);
      }
      if document.tenantId != stored.tenantId || document.state != stored.state || document.createdAt != stored.createdAt {
        return Some(ForbiddenFieldUpdate);
      }
      if !plane.validDocument(document) {
        return Some(ValidationFailed);
      }
      store.SaveTenant(id, record.(document := document));
      error := None;
    }

    method SetLegalHold(id: string, hold: bool) returns (error: Option<ErrorCode>)
      modifies store
      ensures match SetHold(plane, old(store.View()), id, hold)
              case Ok(w) => error.None? && store.View() == w
              case Err(code) => error == Some(code) && store.View() == old(store.View())
    {
      if !plane.validId(id) {
        return Some(ValidationFailed);
      }
      if id !in store.tenants {
        return Some(TenantNotFound);
      }
      store.SaveTenant(id, store.tenants[id].(hold := hold));
      error := None;
    }

    /** `transition`: a denial is caught, audited and raised again. */
    method Transition(name: string, id: string, payload: Payload, scope: Option<string>, now: int, wall: int) returns (result: CallResult)
      modifies store
      ensures (store.View(), result) == Tenants.Transition(plane, old(store.View()), name, id, payload, scope, now, wall)
    {
      hide Inner;
      if !plane.validId(id) {
        return BadId;
      }
      var actor := ActorOf(payload);
      var outcome := TransitionInner(name, id, payload, scope, now, wall);
      if outcome.DidDeny? {
        var written := EmitAudit(DenialRecord(id, name, actor, outcome.code, now), None);
        if !written {
          return CallResult.Result(Crashed);
        }
      }
      result := CallResult.Result(outcome);
    }

    method TransitionInner(name: string, id: string, payload: Payload, scope: Option<string>, now: int, wall: int) returns (outcome: Outcome)
      modifies store
      ensures (store.View(), outcome) == Inner(plane, old(store.View()), name, id, payload, scope, now, wall)
    {
      hide ParseRequest, Gate, PreconditionFails, Tenants.Apply, Tenants.Replay;
      if scope.Some? && scope.value != id {
        return DidDeny(CrossTenantDenied);
      }
      if name !in plane.machine.specs {
        return DidDeny(IllegalTransition);
      }
      var spec := plane.machine.specs[name];
      var parsed := ParseRequest(name, payload);
      if parsed.Err? {
        return DidDeny(parsed.error);
      }
      if id !in store.tenants {
        return DidDeny(TenantNotFound);
      }
      var tenant := store.tenants[id];
      if tenant.document.tenantId != id {
        return DidDeny(ValidationFailed);
      }
      var gate := Gate(plane, spec, parsed.value, wall);
      if gate.Err? {
        return DidDeny(gate.error);
      }
      if !plane.validDocument(tenant.document) {
        return DidDeny(ValidationFailed);
      }
      if tenant.document.state !in plane.machine.states {
        return DidDeny(TenantNotFound);
      }
      if tenant.document.state == spec.to && (id, name) in store.completed {
        outcome := Replay(spec, id, parsed.value, gate.value, store.completed[(id, name)], now);
        return;
      }
      if tenant.document.state !in spec.from {
        return DidDeny(IllegalTransition);
      }
      if PreconditionFails(store.View(), spec, id, tenant, now) {
        return DidDeny(PreconditionFailed);
      }
      outcome := Apply(spec, id, tenant, parsed.value, gate.value, now);
    }

    /** `emit_audit`: the checks, then the write. */
    method EmitAudit(record: Record, required: Option<set<string>>) returns (written: bool)
      modifies store`audit
      ensures match Emit(old(store.audit), record, required)
              case Some(audit) => written && store.audit == audit
              case None => !written && store.audit == old(store.audit)
    {
      hide BaseInvariants, HasRequired;
      if !BaseInvariants(record) {
        return false;
      }
      if required.Some? && !HasRequired(record, required.value) {
        return false;
      }
      var number := store.AppendAudit(record);
      written := true;
    }

    /** The record is assembled from the request, the approval and the completed transition. */
    method Attest(spec: Spec, id: string, request: Request, approved: Option<Approved>, completed: Completed, now: int, replay: bool)
        returns (written: bool)
      modifies store`audit
      ensures match Attested(old(store.View()), spec, id, request, approved, completed, now, replay)
              case Some(w) => written && store.View() == w
              case None => !written && store.View() == old(store.View())
    {
      hide AuditExtras, Assembled, Emit;
      var extra := AuditExtras(request.kind, approved, completed, now, replay);
      if extra.None? {
        return false;
      }
      var record := Assembled(id, spec.name, request.actor, replay, if replay then Replayed else Applied, now, extra.value);
      written := EmitAudit(record, Some(spec.required));
    }

    method Replay(spec: Spec, id: string, request: Request, approved: Option<Approved>, completed: Completed, now: int) returns (outcome: Outcome)
      modifies store
      ensures (store.View(), outcome) == Tenants.Replay(old(store.View()), spec, id, request, approved, completed, now)
    {
      hide Attested;
      var written := Attest(spec, id, request, approved, completed, now, true);
      outcome := if written then DidReplay else Crashed;
    }

    /** The tenant is saved in its new state, then the transition record, then the audit. */
    method Apply(spec: Spec, id: string, tenant: Tenant, request: Request, approved: Option<Approved>, now: int) returns (outcome: Outcome)
      modifies store
      ensures (store.View(), outcome) == Tenants.Apply(old(store.View()), spec, id, tenant, request, approved, now)
    {
      hide Attested, RetentionEnd;
      var record := Completed(now, request.actor, None, None, None, None, None, None);
      if spec.name == "provision" {
        record := record.(provisioned := Some(now));
      } else if spec.name == "suspend" || spec.name == "resume" || spec.name == "offboard" {
        if spec.name == "offboard" {
          record := record.(end := Some(RetentionEnd(tenant.document, now)));
        }
      } else {
        record := record.(purged := Some(now));
      }
      if request.kind.Suspend? {
        record := record.(trigger := Some(request.kind.trigger));
      }
      if approved.Some? {
        record := record.(approvalId := Some(approved.value.id));
        if approved.value.ticket.Some? {
          record := record.(ticket := approved.value.ticket);
        }
      }
      store.SaveTenant(id, tenant.(document := tenant.document.(state := spec.to)));
      store.SaveTransition(id, spec.name, record);
      assert record == CompletedNow(spec, tenant.document, request, approved, now);
      var written := Attest(spec, id, request, approved, record, now, false);
      outcome := if written then DidApply else Crashed;
    }
  }
}
