/** Audit records and the checks they pass before they are written (tenantctl: audit.py). */
module Audits {
  import opened Results

  datatype ErrorCode =
    | ValidationFailed
    | TenantNotFound
    | TenantConflict
    | ForbiddenFieldUpdate
    | IllegalTransition
    | PreconditionFailed
    | ApprovalRequired
    | ApprovalInvalid
    | CrossTenantDenied

  datatype AuditOutcome = Applied | Replayed | Denied

  /** A value of a record. Messages and evidence references are never empty texts, and not
      looked into. */
  datatype Value = Str(s: string) | Flag(b: bool) | Time(at: int) | Tag(outcome: AuditOutcome) | Code(code: ErrorCode) | Opaque

  type Record = map<string, Value>

  const DENIAL_REASON_FIELDS: set<string> := {"error_code", "message"}

  /** `_is_missing`. */
  predicate IsMissing(v: Value) {
    v == Str("")
  }

  /** `ensure_required_fields`. */
  predicate HasRequired(record: Record, required: set<string>) {
    forall key :: key in required ==> key in record && !IsMissing(record[key])
  }

  predicate NonEmptyString(record: Record, key: string) {
    key in record && record[key].Str? && record[key].s != ""
  }

  /** `_ensure_base_invariants`. */
  predicate BaseInvariants(record: Record) {
    && NonEmptyString(record, "tenant_id") && NonEmptyString(record, "transition") && NonEmptyString(record, "actor")
    && "replay" in record && record["replay"].Flag?
    && "outcome" in record && record["outcome"].Tag?
    && "recorded_at" in record && record["recorded_at"].Time?
    && (record["outcome"].outcome == Denied ==> HasRequired(record, DENIAL_REASON_FIELDS))
  }

  /** The base fields, then whatever the transition adds. */
  function Assembled(tenant: string, transition: string, actor: string, replay: bool, outcome: AuditOutcome, at: int, extra: Record): Record {
    map["tenant_id" := Str(tenant), "transition" := Str(transition), "actor" := Str(actor), "replay" := Flag(replay),
        "outcome" := Tag(outcome), "recorded_at" := Time(at)]
    + extra
  }

  /** `emit_audit` of an assembled record: the next number is one more than the number of
      records. `None` is a violation of the audit contract, which nothing catches. */
  function Emit(audit: map<nat, Record>, record: Record, required: Option<set<string>>): Option<map<nat, Record>> {
    if !BaseInvariants(record) then None
    else if required.Some? && !HasRequired(record, required.value) then None
    else Some(audit[|audit| + 1 := record])
  }

  const BASE_FIELDS: set<string> := {"tenant_id", "transition", "actor", "replay", "outcome", "recorded_at"}

  /** Extra fields that are neither base fields nor empty. */
  predicate ProperExtra(extra: Record) {
    extra.Keys !! BASE_FIELDS && forall key :: key in extra ==> !IsMissing(extra[key])
  }

  /** Which fields an assembled record has, and which of them can be empty. */
  lemma RequiredIff(tenant: string, transition: string, actor: string, replay: bool, outcome: AuditOutcome, at: int,
                    extra: Record, required: set<string>)
    requires ProperExtra(extra) && tenant != "" && transition != "" && actor != ""
    ensures HasRequired(Assembled(tenant, transition, actor, replay, outcome, at, extra), required) <==> required <= BASE_FIELDS + extra.Keys
  {
    var record := Assembled(tenant, transition, actor, replay, outcome, at, extra);
    BaseKept(tenant, transition, actor, replay, outcome, at, extra);
    assert record.Keys == BASE_FIELDS + extra.Keys;
    assert forall key :: key in extra ==> record[key] == extra[key];
    hide Assembled;
    forall key | key in record ensures !IsMissing(record[key]) {
    }
  }

  lemma BaseIff(tenant: string, transition: string, actor: string, replay: bool, outcome: AuditOutcome, at: int, extra: Record)
    requires ProperExtra(extra)
    ensures BaseInvariants(Assembled(tenant, transition, actor, replay, outcome, at, extra)) <==>
            && tenant != "" && transition != "" && actor != ""
            && (outcome == Denied ==> DENIAL_REASON_FIELDS <= extra.Keys)
  {
    hide Assembled, HasRequired, ProperExtra, IsMissing, DENIAL_REASON_FIELDS;
    ExtraApart(extra);
    BaseKept(tenant, transition, actor, replay, outcome, at, extra);
    if tenant != "" && transition != "" && actor != "" {
      RequiredIff(tenant, transition, actor, replay, outcome, at, extra, DENIAL_REASON_FIELDS);
      ReasonsAreExtra(extra);
    }
  }

  lemma ExtraApart(extra: Record)
    requires ProperExtra(extra)
    ensures extra.Keys !! BASE_FIELDS
  {
  }

  lemma ReasonsAreExtra(extra: Record)
    ensures DENIAL_REASON_FIELDS <= BASE_FIELDS + extra.Keys <==> DENIAL_REASON_FIELDS <= extra.Keys
  {
    FieldsApart();
    hide BASE_FIELDS, DENIAL_REASON_FIELDS;
  }

  /** A record is written exactly when it names the tenant, the transition and the actor, a
      denial has its reason, and each required field is a base field or one of the extras. */
  lemma EmittedIff(audit: map<nat, Record>, tenant: string, transition: string, actor: string, replay: bool, outcome: AuditOutcome, at: int,
                   extra: Record, required: Option<set<string>>)
    requires ProperExtra(extra)
    ensures Emit(audit, Assembled(tenant, transition, actor, replay, outcome, at, extra), required).Some? <==>
            && tenant != "" && transition != "" && actor != ""
            && (outcome == Denied ==> DENIAL_REASON_FIELDS <= extra.Keys)
            && (required.Some? ==> required.value <= BASE_FIELDS + extra.Keys)
  {
    hide Assembled, HasRequired, ProperExtra, IsMissing, BaseInvariants, BASE_FIELDS, DENIAL_REASON_FIELDS;
    BaseIff(tenant, transition, actor, replay, outcome, at, extra);
    if required.Some? && tenant != "" && transition != "" && actor != "" {
      RequiredIff(tenant, transition, actor, replay, outcome, at, extra, required.value);
    }
  }

  lemma FieldsApart()
    ensures "tenant_id" != "transition" && "actor" != "tenant_id" && DENIAL_REASON_FIELDS !! BASE_FIELDS
  {
    assert "message" != "outcome" && "error_code" != "transition" by {
      assert "message"[0] != "outcome"[0] && "error_code"[0] != "transition"[0];
    }
  }

  lemma BaseKept(tenant: string, transition: string, actor: string, replay: bool, outcome: AuditOutcome, at: int, extra: Record)
    requires extra.Keys !! BASE_FIELDS
    ensures var record := Assembled(tenant, transition, actor, replay, outcome, at, extra);
            && BASE_FIELDS <= record.Keys
            && record["tenant_id"] == Str(tenant) && record["transition"] == Str(transition) && record["actor"] == Str(actor)
            && record["replay"] == Flag(replay) && record["outcome"] == Tag(outcome) && record["recorded_at"] == Time(at)
  {
    assert "tenant_id" in BASE_FIELDS && "transition" in BASE_FIELDS && "actor" in BASE_FIELDS;
    assert "replay" in BASE_FIELDS && "outcome" in BASE_FIELDS && "recorded_at" in BASE_FIELDS;
  }
}
