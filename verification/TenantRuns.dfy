/** Purge safety and audit completeness over whole runs of the control plane, reuse of
    purged tenant ids included. */
module TenantRuns {
  import opened Results
  import opened Audits
  import opened Tenants
  import opened TenantLaws

  datatype Event =
    | CallTransition(name: string, id: string, payload: Payload, scope: Option<string>, now: int, wall: int)
    | CallCreate(document: Document, scope: Option<string>)
    | CallUpdate(id: string, document: Document, scope: Option<string>)
    | CallHold(id: string, hold: bool)

  /** What a call did to a tenant's life: started a new incarnation, moved it through a
      transition (with the hold and the retention end of that moment), or neither. */
  datatype Fact = Onboarded(id: string) | Moved(id: string, name: string, from: string, at: int, end: int, hold: bool) | Quiet

  function Or(w: World, r: Result<World, ErrorCode>): World {
    match r case Ok(v) => v case Err(_) => w
  }

  function Step(plane: Plane, w: World, e: Event): World {
    match e
    case CallTransition(name, id, payload, scope, now, wall) => Transition(plane, w, name, id, payload, scope, now, wall).0
    case CallCreate(document, scope) => Or(w, Create(plane, w, document, scope))
    case CallUpdate(id, document, scope) => Or(w, Update(plane, w, id, document, scope))
    case CallHold(id, hold) => Or(w, SetHold(plane, w, id, hold))
  }

  function FactOf(plane: Plane, w: World, e: Event): Fact {
    match e
    case CallTransition(name, id, payload, scope, now, wall) =>
      if Applies(plane, w, name, id, payload, scope, now, wall) && id in w.tenants then
        var tenant := w.tenants[id];
        Moved(id, name, tenant.document.state, now, RetentionEnd(tenant.document, now), tenant.hold)
      else Quiet
    case CallCreate(document, scope) => if Create(plane, w, document, scope).Ok? then Onboarded(document.tenantId) else Quiet
    case _ => Quiet
  }

  function Run(plane: Plane, events: seq<Event>): (World, seq<Fact>) {
    if events == [] then (EMPTY, [])
    else
      var last := events[|events| - 1];
      var (w, facts) := Run(plane, events[..|events| - 1]);
      (Step(plane, w, last), facts + [FactOf(plane, w, last)])
  }

  // ----- what one step does -------------------------------------------------------------------

  /** The recorded retention end has passed and nothing holds the tenant. */
  ghost predicate PurgeReady(w: World, id: string, now: int) {
    && (id, "offboard") in w.completed && w.completed[(id, "offboard")].end.Some?
    && w.completed[(id, "offboard")].end.value * 1_000_000 <= now
    && id in w.tenants && !w.tenants[id].hold
  }

  /** The tenant moved along the named transition, and its completion was recorded. */
  ghost predicate MovedBy(plane: Plane, w: World, v: World, name: string, id: string, now: int) {
    && id in w.tenants && name in plane.machine.specs && w.tenants[id].document.state in plane.machine.specs[name].from
    && v.tenants == w.tenants[id := w.tenants[id].(document := w.tenants[id].document.(state := plane.machine.specs[name].to))]
    && (id, name) in v.completed && v.completed == w.completed[(id, name) := v.completed[(id, name)]]
    && v.completed[(id, name)].end == (if name == "offboard" then Some(RetentionEnd(w.tenants[id].document, now)) else None)
    && (name == "purge" ==> PurgeReady(w, id, now) && v.completed[(id, name)].purged.Some?)
  }

  /** How a transition call changes the store, told by its fact. */
  lemma TransitionStep(plane: Plane, w: World, name: string, id: string, payload: Payload, scope: Option<string>, now: int, wall: int)
    requires plane.machine.WellFormed()
    ensures var v := Transition(plane, w, name, id, payload, scope, now, wall).0;
            if Applies(plane, w, name, id, payload, scope, now, wall) then MovedBy(plane, w, v, name, id, now)
            else v.tenants == w.tenants && v.completed == w.completed
  {
    hide Inner, Applies;
    if plane.validId(id) {
      InnerStep(plane, w, name, id, payload, scope, now, wall);
    } else {
      assert !Applies(plane, w, name, id, payload, scope, now, wall) by {
        BadIdNeverApplies(plane, w, name, id, payload, scope, now, wall);
      }
    }
  }

  lemma BadIdNeverApplies(plane: Plane, w: World, name: string, id: string, payload: Payload, scope: Option<string>, now: int, wall: int)
    requires !plane.validId(id)
    ensures !Applies(plane, w, name, id, payload, scope, now, wall)
  {
    hide Admit, PreconditionFails;
  }

  lemma InnerStep(plane: Plane, w: World, name: string, id: string, payload: Payload, scope: Option<string>, now: int, wall: int)
    requires plane.machine.WellFormed() && plane.validId(id)
    ensures var (v, outcome) := Inner(plane, w, name, id, payload, scope, now, wall);
            if Applies(plane, w, name, id, payload, scope, now, wall) then MovedBy(plane, w, v, name, id, now) && !outcome.DidDeny?
            else v.tenants == w.tenants && v.completed == w.completed
  {
    hide Admit, RetentionEnd, PreconditionFails, PurgeReady, Apply, Replay;
    if Admit(plane, w, name, id, payload, scope, wall).Ok? {
      AdmitFacts(plane, w, name, id, payload, scope, wall);
      var a := Admit(plane, w, name, id, payload, scope, wall).value;
      ApplyMoves(w, a.spec, id, a.tenant, a.request, a.approved, now);
      if (id, name) in w.completed {
        ReplayMovesNothing(w, a.spec, id, a.request, a.approved, w.completed[(id, name)], now);
      }
      if name == "purge" && !PreconditionFails(w, a.spec, id, w.tenants[id], now) {
        PurgeNotFailing(w, a.spec, id, now);
      }
    }
  }

  lemma ReplayMovesNothing(w: World, spec: Spec, id: string, request: Request, approved: Option<Approved>, completed: Completed, now: int)
    ensures var (v, outcome) := Replay(w, spec, id, request, approved, completed, now);
            v.tenants == w.tenants && v.completed == w.completed && !outcome.DidApply? && !outcome.DidDeny?
  {
    hide Attested;
    AttestedKeeps(w, spec, id, request, approved, completed, now, true);
  }

  lemma ApplyMoves(w: World, spec: Spec, id: string, tenant: Tenant, request: Request, approved: Option<Approved>, now: int)
    ensures var (v, outcome) := Apply(w, spec, id, tenant, request, approved, now);
            && v.tenants == w.tenants[id := tenant.(document := tenant.document.(state := spec.to))]
            && (id, spec.name) in v.completed && v.completed == w.completed[(id, spec.name) := v.completed[(id, spec.name)]]
            && v.completed[(id, spec.name)].end == (if spec.name == "offboard" then Some(RetentionEnd(tenant.document, now)) else None)
            && (spec.name == "purge" ==> v.completed[(id, spec.name)].purged.Some?)
            && (outcome.DidApply? || outcome.Crashed?)
  {
    hide RetentionEnd, Attested;
    var record := CompletedNow(spec, tenant.document, request, approved, now);
    AttestedKeeps(Saved(w, spec, id, tenant, record), spec, id, request, approved, record, now, false);
  }

  lemma PurgeNotFailing(w: World, spec: Spec, id: string, now: int)
    requires spec.name == "purge" && id in w.tenants && !PreconditionFails(w, spec, id, w.tenants[id], now)
    ensures PurgeReady(w, id, now)
  {
  }

  // ----- the retention end of an incarnation ------------------------------------------------------

  /** The retention end of the last offboarding of the tenant's present incarnation. */
  function OffboardEnd(facts: seq<Fact>, id: string): Option<int> {
    if facts == [] then None
    else
      match facts[|facts| - 1]
      case Onboarded(t) => if t == id then None else OffboardEnd(facts[..|facts| - 1], id)
      case Moved(t, name, _, _, end, _) => if t == id && name == "offboard" then Some(end) else OffboardEnd(facts[..|facts| - 1], id)
      case Quiet => OffboardEnd(facts[..|facts| - 1], id)
  }

  /** The offboarding record of every tenant is what its incarnation's history says, and
      only tenants have records. */
  ghost predicate Told(w: World, facts: seq<Fact>) {
    && (forall id :: ((id, "offboard") in w.completed) == OffboardEnd(facts, id).Some?)
    && (forall id :: (id, "offboard") in w.completed ==> w.completed[(id, "offboard")].end == OffboardEnd(facts, id))
    && (forall id :: (id, "purge") in w.completed ==> w.completed[(id, "purge")].purged.Some?)
    && (forall k :: k in w.completed ==> k.0 in w.tenants)
  }

  lemma OffboardEndStep(facts: seq<Fact>, fact: Fact, id: string)
    ensures OffboardEnd(facts + [fact], id) ==
            if fact == Onboarded(id) then None
            else if fact.Moved? && fact.id == id && fact.name == "offboard" then Some(fact.end)
            else OffboardEnd(facts, id)
  {
    assert (facts + [fact])[..|facts|] == facts;
  }

  lemma CreateTold(plane: Plane, w: World, facts: seq<Fact>, document: Document, scope: Option<string>)
    requires Told(w, facts) && Create(plane, w, document, scope).Ok?
    ensures Told(Create(plane, w, document, scope).value, facts + [Onboarded(document.tenantId)])
  {
    hide OffboardEnd;
    var v := Create(plane, w, document, scope).value;
    var fact := Onboarded(document.tenantId);
    forall id ensures ((id, "offboard") in v.completed) == OffboardEnd(facts + [fact], id).Some? {
      OffboardEndStep(facts, fact, id);
    }
    forall id | (id, "offboard") in v.completed ensures v.completed[(id, "offboard")].end == OffboardEnd(facts + [fact], id) {
      OffboardEndStep(facts, fact, id);
    }
  }

  lemma MovedTold(w: World, v: World, facts: seq<Fact>, fact: Fact, c: Completed)
    requires Told(w, facts) && fact.Moved? && fact.id in w.tenants
    requires v.tenants.Keys == w.tenants.Keys && v.completed == w.completed[(fact.id, fact.name) := c]
    requires (fact.name == "offboard" ==> c.end == Some(fact.end)) && (fact.name == "purge" ==> c.purged.Some?)
    ensures Told(v, facts + [fact])
  {
    hide OffboardEnd;
    forall id ensures OffboardEnd(facts + [fact], id) == if fact.id == id && fact.name == "offboard" then Some(fact.end) else OffboardEnd(facts, id) {
      OffboardEndStep(facts, fact, id);
    }
    forall id ensures ((id, "offboard") in v.completed) == OffboardEnd(facts + [fact], id).Some? {
      assert (id, "offboard") == (fact.id, fact.name) <==> id == fact.id && fact.name == "offboard";
    }
    forall id | (id, "offboard") in v.completed ensures v.completed[(id, "offboard")].end == OffboardEnd(facts + [fact], id) {
      assert (id, "offboard") == (fact.id, fact.name) <==> id == fact.id && fact.name == "offboard";
    }
  }

  lemma QuietTold(w: World, v: World, facts: seq<Fact>)
    requires Told(w, facts) && v.completed == w.completed && v.tenants.Keys == w.tenants.Keys
    ensures Told(v, facts + [Quiet])
  {
    hide OffboardEnd;
    forall id ensures OffboardEnd(facts + [Quiet], id) == OffboardEnd(facts, id) {
      OffboardEndStep(facts, Quiet, id);
    }
  }

  lemma StepTold(plane: Plane, w: World, facts: seq<Fact>, e: Event)
    requires plane.machine.WellFormed() && Told(w, facts)
    ensures Told(Step(plane, w, e), facts + [FactOf(plane, w, e)])
  {
    hide Told, Transition, Applies, RetentionEnd;
    var v := Step(plane, w, e);
    var fact := FactOf(plane, w, e);
    match e {
      case CallTransition(name, id, payload, scope, now, wall) =>
        TransitionStep(plane, w, name, id, payload, scope, now, wall);
        if fact.Moved? {
          MovedTold(w, v, facts, fact, v.completed[(id, name)]);
        } else {
          QuietTold(w, v, facts);
        }
      case CallCreate(document, scope) =>
        if fact.Onboarded? {
          CreateTold(plane, w, facts, document, scope);
        } else {
          QuietTold(w, v, facts);
        }
      case CallUpdate(_, _, _) => QuietTold(w, v, facts);
      case CallHold(_, _) => QuietTold(w, v, facts);
    }
  }

  lemma {:induction false} RunTold(plane: Plane, events: seq<Event>)
    requires plane.machine.WellFormed()
    ensures Told(Run(plane, events).0, Run(plane, events).1) && |Run(plane, events).1| == |events|
  {
    hide Step, FactOf;
    if events == [] {
      assert Told(EMPTY, []);
    } else {
      var n := |events| - 1;
      RunTold(plane, events[..n]);
      hide Told;
      var (w, facts) := Run(plane, events[..n]);
      StepTold(plane, w, facts, events[n]);
    }
  }

  /** An offboarding of the same incarnation lies behind a retention end. */
  lemma {:induction false} OffboardBefore(facts: seq<Fact>, id: string)
    requires OffboardEnd(facts, id).Some?
    ensures exists j :: 0 <= j < |facts| && IsOffboard(facts, j, id) && facts[j].end == OffboardEnd(facts, id).value
  {
    var n := |facts| - 1;
    var last := facts[n];
    if last.Moved? && last.id == id && last.name == "offboard" {
      assert IsOffboard(facts, n, id);
    } else {
      OffboardBefore(facts[..n], id);
      var j :| 0 <= j < n && IsOffboard(facts[..n], j, id) && facts[..n][j].end == OffboardEnd(facts[..n], id).value;
      assert forall i :: 0 <= i < n ==> facts[..n][i] == facts[i];
      assert IsOffboard(facts, j, id);
    }
  }

  /** The j-th call offboarded the tenant, and no later one started a new incarnation
      of it or offboarded it again. */
  ghost predicate IsOffboard(facts: seq<Fact>, j: int, id: string)
    requires 0 <= j < |facts|
  {
    && facts[j].Moved? && facts[j].id == id && facts[j].name == "offboard"
    && forall i :: j < i < |facts| ==> facts[i] != Onboarded(id) && !(facts[i].Moved? && facts[i].id == id && facts[i].name == "offboard")
  }

  /** Purge safety: a purge that is applied, in any run and any incarnation of the id,
      follows an applied offboarding of the same incarnation whose recorded retention end
      has passed, and no legal hold is set. */
  lemma PurgeSafety(plane: Plane, events: seq<Event>, e: Event)
    requires plane.machine.WellFormed()
    requires var (w, facts) := Run(plane, events); FactOf(plane, w, e).Moved? && FactOf(plane, w, e).name == "purge"
    ensures var (w, facts) := Run(plane, events);
            var purge := FactOf(plane, w, e);
            && !purge.hold
            && exists j :: 0 <= j < |facts| && IsOffboard(facts, j, purge.id) && facts[j].end * 1_000_000 <= purge.at
  {
    hide Run, Applies, RetentionEnd, IsOffboard;
    RunTold(plane, events);
    var (w, facts) := Run(plane, events);
    TransitionStep(plane, w, e.name, e.id, e.payload, e.scope, e.now, e.wall);
    OffboardBefore(facts, e.id);
  }

  /** The recorded end is the offboarding instant plus the longest of the three
      retentions the document then had, cut down by less than a second. */
  lemma RetentionEndMeans(d: Document, now: int)
    ensures var exact := now + RetentionDays(d) * 86_400_000_000;
            && RetentionEnd(d, now) * 1_000_000 <= exact < RetentionEnd(d, now) * 1_000_000 + 1_000_000
            && (RetentionEnd(d, now) * 1_000_000 == exact <==> now % 1_000_000 == 0)
    ensures RetentionDays(d) >= d.logsDays && RetentionDays(d) >= d.metricsDays && RetentionDays(d) >= d.tracesDays
    ensures RetentionDays(d) == d.logsDays || RetentionDays(d) == d.metricsDays || RetentionDays(d) == d.tracesDays
  {
  }

  /** An offboarding at half past the second: the recorded end is half a second early. */
  lemma RetentionEndCut(d: Document)
    ensures var now := 1_000_000 / 2;
            RetentionEnd(d, now) * 1_000_000 == now + RetentionDays(d) * 86_400_000_000 - 1_000_000 / 2
  {
    var days := RetentionDays(d);
    hide RetentionDays;
    assert (500_000 + days * 86_400_000_000) / 1_000_000 == days * 86_400;
  }

  /** A lifecycle state changes only by an applied transition, from a state it starts
      from to the state it leads to, or by onboarding a new document over a terminal one. */
  lemma StateChanges(plane: Plane, w: World, e: Event, id: string)
    requires plane.machine.WellFormed() && id in w.tenants
    ensures var v := Step(plane, w, e);
            && id in v.tenants
            && (v.tenants[id].document.state != w.tenants[id].document.state ==>
                  match FactOf(plane, w, e)
                  case Moved(t, name, from, _, _, _) =>
                    t == id && name in plane.machine.specs && from == w.tenants[id].document.state
                    && from in plane.machine.specs[name].from && v.tenants[id].document.state == plane.machine.specs[name].to
                  case Onboarded(t) =>
                    t == id && w.tenants[id].document.state in plane.machine.terminal && v.tenants[id].document.state == plane.machine.initial
                  case Quiet => false)
  {
    hide Transition, Applies, RetentionEnd;
    if e.CallTransition? {
      TransitionStep(plane, w, e.name, e.id, e.payload, e.scope, e.now, e.wall);
    }
  }

  // ----- the audit trail is complete --------------------------------------------------------------------

  /** Calls whose attempt must be audited. */
  function Attempts(plane: Plane, events: seq<Event>): nat {
    if events == [] then 0
    else
      var last := events[|events| - 1];
      Attempts(plane, events[..|events| - 1]) + if last.CallTransition? && plane.validId(last.id) && last.name != "" then 1 else 0
  }

  lemma ToldEnds(w: World, facts: seq<Fact>)
    requires Told(w, facts)
    ensures EndsRecorded(w)
  {
  }

  /** With a machine that can be audited, the trail of a run holds exactly one record for
      each attempted transition, numbered from one without gaps. */
  lemma {:induction false} AuditComplete(plane: Plane, events: seq<Event>)
    requires plane.machine.WellFormed() && AuditableMachine(plane.machine) && !plane.validId("")
    requires forall e :: e in events && e.CallTransition? ==> e.name != ""
    ensures Numbered(Run(plane, events).0) && |Run(plane, events).0.audit| == Attempts(plane, events)
  {
    hide AuditableMachine, EndsRecorded, Told, Transition, FactOf, Numbered;
    if events == [] {
      assert Numbered(EMPTY) by {
        NothingNumbered();
      }
    } else {
      var n := |events| - 1;
      var e := events[n];
      AuditComplete(plane, events[..n]);
      RunTold(plane, events[..n]);
      var (w, facts) := Run(plane, events[..n]);
      ToldEnds(w, facts);
      assert e in events;
      StepAudits(plane, w, e);
    }
  }

  lemma NothingNumbered()
    ensures Numbered(EMPTY)
  {
  }

  lemma StepAudits(plane: Plane, w: World, e: Event)
    requires plane.machine.WellFormed() && AuditableMachine(plane.machine) && EndsRecorded(w) && Numbered(w) && !plane.validId("")
    requires e.CallTransition? ==> e.name != ""
    ensures Numbered(Step(plane, w, e))
    ensures |Step(plane, w, e).audit| == |w.audit| + if e.CallTransition? && plane.validId(e.id) then 1 else 0
  {
    hide AuditableMachine, EndsRecorded, Inner, Emit, Tells, OnlyTenant;
    if e.CallTransition? && plane.validId(e.id) {
      NeverUnaudited(plane, w, e.name, e.id, e.payload, e.scope, e.now, e.wall);
      OneAuditPerCall(plane, w, e.name, e.id, e.payload, e.scope, e.now, e.wall);
    }
  }

  // ----- replaying --------------------------------------------------------------------------------------------

  /** A transition that was applied is a replay when it is called again: it is audited as
      one and changes nothing else, at any later time at which its approval still holds. */
  lemma AppliedThenReplayed(plane: Plane, w: World, name: string, id: string, payload: Payload, scope: Option<string>, now: int, wall: int,
                            later: int, laterWall: int)
    requires plane.machine.WellFormed() && !plane.validId("") && Numbered(w)
    requires Transition(plane, w, name, id, payload, scope, now, wall).1 == CallResult.Result(DidApply)
    requires Admit(plane, Transition(plane, w, name, id, payload, scope, now, wall).0, name, id, payload, scope, laterWall).Ok?
    ensures var v := Transition(plane, w, name, id, payload, scope, now, wall).0;
            var (u, result) := Transition(plane, v, name, id, payload, scope, later, laterWall);
            && result == CallResult.Result(DidReplay)
            && u.tenants == v.tenants && u.completed == v.completed && OneMore(v.audit, u.audit)
  {
    hide Admit, Inner, CanRecord, PurgeReady, Applies, Replays, RetentionEnd, Tells, OnlyTenant, Numbered, OneMore;
    var v := Transition(plane, w, name, id, payload, scope, now, wall).0;
    AppliedApplies(plane, w, name, id, payload, scope, now, wall);
    UnauditedIff(plane, w, name, id, payload, scope, now, wall);
    TransitionStep(plane, w, name, id, payload, scope, now, wall);
    NowReplays(plane, v, name, id, payload, scope, laterWall);
    UnauditedIff(plane, v, name, id, payload, scope, later, laterWall);
    CompletedRecords(plane.machine.specs[name], v.completed[(id, name)]);
    OneAuditPerCall(plane, w, name, id, payload, scope, now, wall);
    OneAuditPerCall(plane, v, name, id, payload, scope, later, laterWall);
    ReplaysReplay(plane, v, name, id, payload, scope, later, laterWall);
  }

  lemma AppliedApplies(plane: Plane, w: World, name: string, id: string, payload: Payload, scope: Option<string>, now: int, wall: int)
    requires Transition(plane, w, name, id, payload, scope, now, wall).1 == CallResult.Result(DidApply)
    ensures Applies(plane, w, name, id, payload, scope, now, wall)
  {
    hide Admit, Attested, PreconditionFails, CompletedNow, Emit;
  }

  lemma NowReplays(plane: Plane, v: World, name: string, id: string, payload: Payload, scope: Option<string>, wall: int)
    requires plane.machine.WellFormed() && plane.validId(id) && Admit(plane, v, name, id, payload, scope, wall).Ok?
    requires name in plane.machine.specs && id in v.tenants && v.tenants[id].document.state == plane.machine.specs[name].to
    requires (id, name) in v.completed
    ensures Replays(plane, v, name, id, payload, scope, wall)
  {
    hide Admit;
    AdmitFacts(plane, v, name, id, payload, scope, wall);
  }

  lemma CompletedRecords(spec: Spec, completed: Completed)
    requires CanRecord(spec, None)
    requires (spec.name == "offboard" ==> completed.end.Some?) && (spec.name == "purge" ==> completed.purged.Some?)
    ensures CanRecord(spec, Some(completed))
  {
    hide ExtraFields, BASE_FIELDS;
  }

  lemma ReplaysReplay(plane: Plane, w: World, name: string, id: string, payload: Payload, scope: Option<string>, now: int, wall: int)
    requires Replays(plane, w, name, id, payload, scope, wall)
    ensures Transition(plane, w, name, id, payload, scope, now, wall).1 in {CallResult.Result(DidReplay), CallResult.Result(Crashed)}
  {
    hide Admit, Attested, PreconditionFails, Emit;
  }
}
