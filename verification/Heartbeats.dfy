/** Service health in the tool gateway (airuntime: gateway.py, heartbeat_once). */
module Heartbeats {

  const THRESHOLD := 3

  datatype Health = Health(healthy: bool, missed: nat, registered: bool)

  const STARTED := Health(true, 0, true)

  datatype Event = Recovered | MarkedUnhealthy

  /** One probe of one service. */
  function Beat(h: Health, answered: bool): (Health, seq<Event>) {
    if answered then (Health(true, 0, true), if h.registered then [] else [Recovered])
    else if h.missed + 1 >= THRESHOLD && h.healthy then (Health(false, h.missed + 1, false), [MarkedUnhealthy])
    else (h.(missed := h.missed + 1), [])
  }

  /** A service that has been probed with these answers since the start, and its audit events. */
  function Probed(answers: seq<bool>): (Health, seq<Event>) {
    if answers == [] then (STARTED, [])
    else
      var (h, events) := Probed(answers[..|answers| - 1]);
      var (next, more) := Beat(h, answers[|answers| - 1]);
      (next, events + more)
  }

  /** How many of the latest probes went unanswered in a row. */
  function Misses(answers: seq<bool>): (n: nat)
    ensures n <= |answers|
    ensures forall i :: |answers| - n <= i < |answers| ==> !answers[i]
    ensures n < |answers| ==> answers[|answers| - n - 1]
  {
    if answers == [] || answers[|answers| - 1] then 0 else Misses(answers[..|answers| - 1]) + 1
  }

  /** After any probes a service is registered exactly while it is healthy, and it is healthy
      exactly while fewer than three probes in a row have gone unanswered. */
  lemma {:induction false} HealthIsRecent(answers: seq<bool>)
    ensures var h := Probed(answers).0;
            && h.missed == Misses(answers)
            && h.registered == h.healthy
            && (h.healthy <==> Misses(answers) < 3)
  {
    if answers != [] {
      HealthIsRecent(answers[..|answers| - 1]);
    }
  }

  /** Outages: a mark and then a recovery, again and again. */
  predicate Alternates(events: seq<Event>) {
    forall i :: 0 <= i < |events| ==> events[i] == if i % 2 == 0 then MarkedUnhealthy else Recovered
  }

  /** The audit trail alternates, starts with an outage, and ends inside one exactly when
      the service is unhealthy: no transition goes unaudited and none is audited twice. */
  lemma {:induction false} EventsAlternate(answers: seq<bool>)
    ensures var (h, events) := Probed(answers);
            Alternates(events) && (h.healthy <==> |events| % 2 == 0)
  {
    if answers != [] {
      EventsAlternate(answers[..|answers| - 1]);
      HealthIsRecent(answers[..|answers| - 1]);
    }
  }

  /** Outages begun: probes that were the third miss in a row. */
  function Outages(answers: seq<bool>): nat {
    if answers == [] then 0
    else Outages(answers[..|answers| - 1]) + if Misses(answers) == 3 then 1 else 0
  }

  /** There is one mark per run of at least three misses, however long it lasts. */
  lemma {:induction false} OneMarkPerOutage(answers: seq<bool>)
    ensures var events := Probed(answers).1;
            Outages(answers) == (|events| + 1) / 2
  {
    if answers != [] {
      var early := answers[..|answers| - 1];
      OneMarkPerOutage(early);
      EventsAlternate(early);
      HealthIsRecent(early);
    }
  }

  // ----- the registry ------------------------------------------------------------------------------

  /** What the services' probes add to the journal, in registry order. */
  function Entries(services: seq<string>, before: map<string, Health>, answered: string -> bool): seq<(string, Event)>
    requires forall s :: s in services ==> s in before
  {
    if services == [] then []
    else
      var last := services[|services| - 1];
      Entries(services[..|services| - 1], before, answered) + Tagged(last, Beat(before[last], answered(last)).1)
  }

  lemma NothingMoved(before: map<string, Health>, answered: string -> bool)
    ensures Moved([], before, answered) == before && Entries([], before, answered) == []
  {
  }

  /** The registry after the probes of some services. */
  function Moved(services: seq<string>, before: map<string, Health>, answered: string -> bool): map<string, Health>
    requires forall s :: s in services ==> s in before
  {
    if services == [] then before
    else
      var last := services[|services| - 1];
      Moved(services[..|services| - 1], before, answered)[last := Beat(before[last], answered(last)).0]
  }

  lemma {:induction false} MovedAt(services: seq<string>, before: map<string, Health>, answered: string -> bool, s: string)
    requires forall t :: t in services ==> t in before
    ensures Moved(services, before, answered).Keys == before.Keys
    ensures s in before ==> Moved(services, before, answered)[s] == if s in services then Beat(before[s], answered(s)).0 else before[s]
  {
    hide Beat;
    if services != [] {
      var early := services[..|services| - 1];
      assert services == early + [services[|services| - 1]];
      MovedAt(early, before, answered, s);
    }
  }

  lemma ProbeNext(services: seq<string>, i: nat, before: map<string, Health>, answered: string -> bool)
    requires i < |services| && (forall s :: s in services ==> s in before)
    requires forall k, l :: 0 <= k < l < |services| ==> services[k] != services[l]
    ensures Moved(services[..i], before, answered).Keys == before.Keys
    ensures Moved(services[..i], before, answered)[services[i]] == before[services[i]]
    ensures Moved(services[..i + 1], before, answered)
         == Moved(services[..i], before, answered)[services[i] := Beat(before[services[i]], answered(services[i])).0]
    ensures Entries(services[..i + 1], before, answered)
         == Entries(services[..i], before, answered) + Tagged(services[i], Beat(before[services[i]], answered(services[i])).1)
  {
    hide Beat, Tagged;
    assert services[i] in services && services[i] !in services[..i];
    MovedAt(services[..i], before, answered, services[i]);
    assert services[..i + 1][..i] == services[..i];
  }

  function Tagged(service: string, events: seq<Event>): seq<(string, Event)> {
    if events == [] then [] else [(service, events[0])] + Tagged(service, events[1..])
  }

  class Gateway {
    const services: seq<string>
    var registry: map<string, Health>
    var journal: seq<(string, Event)>

    ghost predicate Valid()
      reads this
    {
      && (forall s :: s in services <==> s in registry)
      && forall i, j :: 0 <= i < j < |services| ==> services[i] != services[j]
    }

    constructor (catalog: seq<string>)
      requires forall i, j :: 0 <= i < j < |catalog| ==> catalog[i] != catalog[j]
      ensures Valid() && services == catalog && journal == [] && forall s :: s in catalog ==> registry[s] == STARTED
    {
      services := catalog;
      registry := map s | s in catalog :: STARTED;
      journal := [];
    }

    /** The outcome of one service's probe. */
    method Record(service: string, answered: bool)
      requires Valid() && service in services
      modifies this
      ensures Valid() && registry == old(registry)[service := Beat(old(registry)[service], answered).0]
      ensures journal == old(journal) + Tagged(service, Beat(old(registry)[service], answered).1)
    {
      var entry := registry[service];
      if answered {
        if !entry.registered {
          journal := journal + [(service, Recovered)];
        }
        registry := registry[service := Health(true, 0, true)];
      } else {
        entry := entry.(missed := entry.missed + 1);
        if entry.missed >= THRESHOLD && entry.healthy {
          entry := entry.(healthy := false, registered := false);
          journal := journal + [(service, MarkedUnhealthy)];
        }
        registry := registry[service := entry];
      }
    }

    /** One round: every service is probed once and moves on its own. */
    method HeartbeatOnce(answered: string -> bool)
      requires Valid()
      modifies this
      ensures Valid()
      ensures forall s :: s in services ==> registry[s] == Beat(old(registry)[s], answered(s)).0
      ensures journal == old(journal) + Entries(services, old(registry), answered)
    {
      hide Beat, Tagged, Moved, Entries;
      ghost var before := registry;
      assert services[..0] == [];
      NothingMoved(before, answered);
      var i := 0;
      while i < |services|
        invariant i <= |services| && Valid()
        invariant registry == Moved(services[..i], before, answered)
        invariant journal == old(journal) + Entries(services[..i], before, answered)
      {
        var service := services[i];
        ProbeNext(services, i, before, answered);
        Record(service, answered(service));
        i := i + 1;
      }
      assert services[..i] == services;
      forall s | s in services ensures registry[s] == Beat(before[s], answered(s)).0 {
        MovedAt(services, before, answered, s);
      }
    }
  }
}
