/** The trigger dispatcher's dedupe and burst state machine (khook.py). Clock readings
    are exact reals supplied by the caller. */
module Trigger {
  import opened Results

  const DEDUPE_WINDOW: real := 300.0
  const BURST_WINDOW: real := 60.0
  const BURST_MAX := 10

  // ----- events --------------------------------------------------------------------

  /** The members of a Kubernetes event the dispatcher reads; `None` stands for a
      missing or null member. An absent message reads as the empty string. */
  datatype RawEvent = RawEvent(
    uid: Option<string>,
    kind: Option<string>,
    reason: Option<string>,
    name: Option<string>,
    objectNamespace: Option<string>,
    namespace: Option<string>,
    lastTimestamp: Option<string>,
    eventTime: Option<string>,
    creationTimestamp: Option<string>,
    message: Option<string>)

  datatype Hook = Hook(id: string, kind: string, reason: string, severity: string)

  const HOOKS: seq<Hook> := [
    Hook("pod-restart", "Pod", "Restarted", "high"),
    Hook("oom-kill", "Pod", "OOMKilled", "critical"),
    Hook("probe-failed", "Pod", "Unhealthy", "medium"),
    Hook("pod-pending", "Pod", "FailedScheduling", "medium"),
    Hook("node-not-ready", "Node", "NodeNotReady", "critical")]

  function FindHook(hooks: seq<Hook>, event: RawEvent): Option<Hook> {
    if hooks == [] then None
    else if event.kind == Some(hooks[0].kind) && event.reason == Some(hooks[0].reason) then Some(hooks[0])
    else FindHook(hooks[1..], event)
  }

  /** `match_hook`. */
  function MatchHook(event: RawEvent): Option<Hook> {
    FindHook(HOOKS, event)
  }

  predicate Present(s: Option<string>) {
    s.Some? && s.value != ""
  }

  /** Python's `a or b`. */
  function Or(a: Option<string>, b: Option<string>): Option<string> {
    if Present(a) then a else b
  }

  datatype Event = Event(
    id: string, timestamp: string, cluster: string, namespace: string, kind: string, name: string, reason: string, message: string)

  datatype Config = Config(cluster: string, sha: string -> string)

  /** `normalize_event`, for an event with a uid: `None` when a field is missing. */
  function Normalize(config: Config, raw: RawEvent): Option<Event>
    requires Present(raw.uid)
  {
    var timestamp := Or(raw.lastTimestamp, Or(raw.eventTime, raw.creationTimestamp));
    var namespace := Or(raw.objectNamespace, Or(raw.namespace, Some("")));
    if timestamp.None? || raw.kind.None? || raw.name.None? || raw.reason.None? || raw.message.None? then None
    else
      Some(Event(raw.uid.value, timestamp.value, config.cluster, namespace.value, raw.kind.value, raw.name.value, raw.reason.value,
                 raw.message.value))
  }

  /** `correlation_key`. */
  function CorrelationKey(config: Config, e: Event): string {
    config.sha(e.cluster + "|" + e.namespace + "|" + e.kind + "|" + e.name + "|" + e.reason)
  }

  /** `_dedupe_key`. */
  function DedupeKey(config: Config, e: Event): string {
    CorrelationKey(config, e) + "|" + e.reason + "|" + e.kind + "|" + e.name
  }

  /** A matched, well-formed event. */
  datatype Sighting = Sighting(hook: Hook, event: Event, key: string)

  function Sight(config: Config, raw: RawEvent): Option<Sighting>
    requires Present(raw.uid)
  {
    if MatchHook(raw).None? || Normalize(config, raw).None? then None
    else
      var event := Normalize(config, raw).value;
      Some(Sighting(MatchHook(raw).value, event, DedupeKey(config, event)))
  }

  // ----- the state ---------------------------------------------------------------------

  /** When an event was processed, and the timestamp it carried. */
  datatype Stamp = Stamp(at: real, tag: string)

  datatype Counters = Counters(
    polled: nat, matched: nat, ignored: nat, duplicates: nat, dispatched: nat, deduped: nat, summaries: nat, suppressed: nat)

  datatype State = State(
    seen: set<string>,
    lastDispatch: map<string, real>,
    window: map<string, seq<Stamp>>,
    lastBurst: map<string, real>,
    counters: Counters)

  const START: State := State({}, map[], map[], map[], Counters(0, 0, 0, 0, 0, 0, 0, 0))

  datatype Burst = Burst(suppressed: int, first: string, last: string)

  datatype Envelope = Envelope(correlationId: string, hook: string, severity: string, event: Event, burst: Option<Burst>)

  datatype Outcome = Raised | Silent | Sent(envelope: Envelope)

  /** What happened to one polled event. */
  datatype Decision = NoUid | Duplicate | Ignored | Malformed | Suppressed | Summary | Deduped | Dispatched

  function Recent(stamps: seq<Stamp>, now: real): seq<Stamp> {
    if stamps == [] then []
    else if stamps[0].at > now - BURST_WINDOW then [stamps[0]] + Recent(stamps[1..], now)
    else Recent(stamps[1..], now)
  }

  /** The pruned window of a key with the event at hand appended. */
  function WindowAt(s: State, sighting: Sighting, now: real): seq<Stamp> {
    Recent(if sighting.key in s.window then s.window[sighting.key] else [], now) + [Stamp(now, sighting.event.timestamp)]
  }

  function DecideSighted(s: State, sighting: Sighting, now: real): Decision {
    if |WindowAt(s, sighting, now)| > BURST_MAX then
      if sighting.key in s.lastBurst && now - s.lastBurst[sighting.key] < BURST_WINDOW then Suppressed else Summary
    else if sighting.key in s.lastDispatch && now - s.lastDispatch[sighting.key] < DEDUPE_WINDOW then Deduped
    else Dispatched
  }

  function Decide(config: Config, s: State, raw: RawEvent, now: real): Decision {
    if !Present(raw.uid) then NoUid
    else if raw.uid.value in s.seen then Duplicate
    else if MatchHook(raw).None? then Ignored
    else if Sight(config, raw).None? then Malformed
    else DecideSighted(s, Sight(config, raw).value, now)
  }

  /** A matched, well-formed event: the window moves on, and an envelope goes out for a
      first sighting or a summary. */
  function Sighted(config: Config, s: State, sighting: Sighting, now: real): (State, Outcome) {
    var key := sighting.key;
    var window := WindowAt(s, sighting, now);
    var noted := s.(window := s.window[key := window]);
    var c := s.counters;
    var decision := DecideSighted(s, sighting, now);
    if decision.Suppressed? then (noted.(counters := c.(suppressed := c.suppressed + 1)), Silent)
    else if decision.Deduped? then (noted.(counters := c.(deduped := c.deduped + 1)), Silent)
    else if decision.Summary? then
      (noted.(lastBurst := s.lastBurst[key := now], lastDispatch := s.lastDispatch[key := now],
              counters := c.(summaries := c.summaries + 1)),
       Sent(EnvelopeFor(config, sighting, Some(Burst(|window| - 1, window[0].tag, window[|window| - 1].tag)))))
    else
      (noted.(lastDispatch := s.lastDispatch[key := now], counters := c.(dispatched := c.dispatched + 1)),
       Sent(EnvelopeFor(config, sighting, None)))
  }

  /** `build_dispatch`. */
  function EnvelopeFor(config: Config, sighting: Sighting, burst: Option<Burst>): Envelope {
    Envelope(CorrelationKey(config, sighting.event), sighting.hook.id, sighting.hook.severity, sighting.event, burst)
  }

  /** The state and the result of `EventProcessor.process`. */
  function Processed(config: Config, s: State, raw: RawEvent, now: real): (State, Outcome) {
    var c := s.counters.(polled := s.counters.polled + 1);
    if !Present(raw.uid) then (s.(counters := c), Raised)
    else if raw.uid.value in s.seen then (s.(counters := c.(duplicates := c.duplicates + 1)), Silent)
    else
      var noted := s.(seen := s.seen + {raw.uid.value});
      var matched := c.(matched := c.matched + 1);
      if MatchHook(raw).None? then (noted.(counters := c.(ignored := c.ignored + 1)), Silent)
      else if Sight(config, raw).None? then (noted.(counters := matched), Raised)
      else Sighted(config, noted.(counters := matched), Sight(config, raw).value, now)
  }

  class EventProcessor {
    const config: Config
    var seenUids: set<string>
    var lastDispatch: map<string, real>
    var window: map<string, seq<Stamp>>
    var burstEmitted: map<string, real>
    var counters: Counters

    function View(): State
      reads this
    {
      State(seenUids, lastDispatch, window, burstEmitted, counters)
    }

    constructor (config: Config)
      ensures this.config == config && View() == START
    {
      this.config := config;
      seenUids, lastDispatch, window, burstEmitted := {}, map[], map[], map[];
      counters := Counters(0, 0, 0, 0, 0, 0, 0, 0);
    }

    /** The burst window after pruning, built entry by entry. */
    method Prune(stamps: seq<Stamp>, now: real) returns (kept: seq<Stamp>)
      ensures kept == Recent(stamps, now)
    {
      kept := [];
      var i := 0;
      while i < |stamps|
        invariant 0 <= i <= |stamps|
        invariant Recent(stamps, now) == kept + Recent(stamps[i..], now)
      {
        if stamps[i].at > now - BURST_WINDOW {
          kept := kept + [stamps[i]];
        }
        i := i + 1;
      }
    }

    method Process(raw: RawEvent, now: real) returns (outcome: Outcome)
      modifies this
      ensures (View(), outcome) == Processed(config, old(View()), raw, now)
    {
      hide MatchHook, Normalize, DedupeKey, Sighted;
      counters := counters.(polled := counters.polled + 1);
      if !Present(raw.uid) {
        return Raised;
      }
      if raw.uid.value in seenUids {
        counters := counters.(duplicates := counters.duplicates + 1);
        return Silent;
      }
      seenUids := seenUids + {raw.uid.value};
      var hook := MatchHook(raw);
      if hook.None? {
        counters := counters.(ignored := counters.ignored + 1);
        return Silent;
      }
      counters := counters.(matched := counters.matched + 1);
      var normalized := Normalize(config, raw);
      if normalized.None? {
        return Raised;
      }
      outcome := Dispatch(Sighting(hook.value, normalized.value, DedupeKey(config, normalized.value)), now);
    }

    method Dispatch(sighting: Sighting, now: real) returns (outcome: Outcome)
      modifies this`window, this`burstEmitted, this`lastDispatch, this`counters
      ensures (View(), outcome) == Sighted(config, old(View()), sighting, now)
    {
      hide Recent;
      var key := sighting.key;
      var pruned := Prune(if key in window then window[key] else [], now);
      var stamps := pruned + [Stamp(now, sighting.event.timestamp)];
      window := window[key := stamps];
      if |stamps| > BURST_MAX {
        if key in burstEmitted && now - burstEmitted[key] < BURST_WINDOW {
          counters := counters.(suppressed := counters.suppressed + 1);
          return Silent;
        }
        burstEmitted := burstEmitted[key := now];
        lastDispatch := lastDispatch[key := now];
        counters := counters.(summaries := counters.summaries + 1);
        return Sent(EnvelopeFor(config, sighting, Some(Burst(|stamps| - 1, stamps[0].tag, stamps[|stamps| - 1].tag))));
      }
      if key in lastDispatch && now - lastDispatch[key] < DEDUPE_WINDOW {
        counters := counters.(deduped := counters.deduped + 1);
        return Silent;
      }
      lastDispatch := lastDispatch[key := now];
      counters := counters.(dispatched := counters.dispatched + 1);
      outcome := Sent(EnvelopeFor(config, sighting, None));
    }
  }
}
