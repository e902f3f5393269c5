/** Which events the dispatcher takes for the same incident, and what an envelope says. */
module TriggerKeys {
  import opened Results
  import opened Trigger
  import opened TriggerLaws

  // ----- keys -------------------------------------------------------------------------------

  /** The digest tells all texts apart. */
  ghost predicate Injective(sha: string -> string) {
    forall a: string, b: string :: sha(a) == sha(b) ==> a == b
  }

  /** None of the five fields holds the separator. */
  predicate NoBars(e: Event) {
    '|' !in e.cluster && '|' !in e.namespace && '|' !in e.kind && '|' !in e.name && '|' !in e.reason
  }

  /** The same reason on the same object of the same namespace and cluster. */
  predicate SameIncident(e: Event, f: Event) {
    e.cluster == f.cluster && e.namespace == f.namespace && e.kind == f.kind && e.name == f.name && e.reason == f.reason
  }

  lemma FirstBar(a: string, x: string, b: string, y: string)
    requires '|' !in a && '|' !in b && a + "|" + x == b + "|" + y
    ensures a == b && x == y
  {
    if |a| < |b| {
      ShorterHasBar(a, x, b, y);
    }
    if |b| < |a| {
      ShorterHasBar(b, y, a, x);
    }
    var s, t := a + "|" + x, b + "|" + y;
    assert s[..|a|] == a && t[..|b|] == b && s[|a| + 1..] == x && t[|b| + 1..] == y;
  }

  lemma ShorterHasBar(a: string, x: string, b: string, y: string)
    requires |a| < |b| && a + "|" + x == b + "|" + y
    ensures '|' in b
  {
    var s, t := a + "|" + x, b + "|" + y;
    assert s[|a|] == '|' && t[|a|] == b[|a|];
  }

  lemma LastBar(x: string, a: string, y: string, b: string)
    requires '|' !in a && '|' !in b && x + "|" + a == y + "|" + b
    ensures x == y && a == b
  {
    if |a| < |b| {
      ShorterEnd(x, a, y, b);
    }
    if |b| < |a| {
      ShorterEnd(y, b, x, a);
    }
    var s, t := x + "|" + a, y + "|" + b;
    assert s[..|x|] == x && t[..|y|] == y && s[|x| + 1..] == a && t[|y| + 1..] == b;
  }

  lemma ShorterEnd(x: string, a: string, y: string, b: string)
    requires |a| < |b| && x + "|" + a == y + "|" + b
    ensures '|' in b
  {
    var s, t := x + "|" + a, y + "|" + b;
    assert |s| == |t| && s[|x|] == '|';
    assert t[|x|] == b[|x| - |y| - 1];
  }

  /** The correlation id is the same exactly for the same incident. */
  lemma CorrelationIff(config: Config, e: Event, f: Event)
    requires Injective(config.sha) && NoBars(e) && NoBars(f)
    ensures CorrelationKey(config, e) == CorrelationKey(config, f) <==> SameIncident(e, f)
  {
    if CorrelationKey(config, e) == CorrelationKey(config, f) {
      var bar := "|";
      assert e.cluster + bar + e.namespace + bar + e.kind + bar + e.name + bar + e.reason == f.cluster + bar + f.namespace + bar + f.kind + bar + f.name + bar + f.reason;
      LastBar(e.cluster + bar + e.namespace + bar + e.kind + bar + e.name, e.reason, f.cluster + bar + f.namespace + bar + f.kind + bar + f.name, f.reason);
      LastBar(e.cluster + bar + e.namespace + bar + e.kind, e.name, f.cluster + bar + f.namespace + bar + f.kind, f.name);
      LastBar(e.cluster + bar + e.namespace, e.kind, f.cluster + bar + f.namespace, f.kind);
      LastBar(e.cluster, e.namespace, f.cluster, f.namespace);
    }
  }

  /** So is the key events are deduplicated by. */
  lemma KeyIff(config: Config, e: Event, f: Event)
    requires Injective(config.sha) && NoBars(e) && NoBars(f)
    ensures DedupeKey(config, e) == DedupeKey(config, f) <==> SameIncident(e, f)
  {
    hide Injective;
    if DedupeKey(config, e) == DedupeKey(config, f) {
      var k, m := CorrelationKey(config, e), CorrelationKey(config, f);
      hide CorrelationKey;
      var bar := "|";
      assert k + bar + e.reason + bar + e.kind + bar + e.name == m + bar + f.reason + bar + f.kind + bar + f.name;
      LastBar(k + bar + e.reason + bar + e.kind, e.name, m + bar + f.reason + bar + f.kind, f.name);
      LastBar(k + bar + e.reason, e.kind, m + bar + f.reason, f.kind);
      LastBar(k, e.reason, m, f.reason);
      CorrelationIff(config, e, f);
    } else if SameIncident(e, f) {
      SameFields(config, e, f);
    }
  }

  lemma SameFields(config: Config, e: Event, f: Event)
    requires SameIncident(e, f)
    ensures CorrelationKey(config, e) == CorrelationKey(config, f) && DedupeKey(config, e) == DedupeKey(config, f)
  {
  }

  /** Fields with the separator: two incidents of different clusters and
      namespaces share both keys. */
  lemma BarsConfuse(config: Config)
    ensures var e := Event("1", "", "c", "a|Pod", "Pod", "x", "OOMKilled", "");
            var f := Event("2", "", "c|a", "Pod", "Pod", "x", "OOMKilled", "");
            !SameIncident(e, f) && DedupeKey(config, e) == DedupeKey(config, f)
  {
    var e := Event("1", "", "c", "a|Pod", "Pod", "x", "OOMKilled", "");
    var f := Event("2", "", "c|a", "Pod", "Pod", "x", "OOMKilled", "");
    assert e.cluster + "|" + e.namespace == f.cluster + "|" + f.namespace;
    assert |e.cluster| != |f.cluster|;
  }

  // ----- the first of an incident ----------------------------------------------------------------

  /** No processed event so far was of the incident, and their fields hold no separator. */
  ghost predicate New(config: Config, inputs: seq<Input>, e: Event) {
    forall i :: 0 <= i < |inputs| && Present(inputs[i].raw.uid) && Sight(config, inputs[i].raw).Some? ==>
      NoBars(Sight(config, inputs[i].raw).value.event) && !SameIncident(Sight(config, inputs[i].raw).value.event, e)
  }

  lemma {:induction false} KeyUnseen(config: Config, inputs: seq<Input>, e: Event)
    requires Injective(config.sha) && NoBars(e) && New(config, inputs, e)
    ensures var log := Run(config, inputs).1;
            var key := DedupeKey(config, e);
            History(log, key) == [] && LastTime(log, key, false) == None && LastTime(log, key, true) == None
  {
    hide Processed, Decide, MatchHook, Normalize, DedupeKey, Injective;
    if inputs != [] {
      var n := |inputs| - 1;
      var early := inputs[..n];
      assert forall i :: 0 <= i < n ==> early[i] == inputs[i];
      KeyUnseen(config, early, e);
      if Present(inputs[n].raw.uid) && Sight(config, inputs[n].raw).Some? {
        KeyIff(config, Sight(config, inputs[n].raw).value.event, e);
      }
      var (state, log) := Run(config, early);
      QuietStep(log, EntryOf(config, state, inputs[n]), DedupeKey(config, e));
    }
  }

  /** The first matched event of an incident in a run is dispatched, whatever other incidents
      went before it. */
  lemma FirstDispatched(config: Config, inputs: seq<Input>, input: Input)
    requires Injective(config.sha) && Forward(inputs + [input])
    requires Present(input.raw.uid) && Sight(config, input.raw).Some? && NoBars(Sight(config, input.raw).value.event)
    requires forall i :: 0 <= i < |inputs| ==> inputs[i].raw.uid != input.raw.uid
    requires New(config, inputs, Sight(config, input.raw).value.event)
    ensures Decide(config, Run(config, inputs).0, input.raw, input.at) == Dispatched
    ensures Processed(config, Run(config, inputs).0, input.raw, input.at).1 == Outcome.Sent(EnvelopeFor(config, Sight(config, input.raw).value, None))
  {
    hide Run, MatchHook, Normalize, New, NoBars, Injective, Forward, History, LastTime, EnvelopeFor;
    var log := Run(config, inputs).1;
    KeyUnseen(config, inputs, Sight(config, input.raw).value.event);
    DecidedByHistory(config, inputs, input);
    RunLength(config, inputs);
    assert input.raw.uid.value !in Uids(log);
    assert Recent([], input.at) == [];
  }

  // ----- which hook, and what an envelope says ------------------------------------------------------

  /** The catalog: the hook of an object kind and a reason, and its severity. */
  ghost predicate Catalogued(kind: string, reason: string, id: string, severity: string) {
    || (kind == "Pod" && reason == "Restarted" && id == "pod-restart" && severity == "high")
    || (kind == "Pod" && reason == "OOMKilled" && id == "oom-kill" && severity == "critical")
    || (kind == "Pod" && reason == "Unhealthy" && id == "probe-failed" && severity == "medium")
    || (kind == "Pod" && reason == "FailedScheduling" && id == "pod-pending" && severity == "medium")
    || (kind == "Node" && reason == "NodeNotReady" && id == "node-not-ready" && severity == "critical")
  }

  lemma HookFound(raw: RawEvent)
    ensures MatchHook(raw) ==
              if raw.kind == Some("Pod") && raw.reason == Some("Restarted") then Some(HOOKS[0])
              else if raw.kind == Some("Pod") && raw.reason == Some("OOMKilled") then Some(HOOKS[1])
              else if raw.kind == Some("Pod") && raw.reason == Some("Unhealthy") then Some(HOOKS[2])
              else if raw.kind == Some("Pod") && raw.reason == Some("FailedScheduling") then Some(HOOKS[3])
              else if raw.kind == Some("Node") && raw.reason == Some("NodeNotReady") then Some(HOOKS[4])
              else None
  {
    var one, two, three, four := HOOKS[1..], HOOKS[2..], HOOKS[3..], HOOKS[4..];
    assert one[1..] == two && two[1..] == three && three[1..] == four && four[1..] == [];
    assert FindHook(four, raw) == if raw.kind == Some("Node") && raw.reason == Some("NodeNotReady") then Some(HOOKS[4]) else None;
    assert FindHook(three, raw) == if raw.kind == Some("Pod") && raw.reason == Some("FailedScheduling") then Some(HOOKS[3]) else FindHook(four, raw);
    assert FindHook(two, raw) == if raw.kind == Some("Pod") && raw.reason == Some("Unhealthy") then Some(HOOKS[2]) else FindHook(three, raw);
    assert FindHook(one, raw) == if raw.kind == Some("Pod") && raw.reason == Some("OOMKilled") then Some(HOOKS[1]) else FindHook(two, raw);
  }

  /** An event gets a hook exactly when its kind and reason are in the catalog, and then the
      one listed there. */
  lemma HookIff(raw: RawEvent, id: string, severity: string)
    ensures (MatchHook(raw).Some? && MatchHook(raw).value.id == id && MatchHook(raw).value.severity == severity) <==>
            raw.kind.Some? && raw.reason.Some? && Catalogued(raw.kind.value, raw.reason.value, id, severity)
  {
    HookFound(raw);
    hide MatchHook;
    assert "Restarted"[0] != "Unhealthy"[0] && "OOMKilled"[0] != "Unhealthy"[0] && "Restarted"[0] != "OOMKilled"[0];
  }

  /** The text a field reads: the first that is not empty, and else the last. */
  ghost predicate FirstOf(texts: seq<Option<string>>, text: string) {
    exists k :: 0 <= k < |texts| && texts[k] == Some(text)
                && (text != "" || k == |texts| - 1)
                && forall i :: 0 <= i < k ==> texts[i] == None || texts[i] == Some("")
  }

  /** A normalized event repeats the members of the raw one; it has its own namespace or else
      that of the object's record, and the most specific timestamp. */
  lemma NormalizedRepeats(config: Config, raw: RawEvent)
    requires Present(raw.uid) && Normalize(config, raw).Some?
    ensures var e := Normalize(config, raw).value;
            && raw.uid == Some(e.id) && raw.kind == Some(e.kind) && raw.name == Some(e.name) && raw.reason == Some(e.reason)
            && raw.message == Some(e.message) && e.cluster == config.cluster
            && FirstOf([raw.lastTimestamp, raw.eventTime, raw.creationTimestamp], e.timestamp)
            && FirstOf([raw.objectNamespace, raw.namespace, Some("")], e.namespace)
  {
    var e := Normalize(config, raw).value;
    var times := [raw.lastTimestamp, raw.eventTime, raw.creationTimestamp];
    var k := if Present(times[0]) then 0 else if Present(times[1]) then 1 else 2;
    assert times[k] == Some(e.timestamp);
    var names := [raw.objectNamespace, raw.namespace, Some("")];
    var m := if Present(names[0]) then 0 else if Present(names[1]) then 1 else 2;
    assert names[m] == Some(e.namespace);
  }

  lemma {:induction false} RecentIsSuffix(stamps: seq<Stamp>, now: real) returns (k: nat)
    requires forall i, j :: 0 <= i < j < |stamps| ==> stamps[i].at <= stamps[j].at
    ensures k <= |stamps| && Recent(stamps, now) == stamps[k..]
    ensures forall i :: 0 <= i < k ==> stamps[i].at <= now - 60.0
    ensures forall i :: k <= i < |stamps| ==> stamps[i].at > now - 60.0
  {
    if stamps == [] {
      k := 0;
    } else {
      var m := RecentIsSuffix(stamps[1..], now);
      if stamps[0].at > now - BURST_WINDOW {
        assert |stamps| > 1 ==> stamps[1..][0] == stamps[1] && stamps[0].at <= stamps[1].at;
        assert stamps == [stamps[0]] + stamps[1..];
        k := 0;
      } else {
        k := m + 1;
        assert stamps[1..][m..] == stamps[m + 1..];
        forall i | 0 <= i < k ensures stamps[i].at <= now - 60.0 {
          if i > 0 {
            assert stamps[1..][i - 1] == stamps[i];
          }
        }
        forall i | k <= i < |stamps| ensures stamps[i].at > now - 60.0 {
          assert stamps[1..][i - 1] == stamps[i];
        }
      }
    }
  }

  lemma {:induction false} HistoryOrdered(log: seq<Entry>, key: string, now: real)
    requires OrderedLog(log) && Before(log, now)
    ensures forall i :: 0 <= i < |History(log, key)| ==> History(log, key)[i].at <= now
    ensures forall i, j :: 0 <= i < j < |History(log, key)| ==> History(log, key)[i].at <= History(log, key)[j].at
  {
    if log != [] {
      var early := log[..|log| - 1];
      assert Before(early, Last(log).input.at);
      HistoryOrdered(early, key, Last(log).input.at);
    }
  }

  /** The sightings of an incident a summary stands for: the latest of its history, the one at
      hand included, that are less than 60 seconds old. */
  ghost predicate InWindow(history: seq<Stamp>, k: nat, now: real) {
    && k < |history|
    && (forall i :: 0 <= i < k ==> history[i].at <= now - 60.0)
    && (forall i :: k <= i < |history| ==> history[i].at > now - 60.0)
  }

  /** A summary is sent only when more than ten sightings are in the window, and names the
      timestamps of the oldest and the newest of them. */
  lemma SummarySpans(config: Config, inputs: seq<Input>, input: Input)
    requires Forward(inputs + [input])
    requires Decide(config, Run(config, inputs).0, input.raw, input.at) == Summary
    ensures var (state, log) := Run(config, inputs);
            var sighting := Sight(config, input.raw).value;
            var history := History(log, sighting.key) + [Stamp(input.at, sighting.event.timestamp)];
            exists k: nat ::
              && InWindow(history, k, input.at) && |history| - k > 10
              && Processed(config, state, input.raw, input.at).1 ==
                   Outcome.Sent(EnvelopeFor(config, sighting, Some(Burst(|history| - k - 1, history[k].tag, sighting.event.timestamp))))
  {
    hide Run, Forward, History, Tells, OrderedLog, Before, Sight, EnvelopeFor, Recent, Decide, Processed;
    var (state, log) := Run(config, inputs);
    SummarySent(config, state, input.raw, input.at);
    var sighting := Sight(config, input.raw).value;
    RunBefore(config, inputs, input);
    RunTells(config, inputs);
    RunOrdered(config, inputs);
    PrunedHistory(log, state, sighting.key, input.at);
    HistoryOrdered(log, sighting.key, input.at);
    var latest := Stamp(input.at, sighting.event.timestamp);
    WindowSpans(History(log, sighting.key), latest, input.at);
    var history := History(log, sighting.key) + [latest];
    var k: nat :| InWindow(history, k, input.at) && Recent(History(log, sighting.key), input.at) + [latest] == history[k..];
    assert WindowAt(state, sighting, input.at) == history[k..];
  }

  /** What a summary is made of. */
  lemma SummarySent(config: Config, s: State, raw: RawEvent, now: real)
    requires Decide(config, s, raw, now) == Summary
    ensures Present(raw.uid) && Sight(config, raw).Some?
    ensures var sighting := Sight(config, raw).value;
            var window := WindowAt(s, sighting, now);
            && |window| > 10 && window[|window| - 1] == Stamp(now, sighting.event.timestamp)
            && Processed(config, s, raw, now).1 ==
                 Outcome.Sent(EnvelopeFor(config, sighting, Some(Burst(|window| - 1, window[0].tag, sighting.event.timestamp))))
  {
    hide MatchHook, Normalize, EnvelopeFor, DedupeKey, Recent;
  }

  /** The window with the sighting at hand is the end of the history with it. */
  lemma WindowSpans(history: seq<Stamp>, latest: Stamp, now: real)
    requires latest.at == now && forall i, j :: 0 <= i < j < |history| ==> history[i].at <= history[j].at
    ensures exists k: nat :: InWindow(history + [latest], k, now) && Recent(history, now) + [latest] == (history + [latest])[k..]
  {
    var k := RecentIsSuffix(history, now);
    var all := history + [latest];
    assert all[k..] == history[k..] + [latest];
    assert InWindow(all, k, now);
  }

  /** An envelope repeats its event, and carries the incident's correlation id and the
      catalog's hook and severity. */
  lemma EnvelopeRepeats(config: Config, s: State, raw: RawEvent, now: real)
    requires Processed(config, s, raw, now).1.Sent?
    ensures var envelope := Processed(config, s, raw, now).1.envelope;
            && Present(raw.uid) && Normalize(config, raw) == Some(envelope.event)
            && raw.kind == Some(envelope.event.kind) && raw.reason == Some(envelope.event.reason)
            && Catalogued(envelope.event.kind, envelope.event.reason, envelope.hook, envelope.severity)
            && envelope.correlationId == CorrelationKey(config, envelope.event)
  {
    hide MatchHook, Normalize, WindowAt, CorrelationKey, Catalogued;
    assert Present(raw.uid) && Sight(config, raw).Some?;
    NormalizedRepeats(config, raw);
    HookIff(raw, MatchHook(raw).value.id, MatchHook(raw).value.severity);
  }

  // ----- a dispatch that is lost ----------------------------------------------------------------------

  /** An envelope is made once: when its delivery fails, neither the next poll of the event nor
      another event of the incident within 300 seconds makes one again, unless the incident
      bursts. */
  lemma LostIsNotRetried(config: Config, inputs: seq<Input>, input: Input, later: Input)
    requires Forward(inputs + [input] + [later])
    requires Processed(config, Run(config, inputs).0, input.raw, input.at).1.Sent?
    requires Present(later.raw.uid)
    requires later.raw.uid != input.raw.uid ==>
      && Sight(config, later.raw).Some? && SameIncident(Sight(config, later.raw).value.event, Sight(config, input.raw).value.event)
      && later.at - input.at < 300.0 && |Recent(History(Run(config, inputs + [input]).1, Sight(config, later.raw).value.key), later.at)| < 10
    ensures Processed(config, Run(config, inputs + [input]).0, later.raw, later.at).1 == Silent
  {
    hide Run, Forward, History, MatchHook, Normalize, Uids, TellsCounts, LastSeen, LastTime, Recent, CorrelationKey;
    var (state, log) := Run(config, inputs);
    var after, told := Run(config, inputs + [input]).0, Run(config, inputs + [input]).1;
    RunStep(config, inputs, input);
    RunTells(config, inputs + [input]) by {
      RunBefore(config, inputs + [input], later);
    }
    RunBefore(config, inputs + [input], later);
    KeyedDecision(config, state, input);
    if later.raw.uid != input.raw.uid {
      var sighting := Sight(config, later.raw).value;
      SameFields(config, sighting.event, Sight(config, input.raw).value.event);
      PrunedHistory(told, after, sighting.key, later.at);
    }
  }
}
