/** What the dispatcher does over whole runs, told from the history of polled events
    alone. */
module TriggerLaws {
  import opened Results
  import opened Trigger

  datatype Input = Input(raw: RawEvent, at: real)

  /** One processed input: its key is that of a matched, well-formed event. */
  datatype Entry = Entry(input: Input, decision: Decision, key: Option<string>, tag: string)

  function KeyOf(config: Config, raw: RawEvent): Option<string> {
    if Present(raw.uid) && Sight(config, raw).Some? then Some(Sight(config, raw).value.key) else None
  }

  function TagOf(config: Config, raw: RawEvent): string {
    if Present(raw.uid) && Sight(config, raw).Some? then Sight(config, raw).value.event.timestamp else ""
  }

  /** The state and the log after a run from the start. */
  function Run(config: Config, inputs: seq<Input>): (State, seq<Entry>) {
    if inputs == [] then (START, [])
    else
      var last := inputs[|inputs| - 1];
      var (state, log) := Run(config, inputs[..|inputs| - 1]);
      (Processed(config, state, last.raw, last.at).0, log + [EntryOf(config, state, last)])
  }

  /** The clock never goes back. */
  ghost predicate Forward(inputs: seq<Input>) {
    forall i, j :: 0 <= i < j < |inputs| ==> inputs[i].at <= inputs[j].at
  }

  // ----- the history a log tells -------------------------------------------------------------

  function Last(log: seq<Entry>): Entry
    requires log != []
  {
    log[|log| - 1]
  }

  /** All matched, well-formed events of a key, oldest first. */
  function History(log: seq<Entry>, key: string): seq<Stamp> {
    if log == [] then []
    else History(log[..|log| - 1], key) + if Last(log).key == Some(key) then [Stamp(Last(log).input.at, Last(log).tag)] else []
  }

  predicate Emits(e: Entry, key: string) {
    e.key == Some(key) && (e.decision.Dispatched? || e.decision.Summary?)
  }

  predicate EmitsSummary(e: Entry, key: string) {
    e.key == Some(key) && e.decision.Summary?
  }

  /** When the key last emitted an envelope, or a burst summary. */
  function LastTime(log: seq<Entry>, key: string, summaries: bool): Option<real> {
    if log == [] then None
    else if (if summaries then EmitsSummary(Last(log), key) else Emits(Last(log), key)) then Some(Last(log).input.at)
    else LastTime(log[..|log| - 1], key, summaries)
  }

  /** When a matched, well-formed event of the key was last processed. */
  function LastSeen(log: seq<Entry>, key: string): Option<real> {
    if log == [] then None
    else if Last(log).key == Some(key) then Some(Last(log).input.at)
    else LastSeen(log[..|log| - 1], key)
  }

  function Uids(log: seq<Entry>): set<string> {
    set i | 0 <= i < |log| && Present(log[i].input.raw.uid) :: log[i].input.raw.uid.value
  }

  function Count(log: seq<Entry>, decision: Decision): nat {
    if log == [] then 0 else Count(log[..|log| - 1], decision) + if Last(log).decision == decision then 1 else 0
  }

  /** The state is what the log says: the seen uids, the last times, the pruned window
      and the counts. */
  ghost predicate Tells(log: seq<Entry>, s: State) {
    && s.seen == Uids(log)
    && (forall key :: (key in s.lastDispatch) == LastTime(log, key, false).Some?)
    && (forall key :: key in s.lastDispatch ==> LastTime(log, key, false) == Some(s.lastDispatch[key]))
    && (forall key :: (key in s.lastBurst) == LastTime(log, key, true).Some?)
    && (forall key :: key in s.lastBurst ==> LastTime(log, key, true) == Some(s.lastBurst[key]))
    && (forall key :: (key in s.window) == LastSeen(log, key).Some?)
    && (forall key :: key in s.window ==> s.window[key] == Recent(History(log, key), LastSeen(log, key).value))
    && TellsCounts(log, s.counters)
  }

  ghost predicate TellsCounts(log: seq<Entry>, c: Counters) {
    && c.polled == |log|
    && c.duplicates == Count(log, Duplicate) && c.ignored == Count(log, Ignored)
    && c.dispatched == Count(log, Dispatched) && c.deduped == Count(log, Deduped)
    && c.summaries == Count(log, Summary) && c.suppressed == Count(log, Suppressed)
    && c.matched == c.dispatched + c.deduped + c.summaries + c.suppressed + Count(log, Malformed)
    && c.polled == Count(log, NoUid) + c.duplicates + c.ignored + c.matched
  }

  // ----- the run keeps the history ------------------------------------------------------------------

  lemma {:induction false} RecentTwice(stamps: seq<Stamp>, earlier: real, now: real)
    requires earlier <= now
    ensures Recent(Recent(stamps, earlier), now) == Recent(stamps, now)
  {
    if stamps != [] {
      RecentTwice(stamps[1..], earlier, now);
      if stamps[0].at > earlier - 60.0 {
        assert ([stamps[0]] + Recent(stamps[1..], earlier))[1..] == Recent(stamps[1..], earlier);
      }
    }
  }

  lemma {:induction false} RecentAppend(a: seq<Stamp>, b: seq<Stamp>, now: real)
    ensures Recent(a + b, now) == Recent(a, now) + Recent(b, now)
  {
    if a == [] {
      assert a + b == b;
    } else {
      assert (a + b)[0] == a[0] && (a + b)[1..] == a[1..] + b;
      RecentAppend(a[1..], b, now);
      var head := if a[0].at > now - 60.0 then [a[0]] else [];
      assert Recent(a, now) == head + Recent(a[1..], now);
      assert Recent(a + b, now) == head + (Recent(a[1..], now) + Recent(b, now));
    }
  }

  lemma {:induction false} RunLength(config: Config, inputs: seq<Input>)
    ensures |Run(config, inputs).1| == |inputs|
    ensures forall i :: 0 <= i < |inputs| ==> Run(config, inputs).1[i].input == inputs[i]
  {
    hide Processed, Decide, KeyOf, TagOf;
    if inputs != [] {
      RunLength(config, inputs[..|inputs| - 1]);
    }
  }

  /** The log entry of one more input. */
  function EntryOf(config: Config, s: State, input: Input): Entry {
    var decision := Decide(config, s, input.raw, input.at);
    Entry(input, decision, if decision.NoUid? || decision.Duplicate? then None else KeyOf(config, input.raw), TagOf(config, input.raw))
  }

  lemma RunStep(config: Config, inputs: seq<Input>, input: Input)
    ensures var (state, log) := Run(config, inputs);
            Run(config, inputs + [input]) == (Processed(config, state, input.raw, input.at).0, log + [EntryOf(config, state, input)])
  {
    assert (inputs + [input])[..|inputs|] == inputs;
  }

  ghost predicate Before(log: seq<Entry>, now: real) {
    forall i :: 0 <= i < |log| ==> log[i].input.at <= now
  }

  lemma RunBefore(config: Config, inputs: seq<Input>, input: Input)
    requires Forward(inputs + [input])
    ensures Forward(inputs) && Before(Run(config, inputs).1, input.at)
  {
    hide Run;
    RunLength(config, inputs);
    var all := inputs + [input];
    forall i | 0 <= i < |inputs| ensures inputs[i].at <= input.at {
      assert all[i].at <= all[|inputs|].at;
    }
    forall i, j | 0 <= i < j < |inputs| ensures inputs[i].at <= inputs[j].at {
      assert all[i].at <= all[j].at;
    }
  }

  lemma {:induction false} LastSeenBefore(log: seq<Entry>, key: string, now: real)
    requires Before(log, now)
    ensures LastSeen(log, key).Some? ==> LastSeen(log, key).value <= now
    ensures LastSeen(log, key).None? ==> History(log, key) == []
  {
    if log != [] {
      LastSeenBefore(log[..|log| - 1], key, now);
    }
  }

  /** A later prune of the window is a prune of the whole history. */
  lemma PrunedHistory(log: seq<Entry>, s: State, key: string, now: real)
    requires Tells(log, s) && Before(log, now)
    ensures Recent(if key in s.window then s.window[key] else [], now) == Recent(History(log, key), now)
  {
    LastSeenBefore(log, key, now);
    if key in s.window {
      RecentTwice(History(log, key), LastSeen(log, key).value, now);
    }
  }

  lemma WindowStep(log: seq<Entry>, s: State, sighting: Sighting, now: real, e: Entry)
    requires Tells(log, s) && Before(log, now)
    requires e.key == Some(sighting.key) && e.input.at == now && e.tag == sighting.event.timestamp
    ensures WindowAt(s, sighting, now) == Recent(History(log + [e], sighting.key), now)
    ensures LastSeen(log + [e], sighting.key) == Some(now)
  {
    assert (log + [e])[..|log|] == log;
    PrunedHistory(log, s, sighting.key, now);
    RecentAppend(History(log, sighting.key), [Stamp(now, e.tag)], now);
    assert [Stamp(now, e.tag)][1..] == [];
  }

  /** An entry without a key leaves every key's story as it was. */
  lemma QuietStep(log: seq<Entry>, e: Entry, key: string)
    requires e.key != Some(key)
    ensures History(log + [e], key) == History(log, key) && LastSeen(log + [e], key) == LastSeen(log, key)
    ensures LastTime(log + [e], key, true) == LastTime(log, key, true) && LastTime(log + [e], key, false) == LastTime(log, key, false)
  {
    assert (log + [e])[..|log|] == log;
  }

  lemma TimeStep(log: seq<Entry>, e: Entry, key: string)
    requires e.key == Some(key)
    ensures LastTime(log + [e], key, false) ==
            if e.decision.Dispatched? || e.decision.Summary? then Some(e.input.at) else LastTime(log, key, false)
    ensures LastTime(log + [e], key, true) == if e.decision.Summary? then Some(e.input.at) else LastTime(log, key, true)
  {
    assert (log + [e])[..|log|] == log;
  }

  lemma UidStep(log: seq<Entry>, e: Entry)
    ensures Uids(log + [e]) == Uids(log) + if Present(e.input.raw.uid) then {e.input.raw.uid.value} else {}
  {
    var all := log + [e];
    assert forall i :: 0 <= i < |log| ==> all[i] == log[i];
    assert all[|log|] == e;
    forall u ensures u in Uids(all) <==> u in Uids(log) || (Present(e.input.raw.uid) && u == e.input.raw.uid.value) {
      if u in Uids(log) {
        var i :| 0 <= i < |log| && Present(log[i].input.raw.uid) && log[i].input.raw.uid.value == u;
        assert all[i].input.raw.uid.value == u;
      }
    }
  }

  lemma CountStep(log: seq<Entry>, e: Entry, decision: Decision)
    ensures Count(log + [e], decision) == Count(log, decision) + if e.decision == decision then 1 else 0
  {
    assert (log + [e])[..|log|] == log;
  }

  lemma CountsStep(config: Config, log: seq<Entry>, s: State, input: Input)
    requires TellsCounts(log, s.counters)
    ensures TellsCounts(log + [EntryOf(config, s, input)], Processed(config, s, input.raw, input.at).0.counters)
  {
    hide Sight, MatchHook, Recent, Count;
    var e := EntryOf(config, s, input);
    CountStep(log, e, NoUid);
    CountStep(log, e, Duplicate);
    CountStep(log, e, Ignored);
    CountStep(log, e, Malformed);
    CountStep(log, e, Suppressed);
    CountStep(log, e, Summary);
    CountStep(log, e, Deduped);
    CountStep(log, e, Dispatched);
  }

  lemma KeyedDecision(config: Config, s: State, input: Input)
    ensures var e := EntryOf(config, s, input);
            var after := Processed(config, s, input.raw, input.at).0;
            if e.key.None? then
              after.window == s.window && after.lastBurst == s.lastBurst && after.lastDispatch == s.lastDispatch
              && !e.decision.Dispatched? && !e.decision.Summary? && !e.decision.Deduped? && !e.decision.Suppressed?
            else
              && Present(input.raw.uid) && input.raw.uid.value !in s.seen
              && Sight(config, input.raw).Some?
              && var sighting := Sight(config, input.raw).value;
                 && e.key == Some(sighting.key) && e.tag == sighting.event.timestamp
                 && e.decision == DecideSighted(s, sighting, input.at)
                 && after.window == s.window[sighting.key := WindowAt(s, sighting, input.at)]
                 && after.lastDispatch == (if e.decision.Dispatched? || e.decision.Summary?
                                           then s.lastDispatch[sighting.key := input.at] else s.lastDispatch)
                 && after.lastBurst == (if e.decision.Summary? then s.lastBurst[sighting.key := input.at] else s.lastBurst)
    ensures Processed(config, s, input.raw, input.at).0.seen ==
            s.seen + if Present(input.raw.uid) then {input.raw.uid.value} else {}
  {
    hide Recent, Normalize, CorrelationKey, DedupeKey, FindHook;
  }

  lemma TellsStep(config: Config, log: seq<Entry>, s: State, input: Input)
    requires Tells(log, s) && Before(log, input.at)
    ensures Tells(log + [EntryOf(config, s, input)], Processed(config, s, input.raw, input.at).0)
  {
    hide Processed, EntryOf, WindowAt, Sight, DecideSighted, History, LastSeen, LastTime, Uids, TellsCounts, Recent;
    var e := EntryOf(config, s, input);
    var after := Processed(config, s, input.raw, input.at).0;
    KeyedDecision(config, s, input);
    InputOf(config, s, input);
    UidStep(log, e);
    CountsStep(config, log, s, input);
    forall key | e.key != Some(key)
      ensures History(log + [e], key) == History(log, key) && LastSeen(log + [e], key) == LastSeen(log, key)
      ensures LastTime(log + [e], key, true) == LastTime(log, key, true) && LastTime(log + [e], key, false) == LastTime(log, key, false)
    {
      QuietStep(log, e, key);
    }
    if e.key.Some? {
      TimeStep(log, e, e.key.value);
      WindowStep(log, s, Sight(config, input.raw).value, input.at, e);
    }
  }

  lemma InputOf(config: Config, s: State, input: Input)
    ensures EntryOf(config, s, input).input == input
  {
  }

  /** On every run with a forward clock the state is exactly what the log tells. In
      particular each window holds the key's whole history of the last 60 seconds, and
      the counters add up. */
  lemma {:induction false} RunTells(config: Config, inputs: seq<Input>)
    requires Forward(inputs)
    ensures Tells(Run(config, inputs).1, Run(config, inputs).0)
  {
    hide Tells, Processed, EntryOf, Before, Forward;
    if inputs == [] {
      NothingTold();
    } else {
      var n := |inputs| - 1;
      var early, input := inputs[..n], inputs[n];
      assert inputs == early + [input];
      RunBefore(config, early, input);
      RunTells(config, early);
      RunStep(config, early, input);
      var (state, log) := Run(config, early);
      TellsStep(config, log, state, input);
    }
  }

  lemma NothingTold()
    ensures Tells([], START)
  {
  }

  // ----- the decision rule, from the history ---------------------------------------------------

  /** How an input is decided, told from the log alone: at most one envelope per uid; a
      key with more than ten sightings in the last 60 seconds emits one summary a window;
      otherwise a key emits when it has not in the last 300 seconds. */
  function ByHistory(config: Config, log: seq<Entry>, input: Input): Decision {
    if !Present(input.raw.uid) then NoUid
    else if input.raw.uid.value in Uids(log) then Duplicate
    else if MatchHook(input.raw).None? then Ignored
    else if Sight(config, input.raw).None? then Malformed
    else
      var sighting := Sight(config, input.raw).value;
      var burst := |Recent(History(log, sighting.key), input.at)| + 1 > 10;
      if burst then
        if Within(LastTime(log, sighting.key, true), input.at, 60.0) then Suppressed else Summary
      else if Within(LastTime(log, sighting.key, false), input.at, 300.0) then Deduped
      else Dispatched
  }

  predicate Within(earlier: Option<real>, now: real, span: real) {
    earlier.Some? && now - earlier.value < span
  }

  /** The dispatcher's incremental state decides every input as the whole history does. */
  lemma DecidedByHistory(config: Config, inputs: seq<Input>, input: Input)
    requires Forward(inputs + [input])
    ensures var (state, log) := Run(config, inputs);
            Decide(config, state, input.raw, input.at) == ByHistory(config, log, input)
  {
    hide Run, History, LastSeen, LastTime, Uids, TellsCounts, Recent, Forward, Before;
    RunBefore(config, inputs, input);
    RunTells(config, inputs);
    var (state, log) := Run(config, inputs);
    if Present(input.raw.uid) && Sight(config, input.raw).Some? {
      PrunedHistory(log, state, Sight(config, input.raw).value.key, input.at);
    }
  }

  // ----- coverage ----------------------------------------------------------------------------------

  lemma {:induction false} SummariesEmit(log: seq<Entry>, key: string, now: real)
    requires Before(log, now) && OrderedLog(log) && LastTime(log, key, true).Some?
    ensures LastTime(log, key, false).Some? && LastTime(log, key, true).value <= LastTime(log, key, false).value <= now
  {
    var early := log[..|log| - 1];
    if !EmitsSummary(Last(log), key) {
      assert Before(early, Last(log).input.at);
      SummariesEmit(early, key, Last(log).input.at);
    }
  }

  ghost predicate OrderedLog(log: seq<Entry>) {
    forall i, j :: 0 <= i < j < |log| ==> log[i].input.at <= log[j].input.at
  }

  lemma RunOrdered(config: Config, inputs: seq<Input>)
    requires Forward(inputs)
    ensures OrderedLog(Run(config, inputs).1)
  {
    hide Run;
    RunLength(config, inputs);
  }

  /** Coverage: once a matched, well-formed event is processed, its key has an envelope
      less than 300 seconds old. */
  lemma Coverage(config: Config, inputs: seq<Input>, input: Input)
    requires Forward(inputs + [input])
    ensures var log := Run(config, inputs + [input]).1;
            Last(log).key.Some? ==> Within(LastTime(log, Last(log).key.value, false), input.at, 300.0)
  {
    hide Run, LastTime, Tells, Processed, EntryOf, Forward, Before;
    RunStep(config, inputs, input);
    RunBefore(config, inputs, input);
    RunTells(config, inputs);
    var (state, log) := Run(config, inputs);
    KeyedDecision(config, state, input);
    InputOf(config, state, input);
    var e := EntryOf(config, state, input);
    assert Last(log + [e]) == e;
    if e.key.Some? {
      TimeStep(log, e, e.key.value);
      CoveredBy(log, state, e.key.value);
      if e.decision.Suppressed? {
        RunOrdered(config, inputs);
        SummariesEmit(log, e.key.value, input.at);
      }
    }
  }

  lemma CoveredBy(log: seq<Entry>, s: State, key: string)
    requires Tells(log, s)
    ensures key in s.lastBurst ==> LastTime(log, key, true) == Some(s.lastBurst[key])
    ensures key in s.lastDispatch ==> LastTime(log, key, false) == Some(s.lastDispatch[key])
  {
  }

  // ----- spacing and rate ----------------------------------------------------------------------------

  /** Individual envelopes keep 300 seconds from any earlier envelope of the key, and
      summaries 60 seconds from each other. */
  ghost predicate Spaced(log: seq<Entry>) {
    forall i, j, key :: 0 <= i < j < |log| && Emits(log[i], key) && Emits(log[j], key) ==>
      && (log[j].decision.Dispatched? ==> log[j].input.at - log[i].input.at >= 300.0)
      && (log[i].decision.Summary? && log[j].decision.Summary? ==> log[j].input.at - log[i].input.at >= 60.0)
  }

  lemma {:induction false} LastIsLatest(log: seq<Entry>, i: nat, key: string)
    requires OrderedLog(log) && i < |log| && Emits(log[i], key)
    ensures LastTime(log, key, false).Some? && log[i].input.at <= LastTime(log, key, false).value
    ensures log[i].decision.Summary? ==> LastTime(log, key, true).Some? && log[i].input.at <= LastTime(log, key, true).value
  {
    var n := |log| - 1;
    if i < n {
      LastIsLatest(log[..n], i, key);
    }
  }

  lemma {:induction false} RunSpaced(config: Config, inputs: seq<Input>)
    requires Forward(inputs)
    ensures Spaced(Run(config, inputs).1)
  {
    hide Tells, Processed, EntryOf, Forward, LastTime, Before, Emits;
    if inputs != [] {
      var n := |inputs| - 1;
      var early, input := inputs[..n], inputs[n];
      assert inputs == early + [input];
      RunBefore(config, early, input);
      RunSpaced(config, early);
      RunStep(config, early, input);
      RunTells(config, early);
      RunOrdered(config, early);
      var (state, log) := Run(config, early);
      SpacedStep(config, log, state, input);
    }
  }

  lemma SpacedStep(config: Config, log: seq<Entry>, s: State, input: Input)
    requires Spaced(log) && Tells(log, s) && OrderedLog(log)
    ensures Spaced(log + [EntryOf(config, s, input)])
  {
    hide Tells, Processed, EntryOf, LastTime, WindowAt, Sight;
    var e := EntryOf(config, s, input);
    var all := log + [e];
    KeyedDecision(config, s, input);
    InputOf(config, s, input);
    forall i, j, key | 0 <= i < j < |all| && Emits(all[i], key) && Emits(all[j], key)
      ensures all[j].decision.Dispatched? ==> all[j].input.at - all[i].input.at >= 300.0
      ensures all[i].decision.Summary? && all[j].decision.Summary? ==> all[j].input.at - all[i].input.at >= 60.0
    {
      if j == |log| {
        LastIsLatest(log, i, key);
        CoveredBy(log, s, key);
        ToldTimes(log, s, key);
      } else {
        assert all[i] == log[i] && all[j] == log[j];
      }
    }
  }

  lemma ToldTimes(log: seq<Entry>, s: State, key: string)
    requires Tells(log, s)
    ensures LastTime(log, key, false).Some? ==> key in s.lastDispatch
    ensures LastTime(log, key, true).Some? ==> key in s.lastBurst
  {
  }

  /** Envelopes of one kind for a key between two instants. */
  function Sent(log: seq<Entry>, key: string, summaries: bool, from: real, to: real): nat {
    if log == [] then 0
    else
      Sent(log[..|log| - 1], key, summaries, from, to)
      + if Emits(Last(log), key) && Last(log).decision.Summary? == summaries && from <= Last(log).input.at <= to then 1 else 0
  }

  /** The latest of them. */
  function LatestSent(log: seq<Entry>, key: string, summaries: bool, from: real, to: real): (k: Option<nat>)
    ensures k.Some? ==> k.value < |log| && Emits(log[k.value], key) && log[k.value].decision.Summary? == summaries
    ensures k.Some? ==> from <= log[k.value].input.at <= to
    ensures k.Some? <==> Sent(log, key, summaries, from, to) > 0
  {
    if log == [] then None
    else if Emits(Last(log), key) && Last(log).decision.Summary? == summaries && from <= Last(log).input.at <= to then Some(|log| - 1)
    else LatestSent(log[..|log| - 1], key, summaries, from, to)
  }

  lemma SpacedPrefix(log: seq<Entry>)
    requires Spaced(log) && log != []
    ensures Spaced(log[..|log| - 1])
  {
    var early := log[..|log| - 1];
    assert forall i :: 0 <= i < |early| ==> early[i] == log[i];
  }

  /** The last of the earlier ones and a new one keep the gap. */
  lemma GapBetween(log: seq<Entry>, k: nat, key: string, summaries: bool)
    requires Spaced(log) && k < |log| - 1 && Emits(log[k], key) && Emits(Last(log), key)
    requires log[k].decision.Summary? == summaries && Last(log).decision.Summary? == summaries
    ensures Last(log).input.at - log[k].input.at >= if summaries then 60.0 else 300.0
  {
  }

  /** `n` gaps end to end. */
  function Gaps(n: nat, gap: real): real {
    if n == 0 then 0.0 else Gaps(n - 1, gap) + gap
  }

  lemma {:induction false} GapsMultiply(n: nat, gap: real)
    ensures Gaps(n, gap) == n as real * gap
  {
    if n > 0 {
      GapsMultiply(n - 1, gap);
      assert n as real * gap == (n - 1) as real * gap + gap;
    } else {
      assert 0.0 * gap == 0.0;
    }
  }

  lemma {:induction false} SpacedCount(log: seq<Entry>, key: string, summaries: bool, from: real, to: real)
    requires Spaced(log)
    ensures var n := Sent(log, key, summaries, from, to);
            var k := LatestSent(log, key, summaries, from, to);
            n > 0 ==> Gaps(n - 1, if summaries then 60.0 else 300.0) <= log[k.value].input.at - from
  {
    if log != [] {
      var early := log[..|log| - 1];
      SpacedPrefix(log);
      SpacedCount(early, key, summaries, from, to);
      hide Spaced, Emits;
      if Sent(early, key, summaries, from, to) > 0 && Emits(Last(log), key) && Last(log).decision.Summary? == summaries {
        var k := LatestSent(early, key, summaries, from, to).value;
        assert early[k] == log[k];
        GapBetween(log, k, key, summaries);
      }
    }
  }

  /** Rate: over any span of L seconds a key emits at most L/300 + L/60 + 2 envelopes. */
  lemma Rate(config: Config, inputs: seq<Input>, key: string, from: real, span: real)
    requires Forward(inputs) && span >= 0.0
    ensures var log := Run(config, inputs).1;
            (Sent(log, key, false, from, from + span) + Sent(log, key, true, from, from + span)) as real
              <= span / 300.0 + span / 60.0 + 2.0
  {
    hide Run, Sent, Spaced, Forward;
    var log := Run(config, inputs).1;
    RunSpaced(config, inputs);
    SpacedCount(log, key, false, from, from + span);
    SpacedCount(log, key, true, from, from + span);
    var n, m := Sent(log, key, false, from, from + span), Sent(log, key, true, from, from + span);
    hide Gaps;
    Quotient(n, span, 300.0);
    Quotient(m, span, 60.0);
  }

  lemma Quotient(n: nat, span: real, gap: real)
    requires gap > 0.0 && span >= 0.0
    requires n > 0 ==> Gaps(n - 1, gap) <= span
    ensures n as real <= span / gap + 1.0
  {
    if n > 0 {
      GapsMultiply(n - 1, gap);
      assert span / gap * gap == span;
      Larger((n - 1) as real, span / gap, gap);
    }
  }

  lemma Larger(x: real, y: real, gap: real)
    requires gap > 0.0
    ensures x > y ==> x * gap > y * gap
  {
    if x > y {
      assert (x - y) * gap > 0.0;
    }
  }

  // ----- each uid once ---------------------------------------------------------------------------------

  /** A uid seen before is only ever a duplicate, so it emits at most one envelope. */
  lemma {:induction false} UidOnce(config: Config, inputs: seq<Input>, i: nat, j: nat)
    requires Forward(inputs) && i < j < |inputs|
    requires Present(inputs[i].raw.uid) && inputs[i].raw.uid == inputs[j].raw.uid
    ensures |Run(config, inputs).1| == |inputs| && Run(config, inputs).1[j].decision == Duplicate
  {
    hide Processed, Forward, Tells, Decide;
    var n := |inputs| - 1;
    var early := inputs[..n];
    assert inputs == early + [inputs[n]];
    RunLength(config, inputs);
    RunStep(config, early, inputs[n]);
    RunBefore(config, early, inputs[n]);
    RunLength(config, early);
    if j < n {
      UidOnce(config, early, i, j);
    } else {
      RunTells(config, early);
      var (state, log) := Run(config, early);
      SeenUid(config, log, state, i, inputs[n]);
    }
  }

  lemma SeenUid(config: Config, log: seq<Entry>, s: State, i: nat, input: Input)
    requires Tells(log, s) && i < |log| && Present(log[i].input.raw.uid) && log[i].input.raw.uid == input.raw.uid
    ensures EntryOf(config, s, input).decision == Duplicate
  {
    assert log[i].input.raw.uid.value in Uids(log);
  }

  // ----- what a summary counts ---------------------------------------------------------------------------

  /** Sightings of a key in the burst window that went out on their own. */
  function SentInWindow(log: seq<Entry>, key: string, now: real): nat {
    if log == [] then 0
    else
      SentInWindow(log[..|log| - 1], key, now)
      + if Emits(Last(log), key) && Last(log).input.at > now - 60.0 then 1 else 0
  }

  lemma {:induction false} NoneInWindow(log: seq<Entry>, key: string, now: real)
    requires OrderedLog(log)
    requires LastTime(log, key, false).Some? ==> LastTime(log, key, false).value <= now - 60.0
    ensures SentInWindow(log, key, now) == 0
  {
    if log != [] {
      var early := log[..|log| - 1];
      if Emits(Last(log), key) {
        EarlyQuiet(log, key, now);
      } else {
        NoneInWindow(early, key, now);
      }
    }
  }

  lemma {:induction false} EarlyQuiet(log: seq<Entry>, key: string, now: real)
    requires OrderedLog(log) && log != [] && Last(log).input.at <= now - 60.0
    ensures SentInWindow(log, key, now) == 0
  {
    var early := log[..|log| - 1];
    if early != [] {
      assert early[|early| - 1] == log[|log| - 2];
      EarlyQuiet(early, key, now);
    }
  }

  /** At most one sighting of the window went out on its own, when no summary did. */
  lemma {:induction false} OneInWindow(log: seq<Entry>, key: string, now: real)
    requires OrderedLog(log) && Spaced(log) && Before(log, now)
    requires LastTime(log, key, true).Some? ==> now - LastTime(log, key, true).value >= 60.0
    ensures SentInWindow(log, key, now) <= 1
  {
    if log != [] {
      var n := |log| - 1;
      var early := log[..n];
      SpacedPrefix(log);
      assert forall i :: 0 <= i < n ==> early[i] == log[i];
      if EmitsSummary(Last(log), key) {
        EarlyQuiet(log, key, now);
      } else if Emits(Last(log), key) && Last(log).input.at > now - 60.0 {
        assert Last(log).decision.Dispatched?;
        if LastTime(early, key, false).Some? {
          LastTimeWitness(early, key);
        }
        NoneInWindow(early, key, now);
      } else {
        OneInWindow(early, key, now);
      }
    }
  }

  lemma {:induction false} LastTimeWitness(log: seq<Entry>, key: string)
    requires LastTime(log, key, false).Some?
    ensures exists i :: 0 <= i < |log| && Emits(log[i], key) && log[i].input.at == LastTime(log, key, false).value
  {
    var n := |log| - 1;
    if Emits(Last(log), key) {
      assert log[n].input.at == LastTime(log, key, false).value;
    } else {
      LastTimeWitness(log[..n], key);
      var i :| 0 <= i < n && Emits(log[..n][i], key) && log[..n][i].input.at == LastTime(log[..n], key, false).value;
      assert log[i] == log[..n][i];
    }
  }

  /** A summary reports one less than the window's size. That is the number of window
      events it stands for exactly when one of them had gone out on its own; when none
      had, it is one too few. */
  lemma SummaryCountIff(config: Config, inputs: seq<Input>, input: Input)
    requires Forward(inputs + [input])
    requires Decide(config, Run(config, inputs).0, input.raw, input.at) == Summary
    ensures var (state, log) := Run(config, inputs);
            var sighting := Sight(config, input.raw).value;
            var sent := SentInWindow(log, sighting.key, input.at);
            var standsFor := |Recent(History(log, sighting.key), input.at)| + 1 - sent;
            && sent <= 1
            && Processed(config, state, input.raw, input.at).1.envelope.burst.Some?
            && (Processed(config, state, input.raw, input.at).1.envelope.burst.value.suppressed == standsFor <==> sent == 1)
            && (sent == 0 ==> Processed(config, state, input.raw, input.at).1.envelope.burst.value.suppressed == standsFor - 1)
  {
    hide Run, Forward, Spaced, LastTime, History, Recent, SentInWindow, Uids, LastSeen, TellsCounts, OrderedLog, Before, MatchHook, Normalize;
    var (state, log) := Run(config, inputs);
    var sighting := Sight(config, input.raw).value;
    RunBefore(config, inputs, input);
    RunTells(config, inputs);
    RunSpaced(config, inputs);
    RunOrdered(config, inputs);
    PrunedHistory(log, state, sighting.key, input.at);
    OneInWindow(log, sighting.key, input.at);
  }

  // ----- a summary that miscounts -------------------------------------------------------------

  function Tick(n: nat): RawEvent {
    RawEvent(Some(seq(n + 1, _ => 'u')), Some("Pod"), Some("OOMKilled"), Some("api"), None, None, Some("then"), None, None, Some(""))
  }

  /** One event at zero, then `n` more at 100 seconds. */
  function Ticks(n: nat): (inputs: seq<Input>)
    ensures |inputs| == n + 1
  {
    [Input(Tick(0), 0.0)] + seq(n, i requires 0 <= i < n => Input(Tick(i + 1), 100.0))
  }

  lemma TickSighted(config: Config, n: nat)
    ensures Present(Tick(n).uid) && Sight(config, Tick(n)).Some?
    ensures Sight(config, Tick(n)).value.key == Sight(config, Tick(0)).value.key
    ensures Sight(config, Tick(n)).value.event.timestamp == "then"
  {
    OomHook(Tick(n));
    OomHook(Tick(0));
    hide MatchHook;
  }

  lemma OomHook(raw: RawEvent)
    requires raw.kind == Some("Pod") && raw.reason == Some("OOMKilled")
    ensures MatchHook(raw) == Some(HOOKS[1])
  {
    assert "OOMKilled"[0] != "Restarted"[0];
    assert HOOKS[1..][0] == HOOKS[1];
    assert FindHook(HOOKS, raw) == FindHook(HOOKS[1..], raw);
  }

  function TickKey(config: Config): string {
    TickSighted(config, 0);
    Sight(config, Tick(0)).value.key
  }

  /** What the run of `Ticks(n)` leaves: one dispatch, then `n` deduplicated events. */
  ghost predicate Ticked(config: Config, state: State, log: seq<Entry>, n: nat) {
    var key := TickKey(config);
    && (forall uid :: uid in state.seen ==> |uid| <= n + 1)
    && key in state.lastDispatch && state.lastDispatch[key] == 0.0
    && key !in state.lastBurst && key in state.window
    && |Recent(state.window[key], 100.0)| == n
    && SentInWindow(log, key, 100.0) == 0
  }

  lemma TicksNext(n: nat)
    ensures Ticks(n + 1)[..|Ticks(n + 1)| - 1] == Ticks(n) && Ticks(n + 1)[|Ticks(n + 1)| - 1] == Input(Tick(n + 1), 100.0)
  {
  }

  lemma SentNext(log: seq<Entry>, entry: Entry, key: string, now: real)
    ensures SentInWindow(log + [entry], key, now)
         == SentInWindow(log, key, now) + if Emits(entry, key) && entry.input.at > now - 60.0 then 1 else 0
  {
    assert (log + [entry])[..|log|] == log;
  }

  lemma FirstDecision(config: Config)
    ensures Decide(config, START, Tick(0), 0.0) == Dispatched
    ensures var state := Processed(config, START, Tick(0), 0.0).0;
            var key := TickKey(config);
            && state.seen == {Tick(0).uid.value} && state.lastDispatch == map[key := 0.0] && state.lastBurst == map[]
            && state.window == map[key := [Stamp(0.0, "then")]]
  {
    hide Sight, MatchHook, Normalize;
    TickSighted(config, 0);
    SightedMatches(config, Tick(0));
    var sighting := Sight(config, Tick(0)).value;
    assert Recent([], 0.0) + [Stamp(0.0, "then")] == [Stamp(0.0, "then")];
    assert WindowAt(START, sighting, 0.0) == [Stamp(0.0, "then")];
  }

  /** The first event of all is dispatched. */
  lemma FirstTick(config: Config)
    ensures Ticked(config, Run(config, Ticks(0)).0, Run(config, Ticks(0)).1, 0)
  {
    hide Sight, MatchHook, Normalize, Processed, Decide;
    FirstDecision(config);
    var input := Input(Tick(0), 0.0);
    assert Ticks(0) == [input] && [input][..0] == [];
    assert Run(config, []) == (START, []);
    var (state, log) := Run(config, Ticks(0));
    assert log == [] + [EntryOf(config, START, input)];
    SentNext([], EntryOf(config, START, input), TickKey(config), 100.0);
    assert Recent([Stamp(0.0, "then")], 100.0) == [] by {
      assert [Stamp(0.0, "then")][1..] == [];
    }
  }

  /** Each later one is deduplicated, as long as there are no more than ten. */
  lemma NextTick(config: Config, state: State, log: seq<Entry>, n: nat)
    requires n < 10 && Ticked(config, state, log, n)
    ensures var input := Input(Tick(n + 1), 100.0);
            Ticked(config, Processed(config, state, input.raw, input.at).0, log + [EntryOf(config, state, input)], n + 1)
  {
    hide Sight, MatchHook, SentInWindow;
    TickSighted(config, n + 1);
    var input := Input(Tick(n + 1), 100.0);
    var key := TickKey(config);
    var sighting := Sight(config, input.raw).value;
    assert MatchHook(input.raw).Some? && Sight(config, Tick(0)).value.key == key by {
      SightedMatches(config, input.raw);
      TickSighted(config, 0);
    }
    var kept := Recent(state.window[key], 100.0);
    assert |input.raw.uid.value| == n + 2 && input.raw.uid.value !in state.seen;
    SentNext(log, EntryOf(config, state, input), key, 100.0);
    RecentTwice(state.window[key], 100.0, 100.0);
    RecentAppend(kept, [Stamp(100.0, "then")], 100.0);
    assert Recent([Stamp(100.0, "then")], 100.0) == [Stamp(100.0, "then")] by {
      assert [Stamp(100.0, "then")][1..] == [];
    }
    assert WindowAt(state, sighting, 100.0) == kept + [Stamp(100.0, "then")];
    assert DecideSighted(state, sighting, 100.0) == Deduped;
  }

  lemma SightedMatches(config: Config, raw: RawEvent)
    requires Present(raw.uid) && Sight(config, raw).Some?
    ensures MatchHook(raw).Some?
  {
  }

  lemma {:induction false} TicksRun(config: Config, n: nat)
    requires n <= 10
    ensures Ticked(config, Run(config, Ticks(n)).0, Run(config, Ticks(n)).1, n)
  {
    hide Ticked, Ticks, Processed, EntryOf;
    if n == 0 {
      FirstTick(config);
    } else {
      TicksRun(config, n - 1);
      TicksNext(n - 1);
      var (state, log) := Run(config, Ticks(n - 1));
      NextTick(config, state, log, n - 1);
    }
  }

  /** Eleven events within one minute after a dispatch 100 seconds before: the summary says
      that it stands for ten. */
  lemma SummaryMiscounts(config: Config)
    ensures var inputs := Ticks(10);
            var input := Input(Tick(11), 100.0);
            var (state, log) := Run(config, inputs);
            && Forward(inputs + [input])
            && Decide(config, state, input.raw, input.at) == Summary
            && Processed(config, state, input.raw, input.at).1.envelope.burst.value.suppressed == 10
            && |Recent(History(log, TickKey(config)), 100.0)| + 1 == 11 && SentInWindow(log, TickKey(config), 100.0) == 0
  {
    hide Run, Sight, MatchHook, SentInWindow, History, Recent, Forward;
    var inputs := Ticks(10);
    var input := Input(Tick(11), 100.0);
    TicksForward();
    TicksRun(config, 10);
    TickSighted(config, 11);
    TickSighted(config, 0);
    SightedMatches(config, input.raw);
    var (state, log) := Run(config, inputs);
    var key := TickKey(config);
    assert |input.raw.uid.value| == 12 && input.raw.uid.value !in state.seen;
    assert |WindowAt(state, Sight(config, input.raw).value, 100.0)| == 11;
    assert Decide(config, state, input.raw, input.at) == Summary;
    SummaryCountIff(config, inputs, input);
  }

  lemma TicksForward()
    ensures Forward(Ticks(10) + [Input(Tick(11), 100.0)])
  {
  }
}
