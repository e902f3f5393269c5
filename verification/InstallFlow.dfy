/** The resumable install flow (install/flow.py): seven steps in order, each skipped when
    the journal says it completed on the same inputs and its outputs exist. What the
    steps compute is a parameter; flags, contracts and the repository stay fixed. */
module InstallFlow {
  import opened Results

  datatype Step = Preflight | Grading | ModeRecommendation | ContractCapture | Render | Bootstrap | Readiness

  const ORDER: seq<Step> := [Preflight, Grading, ModeRecommendation, ContractCapture, Render, Bootstrap, Readiness]

  /** The files of the output directory, the journal aside. */
  datatype File =
    | PreflightReport
    | CapabilityMatrix
    | CompatibilityResult
    | RemediationList
    | Recommendation
    | AnswersJson
    | InstallContract
    | Overlay(path: string)
    | BootstrapManifest(path: string)
    | Summary

  type Disk = map<File, string>

  /** A cluster: a snapshot's bytes, or what is read live. */
  datatype Source = Snapshot(bytes: string) | Live(bytes: string)

  /** One invocation: the `--answers` file's text if given, and what the wizard would
      capture if asked. */
  datatype Args = Args(source: Source, answers: Option<string>, wizard: Option<string>)

  datatype Evaluation = Evaluation(matrix: string, result: string, remediations: string, mode: string, blocked: bool)

  datatype Produced = Produced(files: map<string, string>, ok: bool)

  /** What the steps compute. `None` is an operator error before anything is written.
      `canonical` is the canonical text of an answers document; answers are held as it. */
  datatype Engine = Engine(
    sha: string -> string,
    canonical: string -> Option<string>,
    preflight: string -> Option<(string, bool)>,
    evaluate: (string, string) -> Option<Evaluation>,
    valid: string -> bool,
    overlay: string -> Produced,
    bootstrap: string -> Produced,
    readiness: string -> (string, bool))

  datatype Status = Completed | Failed

  datatype Entry = Entry(status: Status, digest: Option<string>, outputs: set<File>)

  type Journal = map<Step, Entry>

  /** The output directory between two invocations. */
  datatype World = World(disk: Disk, journal: Journal)

  /** The state of one invocation. */
  datatype State = State(disk: Disk, journal: Journal, answers: Option<string>, executed: seq<Step>)

  // ----- answers and digests ------------------------------------------------------------

  datatype Fault = OperatorError

  /** `_resolve_answers_mapping`. */
  function Resolve(engine: Engine, args: Args, disk: Disk, cached: Option<string>): Result<Option<string>, Fault> {
    if cached.Some? then Ok(cached)
    else if args.answers.Some? || AnswersJson in disk then
      match engine.canonical(if args.answers.Some? then args.answers.value else disk[AnswersJson])
      case None => Err(OperatorError)
      case Some(answers) => Ok(Some(answers))
    else Ok(None)
  }

  predicate OnSnapshot(step: Step) {
    step.Preflight? || step.Grading? || step.ModeRecommendation?
  }

  /** `_step_input_digest` of known inputs. The readiness digest runs on from the
      snapshot to the answers. */
  function Digest(engine: Engine, step: Step, source: Source, answers: Option<string>): Option<string> {
    if OnSnapshot(step) then if source.Snapshot? then Some(engine.sha(source.bytes)) else None
    else if step.Readiness? then
      if source.Snapshot? && answers.Some? then Some(engine.sha(source.bytes + answers.value)) else None
    else if answers.Some? then Some(engine.sha(answers.value))
    else None
  }

  // ----- executing a step ------------------------------------------------------------------

  /** What a step wrote, whether it completed, and the answers it captured. */
  datatype Execution = Execution(writes: Disk, ok: bool, answers: Option<string>)

  const FAILED: Execution := Execution(map[], false, None)

  function OverlayFiles(files: map<string, string>): Disk {
    map p | p in files :: Overlay(p) := files[p]
  }

  function BootstrapFiles(files: map<string, string>): Disk {
    map p | p in files :: BootstrapManifest(p) := files[p]
  }

  function GradingFiles(e: Evaluation): Disk {
    map[CapabilityMatrix := e.matrix, CompatibilityResult := e.result, RemediationList := e.remediations]
  }

  /** The answers document contract capture starts from. */
  function CaptureSource(engine: Engine, args: Args, disk: Disk): Option<string> {
    if args.answers.Some? then engine.canonical(args.answers.value)
    else if AnswersJson in disk then engine.canonical(disk[AnswersJson])
    else args.wizard
  }

  /** The step executors. */
  function Execute(engine: Engine, args: Args, step: Step, disk: Disk, answers: Option<string>): Execution {
    var bytes := args.source.bytes;
    match step
    case Preflight =>
      (match engine.preflight(bytes)
       case None => FAILED
       case Some((report, passed)) => Execution(map[PreflightReport := report], passed, None))
    case Grading =>
      if PreflightReport !in disk then FAILED
      else
        (match engine.evaluate(disk[PreflightReport], bytes)
         case None => FAILED
         case Some(e) => Execution(GradingFiles(e), !e.blocked, None))
    case ModeRecommendation =>
      if PreflightReport !in disk then FAILED
      else
        (match engine.evaluate(disk[PreflightReport], bytes)
         case None => FAILED
         case Some(e) => Execution(map[Recommendation := e.mode], true, None))
    case ContractCapture =>
      (match CaptureSource(engine, args, disk)
       case None => FAILED
       case Some(mapping) =>
         if !engine.valid(mapping) then FAILED
         else Execution(map[AnswersJson := mapping, InstallContract := mapping], true, Some(mapping)))
    case Render =>
      if answers.None? then FAILED
      else
        var p := engine.overlay(answers.value);
        Execution(OverlayFiles(p.files), p.ok, None)
    case Bootstrap =>
      if answers.None? then FAILED
      else
        var p := engine.bootstrap(answers.value);
        Execution(BootstrapFiles(p.files), p.ok, None)
    case Readiness =>
      if answers.None? then FAILED
      else
        var (summary, passed) := engine.readiness(answers.value);
        Execution(map[Summary := summary], passed, None)
  }

  // ----- the engine ----------------------------------------------------------------------------

  /** The cached answers a step's digest leaves behind; `Err` aborts the flow. */
  function Answers(engine: Engine, args: Args, st: State, step: Step): Result<Option<string>, Fault> {
    if OnSnapshot(step) then Ok(st.answers) else Resolve(engine, args, st.disk, st.answers)
  }

  /** The skip rule. */
  predicate Skips(journal: Journal, step: Step, digest: Option<string>, disk: Disk) {
    && step in journal && journal[step].status.Completed?
    && digest.Some? && journal[step].digest == digest
    && journal[step].outputs <= disk.Keys
  }

  /** One turn of the step loop. */
  function Turn(engine: Engine, args: Args, st: State, step: Step): (State, bool) {
    match Answers(engine, args, st, step)
    case Err(_) => (st, false)
    case Ok(answers) =>
      var digest := Digest(engine, step, args.source, answers);
      if Skips(st.journal, step, digest, st.disk) then (st.(answers := answers), true)
      else
        var execution := Execute(engine, args, step, st.disk, answers);
        var disk := st.disk + execution.writes;
        if !execution.ok then (State(disk, st.journal[step := Entry(Failed, digest, {})], answers, st.executed), false)
        else
          var known := if execution.answers.Some? then execution.answers else answers;
          var after := Digest(engine, step, args.source, known);
          (State(disk, st.journal[step := Entry(Completed, after, execution.writes.Keys)], known, st.executed + [step]), true)
  }

  /** The loop from the i-th step: the last state, and the step that failed. */
  function From(engine: Engine, args: Args, st: State, i: nat): (State, Option<nat>)
    requires i <= |ORDER|
    decreases |ORDER| - i
  {
    if i == |ORDER| then (st, None)
    else
      var (next, ok) := Turn(engine, args, st, ORDER[i]);
      if !ok then (next, Some(i)) else From(engine, args, next, i + 1)
  }

  function Begin(w: World): State {
    State(w.disk, w.journal, None, [])
  }

  /** `_execute_flow`. */
  function Install(engine: Engine, args: Args, w: World): (State, Option<nat>) {
    From(engine, args, Begin(w), 0)
  }

  function End(st: State): World {
    World(st.disk, st.journal)
  }

  /** The flow as it runs: a loop over the steps that updates the state in place. */
  class Flow {
    const engine: Engine
    var disk: Disk
    var journal: Journal
    var answers: Option<string>
    var executed: seq<Step>

    function View(): State
      reads this
    {
      State(disk, journal, answers, executed)
    }

    constructor (engine: Engine, w: World)
      ensures this.engine == engine && View() == Begin(w)
    {
      this.engine := engine;
      disk, journal, answers, executed := w.disk, w.journal, None, [];
    }

    /** `_record_step`: the journal is only rewritten when the entry changes. */
    method RecordStep(step: Step, status: Status, digest: Option<string>, outputs: set<File>)
      modifies this`journal
      ensures journal == old(journal)[step := Entry(status, digest, outputs)]
    {
      var entry := Entry(status, digest, outputs);
      if step !in journal || journal[step] != entry {
        journal := journal[step := entry];
      } else {
        assert journal[step := entry] == journal;
      }
    }

    method RunStep(args: Args, step: Step) returns (ok: bool)
      modifies this
      ensures (View(), ok) == Turn(engine, args, old(View()), step)
    {
      hide Execute, Resolve;
      if !OnSnapshot(step) {
        var resolved := Resolve(engine, args, disk, answers);
        if resolved.Err? {
          return false;
        }
        answers := resolved.value;
      }
      var digest := Digest(engine, step, args.source, answers);
      if Skips(journal, step, digest, disk) {
        return true;
      }
      var execution := Execute(engine, args, step, disk, answers);
      disk := disk + execution.writes;
      if !execution.ok {
        RecordStep(step, Failed, digest, {});
        return false;
      }
      if execution.answers.Some? {
        answers := execution.answers;
      }
      RecordStep(step, Completed, Digest(engine, step, args.source, answers), execution.writes.Keys);
      executed := executed + [step];
      ok := true;
    }

    /** `_execute_flow`. */
    method Run(args: Args) returns (failed: Option<nat>)
      requires answers.None? && executed == []
      modifies this
      ensures (View(), failed) == Install(engine, args, old(World(disk, journal)))
    {
      hide Turn;
      ghost var start := View();
      var i := 0;
      while i < |ORDER|
        invariant 0 <= i <= |ORDER|
        invariant From(engine, args, start, 0) == From(engine, args, View(), i)
      {
        var ok := RunStep(args, ORDER[i]);
        if !ok {
          return Some(i);
        }
        i := i + 1;
      }
      failed := None;
    }
  }
}
