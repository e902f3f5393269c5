/** The journal tells the truth: a step recorded as completed has on disk what running it
    again on the recorded inputs would write. */
module InstallLaws {
  import opened Results
  import opened InstallFlow

  // ----- what is taken for granted ----------------------------------------------------------

  predicate Accepted(engine: Engine, snapshot: string) {
    engine.preflight(snapshot).Some?
  }

  predicate Canonical(engine: Engine, answers: string) {
    engine.canonical(answers) == Some(answers)
  }

  /** Digests do not collide, canonical text is canonical, and the readiness digest's
      input can be taken apart: an accepted snapshot followed by answers is so in only
      one way. */
  ghost predicate Lawful(engine: Engine) {
    && (forall x, y :: engine.sha(x) == engine.sha(y) ==> x == y)
    && (forall text :: engine.canonical(text).Some? ==> Canonical(engine, engine.canonical(text).value))
    && (forall s, a, t, b :: Accepted(engine, s) && Accepted(engine, t) && Canonical(engine, a) && Canonical(engine, b) && s + a == t + b
          ==> s == t && a == b)
  }

  predicate Proper(engine: Engine, args: Args) {
    args.wizard.Some? ==> Canonical(engine, args.wizard.value)
  }

  // ----- what a step leaves for its inputs -----------------------------------------------------

  /** What a completed step leaves on disk, from the snapshot and the answers alone. */
  function Expected(engine: Engine, step: Step, s: string, a: string): Option<Disk> {
    match step
    case Preflight =>
      (match engine.preflight(s) case Some((report, true)) => Some(map[PreflightReport := report]) case _ => None)
    case Grading =>
      (match engine.preflight(s)
       case Some((report, true)) =>
         (match engine.evaluate(report, s) case Some(e) => (if e.blocked then None else Some(GradingFiles(e))) case None => None)
       case _ => None)
    case ModeRecommendation =>
      (match engine.preflight(s)
       case Some((report, true)) =>
         (match engine.evaluate(report, s) case Some(e) => Some(map[Recommendation := e.mode]) case None => None)
       case _ => None)
    case ContractCapture => if engine.valid(a) then Some(map[AnswersJson := a, InstallContract := a]) else None
    case Render => if engine.overlay(a).ok then Some(OverlayFiles(engine.overlay(a).files)) else None
    case Bootstrap => if engine.bootstrap(a).ok then Some(BootstrapFiles(engine.bootstrap(a).files)) else None
    case Readiness => if engine.readiness(a).1 then Some(map[Summary := engine.readiness(a).0]) else None
  }

  ghost predicate OnDisk(files: Disk, disk: Disk) {
    forall f :: f in files ==> f in disk && disk[f] == files[f]
  }

  /** The inputs a step's digest ranges over are ones the flow can have had. */
  predicate Possible(engine: Engine, step: Step, s: string, a: string) {
    && (OnSnapshot(step) || step.Readiness? ==> Accepted(engine, s))
    && (!OnSnapshot(step) ==> Canonical(engine, a))
  }

  /** The entry's digest is that of these inputs, and its outputs are on disk with the
      content these inputs give. */
  ghost predicate TrueOf(engine: Engine, step: Step, entry: Entry, disk: Disk, s: string, a: string) {
    && Possible(engine, step, s, a)
    && entry.digest == Digest(engine, step, Snapshot(s), Some(a))
    && Expected(engine, step, s, a).Some?
    && Expected(engine, step, s, a).value.Keys == entry.outputs
    && OnDisk(Expected(engine, step, s, a).value, disk)
  }

  /** Journal soundness: a completed entry lists files of its own step, and is true as long as
      none of them is gone. */
  ghost predicate Sound(engine: Engine, disk: Disk, journal: Journal) {
    forall step :: step in journal && journal[step].status.Completed? && journal[step].digest.Some? ==>
      && (forall f :: f in journal[step].outputs ==> Owner(f) == step)
      && (journal[step].outputs <= disk.Keys ==> exists s, a :: TrueOf(engine, step, journal[step], disk, s, a))
  }

  // ----- files belong to steps ---------------------------------------------------------------------

  function Owner(f: File): Step {
    match f
    case PreflightReport => Preflight
    case CapabilityMatrix => Grading
    case CompatibilityResult => Grading
    case RemediationList => Grading
    case Recommendation => ModeRecommendation
    case AnswersJson => ContractCapture
    case InstallContract => ContractCapture
    case Overlay(_) => Render
    case BootstrapManifest(_) => Bootstrap
    case Summary => Readiness
  }

  lemma WritesOwn(engine: Engine, args: Args, step: Step, disk: Disk, answers: Option<string>)
    ensures forall f :: f in Execute(engine, args, step, disk, answers).writes ==> Owner(f) == step
  {
  }

  lemma ExpectedOwn(engine: Engine, step: Step, s: string, a: string)
    requires Expected(engine, step, s, a).Some?
    ensures forall f :: f in Expected(engine, step, s, a).value ==> Owner(f) == step
  {
  }

  /** Writing one step's files leaves the truth of every other step's entry. */
  lemma OtherStepsKeep(engine: Engine, disk: Disk, writes: Disk, journal: Journal, after: Journal, step: Step)
    requires Sound(engine, disk, journal)
    requires forall f :: f in writes ==> Owner(f) == step
    requires step in after && (after[step].status.Completed? && after[step].digest.Some? ==>
               (forall f :: f in after[step].outputs ==> Owner(f) == step) && exists s, a :: TrueOf(engine, step, after[step], disk + writes, s, a))
    requires after == journal[step := after[step]]
    ensures Sound(engine, disk + writes, after)
  {
    forall other | other in after && after[other].status.Completed? && after[other].digest.Some?
      ensures forall f :: f in after[other].outputs ==> Owner(f) == other
      ensures after[other].outputs <= (disk + writes).Keys ==> exists s, a :: TrueOf(engine, other, after[other], disk + writes, s, a)
    {
      if other != step && after[other].outputs <= (disk + writes).Keys {
        assert other in journal && after[other] == journal[other];
        assert after[other].outputs <= disk.Keys;
        var s, a :| TrueOf(engine, other, journal[other], disk, s, a);
        ExpectedOwn(engine, other, s, a);
        assert TrueOf(engine, other, after[other], disk + writes, s, a);
      }
    }
  }

  // ----- one invocation ---------------------------------------------------------------------------------

  function Bytes(args: Args): string {
    args.source.bytes
  }

  function Known(answers: Option<string>): string {
    if answers.Some? then answers.value else ""
  }

  /** The step is done for this invocation: its files are on disk as its inputs give
      them, and the journal says so. */
  ghost predicate DoneFor(engine: Engine, args: Args, st: State, step: Step) {
    && (!OnSnapshot(step) ==> st.answers.Some?)
    && Expected(engine, step, Bytes(args), Known(st.answers)).Some?
    && OnDisk(Expected(engine, step, Bytes(args), Known(st.answers)).value, st.disk)
    && step in st.journal && st.journal[step].status.Completed?
    && st.journal[step].digest == Digest(engine, step, args.source, st.answers)
    && st.journal[step].outputs == Expected(engine, step, Bytes(args), Known(st.answers)).value.Keys
  }

  /** The state before the i-th step: the earlier ones are done. */
  ghost predicate Ready(engine: Engine, args: Args, st: State, i: nat)
    requires i <= |ORDER|
  {
    && (forall j :: 0 <= j < i ==> DoneFor(engine, args, st, ORDER[j]))
    && (st.answers.Some? ==> Canonical(engine, st.answers.value))
    && (i <= 3 ==> st.answers.None?)
  }

  lemma EarlierSteps(engine: Engine, args: Args, st: State, i: nat)
    requires i < |ORDER| && Ready(engine, args, st, i)
    ensures i > 0 ==> DoneFor(engine, args, st, Preflight)
    ensures i > 3 ==> DoneFor(engine, args, st, ContractCapture) && st.answers.Some?
  {
    assert ORDER[0] == Preflight && ORDER[3] == ContractCapture;
  }

  /** With the earlier steps done, a step completes exactly when its inputs have an
      expected result, and then writes exactly that. */
  lemma ExecuteIs(engine: Engine, args: Args, st: State, i: nat, answers: Option<string>)
    requires i < |ORDER| && Ready(engine, args, st, i)
    requires if OnSnapshot(ORDER[i]) then answers == st.answers else Resolve(engine, args, st.disk, st.answers) == Ok(answers)
    ensures var step := ORDER[i];
            var e := Execute(engine, args, step, st.disk, answers);
            var known := if e.answers.Some? then e.answers else answers;
            && (e.ok ==> Expected(engine, step, Bytes(args), Known(known)) == Some(e.writes) && (!OnSnapshot(step) ==> known.Some?))
            && (e.answers.Some? ==> step.ContractCapture? && e.answers == CaptureSource(engine, args, st.disk))
            && (answers.Some? && Expected(engine, step, Bytes(args), Known(answers)).Some? ==> e.ok && known == answers)
            && (OnSnapshot(step) && Expected(engine, step, Bytes(args), Known(answers)).Some? ==> e.ok && known == answers)
  {
    EarlierSteps(engine, args, st, i);
    if ORDER[i].ContractCapture? {
      CaptureIsResolved(engine, args, st, i, answers);
    }
  }

  /** Contract capture starts from the answers its digest was computed on. */
  lemma CaptureIsResolved(engine: Engine, args: Args, st: State, i: nat, answers: Option<string>)
    requires i < |ORDER| && ORDER[i].ContractCapture? && Ready(engine, args, st, i)
    requires Resolve(engine, args, st.disk, st.answers) == Ok(answers)
    ensures answers.Some? && st.answers.None? ==> CaptureSource(engine, args, st.disk) == answers
    ensures st.answers.None?
  {
  }

  lemma CanonicalAnswers(engine: Engine, args: Args, st: State, i: nat, step: Step)
    requires Lawful(engine) && Proper(engine, args) && i < |ORDER| && step == ORDER[i] && Ready(engine, args, st, i)
    requires Answers(engine, args, st, step).Ok?
    ensures var answers := Answers(engine, args, st, step).value;
            && (answers.Some? ==> Canonical(engine, answers.value))
            && (OnSnapshot(step) ==> answers == st.answers)
            && (!OnSnapshot(step) ==> Resolve(engine, args, st.disk, st.answers) == Ok(answers))
            && (i > 3 ==> answers == st.answers)
    ensures CaptureSource(engine, args, st.disk).Some? ==> Canonical(engine, CaptureSource(engine, args, st.disk).value)
  {
    EarlierSteps(engine, args, st, i);
  }

  /** Files of other steps stay done. */
  lemma DoneKept(engine: Engine, args: Args, st: State, next: State, i: nat, writes: Disk)
    requires i < |ORDER| && Ready(engine, args, st, i)
    requires forall f :: f in writes ==> Owner(f) == ORDER[i]
    requires next.disk == st.disk + writes && ORDER[i] in next.journal && next.journal == st.journal[ORDER[i] := next.journal[ORDER[i]]]
    requires i != 3 ==> next.answers == st.answers
    ensures forall j :: 0 <= j < i ==> DoneFor(engine, args, next, ORDER[j])
  {
    forall j | 0 <= j < i ensures DoneFor(engine, args, next, ORDER[j]) {
      OrderDistinct(i, j);
      var step := ORDER[j];
      assert DoneFor(engine, args, st, step);
      SameAnswers(engine, args, st, next, step, i);
      ExpectedOwn(engine, step, Bytes(args), Known(st.answers));
    }
  }

  lemma OrderDistinct(i: nat, j: nat)
    requires j < i < |ORDER|
    ensures ORDER[i] != ORDER[j]
    ensures i <= 3 ==> OnSnapshot(ORDER[j])
  {
  }

  lemma SameAnswers(engine: Engine, args: Args, st: State, next: State, step: Step, i: nat)
    requires next.answers == st.answers || OnSnapshot(step)
    ensures Expected(engine, step, Bytes(args), Known(next.answers)) == Expected(engine, step, Bytes(args), Known(st.answers))
    ensures Digest(engine, step, args.source, next.answers) == Digest(engine, step, args.source, st.answers)
  {
  }

  /** Equal digests of a step mean equal inputs, as far as the step looks at them. */
  lemma SameDigest(engine: Engine, args: Args, step: Step, answers: Option<string>, s: string, a: string)
    requires Lawful(engine) && Possible(engine, step, s, a)
    requires OnSnapshot(step) || (answers.Some? && Canonical(engine, answers.value))
    requires step.Readiness? ==> Accepted(engine, Bytes(args))
    requires Digest(engine, step, args.source, answers).Some?
    requires Digest(engine, step, args.source, answers) == Digest(engine, step, Snapshot(s), Some(a))
    ensures Expected(engine, step, s, a) == Expected(engine, step, Bytes(args), Known(answers))
  {
  }

  /** A skipped step is done already: its files are what running it now would write. */
  lemma SkippedIsDone(engine: Engine, args: Args, st: State, i: nat, answers: Option<string>)
    requires Lawful(engine) && Proper(engine, args) && i < |ORDER| && Ready(engine, args, st, i)
    requires Sound(engine, st.disk, st.journal) && Answers(engine, args, st, ORDER[i]) == Ok(answers)
    requires Skips(st.journal, ORDER[i], Digest(engine, ORDER[i], args.source, answers), st.disk)
    ensures var next := st.(answers := answers); Ready(engine, args, next, i + 1)
  {
    var step := ORDER[i];
    var next := st.(answers := answers);
    CanonicalAnswers(engine, args, st, i, step);
    EarlierSteps(engine, args, st, i);
    var s, a :| TrueOf(engine, step, st.journal[step], st.disk, s, a);
    SameDigest(engine, args, step, answers, s, a);
    assert DoneFor(engine, args, next, step);
    forall j | 0 <= j < i ensures DoneFor(engine, args, next, ORDER[j]) {
      OrderDistinct(i, j);
      SameAnswers(engine, args, st, next, ORDER[j], i);
    }
  }

  /** Skipping equals running: executing the skipped step would complete and write the
      bytes its outputs already hold. */
  lemma SkipIsRerun(engine: Engine, args: Args, st: State, i: nat, answers: Option<string>)
    requires Lawful(engine) && Proper(engine, args) && i < |ORDER| && Ready(engine, args, st, i)
    requires Sound(engine, st.disk, st.journal) && Answers(engine, args, st, ORDER[i]) == Ok(answers)
    requires Skips(st.journal, ORDER[i], Digest(engine, ORDER[i], args.source, answers), st.disk)
    ensures var e := Execute(engine, args, ORDER[i], st.disk, answers);
            && e.ok
            && e.writes.Keys == st.journal[ORDER[i]].outputs
            && st.disk + e.writes == st.disk
  {
    var step := ORDER[i];
    var next := st.(answers := answers);
    SkippedIsDone(engine, args, st, i, answers);
    assert DoneFor(engine, args, next, ORDER[i]);
    CanonicalAnswers(engine, args, st, i, step);
    ExecuteIs(engine, args, st, i, answers);
  }

  /** A completed execution makes the step done. */
  lemma ExecutedIsDone(engine: Engine, args: Args, st: State, i: nat, answers: Option<string>, next: State)
    requires Lawful(engine) && Proper(engine, args) && i < |ORDER| && Ready(engine, args, st, i)
    requires Answers(engine, args, st, ORDER[i]) == Ok(answers)
    requires !Skips(st.journal, ORDER[i], Digest(engine, ORDER[i], args.source, answers), st.disk)
    requires Turn(engine, args, st, ORDER[i]) == (next, true)
    ensures Ready(engine, args, next, i + 1)
  {
    var step := ORDER[i];
    var e := Execute(engine, args, step, st.disk, answers);
    CanonicalAnswers(engine, args, st, i, step);
    EarlierSteps(engine, args, st, i);
    ExecuteIs(engine, args, st, i, answers);
    WritesOwn(engine, args, step, st.disk, answers);
    hide Execute, Expected, CaptureSource, Resolve, Skips;
    if i == 3 {
      ReadyAfterCapture(engine, args, st, next, e.writes);
    } else {
      DoneKept(engine, args, st, next, i, e.writes);
    }
    assert DoneFor(engine, args, next, step);
  }

  lemma ReadyAfterCapture(engine: Engine, args: Args, st: State, next: State, writes: Disk)
    requires Ready(engine, args, st, 3)
    requires forall f :: f in writes ==> Owner(f) == ContractCapture
    requires next.disk == st.disk + writes && ContractCapture in next.journal
    requires next.journal == st.journal[ContractCapture := next.journal[ContractCapture]]
    ensures forall j :: 0 <= j < 3 ==> DoneFor(engine, args, next, ORDER[j])
  {
    DoneKept(engine, args, st, next, 3, writes);
  }

  /** Every turn keeps the journal sound, whether the step is skipped, completes or fails
      after writing. */
  lemma TurnSound(engine: Engine, args: Args, st: State, i: nat)
    requires Lawful(engine) && Proper(engine, args) && i < |ORDER| && Ready(engine, args, st, i) && Sound(engine, st.disk, st.journal)
    ensures var (next, ok) := Turn(engine, args, st, ORDER[i]);
            && Sound(engine, next.disk, next.journal)
            && (ok ==> Ready(engine, args, next, i + 1))
  {
    hide Execute, Expected, CaptureSource, Resolve, Ready, Sound, Lawful;
    var step := ORDER[i];
    var (next, ok) := Turn(engine, args, st, step);
    if Answers(engine, args, st, step).Ok? {
      var answers := Answers(engine, args, st, step).value;
      if Skips(st.journal, step, Digest(engine, step, args.source, answers), st.disk) {
        SkippedIsDone(engine, args, st, i, answers);
      } else {
        var e := Execute(engine, args, step, st.disk, answers);
        WritesOwn(engine, args, step, st.disk, answers);
        if ok {
          ExecutedIsDone(engine, args, st, i, answers, next);
          if next.journal[step].digest.Some? {
            EntryTrue(engine, args, next, i);
          }
        }
        OtherStepsKeep(engine, st.disk, e.writes, st.journal, next.journal, step);
      }
    }
  }

  lemma EntryTrue(engine: Engine, args: Args, next: State, i: nat)
    requires i < |ORDER| && Ready(engine, args, next, i + 1) && ORDER[i] in next.journal && next.journal[ORDER[i]].digest.Some?
    ensures exists s, a :: TrueOf(engine, ORDER[i], next.journal[ORDER[i]], next.disk, s, a)
  {
    var step := ORDER[i];
    assert DoneFor(engine, args, next, ORDER[i]);
    assert DoneFor(engine, args, next, ORDER[0]);
    assert TrueOf(engine, step, next.journal[step], next.disk, Bytes(args), Known(next.answers));
  }

  // ----- whole invocations and runs ---------------------------------------------------------------------

  lemma {:induction false} FromSound(engine: Engine, args: Args, st: State, i: nat)
    requires Lawful(engine) && Proper(engine, args) && i <= |ORDER| && Ready(engine, args, st, i) && Sound(engine, st.disk, st.journal)
    ensures var (last, failed) := From(engine, args, st, i);
            && Sound(engine, last.disk, last.journal)
            && (failed.None? ==> Ready(engine, args, last, |ORDER|))
    decreases |ORDER| - i
  {
    hide Turn, Ready, Sound, Lawful;
    if i < |ORDER| {
      TurnSound(engine, args, st, i);
      var (next, ok) := Turn(engine, args, st, ORDER[i]);
      if ok {
        FromSound(engine, args, next, i + 1);
      }
    }
  }

  lemma BeginReady(engine: Engine, args: Args, w: World)
    ensures Ready(engine, args, Begin(w), 0)
  {
  }

  /** What happens to an output directory: installs, and files that go away between them. */
  datatype Happening = Installs(args: Args) | Loses(files: set<File>)

  function Happened(engine: Engine, h: Happening, w: World): World {
    match h
    case Installs(args) => End(Install(engine, args, w).0)
    case Loses(files) => w.(disk := w.disk - files)
  }

  function AllHappened(engine: Engine, happenings: seq<Happening>, w: World): World
    decreases |happenings|
  {
    if happenings == [] then w else AllHappened(engine, happenings[1..], Happened(engine, happenings[0], w))
  }

  lemma LossSound(engine: Engine, disk: Disk, journal: Journal, files: set<File>)
    requires Sound(engine, disk, journal)
    ensures Sound(engine, disk - files, journal)
  {
    var left := disk - files;
    forall step | step in journal && journal[step].status.Completed? && journal[step].digest.Some? && journal[step].outputs <= left.Keys
      ensures exists s, a :: TrueOf(engine, step, journal[step], left, s, a)
    {
      assert journal[step].outputs <= disk.Keys;
      var s, a :| TrueOf(engine, step, journal[step], disk, s, a);
      assert TrueOf(engine, step, journal[step], left, s, a);
    }
  }

  /** Journal soundness over any sequence of installs into one directory, snapshot or
      live, with any answers, completed or stopped by operator errors, and whatever files are
      lost between them. */
  lemma {:induction false} JournalSound(engine: Engine, happenings: seq<Happening>, w: World)
    requires Lawful(engine) && (forall h :: h in happenings && h.Installs? ==> Proper(engine, h.args)) && Sound(engine, w.disk, w.journal)
    ensures var v := AllHappened(engine, happenings, w); Sound(engine, v.disk, v.journal)
    decreases |happenings|
  {
    hide Lawful, Sound, From, Ready;
    if happenings != [] {
      var h := happenings[0];
      assert h in happenings;
      if h.Installs? {
        BeginReady(engine, h.args, w);
        FromSound(engine, h.args, Begin(w), 0);
      } else {
        LossSound(engine, w.disk, w.journal, h.files);
      }
      JournalSound(engine, happenings[1..], Happened(engine, h, w));
    }
  }

  /** What a successful install of these inputs leaves: a passed preflight, an evaluation that
      blocks nothing, a valid contract, both renders and a passed readiness check, each in its
      files. */
  ghost predicate Installed(engine: Engine, s: string, a: string, disk: Disk) {
    && engine.preflight(s).Some? && engine.preflight(s).value.1 && Holds(disk, PreflightReport, engine.preflight(s).value.0)
    && (var evaluation := engine.evaluate(engine.preflight(s).value.0, s);
        && evaluation.Some? && !evaluation.value.blocked
        && Holds(disk, CapabilityMatrix, evaluation.value.matrix) && Holds(disk, CompatibilityResult, evaluation.value.result)
        && Holds(disk, RemediationList, evaluation.value.remediations) && Holds(disk, Recommendation, evaluation.value.mode))
    && engine.valid(a) && Holds(disk, AnswersJson, a) && Holds(disk, InstallContract, a)
    && engine.overlay(a).ok && (forall p :: p in engine.overlay(a).files ==> Holds(disk, Overlay(p), engine.overlay(a).files[p]))
    && engine.bootstrap(a).ok && (forall p :: p in engine.bootstrap(a).files ==> Holds(disk, BootstrapManifest(p), engine.bootstrap(a).files[p]))
    && engine.readiness(a).1 && Holds(disk, Summary, engine.readiness(a).0)
  }

  predicate Holds(disk: Disk, f: File, text: string) {
    f in disk && disk[f] == text
  }

  /** A finished step's files are on disk. */
  ghost predicate Left(engine: Engine, step: Step, s: string, a: string, disk: Disk) {
    Expected(engine, step, s, a).Some? && OnDisk(Expected(engine, step, s, a).value, disk)
  }

  lemma DoneLeft(engine: Engine, args: Args, st: State, step: Step)
    requires Ready(engine, args, st, |ORDER|)
    ensures st.answers.Some? && Left(engine, step, Bytes(args), st.answers.value, st.disk)
  {
    hide Expected, Digest, OnDisk, ORDER;
    InOrder(step);
    InOrder(Render);
  }

  lemma SnapshotHolds(engine: Engine, s: string, a: string, disk: Disk)
    requires Left(engine, Preflight, s, a, disk) && Left(engine, Grading, s, a, disk) && Left(engine, ModeRecommendation, s, a, disk)
    ensures engine.preflight(s).Some? && engine.preflight(s).value.1 && Holds(disk, PreflightReport, engine.preflight(s).value.0)
    ensures var evaluation := engine.evaluate(engine.preflight(s).value.0, s);
            && evaluation.Some? && !evaluation.value.blocked
            && Holds(disk, CapabilityMatrix, evaluation.value.matrix) && Holds(disk, CompatibilityResult, evaluation.value.result)
            && Holds(disk, RemediationList, evaluation.value.remediations) && Holds(disk, Recommendation, evaluation.value.mode)
  {
    var files := Expected(engine, Grading, s, a).value;
    assert CapabilityMatrix in files && CompatibilityResult in files && RemediationList in files;
    assert Recommendation in Expected(engine, ModeRecommendation, s, a).value && PreflightReport in Expected(engine, Preflight, s, a).value;
  }

  lemma AnswersHold(engine: Engine, s: string, a: string, disk: Disk)
    requires Left(engine, ContractCapture, s, a, disk) && Left(engine, Readiness, s, a, disk)
    ensures engine.valid(a) && Holds(disk, AnswersJson, a) && Holds(disk, InstallContract, a)
    ensures engine.readiness(a).1 && Holds(disk, Summary, engine.readiness(a).0)
  {
    assert AnswersJson in Expected(engine, ContractCapture, s, a).value && InstallContract in Expected(engine, ContractCapture, s, a).value;
    assert Summary in Expected(engine, Readiness, s, a).value;
  }

  lemma RendersHold(engine: Engine, s: string, a: string, disk: Disk)
    requires Left(engine, Render, s, a, disk) && Left(engine, Bootstrap, s, a, disk)
    ensures engine.overlay(a).ok && forall p :: p in engine.overlay(a).files ==> Holds(disk, Overlay(p), engine.overlay(a).files[p])
    ensures engine.bootstrap(a).ok && forall p :: p in engine.bootstrap(a).files ==> Holds(disk, BootstrapManifest(p), engine.bootstrap(a).files[p])
  {
    forall p | p in engine.overlay(a).files ensures Holds(disk, Overlay(p), engine.overlay(a).files[p]) {
      assert Overlay(p) in OverlayFiles(engine.overlay(a).files);
    }
    forall p | p in engine.bootstrap(a).files ensures Holds(disk, BootstrapManifest(p), engine.bootstrap(a).files[p]) {
      assert BootstrapManifest(p) in BootstrapFiles(engine.bootstrap(a).files);
    }
  }

  lemma DoneHolds(engine: Engine, args: Args, st: State)
    requires Ready(engine, args, st, |ORDER|)
    ensures st.answers.Some? && Installed(engine, Bytes(args), st.answers.value, st.disk)
  {
    hide Ready, Left, Holds;
    DoneLeft(engine, args, st, Render);
    forall step ensures st.answers.Some? && Left(engine, step, Bytes(args), st.answers.value, st.disk) {
      DoneLeft(engine, args, st, step);
    }
    var s, a := Bytes(args), st.answers.value;
    SnapshotHolds(engine, s, a, st.disk);
    AnswersHold(engine, s, a, st.disk);
    RendersHold(engine, s, a, st.disk);
  }

  lemma InOrder(step: Step)
    ensures exists j :: 0 <= j < |ORDER| && ORDER[j] == step
  {
    assert ORDER[0] == Preflight && ORDER[1] == Grading && ORDER[2] == ModeRecommendation && ORDER[3] == ContractCapture;
    assert ORDER[4] == Render && ORDER[5] == Bootstrap && ORDER[6] == Readiness;
  }

  /** A successful install, whatever it skipped, leaves what its snapshot and its answers give,
      and the answers are the given ones if any were given. */
  lemma SuccessLeaves(engine: Engine, args: Args, w: World)
    requires Lawful(engine) && Proper(engine, args) && Sound(engine, w.disk, w.journal) && Install(engine, args, w).1.None?
    ensures var last := Install(engine, args, w).0;
            && last.answers.Some? && Installed(engine, Bytes(args), last.answers.value, last.disk)
            && (args.answers.Some? ==> engine.canonical(args.answers.value) == last.answers)
  {
    hide From, Lawful, Sound, Ready, Installed;
    BeginReady(engine, args, w);
    FromSound(engine, args, Begin(w), 0);
    FromFromArgs(engine, args, Begin(w), 0);
    DoneHolds(engine, args, Install(engine, args, w).0);
  }

  // ----- running again ----------------------------------------------------------------------------------------

  /** The second run resolves the answers the first one used. */
  lemma SameAgain(engine: Engine, args: Args, first: State, again: State, i: nat)
    requires Lawful(engine) && i < |ORDER| && args.source.Snapshot?
    requires DoneFor(engine, args, first, ORDER[i]) && (i > 3 ==> again.answers == first.answers) && (i <= 3 ==> again.answers.None?)
    requires first.answers.Some? ==> Canonical(engine, first.answers.value)
    requires args.answers.Some? && first.answers.Some? ==> engine.canonical(args.answers.value) == first.answers
    requires again.disk == first.disk && again.journal == first.journal
    ensures var (next, ok) := Turn(engine, args, again, ORDER[i]);
            && ok && next.disk == again.disk && next.journal == again.journal && next.executed == again.executed
            && (i < 3 ==> next.answers.None?) && (i >= 3 ==> next.answers == first.answers)
  {
    hide Execute;
  }

  /** In every state the flow reaches, the cached answers are the given ones. */
  ghost predicate FromArgs(engine: Engine, args: Args, st: State) {
    args.answers.Some? && st.answers.Some? ==> engine.canonical(args.answers.value) == st.answers
  }

  lemma TurnFromArgs(engine: Engine, args: Args, st: State, i: nat)
    requires i < |ORDER| && Ready(engine, args, st, i) && FromArgs(engine, args, st)
    ensures FromArgs(engine, args, Turn(engine, args, st, ORDER[i]).0)
  {
    EarlierSteps(engine, args, st, i);
  }

  lemma {:induction false} FromFromArgs(engine: Engine, args: Args, st: State, i: nat)
    requires Lawful(engine) && Proper(engine, args) && i <= |ORDER| && Ready(engine, args, st, i) && Sound(engine, st.disk, st.journal)
    requires FromArgs(engine, args, st)
    ensures FromArgs(engine, args, From(engine, args, st, i).0)
    decreases |ORDER| - i
  {
    hide Turn, Ready, Sound, Lawful, FromArgs;
    if i < |ORDER| {
      TurnSound(engine, args, st, i);
      TurnFromArgs(engine, args, st, i);
      var (next, ok) := Turn(engine, args, st, ORDER[i]);
      if ok {
        FromFromArgs(engine, args, next, i + 1);
      }
    }
  }

  /** From the i-th step on, a run over a directory where all steps are done does nothing. */
  lemma {:induction false} NothingLeft(engine: Engine, args: Args, first: State, again: State, i: nat)
    requires Lawful(engine) && args.source.Snapshot? && i <= |ORDER| && Ready(engine, args, first, |ORDER|) && FromArgs(engine, args, first)
    requires again.disk == first.disk && again.journal == first.journal
    requires if i <= 3 then again.answers.None? else again.answers == first.answers
    ensures var (last, failed) := From(engine, args, again, i);
            failed.None? && last.disk == again.disk && last.journal == again.journal && last.executed == again.executed
    decreases |ORDER| - i
  {
    if i < |ORDER| {
      assert DoneFor(engine, args, first, ORDER[i]);
      SameAgain(engine, args, first, again, i);
      NothingLeft(engine, args, first, Turn(engine, args, again, ORDER[i]).0, i + 1);
    }
  }

  /** In snapshot mode, running a completed install again executes no step and changes
      neither a file nor the journal. */
  lemma RerunDoesNothing(engine: Engine, args: Args, w: World)
    requires Lawful(engine) && Proper(engine, args) && Sound(engine, w.disk, w.journal) && args.source.Snapshot?
    requires Install(engine, args, w).1.None?
    ensures var done := End(Install(engine, args, w).0);
            var (again, failed) := Install(engine, args, done);
            failed.None? && again.executed == [] && End(again) == done
  {
    hide From, Lawful, Sound, Ready;
    BeginReady(engine, args, w);
    FromSound(engine, args, Begin(w), 0);
    FromFromArgs(engine, args, Begin(w), 0);
    var first := Install(engine, args, w).0;
    NothingLeft(engine, args, first, Begin(End(first)), 0);
  }

  // ----- resuming ------------------------------------------------------------------------------------------------

  /** The state before the step that failed, reached from the i-th. */
  lemma {:induction false} BeforeFailure(engine: Engine, args: Args, st: State, i: nat) returns (before: State)
    requires Lawful(engine) && Proper(engine, args) && i <= |ORDER| && Ready(engine, args, st, i) && Sound(engine, st.disk, st.journal)
    requires FromArgs(engine, args, st) && From(engine, args, st, i).1.Some?
    ensures var (last, failed) := From(engine, args, st, i);
            && i <= failed.value < |ORDER|
            && Ready(engine, args, before, failed.value) && FromArgs(engine, args, before)
            && Sound(engine, before.disk, before.journal)
            && Turn(engine, args, before, ORDER[failed.value]) == (last, false)
    decreases |ORDER| - i
  {
    hide Turn, Ready, Sound, Lawful, FromArgs;
    TurnSound(engine, args, st, i);
    TurnFromArgs(engine, args, st, i);
    var (next, ok) := Turn(engine, args, st, ORDER[i]);
    if ok {
      before := BeforeFailure(engine, args, next, i + 1);
    } else {
      before := st;
    }
  }

  /** What a failing turn leaves: the earlier steps still done, and no completed entry of
      its own that could be skipped. */
  lemma FailureLeaves(engine: Engine, args: Args, before: State, k: nat)
    requires k < |ORDER| && Ready(engine, args, before, k) && FromArgs(engine, args, before)
    requires !Turn(engine, args, before, ORDER[k]).1
    ensures var last := Turn(engine, args, before, ORDER[k]).0;
            && (forall j :: 0 <= j < k ==> DoneFor(engine, args, before.(disk := last.disk, journal := last.journal), ORDER[j]))
            && (Answers(engine, args, before, ORDER[k]).Err? ==> last == before)
            && (Answers(engine, args, before, ORDER[k]).Ok? ==> ORDER[k] in last.journal && last.journal[ORDER[k]].status.Failed?)
  {
    hide Execute, Resolve, Expected;
    var step := ORDER[k];
    if Answers(engine, args, before, step).Ok? {
      var answers := Answers(engine, args, before, step).value;
      WritesOwn(engine, args, step, before.disk, answers);
      var last := Turn(engine, args, before, step).0;
      var e := Execute(engine, args, step, before.disk, answers);
      DoneKept(engine, args, before, before.(disk := last.disk, journal := last.journal), k, e.writes);
    }
  }

  /** The earlier steps of the second run are all skipped. */
  lemma {:induction false} SkipsTo(engine: Engine, args: Args, first: State, again: State, i: nat, k: nat)
    requires Lawful(engine) && args.source.Snapshot? && i <= k < |ORDER|
    requires (forall j :: 0 <= j < k ==> DoneFor(engine, args, first, ORDER[j])) && FromArgs(engine, args, first)
    requires first.answers.Some? ==> Canonical(engine, first.answers.value)
    requires k <= 3 ==> first.answers.None?
    requires again.disk == first.disk && again.journal == first.journal
    requires if i <= 3 then again.answers.None? else again.answers == first.answers
    ensures From(engine, args, again, i) == From(engine, args, again.(answers := first.answers), k)
    decreases k - i
  {
    if i < k {
      SameAgain(engine, args, first, again, i);
      var next := Turn(engine, args, again, ORDER[i]).0;
      assert next == again.(answers := next.answers);
      SkipsTo(engine, args, first, next, i + 1, k);
    } else {
      assert again == again.(answers := first.answers);
    }
  }

  /** After a failure at step k, a second run of the same install skips every step before
      k and does not skip k: it goes on exactly where the first one stopped. */
  lemma ResumesAtFailure(engine: Engine, args: Args, w: World)
    requires Lawful(engine) && Proper(engine, args) && Sound(engine, w.disk, w.journal) && args.source.Snapshot?
    requires Install(engine, args, w).1.Some?
    ensures var (last, failed) := Install(engine, args, w);
            var k := failed.value;
            k < |ORDER|
            && exists st: State ::
                 && st.executed == [] && st.disk == last.disk && st.journal == last.journal
                 && Install(engine, args, End(last)) == From(engine, args, st, k)
                 && (Answers(engine, args, st, ORDER[k]).Ok? ==>
                       !Skips(st.journal, ORDER[k], Digest(engine, ORDER[k], args.source, Answers(engine, args, st, ORDER[k]).value), st.disk))
  {
    hide From, Lawful, Sound, Turn, Expected, Resolve, DoneFor, Canonical;
    BeginReady(engine, args, w);
    var (last, failed) := Install(engine, args, w);
    var k := failed.value;
    var before := BeforeFailure(engine, args, Begin(w), 0);
    FailureLeaves(engine, args, before, k);
    var first := before.(disk := last.disk, journal := last.journal);
    SkipsTo(engine, args, first, Begin(End(last)), 0, k);
    var st := Begin(End(last)).(answers := first.answers);
    AnswersAgain(engine, args, before, last, st, k);
  }

  /** At the failed step the second run resolves answers as the first did, or fails as it
      did; a malformed answers file leaves no entry. */
  lemma AnswersAgain(engine: Engine, args: Args, before: State, last: State, st: State, k: nat)
    requires k < |ORDER| && Turn(engine, args, before, ORDER[k]) == (last, false)
    requires st.disk == last.disk && st.journal == last.journal && st.answers == before.answers
    requires Answers(engine, args, before, ORDER[k]).Err? ==> last == before
    requires Answers(engine, args, before, ORDER[k]).Ok? ==> ORDER[k] in last.journal && last.journal[ORDER[k]].status.Failed?
    ensures Answers(engine, args, st, ORDER[k]).Ok? ==>
              !Skips(st.journal, ORDER[k], Digest(engine, ORDER[k], args.source, Answers(engine, args, st, ORDER[k]).value), st.disk)
  {
  }
}
