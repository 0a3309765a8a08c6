/**
 * The upload -> analyze -> present state machine of the `App` component
 * (src/App.tsx:11-47), as values. The three state cells `file`,
 * `isAnalyzing` and `result` (lines 12-14) form a UiState. `analyzeVideo`
 * is split at its one `await` (line 29) into BeginAnalysis (line 26) and
 * FinishAnalysis (lines 31-46); a Session also counts the calls that have
 * begun and not yet finished, which the component does not store.
 */
module Workflow {
  import opened Wrappers
  import opened Mime
  import opened Analysis

  /** A selected `File`: the two attributes the component reads. */
  datatype FileRef = FileRef(name: string, mimeType: string)

  datatype UiState = UiState(file: Option<FileRef>, isAnalyzing: bool, result: Option<AnalysisResult>)

  /** The component's state together with the number of `analyzeVideo` calls suspended at their `await`. */
  datatype Session = Session(ui: UiState, inFlight: nat)

  /** What can happen to the component: a change event of the file input, a click on Start, the resumption of a suspended call. */
  datatype Event =
    | Select(files: seq<FileRef>)
    | Start
    | Complete(sample1: real, sample2: real)

  /** The `useState` initial values (lines 12-14), nothing in flight. */
  const Initial: Session := Session(UiState(None, false, None), 0)

  // ----- Render guards (lines 78, 86, 95, 103) -----

  predicate ShowsFile(u: UiState) { u.file.Some? }

  predicate OffersStart(u: UiState) { u.file.Some? && !u.isAnalyzing && u.result.None? }

  predicate ShowsSpinner(u: UiState) { u.isAnalyzing }

  predicate ShowsReport(u: UiState) { u.result.Some? }

  // ----- Transitions -----

  /** The condition of line 19 applied to `files?.[0]`. */
  predicate Accepts(files: seq<FileRef>)
  {
    |files| > 0 && IsVideoType(files[0].mimeType)
  }

  /** `handleFileChange` (lines 17-23). */
  function SelectFile(ss: Session, files: seq<FileRef>): Session
  {
    if Accepts(files) then Session(ss.ui.(file := Some(files[0]), result := None), ss.inFlight)
    else ss
  }

  /** The first half of `analyzeVideo`: `setIsAnalyzing(true)` (line 26), then suspension. */
  function BeginAnalysis(ss: Session): Session
  {
    Session(ss.ui.(isAnalyzing := true), ss.inFlight + 1)
  }

  /** The second half of `analyzeVideo` (lines 31-46), applied unconditionally on resumption. */
  function FinishAnalysis(ss: Session, sample1: real, sample2: real): Session
    requires ss.inFlight > 0
  {
    Session(ss.ui.(result := Some(Simulate(sample1, sample2)), isAnalyzing := false), ss.inFlight - 1)
  }

  /**
   * When an event can happen: a file change at any time; Start only through
   * the button rendered under the guard of line 86; a resumption only for a
   * suspended call, with two `Math.random()` draws.
   */
  predicate Enabled(ss: Session, e: Event)
  {
    match e
    case Select(_) => true
    case Start => OffersStart(ss.ui)
    case Complete(s1, s2) => ss.inFlight > 0 && IsSample(s1) && IsSample(s2)
  }

  function Step(ss: Session, e: Event): Session
    requires Enabled(ss, e)
  {
    match e
    case Select(files) => SelectFile(ss, files)
    case Start => BeginAnalysis(ss)
    case Complete(s1, s2) => FinishAnalysis(ss, s1, s2)
  }

  /** Every event of the trace is enabled in the state it meets. */
  predicate Legal(ss: Session, es: seq<Event>)
    decreases |es|
  {
    es == [] || (Enabled(ss, es[0]) && Legal(Step(ss, es[0]), es[1..]))
  }

  function Run(ss: Session, es: seq<Event>): Session
    requires Legal(ss, es)
    decreases |es|
  {
    if es == [] then ss else Run(Step(ss, es[0]), es[1..])
  }

  ghost predicate Reachable(ss: Session)
  {
    exists es :: Legal(Initial, es) && Run(Initial, es) == ss
  }

  // ----- Invariants of the reachable states -----

  predicate UiInv(u: UiState)
  {
    && (u.file.None? ==> !u.isAnalyzing && u.result.None?)
    && (u.isAnalyzing ==> u.result.None?)
    && (u.file.Some? ==> IsVideoType(u.file.value.mimeType))
    && (u.result.Some? ==> WellFormed(u.result.value))
  }

  /** The UI invariant, and `isAnalyzing` is true exactly while one call is suspended. */
  predicate Inv(ss: Session)
  {
    UiInv(ss.ui) && ss.inFlight == if ss.ui.isAnalyzing then 1 else 0
  }

  // ----- The four phases the flags encode -----

  datatype Phase =
    | Idle
    | Ready(file: FileRef)
    | Analyzing(file: FileRef)
    | Done(file: FileRef, verdict: AnalysisResult)

  function PhaseOf(u: UiState): (p: Phase)
    requires UiInv(u)
  {
    match u.file
    case None => Idle
    case Some(f) =>
      if u.isAnalyzing then Analyzing(f)
      else if u.result.Some? then Done(f, u.result.value)
      else Ready(f)
  }

  function FlagsOf(p: Phase): UiState
  {
    match p
    case Idle => UiState(None, false, None)
    case Ready(f) => UiState(Some(f), false, None)
    case Analyzing(f) => UiState(Some(f), true, None)
    case Done(f, v) => UiState(Some(f), false, Some(v))
  }

  predicate PhaseWellFormed(p: Phase)
  {
    && (!p.Idle? ==> IsVideoType(p.file.mimeType))
    && (p.Done? ==> WellFormed(p.verdict))
  }

  /** The flag triples that satisfy UiInv and the well-formed phases are in one-to-one correspondence. */
  lemma PhaseRoundTrip(u: UiState, p: Phase)
    ensures UiInv(u) ==> PhaseWellFormed(PhaseOf(u)) && FlagsOf(PhaseOf(u)) == u
    ensures PhaseWellFormed(p) ==> UiInv(FlagsOf(p)) && PhaseOf(FlagsOf(p)) == p
  {
  }

  /** Each render guard shows exactly one phase; so spinner, Start button and report never appear together. */
  lemma GuardsFollowPhase(u: UiState)
    requires UiInv(u)
    ensures ShowsFile(u) <==> !PhaseOf(u).Idle?
    ensures OffersStart(u) <==> PhaseOf(u).Ready?
    ensures ShowsSpinner(u) <==> PhaseOf(u).Analyzing?
    ensures ShowsReport(u) <==> PhaseOf(u).Done?
    ensures !(ShowsSpinner(u) && ShowsReport(u))
  {
  }

  // ----- Single-event properties -----

  /** Nothing selected, or a type outside `video/`, changes nothing (lines 18-19). */
  lemma RejectedSelectionIsNoOp(ss: Session, files: seq<FileRef>)
    requires |files| == 0 || !IsVideoType(files[0].mimeType)
    ensures SelectFile(ss, files) == ss
  {
  }

  /**
   * An accepted file replaces the file and clears the verdict (lines 20-21);
   * `isAnalyzing` and any suspended call are left as they are.
   */
  lemma AcceptedSelection(ss: Session, files: seq<FileRef>)
    requires |files| > 0 && IsVideoType(files[0].mimeType)
    ensures SelectFile(ss, files).ui == UiState(Some(files[0]), ss.ui.isAnalyzing, None)
    ensures SelectFile(ss, files).inFlight == ss.inFlight
  {
  }

  /** Only the first entry of the selection matters (line 18). */
  lemma OnlyFirstFileMatters(ss: Session, files: seq<FileRef>, others: seq<FileRef>)
    requires |files| > 0
    ensures SelectFile(ss, files) == SelectFile(ss, [files[0]] + others)
  {
  }

  /** Start sets `isAnalyzing` and nothing else; the button disappears and the spinner shows. */
  lemma StartOnlySetsFlag(ss: Session)
    requires Inv(ss) && OffersStart(ss.ui)
    ensures BeginAnalysis(ss).ui == UiState(ss.ui.file, true, None)
    ensures ShowsSpinner(BeginAnalysis(ss).ui) && !OffersStart(BeginAnalysis(ss).ui)
    ensures BeginAnalysis(ss).inFlight == 1
  {
  }

  /**
   * Completion stores a fresh verdict and clears `isAnalyzing`, whatever file
   * is current: `isFake` iff the first draw exceeds 0.5, confidence in
   * [0, 100), the two fixed lists.
   */
  lemma CompletionVerdict(ss: Session, s1: real, s2: real)
    requires Enabled(ss, Complete(s1, s2))
    ensures var r := FinishAnalysis(ss, s1, s2).ui;
      && r.file == ss.ui.file && !r.isAnalyzing && r.result.Some?
      && (r.result.value.isFake <==> s1 > 0.5)
      && 0.0 <= r.result.value.confidence < 100.0
      && r.result.value.abnormalities == Abnormalities
      && r.result.value.techniquesUsed == TechniquesUsed
      && ShowsReport(r) && !ShowsSpinner(r) && !OffersStart(r)
  {
  }

  /** Each enabled event keeps the invariant. */
  lemma StepKeepsInv(ss: Session, e: Event)
    requires Inv(ss) && Enabled(ss, e)
    ensures Inv(Step(ss, e))
  {
  }

  // ----- Properties of whole traces -----

  lemma {:induction false} RunKeepsInv(ss: Session, es: seq<Event>)
    requires Inv(ss) && Legal(ss, es)
    ensures Inv(Run(ss, es))
    decreases |es|
  {
    if es != [] {
      StepKeepsInv(ss, es[0]);
      RunKeepsInv(Step(ss, es[0]), es[1..]);
    }
  }

  /**
   * In every reachable state: no file means neither spinner nor verdict, the
   * spinner excludes the verdict, at most one analysis is in flight and it is
   * in flight exactly while the spinner shows.
   */
  lemma ReachableStates(ss: Session)
    requires Reachable(ss)
    ensures ss.ui.file.None? ==> !ss.ui.isAnalyzing && ss.ui.result.None?
    ensures ss.ui.isAnalyzing ==> ss.ui.result.None?
    ensures !(ShowsSpinner(ss.ui) && ShowsReport(ss.ui))
    ensures ss.inFlight <= 1 && (ss.inFlight == 1 <==> ShowsSpinner(ss.ui))
  {
    var es :| Legal(Initial, es) && Run(Initial, es) == ss;
    RunKeepsInv(Initial, es);
  }

  /** Once a file is held it is never cleared: the only write stores a selected file (line 20). */
  lemma {:induction false} FileNeverCleared(ss: Session, es: seq<Event>)
    requires Legal(ss, es) && ss.ui.file.Some?
    ensures Run(ss, es).ui.file.Some?
    decreases |es|
  {
    if es != [] {
      FileNeverCleared(Step(ss, es[0]), es[1..]);
    }
  }

  /** None of the trace's file changes is accepted. */
  predicate NoFileAccepted(es: seq<Event>)
  {
    forall i :: 0 <= i < |es| && es[i].Select? ==> !Accepts(es[i].files)
  }

  /**
   * Once a verdict is shown, it stays and Start is not offered until a new
   * file is accepted: no trace without an accepted file can contain a Start.
   */
  lemma {:induction false} VerdictBlocksStart(ss: Session, es: seq<Event>)
    requires Inv(ss) && ss.ui.result.Some?
    requires Legal(ss, es) && NoFileAccepted(es)
    ensures Run(ss, es) == ss
    ensures !OffersStart(Run(ss, es).ui)
    ensures forall i :: 0 <= i < |es| ==> !es[i].Start?
    decreases |es|
  {
    if es != [] {
      assert !es[0].Start? && !es[0].Complete?;
      assert NoFileAccepted(es[1..]) by {
        forall i | 0 <= i < |es[1..]| && es[1..][i].Select?
          ensures !Accepts(es[1..][i].files)
        {
          assert es[1..][i] == es[i + 1];
        }
      }
      VerdictBlocksStart(Step(ss, es[0]), es[1..]);
      forall i | 0 <= i < |es| ensures !es[i].Start? {
        if i > 0 { assert es[i] == es[1..][i - 1]; }
      }
    }
  }

  // ----- Scenarios -----

  /** One enabled event followed by a legal trace is a legal trace. */
  lemma RunPrepend(ss: Session, e: Event, es: seq<Event>)
    requires Enabled(ss, e) && Legal(Step(ss, e), es)
    ensures Legal(ss, [e] + es) && Run(ss, [e] + es) == Run(Step(ss, e), es)
  {
  }

  /** Select `clip.mp4`, start, complete: the report holds a verdict for that file with confidence in [0, 100) and non-empty lists. */
  lemma ClipScenario(s1: real, s2: real)
    requires IsSample(s1) && IsSample(s2)
    ensures var clip := FileRef("clip.mp4", "video/mp4");
      var es := [Select([clip]), Start, Complete(s1, s2)];
      && Legal(Initial, es)
      && Run(Initial, [Select([clip])]).ui == UiState(Some(clip), false, None)
      && Run(Initial, [Select([clip]), Start]).ui == UiState(Some(clip), true, None)
      && Run(Initial, es).ui == UiState(Some(clip), false, Some(Simulate(s1, s2)))
      && 0.0 <= Simulate(s1, s2).confidence < 100.0
      && |Simulate(s1, s2).abnormalities| > 0 && |Simulate(s1, s2).techniquesUsed| > 0
  {
    VideoTypeExamples();
    var clip := FileRef("clip.mp4", "video/mp4");
    var t1 := Step(Initial, Select([clip]));
    var t2 := Step(t1, Start);
    RunPrepend(t2, Complete(s1, s2), []);
    RunPrepend(t1, Start, [Complete(s1, s2)]);
    RunPrepend(Initial, Select([clip]), [Start, Complete(s1, s2)]);
    RunPrepend(t1, Start, []);
    RunPrepend(Initial, Select([clip]), [Start]);
    RunPrepend(Initial, Select([clip]), []);
  }

  /** Selecting `photo.jpg` from any state changes nothing; from the initial state Start stays unavailable. */
  lemma PhotoScenario(ss: Session)
    ensures var photo := FileRef("photo.jpg", "image/jpeg");
      && Legal(ss, [Select([photo])]) && Run(ss, [Select([photo])]) == ss
      && !OffersStart(Run(Initial, [Select([photo])]).ui)
  {
  }

  /**
   * The verdict is applied whatever the current file is: start on `a`,
   * select `b` while the analysis is suspended, and the resumption leaves
   * `b` on screen with a verdict that was drawn for `a`. Selecting `b`
   * during the analysis also leaves the spinner on and Start unavailable.
   */
  lemma StaleVerdict(a: FileRef, b: FileRef, s1: real, s2: real)
    requires IsVideoType(a.mimeType) && IsVideoType(b.mimeType)
    requires IsSample(s1) && IsSample(s2)
    ensures var es := [Select([a]), Start, Select([b]), Complete(s1, s2)];
      && Legal(Initial, es) && Legal(Initial, [Select([a]), Start, Select([b])])
      && Run(Initial, [Select([a]), Start, Select([b])]).ui == UiState(Some(b), true, None)
      && !OffersStart(Run(Initial, [Select([a]), Start, Select([b])]).ui)
      && Run(Initial, es).ui == UiState(Some(b), false, Some(Simulate(s1, s2)))
      && ShowsReport(Run(Initial, es).ui) && !OffersStart(Run(Initial, es).ui)
  {
    var t1 := Step(Initial, Select([a]));
    var t2 := Step(t1, Start);
    var t3 := Step(t2, Select([b]));
    RunPrepend(t3, Complete(s1, s2), []);
    RunPrepend(t2, Select([b]), [Complete(s1, s2)]);
    RunPrepend(t1, Start, [Select([b]), Complete(s1, s2)]);
    RunPrepend(Initial, Select([a]), [Start, Select([b]), Complete(s1, s2)]);
    RunPrepend(t2, Select([b]), []);
    RunPrepend(t1, Start, [Select([b])]);
    RunPrepend(Initial, Select([a]), [Start, Select([b])]);
  }
}
