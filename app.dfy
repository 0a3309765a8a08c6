/**
 * The `App` component (src/App.tsx:11-47) as an object: the three state
 * cells are fields, `handleFileChange` and the two halves of `analyzeVideo`
 * are methods that assign them, and each method's new state is the one the
 * Workflow module's transition gives.
 */
module AppComponent {
  import opened Wrappers
  import opened Analysis
  import opened Workflow

  class App {
    var file: Option<FileRef>
    var isAnalyzing: bool
    var result: Option<AnalysisResult>
    /** Calls of `analyzeVideo` suspended at their `await` (the pending promises; not stored by the component). */
    ghost var inFlight: nat

    /** What the render reads. */
    function Ui(): UiState
      reads this
    {
      UiState(file, isAnalyzing, result)
    }

    ghost function State(): Session
      reads this
    {
      Session(Ui(), inFlight)
    }

    ghost predicate Valid()
      reads this
    {
      Inv(State())
    }

    /** The `useState` initial values (lines 12-14). */
    constructor ()
      ensures Valid() && State() == Initial
    {
      file := None;
      isAnalyzing := false;
      result := None;
      inFlight := 0;
    }

    /** `handleFileChange` (lines 17-23), given the input's file list. */
    method HandleFileChange(files: seq<FileRef>)
      requires Valid()
      modifies this
      ensures Valid() && State() == SelectFile(old(State()), files)
    {
      if |files| > 0 {
        var selectedFile := files[0];
        if Mime.StartsWith(selectedFile.mimeType, Mime.VideoPrefix) {
          file := Some(selectedFile);
          result := None;
        }
      }
    }

    /** `analyzeVideo` up to its `await` (line 26), called from the button rendered under the guard of line 86. */
    method Start()
      requires Valid() && OffersStart(Ui())
      modifies this
      ensures Valid() && State() == BeginAnalysis(old(State()))
    {
      isAnalyzing := true;
      inFlight := inFlight + 1;
    }

    /** `analyzeVideo` after its `await` (lines 31-46), with the two `Math.random()` draws. */
    method Complete(sample1: real, sample2: real)
      requires Valid() && inFlight > 0
      requires IsSample(sample1) && IsSample(sample2)
      modifies this
      ensures Valid() && State() == FinishAnalysis(old(State()), sample1, sample2)
    {
      result := Some(Simulate(sample1, sample2));
      isAnalyzing := false;
      inFlight := inFlight - 1;
    }
  }

  /** A client of the object: the stale-verdict interleaving, seen through the methods' contracts alone. */
  method StaleVerdictOnApp(a: FileRef, b: FileRef, s1: real, s2: real)
    requires Mime.IsVideoType(a.mimeType) && Mime.IsVideoType(b.mimeType)
    requires IsSample(s1) && IsSample(s2)
  {
    var app := new App();
    app.HandleFileChange([a]);
    assert OffersStart(app.Ui());
    app.Start();
    app.HandleFileChange([b, a]);
    assert ShowsSpinner(app.Ui()) && !OffersStart(app.Ui()) && app.file == Some(b);
    app.Complete(s1, s2);
    assert app.file == Some(b) && app.result == Some(Simulate(s1, s2));
    assert ShowsReport(app.Ui()) && !OffersStart(app.Ui());
  }
}
