# DeepFake Detective: the upload → analyze → present state machine

This project models, in Dafny, the state machine inside the `App` React
component of the DeepFake Detective front end (`src/App.tsx`). The component
keeps three state cells: the selected `file`, the `isAnalyzing` flag and the
verdict `result`. Three things change them:

- the file input's change handler accepts the first selected file when its
  MIME type starts with `video/`, and clears any earlier verdict;
- `analyzeVideo` sets `isAnalyzing`, waits three seconds, stores a simulated
  verdict built from two `Math.random()` draws, and clears `isAnalyzing`;
- the render shows the file name, the Start button, the spinner or the report,
  each under its own condition over the three cells.

Modules:

- `Wrappers` (`wrappers.dfy`): `Option`, for the cells that hold `T | null`.
- `Mime` (`mime.dfy`): `StartsWith`, which behaves like JavaScript's
  `startsWith`, and `IsVideoType`, which is the check the change handler makes.
- `Analysis` (`analysis.dfy`): the `AnalysisResult` record, the two fixed lists
  and `Simulate`, which builds the verdict from the two draws.
- `Workflow` (`workflow.dfy`): the state machine as values. `UiState` holds the
  three cells. `Session` adds the number of `analyzeVideo` calls that are
  suspended at their `await`. It has the render guards and the transitions
  `SelectFile`, `BeginAnalysis` and `FinishAnalysis`. `analyzeVideo` is split
  at its `await` into those last two. `Step`, `Legal` and `Run` define
  event traces. It also has the invariants of the reachable states and a
  `Phase` view that names the four phases the flags encode.
- `AppComponent` (`app.dfy`): the class `App` with the three fields and the
  methods `HandleFileChange`, `Start` and `Complete`. Each method's new state
  is the one the matching `Workflow` transition gives, and each method keeps
  the invariant.

Modelling choices:

- The `Math.random()` draws are parameters. Each is a real in [0, 1), and
  arithmetic on them is exact.
- `Start` requires the guard of line 86 (`file && !isAnalyzing && !result`).
  `analyzeVideo` itself checks nothing, but its only caller is the button that
  is rendered under that guard.
- `Complete` requires that a call is suspended. This is the ghost counter
  `inFlight`. `ReachableStates` proves that the counter is 1 exactly while
  `isAnalyzing` holds, so at most one analysis is ever in flight.

Two behaviours one might expect of such a workflow are absent from the
code. The model follows the code:

- No stale-result protection. One would expect a result to be dropped when
  the file it was computed for has been replaced in the meantime. The code
  applies the result unconditionally. After start on `a`, select `b`,
  completion, the screen shows `b` with a verdict drawn for `a`
  (`StaleVerdict`, and `StaleVerdictOnApp` on the class).
- No return to "ready" on a new selection. One would expect selecting a file
  during an analysis to offer Start for the new file. The code leaves
  `isAnalyzing` true, so the spinner stays and Start is not offered. When
  the pending call completes, a verdict is stored for `b`, so the state goes
  to done, never to ready. Start stays hidden until another file is accepted
  (`AcceptedSelection`, `StaleVerdict`, `VerdictBlocksStart`).

The confidence the simulation produces lies in [0, 100), inside the
percentage range [0, 100] that the report displays (`Simulate`,
`CompletionVerdict`).

## Model

| member | source | states |
|---|---|---|
| `Mime.StartsWith` | src/App.tsx:19 | the result holds iff the prefix is no longer than the string and equals the string's first characters (JavaScript `startsWith`) |
| `Mime.VideoTypeIsPrefixExtension` | src/App.tsx:19 | a type is accepted iff it is `video/` followed by anything; the check looks only at the declared type |
| `Mime.VideoTypeExamples` | src/App.tsx:19 | `video/mp4` and `video/` pass; `image/jpeg`, `video`, `Video/mp4` and the empty type are rejected (the test is case-sensitive) |
| `Analysis.Simulate` | src/App.tsx:31-44 | `isFake` iff the first draw exceeds 0.5; for a draw in [0, 1) the confidence is in [0, 100); both lists are the fixed three-entry lists, independent of the file |
| `Analysis.SimulateReachesEveryWellFormed` | src/App.tsx:31-44 | every verdict with confidence in [0, 100) and the fixed lists is produced by some pair of draws, so the well-formed verdicts are exactly the ones the simulation can produce |
| `Workflow.RejectedSelectionIsNoOp` | src/App.tsx:18-19 | an empty selection, or a first file whose type does not start with `video/`, leaves file, result, `isAnalyzing` and the pending calls unchanged |
| `Workflow.AcceptedSelection` | src/App.tsx:19-22 | an accepted file becomes `file` and `result` becomes null; `isAnalyzing` and the pending calls are untouched, so a selection during an analysis leaves it running |
| `Workflow.OnlyFirstFileMatters` | src/App.tsx:18 | the outcome of a selection depends on its first entry only |
| `Workflow.StartOnlySetsFlag` | src/App.tsx:25-26 | from a state where the Start button is shown, starting sets `isAnalyzing` and changes nothing else; the spinner shows, the button is gone and one call is pending |
| `Workflow.CompletionVerdict` | src/App.tsx:31-46 | completion keeps the file, whatever it is now, stores a verdict with `isFake` iff draw 1 > 0.5, confidence in [0, 100) and the fixed lists, and clears `isAnalyzing`; the report shows, not the spinner or the Start button |
| `Workflow.StepKeepsInv` | src/App.tsx:17-47 | every enabled event keeps the invariant: no file means no spinner and no verdict, spinner excludes verdict, the file is a video type, the verdict is well formed, and one call is pending exactly while `isAnalyzing` holds |
| `Workflow.RunKeepsInv` | src/App.tsx:12-47 | every legal trace of events keeps that invariant |
| `Workflow.ReachableStates` | src/App.tsx:12-14 | in every state reachable from the initial values, no file implies no spinner and no verdict, `isAnalyzing` implies no verdict, the spinner (line 95) and report (line 103) are never both shown, and at most one analysis is in flight |
| `Workflow.PhaseRoundTrip` | src/App.tsx:12-14 | the flag triples that satisfy the invariant correspond one to one with the four phases idle, ready, analyzing and done |
| `Workflow.GuardsFollowPhase` | src/App.tsx:78-103 | the file name shows iff not idle, the Start button iff ready, the spinner iff analyzing, the report iff done; spinner and report are exclusive |
| `Workflow.FileNeverCleared` | src/App.tsx:20 | once a file is held, no trace makes `file` null again |
| `Workflow.VerdictBlocksStart` | src/App.tsx:86-93 | once a verdict exists, a trace with no accepted file leaves the state unchanged, never offers Start and contains no Start event |
| `Workflow.ClipScenario` | src/App.tsx:17-47 | selecting `clip.mp4` (`video/mp4`), starting and completing goes ready, then analyzing, then done with that file; the confidence is in [0, 100) and both lists are non-empty |
| `Workflow.PhotoScenario` | src/App.tsx:17-23 | selecting `photo.jpg` (`image/jpeg`) changes nothing from any state, and from the initial state Start is not offered |
| `Workflow.StaleVerdict` | src/App.tsx:25-47 | start on `a`, select `b`, complete: the spinner stays on with `b` shown and no Start button, then `b` is shown with a verdict drawn during `a`'s analysis, the report shows and Start is not offered |
| `AppComponent.App.constructor` | src/App.tsx:12-14 | the initial state is no file, not analysing, no verdict, nothing pending, and it satisfies the invariant |
| `AppComponent.App.HandleFileChange` | src/App.tsx:17-23 | the new state is `SelectFile` of the old state and the file list; the invariant is kept |
| `AppComponent.App.Start` | src/App.tsx:25-26 | under the line-86 guard, the new state is `BeginAnalysis` of the old; the invariant is kept |
| `AppComponent.App.Complete` | src/App.tsx:31-46 | with a call pending and two draws in [0, 1), the new state is `FinishAnalysis` of the old; the invariant is kept |

## Left out

- The JSX layout, styling, icons and the `useRef` that forwards clicks to the hidden input: these are presentation only.
- The `accept="video/*"` attribute: it is only a browser hint, and the real check is the one in the change handler.
- The three-second `setTimeout` and the Promise machinery: these are modelled only as the split between `Start` and `Complete`. When the pause ends is left open.
- `Math.random()`: its draws are parameters in [0, 1).
- Floating point: confidences are exact reals, so rounding in `Math.random() * 100` is not modelled.
- `toFixed(2)` and the CSS width of the confidence bar: these turn numbers into display strings.
- React's batching and scheduling of setter calls: each handler half is one atomic update.
- The detection backend: the code has none, only the simulation.
- The "drag and drop" wording: no drop handler exists.
- File contents: a `File` is modelled by its name and declared type only, because nothing else is read.
- Calls of `analyzeVideo` from anywhere other than the Start button: there are none, so `Start` requires the button's guard.
