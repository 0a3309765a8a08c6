/**
 * The verdict record `AnalysisResult` (src/App.tsx:4-9) and the simulated
 * analysis that fills it (src/App.tsx:31-44). The two `Math.random()` draws
 * are parameters; `Math.random()` yields a value in [0, 1).
 */
module Analysis {

  /** The fixed findings the simulation always reports, in display order. */
  const Abnormalities: seq<string> := [
    "Inconsistent facial expressions",
    "Unnatural eye movements",
    "Audio-visual synchronization issues"
  ]

  /** The fixed suspected techniques the simulation always reports, in display order. */
  const TechniquesUsed: seq<string> := [
    "Generative Adversarial Networks (GANs)",
    "Face swapping algorithms",
    "Deep learning manipulation"
  ]

  datatype AnalysisResult = AnalysisResult(
    isFake: bool,
    confidence: real,
    abnormalities: seq<string>,
    techniquesUsed: seq<string>)

  /** A draw of `Math.random()`. */
  predicate IsSample(x: real)
  {
    0.0 <= x < 1.0
  }

  /** The shape of every verdict the simulation can produce. */
  predicate WellFormed(v: AnalysisResult)
  {
    && 0.0 <= v.confidence < 100.0
    && v.abnormalities == Abnormalities
    && v.techniquesUsed == TechniquesUsed
  }

  /** The verdict built at lines 31-44 from the two draws, in the order they are drawn. */
  function Simulate(sample1: real, sample2: real): (r: AnalysisResult)
    ensures r.isFake <==> sample1 > 0.5
    ensures IsSample(sample2) ==> WellFormed(r)
    ensures r.abnormalities == Abnormalities && r.techniquesUsed == TechniquesUsed
    ensures |r.abnormalities| == 3 && |r.techniquesUsed| == 3
  {
    AnalysisResult(sample1 > 0.5, sample2 * 100.0, Abnormalities, TechniquesUsed)
  }

  /**
   * The simulation reaches every well-formed verdict: for each there are two
   * draws that produce it. With the ensures of Simulate this says the verdicts
   * it can produce are exactly the well-formed ones.
   */
  lemma SimulateReachesEveryWellFormed(v: AnalysisResult)
    requires WellFormed(v)
    ensures exists s1, s2 :: IsSample(s1) && IsSample(s2) && Simulate(s1, s2) == v
  {
    var s1 := if v.isFake then 0.75 else 0.25;
    var s2 := v.confidence / 100.0;
    assert Simulate(s1, s2) == v;
  }
}
