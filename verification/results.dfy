/** The analysis record every detector returns, the shared aggregator that
    turns fired bands into a score and a confidence, and the rendering of
    rationales into the `details` text. */
module Results {
  import opened Rules
  import Text

  /** The `method` tag: which analysis path produced a record (`'N/A'` and `'Failed'` included). */
  datatype Technique =
    | ElaFftQuadrant | FrameFftFlowFace | MfccProsodySpectral | PdfMetadata
    | NotApplicable | Failed

  /** The modality-specific fields, kept as exact values (display rounding is
      not modelled). */
  datatype Metrics =
    | NoMetrics
    | ImageMetrics(elaAverage: real, elaSpread: real, frequencyVariance: real, width: nat, height: nat)
    | VideoMetrics(averageBlur: real, averageSpectrum: real, averageFlow: real)
    | AudioMetrics(mfccVariance: real, pitchVariance: real, rolloffMean: real, sampleRate: nat)
    | DocumentMetrics(pageCount: nat, hasJavaScript: bool)

  /** One rationale statement of `details`. */
  datatype Note =
    | Rationale(feature: Feature, level: Level)
    | FramesAnalyzed(analyzed: nat, total: nat)
    | EditingTool(tool: string)
    | NoScannerMetadata
    | EmbeddedJavaScript
    | NoIndicators
    | UnknownMediaType
    | CouldNotOpenVideo
    | NoFramesAnalyzed
    | Error(cause: string)

  datatype Analysis = Analysis(score: int, confidence: int, notes: seq<Note>, technique: Technique, metrics: Metrics)

  /** The record an exception handler returns. */
  function FailedWith(cause: string): Analysis
  {
    Analysis(0, 0, [Error(cause)], Failed, NoMetrics)
  }

  /** A zero-confidence `'N/A'` record carrying one explanatory note. */
  function Neutral(note: Note): Analysis
  {
    Analysis(0, 0, [note], NotApplicable, NoMetrics)
  }

  predicate Bounded(a: Analysis)
  {
    0 <= a.score <= 100 && 0 <= a.confidence <= 100
  }

  /** A record produced by a detector's scoring path. */
  predicate Succeeded(a: Analysis)
  {
    a.technique != NotApplicable && a.technique != Failed
  }

  function RuleNotes(fs: seq<Fired>): seq<Note>
  {
    seq(|fs|, k requires 0 <= k < |fs| => Rationale(fs[k].feature, fs[k].band.level))
  }

  /** The aggregator shared by the image, video and audio detectors: the sum
      of deltas clamped into [5, 100], the floored mean weight, and the
      rationales after any header notes, in evaluation order. */
  function Scored(fired: seq<Fired>, header: seq<Note>, technique: Technique, metrics: Metrics): (a: Analysis)
    ensures Bounded(a) && a.score >= 5
    ensures 5 <= SumDeltas(fired) <= 100 ==> a.score == SumDeltas(fired)
    ensures SumDeltas(fired) < 5 ==> a.score == 5
    ensures SumDeltas(fired) > 100 ==> a.score == 100
    ensures |fired| == 0 ==> a.confidence == 50
    ensures |fired| > 0 ==> a.confidence * |fired| <= SumWeights(fired) < (a.confidence + 1) * |fired|
    ensures |a.notes| == |header| + |fired| && a.notes[..|header|] == header
    ensures forall k :: 0 <= k < |fired| ==>
      a.notes[|header| + k] == Rationale(fired[k].feature, fired[k].band.level)
    ensures a.technique == technique && a.metrics == metrics
  {
    Analysis(Clamp(5, 100, SumDeltas(fired)), Confidence(fired), header + RuleNotes(fired), technique, metrics)
  }

  /** With four fired bands (every video and audio table ends in `else`), the
      score is the clamped sum of their deltas, the confidence is the floor of
      the mean of their weights, and the four rationales follow the header. */
  lemma ScoredOfFour(f0: Fired, f1: Fired, f2: Fired, f3: Fired, header: seq<Note>, technique: Technique, metrics: Metrics)
    ensures Scored([f0, f1, f2, f3], header, technique, metrics) ==
      Analysis(Clamp(5, 100, f0.band.delta + f1.band.delta + f2.band.delta + f3.band.delta),
               (f0.band.weight + f1.band.weight + f2.band.weight + f3.band.weight) / 4,
               header + [Rationale(f0.feature, f0.band.level), Rationale(f1.feature, f1.band.level),
                         Rationale(f2.feature, f2.band.level), Rationale(f3.feature, f3.band.level)],
               technique, metrics)
  {
    var fired := [f0, f1, f2, f3];
    SumDeltasOfFour(fired);
    SumWeightsOfFour(fired);
    assert RuleNotes(fired) == [Rationale(f0.feature, f0.band.level), Rationale(f1.feature, f1.band.level),
                                Rationale(f2.feature, f2.band.level), Rationale(f3.feature, f3.band.level)];
  }

  /** Four checks against total tables: each is judged by its own table, and
      the record aggregates the four bands in check order. */
  lemma ScoredChecksOfFour(c0: Check, c1: Check, c2: Check, c3: Check, header: seq<Note>,
                           technique: Technique, metrics: Metrics)
    requires Total(c0.table) && Total(c1.table) && Total(c2.table) && Total(c3.table)
    ensures var b0 := Judge(c0.table, c0.value);
      var b1 := Judge(c1.table, c1.value);
      var b2 := Judge(c2.table, c2.value);
      var b3 := Judge(c3.table, c3.value);
      Scored(Fire([c0, c1, c2, c3]), header, technique, metrics) ==
      Analysis(Clamp(5, 100, b0.delta + b1.delta + b2.delta + b3.delta),
               (b0.weight + b1.weight + b2.weight + b3.weight) / 4,
               header + [Rationale(c0.table.feature, b0.level), Rationale(c1.table.feature, b1.level),
                         Rationale(c2.table.feature, b2.level), Rationale(c3.table.feature, b3.level)],
               technique, metrics)
  {
    FireOfFour(c0, c1, c2, c3);
    ScoredOfFour(Fired(c0.table.feature, Judge(c0.table, c0.value)), Fired(c1.table.feature, Judge(c1.table, c1.value)),
                 Fired(c2.table.feature, Judge(c2.table, c2.value)), Fired(c3.table.feature, Judge(c3.table, c3.value)),
                 header, technique, metrics);
  }

  /** Four checks and no header: the notes are the four rationales alone. */
  lemma ScoredChecksAlone(c0: Check, c1: Check, c2: Check, c3: Check, technique: Technique, metrics: Metrics)
    requires Total(c0.table) && Total(c1.table) && Total(c2.table) && Total(c3.table)
    ensures var b0 := Judge(c0.table, c0.value);
      var b1 := Judge(c1.table, c1.value);
      var b2 := Judge(c2.table, c2.value);
      var b3 := Judge(c3.table, c3.value);
      Scored(Fire([c0, c1, c2, c3]), [], technique, metrics) ==
      Analysis(Clamp(5, 100, b0.delta + b1.delta + b2.delta + b3.delta),
               (b0.weight + b1.weight + b2.weight + b3.weight) / 4,
               [Rationale(c0.table.feature, b0.level), Rationale(c1.table.feature, b1.level),
                Rationale(c2.table.feature, b2.level), Rationale(c3.table.feature, b3.level)],
               technique, metrics)
  {
    ScoredChecksOfFour(c0, c1, c2, c3, [], technique, metrics);
    var rationales := [Rationale(c0.table.feature, Judge(c0.table, c0.value).level),
                       Rationale(c1.table.feature, Judge(c1.table, c1.value).level),
                       Rationale(c2.table.feature, Judge(c2.table, c2.value).level),
                       Rationale(c3.table.feature, Judge(c3.table, c3.value).level)];
    assert [] + rationales == rationales;
  }

  /** One fired band: its delta, clamped, and its own weight. */
  lemma ScoredOfOne(f0: Fired, header: seq<Note>, technique: Technique, metrics: Metrics)
    ensures Scored([f0], header, technique, metrics) ==
      Analysis(Clamp(5, 100, f0.band.delta), f0.band.weight,
               header + [Rationale(f0.feature, f0.band.level)], technique, metrics)
  {
    var fired := [f0];
    assert fired[1..] == [];
    assert SumDeltas(fired) == f0.band.delta + SumDeltas(fired[1..]);
    assert SumWeights(fired) == f0.band.weight + SumWeights(fired[1..]);
    assert RuleNotes(fired) == [Rationale(f0.feature, f0.band.level)];
  }

  /** Two fired bands: the clamped sum of the deltas, the floored mean of
      the two weights. */
  lemma ScoredOfTwo(f0: Fired, f1: Fired, header: seq<Note>, technique: Technique, metrics: Metrics)
    ensures Scored([f0, f1], header, technique, metrics) ==
      Analysis(Clamp(5, 100, f0.band.delta + f1.band.delta), (f0.band.weight + f1.band.weight) / 2,
               header + [Rationale(f0.feature, f0.band.level), Rationale(f1.feature, f1.band.level)],
               technique, metrics)
  {
    var fired := [f0, f1];
    assert fired[1..] == [f1];
    assert fired[1..][1..] == [];
    assert SumDeltas(fired[1..]) == f1.band.delta + SumDeltas(fired[1..][1..]);
    assert SumWeights(fired[1..]) == f1.band.weight + SumWeights(fired[1..][1..]);
    assert SumDeltas(fired) == f0.band.delta + SumDeltas(fired[1..]);
    assert SumWeights(fired) == f0.band.weight + SumWeights(fired[1..]);
    assert RuleNotes(fired) == [Rationale(f0.feature, f0.band.level), Rationale(f1.feature, f1.band.level)];
  }

  function LevelWord(l: Level): string
  {
    match l
    case Critical => "CRITICAL"
    case VeryHigh => "VERY HIGH"
    case High => "HIGH"
    case Moderate => "MODERATE"
    case Minor => "MINOR"
    case Baseline => "BASELINE"
    case Plain => ""
  }

  function FeatureLabel(f: Feature): string
  {
    match f
    case ElaAverage => "ELA variance"
    case FrequencyVariance => "frequency variance"
    case Sharpness => "frame sharpness"
    case FaceSpectrum => "face-region frequencies"
    case Motion => "motion naturalness"
    case FaceTracking => "face tracking"
    case VoiceVariance => "voice variance"
    case Bandwidth => "bandwidth"
    case PitchVariation => "pitch variation"
    case ZcrVariation => "ZCR variation"
  }

  /** The text of one rationale. Tagged rationales open with their tag;
      measured values are not interpolated. */
  function Render(n: Note): (s: string)
    ensures n.Rationale? && n.level != Plain ==> Text.StartsWith(s, LevelWord(n.level) + ": ")
    ensures n.Error? ==> Text.StartsWith(s, "Error: ") && s[|"Error: "|..] == n.cause
  {
    match n
    case Rationale(f, l) => if l == Plain then FeatureLabel(f) else LevelWord(l) + ": " + FeatureLabel(f)
    case FramesAnalyzed(a, t) =>
      "Analyzed " + Text.Decimal(a) + " frames (" + Text.Decimal(t) + " total)."
    case EditingTool(tool) => "Document shows signs of editing (" + tool + " detected in metadata)."
    case NoScannerMetadata => "No scanner/printer metadata - may be digitally created."
    case EmbeddedJavaScript => "Embedded JavaScript detected (security risk)."
    case NoIndicators => "No obvious tampering indicators found."
    case UnknownMediaType => "Unknown media type"
    case CouldNotOpenVideo => "Could not open video."
    case NoFramesAnalyzed => "No frames analyzed."
    case Error(cause) => "Error: " + cause
  }

  function RenderAll(notes: seq<Note>): (parts: seq<string>)
    ensures |parts| == |notes|
    ensures forall k :: 0 <= k < |notes| ==> parts[k] == Render(notes[k])
  {
    seq(|notes|, k requires 0 <= k < |notes| => Render(notes[k]))
  }

  /** The record's `details` text: its rationales joined by a single space. */
  function Details(a: Analysis): string
  {
    Text.Join(RenderAll(a.notes), " ")
  }

  /** A failed record's details are `'Error: '` followed by the cause. */
  lemma FailureDetails(cause: string)
    ensures Details(FailedWith(cause)) == "Error: " + cause
    ensures Text.StartsWith(Details(FailedWith(cause)), "Error: ")
  {
    assert RenderAll([Error(cause)]) == ["Error: " + cause];
  }

  /** Appending a rationale appends its text after one space. */
  lemma DetailsSnoc(a: Analysis, n: Note)
    requires |a.notes| > 0
    ensures Details(a.(notes := a.notes + [n])) == Details(a) + " " + Render(n)
  {
    assert RenderAll(a.notes + [n]) == RenderAll(a.notes) + [Render(n)];
    Text.JoinSnoc(RenderAll(a.notes), Render(n), " ");
  }
}
