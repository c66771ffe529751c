/** The still-image detector: multi-level ELA divergence and FFT quadrant
    variance, each judged by its own band table. The two measurements come
    from the image libraries and are inputs here. */
module ImageDetector {
  import opened Wrappers
  import opened Rules
  import opened Results
  import Text

  /** What the re-encoding and spectrum computations report for one image. */
  datatype ImageFeatures = ImageFeatures(
    elaAverage: real,        // mean over the four JPEG qualities of the largest channel difference
    elaSpread: real,         // their standard deviation
    frequencyVariance: real, // variance of the four quadrant means of the log spectrum
    width: nat,
    height: nat)

  const ElaTable := Table(ElaAverage, [
    Band(Above(70.0), 65, 90, Critical),
    Band(Above(50.0), 40, 80, Moderate),
    Band(Above(30.0), 20, 75, Minor),
    Band(Otherwise, 5, 70, Baseline)])

  /** No `else` band: a low variance adds neither a delta nor a weight. */
  const FrequencyTable := Table(FrequencyVariance, [
    Band(Above(1000.0), 50, 85, Critical),
    Band(Above(500.0), 35, 75, High),
    Band(Above(200.0), 15, 65, Moderate)])

  /** ELA is judged first, then the spectrum. */
  function ImageChecks(f: ImageFeatures): seq<Check>
  {
    [Check(ElaTable, f.elaAverage), Check(FrequencyTable, f.frequencyVariance)]
  }

  /** ELA bands, top-down with strict `>`. */
  lemma ElaBands(x: real)
    ensures x > 70.0 ==> Select(ElaTable, x) == Some(Band(Above(70.0), 65, 90, Critical))
    ensures 50.0 < x <= 70.0 ==> Select(ElaTable, x) == Some(Band(Above(50.0), 40, 80, Moderate))
    ensures 30.0 < x <= 50.0 ==> Select(ElaTable, x) == Some(Band(Above(30.0), 20, 75, Minor))
    ensures x <= 30.0 ==> Select(ElaTable, x) == Some(Band(Otherwise, 5, 70, Baseline))
  {
    assert Total(ElaTable);
    var i :| FirstHolding(ElaTable, x, i) && ElaTable.bands[i] == Select(ElaTable, x).value;
  }

  /** Frequency bands; nothing fires at or below 200. */
  lemma FrequencyBands(x: real)
    ensures x > 1000.0 ==> Select(FrequencyTable, x) == Some(Band(Above(1000.0), 50, 85, Critical))
    ensures 500.0 < x <= 1000.0 ==> Select(FrequencyTable, x) == Some(Band(Above(500.0), 35, 75, High))
    ensures 200.0 < x <= 500.0 ==> Select(FrequencyTable, x) == Some(Band(Above(200.0), 15, 65, Moderate))
    ensures x <= 200.0 <==> Select(FrequencyTable, x).None?
  {
    if Select(FrequencyTable, x).Some? {
      var i :| FirstHolding(FrequencyTable, x, i) && FrequencyTable.bands[i] == Select(FrequencyTable, x).value;
    }
  }

  /** ELA always fires exactly one band, in first position; the spectrum
      fires a second one exactly when its variance exceeds 200. */
  lemma ImageFired(f: ImageFeatures)
    ensures Fire(ImageChecks(f)) ==
      [Fired(ElaAverage, Judge(ElaTable, f.elaAverage))]
      + (match Select(FrequencyTable, f.frequencyVariance)
         case None => []
         case Some(b) => [Fired(FrequencyVariance, b)])
    ensures Select(FrequencyTable, f.frequencyVariance).Some? <==> f.frequencyVariance > 200.0
  {
    FireOfTwo(Check(ElaTable, f.elaAverage), Check(FrequencyTable, f.frequencyVariance));
    FrequencyBands(f.frequencyVariance);
  }

  /** Every weight either table can contribute lies in 0.65..0.9. */
  lemma ImageWeights(f: ImageFeatures)
    ensures 70 <= Judge(ElaTable, f.elaAverage).weight <= 90
    ensures Select(FrequencyTable, f.frequencyVariance).Some? ==>
      65 <= Select(FrequencyTable, f.frequencyVariance).value.weight <= 85
  {
    ElaBands(f.elaAverage);
    FrequencyBands(f.frequencyVariance);
  }

  /** What the image scoring yields: ELA alone, or ELA and the spectrum,
      each as its table judges it. */
  function ImageVerdict(f: ImageFeatures): Analysis
  {
    var ela := Judge(ElaTable, f.elaAverage);
    var metrics := ImageMetrics(f.elaAverage, f.elaSpread, f.frequencyVariance, f.width, f.height);
    match Select(FrequencyTable, f.frequencyVariance)
    case None =>
      Analysis(Clamp(5, 100, ela.delta), ela.weight, [Rationale(ElaAverage, ela.level)], ElaFftQuadrant, metrics)
    case Some(frequency) =>
      Analysis(Clamp(5, 100, ela.delta + frequency.delta), (ela.weight + frequency.weight) / 2,
               [Rationale(ElaAverage, ela.level), Rationale(FrequencyVariance, frequency.level)],
               ElaFftQuadrant, metrics)
  }

  /** The aggregator applied to the fired bands gives the verdict above. */
  lemma ImageScoring(f: ImageFeatures)
    ensures Scored(Fire(ImageChecks(f)), [], ElaFftQuadrant,
                   ImageMetrics(f.elaAverage, f.elaSpread, f.frequencyVariance, f.width, f.height))
      == ImageVerdict(f)
  {
    ImageFired(f);
    var ela := Fired(ElaAverage, Judge(ElaTable, f.elaAverage));
    var metrics := ImageMetrics(f.elaAverage, f.elaSpread, f.frequencyVariance, f.width, f.height);
    match Select(FrequencyTable, f.frequencyVariance)
    case None =>
      assert [ela] + [] == [ela];
      ScoredOfOne(ela, [], ElaFftQuadrant, metrics);
    case Some(b) =>
      assert [ela] + [Fired(FrequencyVariance, b)] == [ela, Fired(FrequencyVariance, b)];
      ScoredOfTwo(ela, Fired(FrequencyVariance, b), [], ElaFftQuadrant, metrics);
  }

  /** `analyze_image_enhanced`: an extraction failure becomes the `Failed`
      record; otherwise the two tables are aggregated. */
  function AnalyzeImage(input: Result<ImageFeatures>): (a: Analysis)
    ensures Bounded(a)
    ensures input.Failure? <==> a.technique == Failed
    ensures input.Failure? ==> a == FailedWith(input.error)
    ensures input.Success? ==>
      var f := input.value;
      var ela := Judge(ElaTable, f.elaAverage);
      && a.technique == ElaFftQuadrant
      && 5 <= a.score
      && 65 <= a.confidence <= 90
      && |a.notes| == (if f.frequencyVariance > 200.0 then 2 else 1)
      && a.notes[0] == Rationale(ElaAverage, ela.level)
      // the score is the clamped sum of the fired deltas, the confidence the
      // floored mean of their weights
      && match Select(FrequencyTable, f.frequencyVariance)
         case None =>
           && a.score == Clamp(5, 100, ela.delta)
           && a.confidence == ela.weight
         case Some(frequency) =>
           && a.score == Clamp(5, 100, ela.delta + frequency.delta)
           && a.confidence == (ela.weight + frequency.weight) / 2
           && a.notes[1] == Rationale(FrequencyVariance, frequency.level)
    // the whole record, metrics included, is the table verdict on the features
    ensures input.Success? ==> a == ImageVerdict(input.value)
  {
    match input
    case Failure(e) => FailedWith(e)
    case Success(f) =>
      ImageScoring(f);
      ImageWeights(f);
      FrequencyBands(f.frequencyVariance);
      Scored(Fire(ImageChecks(f)), [], ElaFftQuadrant,
             ImageMetrics(f.elaAverage, f.elaSpread, f.frequencyVariance, f.width, f.height))
  }

  /** An ELA average of 71 lands in the top band: +65 at weight 0.9 with a
      CRITICAL rationale (shown with a quiet spectrum). */
  lemma ElaSeventyOne(f: ImageFeatures)
    requires f.elaAverage == 71.0 && f.frequencyVariance <= 200.0
    ensures var a := AnalyzeImage(Success(f));
      && a.score == 65 && a.confidence == 90
      && a.notes == [Rationale(ElaAverage, Critical)]
      && Text.StartsWith(Details(a), "CRITICAL")
  {
    ImageFired(f);
    ElaBands(71.0);
    FrequencyBands(f.frequencyVariance);
    var a := AnalyzeImage(Success(f));
    assert RenderAll(a.notes) == [Render(Rationale(ElaAverage, Critical))];
  }

  /** Exactly 70 is not above 70: the next band, +40 at weight 0.8. */
  lemma ElaSeventy(f: ImageFeatures)
    requires f.elaAverage == 70.0 && f.frequencyVariance <= 200.0
    ensures var a := AnalyzeImage(Success(f));
      a.score == 40 && a.confidence == 80 && a.notes == [Rationale(ElaAverage, Moderate)]
  {
    ImageFired(f);
    ElaBands(70.0);
    FrequencyBands(f.frequencyVariance);
    var fs := Fire(ImageChecks(f));
    assert SumWeights(fs) == 80;
  }
}
