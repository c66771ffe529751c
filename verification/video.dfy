/** The video detector. Frames are visited in order; every fifth frame is
    analysed for sharpness, optical flow against the previously analysed
    frame, face count and per-face spectrum. The per-frame measurements come
    from the vision libraries and are inputs here; optical flow is an oracle
    over two frames, because it depends on which frame came before. */
module VideoDetector {
  import opened Wrappers
  import opened Rules
  import opened Results
  import Seqs

  /** One detected face: the size of its region of interest and the mean of
      its log magnitude spectrum (meaningful only for a non-empty region). */
  datatype Face = Face(regionSize: nat, spectrumMean: real)

  /** What the libraries report for one decoded frame. The position in the
      stream identifies the frame, so the flow oracle can tell apart two
      frames whose measurements happen to agree. */
  datatype Frame = Frame(index: nat, blur: real, faces: seq<Face>)

  /** A capture that failed to open, or the decoded frames in order with the
      dense optical-flow magnitude between two grayscale frames. */
  datatype Stream = Unopened | Opened(frames: seq<Frame>, flow: (Frame, Frame) -> real)

  const Stride: nat := 5

  /** The loop's state after some prefix of the stream. */
  datatype Scan = Scan(
    frameCount: nat,
    analyzed: nat,
    blurs: seq<real>,
    spectra: seq<real>,
    flows: seq<real>,
    faceDeltas: seq<nat>,
    previous: Option<Frame>,
    previousFaceCount: nat)

  const Start: Scan := Scan(0, 0, [], [], [], [], None, 0)

  function Distance(a: nat, b: nat): nat
  {
    if a >= b then a - b else b - a
  }

  /** Spectrum means of the faces whose region is non-empty, in detection order. */
  function FaceSpectra(faces: seq<Face>): (r: seq<real>)
    ensures |r| <= |faces|
  {
    if |faces| == 0 then []
    else
      var last := faces[|faces| - 1];
      FaceSpectra(faces[..|faces| - 1]) + (if last.regionSize > 0 then [last.spectrumMean] else [])
  }

  /** One pass of the frame loop's body. */
  function Step(s: Scan, f: Frame, flow: (Frame, Frame) -> real): Scan
  {
    var count := s.frameCount + 1;
    if count % Stride != 0 then s.(frameCount := count)
    else
      var faceCount := |f.faces|;
      Scan(
        count,
        s.analyzed + 1,
        s.blurs + [f.blur],
        s.spectra + FaceSpectra(f.faces),
        if s.previous.Some? then s.flows + [flow(s.previous.value, f)] else s.flows,
        if s.previousFaceCount > 0 && faceCount > 0
        then s.faceDeltas + [Distance(faceCount, s.previousFaceCount)]
        else s.faceDeltas,
        Some(f),
        faceCount)
  }

  /** The frame loop, as a left fold over the stream. */
  function ScanFrames(frames: seq<Frame>, flow: (Frame, Frame) -> real): Scan
  {
    if |frames| == 0 then Start
    else Step(ScanFrames(frames[..|frames| - 1], flow), frames[|frames| - 1], flow)
  }

  // ---- What the loop computes, stated without the loop ----

  /** The frames at 1-based positions 5, 10, 15, … */
  function Sampled(frames: seq<Frame>): seq<Frame>
  {
    seq(|frames| / Stride, k requires 0 <= k < |frames| / Stride => frames[Stride * k + Stride - 1])
  }

  function Blurs(sampled: seq<Frame>): seq<real>
  {
    seq(|sampled|, k requires 0 <= k < |sampled| => sampled[k].blur)
  }

  /** Flow between each analysed frame and the next one. */
  function Flows(sampled: seq<Frame>, flow: (Frame, Frame) -> real): seq<real>
  {
    if |sampled| == 0 then []
    else seq(|sampled| - 1, k requires 0 <= k < |sampled| - 1 => flow(sampled[k], sampled[k + 1]))
  }

  /** Face-count changes between consecutive analysed frames that both show a face. */
  function FaceDeltas(sampled: seq<Frame>): seq<nat>
  {
    if |sampled| < 2 then []
    else
      var before := |sampled[|sampled| - 2].faces|;
      var after := |sampled[|sampled| - 1].faces|;
      FaceDeltas(sampled[..|sampled| - 1])
        + (if before > 0 && after > 0 then [Distance(after, before)] else [])
  }

  function Spectra(sampled: seq<Frame>): seq<real>
  {
    if |sampled| == 0 then []
    else Spectra(sampled[..|sampled| - 1]) + FaceSpectra(sampled[|sampled| - 1].faces)
  }

  /** A frame is analysed exactly when its 1-based position is a multiple of 5. */
  lemma SampledPositions(frames: seq<Frame>, i: int)
    requires 0 <= i < |frames|
    ensures |Sampled(frames)| == |frames| / 5
    ensures (i + 1) % 5 == 0 <==> exists k :: 0 <= k < |Sampled(frames)| && 5 * k + 4 == i
    ensures (i + 1) % 5 == 0 ==> Sampled(frames)[(i + 1) / 5 - 1] == frames[i]
  {
    if (i + 1) % 5 == 0 {
      var k := (i + 1) / 5 - 1;
      assert 5 * k + 4 == i;
    }
  }

  lemma SampledSnoc(frames: seq<Frame>, f: Frame)
    ensures Sampled(frames + [f]) == Sampled(frames) + (if (|frames| + 1) % 5 == 0 then [f] else [])
  {
    var n := |frames|;
    var longer := Sampled(frames + [f]);
    var expected := Sampled(frames) + (if (n + 1) % 5 == 0 then [f] else []);
    assert |longer| == |expected|;
    forall k | 0 <= k < |longer|
      ensures longer[k] == expected[k]
    {
      if k < n / 5 {
        assert 5 * k + 4 < n;
      } else {
        assert 5 * k + 4 == n;
      }
    }
  }

  lemma FaceDeltasBound(sampled: seq<Frame>)
    ensures |sampled| > 0 ==> |FaceDeltas(sampled)| <= |sampled| - 1
  {
  }

  /** `s` is what the loop holds after visiting `frames`: the frame count,
      one blur per analysed frame, one flow per pair of consecutive analysed
      frames, the face-count deltas of pairs that both show a face, the
      spectra of all non-empty face regions, and the last analysed frame as
      the carried previous frame. */
  ghost predicate Describes(s: Scan, frames: seq<Frame>, flow: (Frame, Frame) -> real)
  {
    var sampled := Sampled(frames);
    && s.frameCount == |frames|
    && s.analyzed == |sampled|
    && s.blurs == Blurs(sampled)
    && s.spectra == Spectra(sampled)
    && s.flows == Flows(sampled, flow)
    && s.faceDeltas == FaceDeltas(sampled)
    && s.previous == (if |sampled| == 0 then None else Some(sampled[|sampled| - 1]))
    && s.previousFaceCount == (if |sampled| == 0 then 0 else |sampled[|sampled| - 1].faces|)
  }

  lemma BlursSnoc(sampled: seq<Frame>, f: Frame)
    ensures Blurs(sampled + [f]) == Blurs(sampled) + [f.blur]
  {
  }

  lemma FlowsSnoc(sampled: seq<Frame>, f: Frame, flow: (Frame, Frame) -> real)
    ensures Flows(sampled + [f], flow) ==
      if |sampled| == 0 then [] else Flows(sampled, flow) + [flow(sampled[|sampled| - 1], f)]
  {
    var after := sampled + [f];
    if |sampled| > 0 {
      assert after[|after| - 2] == sampled[|sampled| - 1];
    }
  }

  /** Spectra and face deltas of the analysed frames grow by the new frame's share. */
  lemma FacesSnoc(sampled: seq<Frame>, f: Frame)
    ensures Spectra(sampled + [f]) == Spectra(sampled) + FaceSpectra(f.faces)
    ensures FaceDeltas(sampled + [f]) ==
      if |sampled| == 0 then []
      else FaceDeltas(sampled) + (if |sampled[|sampled| - 1].faces| > 0 && |f.faces| > 0
                                  then [Distance(|f.faces|, |sampled[|sampled| - 1].faces|)] else [])
  {
    var after := sampled + [f];
    assert after[..|after| - 1] == sampled;
  }

  /** An analysed frame extends every closed form by its own contribution. */
  lemma SampledStep(s: Scan, init: seq<Frame>, f: Frame, flow: (Frame, Frame) -> real)
    requires Describes(s, init, flow)
    requires (|init| + 1) % 5 == 0
    ensures Describes(Step(s, f, flow), init + [f], flow)
  {
    SampledSnoc(init, f);
    var before := Sampled(init);
    assert Sampled(init + [f]) == before + [f];
    assert (s.frameCount + 1) % Stride == 0;
    var t := Step(s, f, flow);
    BlursSnoc(before, f);
    FlowsSnoc(before, f, flow);
    FacesSnoc(before, f);
    assert t.flows == Flows(before + [f], flow);
    assert t.faceDeltas == FaceDeltas(before + [f]);
  }

  /** A skipped frame only advances the frame count. */
  lemma SkippedStep(s: Scan, init: seq<Frame>, f: Frame, flow: (Frame, Frame) -> real)
    requires Describes(s, init, flow)
    requires (|init| + 1) % 5 != 0
    ensures Describes(Step(s, f, flow), init + [f], flow)
  {
    SampledSnoc(init, f);
    assert Sampled(init + [f]) == Sampled(init);
  }

  lemma {:induction false} ScanClosedForm(frames: seq<Frame>, flow: (Frame, Frame) -> real)
    ensures Describes(ScanFrames(frames, flow), frames, flow)
  {
    if |frames| > 0 {
      var init := frames[..|frames| - 1];
      var f := frames[|frames| - 1];
      assert frames == init + [f];
      ScanClosedForm(init, flow);
      if (|init| + 1) % 5 == 0 {
        SampledStep(ScanFrames(init, flow), init, f, flow);
      } else {
        SkippedStep(ScanFrames(init, flow), init, f, flow);
      }
    }
  }

  // ---- Band tables ----

  const BlurTable := Table(Sharpness, [
    Band(Below(50.0), 40, 85, Critical),
    Band(Below(80.0), 25, 75, Moderate),
    Band(Otherwise, 5, 80, Plain)])

  const SpectrumTable := Table(FaceSpectrum, [
    Band(Above(180.0), 55, 90, Critical),
    Band(Above(165.0), 40, 80, High),
    Band(Otherwise, 5, 75, Plain)])

  /** Checked in the order < 0.2, < 0.4, > 15, > 12, else. */
  const FlowTable := Table(Motion, [
    Band(Below(0.2), 45, 85, Critical),
    Band(Below(0.4), 25, 75, Moderate),
    Band(Above(15.0), 35, 80, High),
    Band(Above(12.0), 15, 65, Moderate),
    Band(Otherwise, 5, 75, Plain)])

  const TrackingTable := Table(FaceTracking, [
    Band(Above(2.0), 45, 85, Critical),
    Band(Above(1.0), 25, 75, Moderate),
    Band(Otherwise, 5, 75, Plain)])

  /** The flow bands as a partition of the reals. */
  lemma FlowBands(x: real)
    ensures x < 0.2 ==> Select(FlowTable, x) == Some(Band(Below(0.2), 45, 85, Critical))
    ensures 0.2 <= x < 0.4 ==> Select(FlowTable, x) == Some(Band(Below(0.4), 25, 75, Moderate))
    ensures x > 15.0 ==> Select(FlowTable, x) == Some(Band(Above(15.0), 35, 80, High))
    ensures 12.0 < x <= 15.0 ==> Select(FlowTable, x) == Some(Band(Above(12.0), 15, 65, Moderate))
    ensures 0.4 <= x <= 12.0 ==> Select(FlowTable, x) == Some(Band(Otherwise, 5, 75, Plain))
  {
    var bands := FlowTable.bands;
    if x < 0.2 {
      SelectAt(FlowTable, x, 0);
    } else if x < 0.4 {
      assert !Holds(bands[0].guard, x);
      SelectAt(FlowTable, x, 1);
    } else if x > 15.0 {
      assert !Holds(bands[0].guard, x) && !Holds(bands[1].guard, x);
      SelectAt(FlowTable, x, 2);
    } else if x > 12.0 {
      assert !Holds(bands[0].guard, x) && !Holds(bands[1].guard, x) && !Holds(bands[2].guard, x);
      SelectAt(FlowTable, x, 3);
    } else {
      assert !Holds(bands[0].guard, x) && !Holds(bands[1].guard, x) && !Holds(bands[2].guard, x);
      assert !Holds(bands[3].guard, x);
      SelectAt(FlowTable, x, 4);
    }
  }

  lemma BlurBands(x: real)
    ensures x < 50.0 ==> Select(BlurTable, x) == Some(Band(Below(50.0), 40, 85, Critical))
    ensures 50.0 <= x < 80.0 ==> Select(BlurTable, x) == Some(Band(Below(80.0), 25, 75, Moderate))
    ensures x >= 80.0 ==> Select(BlurTable, x) == Some(Band(Otherwise, 5, 80, Plain))
  {
    assert Total(BlurTable);
    var i :| FirstHolding(BlurTable, x, i) && BlurTable.bands[i] == Select(BlurTable, x).value;
  }

  lemma SpectrumBands(x: real)
    ensures x > 180.0 ==> Select(SpectrumTable, x) == Some(Band(Above(180.0), 55, 90, Critical))
    ensures 165.0 < x <= 180.0 ==> Select(SpectrumTable, x) == Some(Band(Above(165.0), 40, 80, High))
    ensures x <= 165.0 ==> Select(SpectrumTable, x) == Some(Band(Otherwise, 5, 75, Plain))
  {
    assert Total(SpectrumTable);
    var i :| FirstHolding(SpectrumTable, x, i) && SpectrumTable.bands[i] == Select(SpectrumTable, x).value;
  }

  lemma TrackingBands(x: real)
    ensures x > 2.0 ==> Select(TrackingTable, x) == Some(Band(Above(2.0), 45, 85, Critical))
    ensures 1.0 < x <= 2.0 ==> Select(TrackingTable, x) == Some(Band(Above(1.0), 25, 75, Moderate))
    ensures x <= 1.0 ==> Select(TrackingTable, x) == Some(Band(Otherwise, 5, 75, Plain))
  {
    assert Total(TrackingTable);
    var i :| FirstHolding(TrackingTable, x, i) && TrackingTable.bands[i] == Select(TrackingTable, x).value;
  }

  /** Blur, face spectrum, flow, face tracking: the order the rationales appear in. */
  function VideoChecks(blur: real, spectrum: real, motion: real, tracking: real): seq<Check>
  {
    [Check(BlurTable, blur), Check(SpectrumTable, spectrum), Check(FlowTable, motion), Check(TrackingTable, tracking)]
  }

  lemma VideoTables(blur: real, spectrum: real, motion: real, tracking: real)
    ensures AllTotal(VideoChecks(blur, spectrum, motion, tracking))
    ensures TablesWeightsWithin(VideoChecks(blur, spectrum, motion, tracking), 65, 90)
  {
    var checks := VideoChecks(blur, spectrum, motion, tracking);
    assert Total(BlurTable) && Total(SpectrumTable) && Total(FlowTable) && Total(TrackingTable);
    forall i, j | 0 <= i < |checks| && 0 <= j < |checks[i].table.bands|
      ensures 65 <= checks[i].table.bands[j].weight <= 90
    {
      if i == 0 {
        assert checks[i].table == BlurTable;
      } else if i == 1 {
        assert checks[i].table == SpectrumTable;
      } else if i == 2 {
        assert checks[i].table == FlowTable;
      } else {
        assert checks[i].table == TrackingTable;
      }
    }
  }

  /** Every feature fires exactly one band, in the order of the checks. */
  lemma VideoFired(blur: real, spectrum: real, motion: real, tracking: real)
    ensures Fire(VideoChecks(blur, spectrum, motion, tracking)) ==
      [Fired(Sharpness, Judge(BlurTable, blur)),
       Fired(FaceSpectrum, Judge(SpectrumTable, spectrum)),
       Fired(Motion, Judge(FlowTable, motion)),
       Fired(FaceTracking, Judge(TrackingTable, tracking))]
  {
    FireOfFour(Check(BlurTable, blur), Check(SpectrumTable, spectrum), Check(FlowTable, motion),
               Check(TrackingTable, tracking));
  }

  /** Each of the four features fires exactly one band, so the raw sum is at
      least 20; it is at most 185. */
  lemma {:induction false} VideoRawScore(blur: real, spectrum: real, motion: real, tracking: real)
    ensures var fs := Fire(VideoChecks(blur, spectrum, motion, tracking));
      && |fs| == 4
      && fs[0].feature == Sharpness && fs[1].feature == FaceSpectrum
      && fs[2].feature == Motion && fs[3].feature == FaceTracking
      && 20 <= SumDeltas(fs) <= 185
      && WeightsWithin(fs, 65, 90)
  {
    var checks := VideoChecks(blur, spectrum, motion, tracking);
    VideoTables(blur, spectrum, motion, tracking);
    FireWeightsWithin(checks, 65, 90);
    var fs := Fire(checks);
    VideoDeltas(blur, spectrum, motion, tracking);
    VideoFired(blur, spectrum, motion, tracking);
    SumDeltasOfFour(fs);
  }

  lemma VideoDeltas(blur: real, spectrum: real, motion: real, tracking: real)
    ensures 5 <= Select(BlurTable, blur).value.delta <= 40
    ensures 5 <= Select(SpectrumTable, spectrum).value.delta <= 55
    ensures 5 <= Select(FlowTable, motion).value.delta <= 45
    ensures 5 <= Select(TrackingTable, tracking).value.delta <= 45
  {
    BlurBands(blur);
    SpectrumBands(spectrum);
    FlowBands(motion);
    TrackingBands(tracking);
  }

  /** All four worst bands together reach 185, which the clamp cuts to 100. */
  lemma VideoWorstCase()
    ensures var fs := Fire(VideoChecks(0.0, 200.0, 0.0, 3.0));
      SumDeltas(fs) == 185 && Clamp(5, 100, SumDeltas(fs)) == 100
  {
    var fs := Fire(VideoChecks(0.0, 200.0, 0.0, 3.0));
    VideoRawScore(0.0, 200.0, 0.0, 3.0);
    BlurBands(0.0);
    SpectrumBands(200.0);
    FlowBands(0.0);
    TrackingBands(3.0);
    SumDeltasOfFour(fs);
  }

  function AsReals(xs: seq<nat>): seq<real>
  {
    seq(|xs|, k requires 0 <= k < |xs| => xs[k] as real)
  }

  /** The scoring tail of the video detector: the four feature means judged
      by their tables after the frame-count note, the clamped sum of the
      deltas, the floored mean weight. */
  function ScoreVideoFeatures(blur: real, spectrum: real, motion: real, tracking: real, header: Note): (a: Analysis)
    ensures var b0 := Judge(BlurTable, blur);
      var b1 := Judge(SpectrumTable, spectrum);
      var b2 := Judge(FlowTable, motion);
      var b3 := Judge(TrackingTable, tracking);
      a == Analysis(Clamp(5, 100, b0.delta + b1.delta + b2.delta + b3.delta),
                    (b0.weight + b1.weight + b2.weight + b3.weight) / 4,
                    [header] + [Rationale(Sharpness, b0.level), Rationale(FaceSpectrum, b1.level),
                                Rationale(Motion, b2.level), Rationale(FaceTracking, b3.level)],
                    FrameFftFlowFace, VideoMetrics(blur, spectrum, motion))
    ensures Bounded(a) && 5 <= a.score && 65 <= a.confidence <= 90
  {
    VideoScoring(blur, spectrum, motion, tracking, header);
    VideoWeights(blur, spectrum, motion, tracking);
    Scored(Fire(VideoChecks(blur, spectrum, motion, tracking)), [header], FrameFftFlowFace,
           VideoMetrics(blur, spectrum, motion))
  }

  lemma VideoWeights(blur: real, spectrum: real, motion: real, tracking: real)
    ensures 75 <= Judge(BlurTable, blur).weight <= 85
    ensures 75 <= Judge(SpectrumTable, spectrum).weight <= 90
    ensures 65 <= Judge(FlowTable, motion).weight <= 85
    ensures 75 <= Judge(TrackingTable, tracking).weight <= 85
  {
    BlurBands(blur);
    SpectrumBands(spectrum);
    FlowBands(motion);
    TrackingBands(tracking);
  }

  lemma VideoScoring(blur: real, spectrum: real, motion: real, tracking: real, header: Note)
    ensures var a := Scored(Fire(VideoChecks(blur, spectrum, motion, tracking)), [header], FrameFftFlowFace,
                            VideoMetrics(blur, spectrum, motion));
      var b0 := Judge(BlurTable, blur);
      var b1 := Judge(SpectrumTable, spectrum);
      var b2 := Judge(FlowTable, motion);
      var b3 := Judge(TrackingTable, tracking);
      a == Analysis(Clamp(5, 100, b0.delta + b1.delta + b2.delta + b3.delta),
                    (b0.weight + b1.weight + b2.weight + b3.weight) / 4,
                    [header] + [Rationale(Sharpness, b0.level), Rationale(FaceSpectrum, b1.level),
                                Rationale(Motion, b2.level), Rationale(FaceTracking, b3.level)],
                    FrameFftFlowFace, VideoMetrics(blur, spectrum, motion))
  {
    ScoredChecksOfFour(Check(BlurTable, blur), Check(SpectrumTable, spectrum), Check(FlowTable, motion),
                       Check(TrackingTable, tracking), [header], FrameFftFlowFace, VideoMetrics(blur, spectrum, motion));
  }

  /** `analyze_video_enhanced`. */
  function AnalyzeVideo(input: Result<Stream>): (a: Analysis)
    ensures Bounded(a)
    ensures input.Failure? <==> a.technique == Failed
    ensures input.Failure? ==> a == FailedWith(input.error)
    ensures input.Success? && input.value.Unopened? ==> a == Neutral(CouldNotOpenVideo)
    ensures input.Success? && input.value.Opened? && |input.value.frames| < 5 ==>
      a == Neutral(NoFramesAnalyzed)
    // otherwise the four features are the means over the analysed frames,
    // each judged by its table
    ensures input.Success? && input.value.Opened? && |input.value.frames| >= 5 ==>
      var sampled := Sampled(input.value.frames);
      a == ScoreVideoFeatures(
        Seqs.MeanOrZero(Blurs(sampled)),
        Seqs.MeanOrZero(Spectra(sampled)),
        Seqs.MeanOrZero(Flows(sampled, input.value.flow)),
        Seqs.MeanOrZero(AsReals(FaceDeltas(sampled))),
        FramesAnalyzed(|input.value.frames| / 5, |input.value.frames|))
  {
    match input
    case Failure(e) => FailedWith(e)
    case Success(Unopened) => Neutral(CouldNotOpenVideo)
    case Success(Opened(frames, flow)) =>
      ScanClosedForm(frames, flow);
      var s := ScanFrames(frames, flow);
      if s.analyzed == 0 then Neutral(NoFramesAnalyzed)
      else
        ScoreVideoFeatures(
          Seqs.MeanOrZero(s.blurs), Seqs.MeanOrZero(s.spectra),
          Seqs.MeanOrZero(s.flows), Seqs.MeanOrZero(AsReals(s.faceDeltas)),
          FramesAnalyzed(s.analyzed, s.frameCount))
  }

  /** The stateful parts of the loop: with at least one analysed frame there
      is exactly one flow sample fewer than analysed frames, each measured
      between consecutive analysed frames; face deltas are at most one per
      consecutive pair. */
  lemma FlowAndFaceCounts(frames: seq<Frame>, flow: (Frame, Frame) -> real)
    requires |frames| >= 5
    ensures var s := ScanFrames(frames, flow);
      && s.analyzed == |frames| / 5
      && |s.flows| == s.analyzed - 1
      && (forall k :: 0 <= k < |s.flows| ==> s.flows[k] == flow(frames[5 * k + 4], frames[5 * k + 9]))
      && |s.faceDeltas| <= s.analyzed - 1
  {
    ScanClosedForm(frames, flow);
    FaceDeltasBound(Sampled(frames));
  }
}
