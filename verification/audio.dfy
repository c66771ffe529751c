/** The audio detector: MFCC variance, spectral rolloff, pitch variance and
    zero-crossing-rate spread, each judged by its own table. The feature
    values and the pitch-tracking matrix come from the audio library and are
    inputs; the pitch selection over that matrix is modelled. */
module AudioDetector {
  import opened Wrappers
  import opened Rules
  import opened Results
  import Seqs

  /** One frequency bin of one analysis frame of the pitch tracker. */
  datatype Bin = Bin(pitch: real, magnitude: real)

  /** What the audio library reports for one waveform. The pitch track is
      given frame by frame (the columns of the tracker's matrices). */
  datatype AudioFeatures = AudioFeatures(
    mfccVariance: real,   // mean over 13 coefficients of their variance
    zcrSpread: real,      // standard deviation of the zero-crossing rate
    rolloffMean: real,
    sampleRate: nat,
    pitchTrack: seq<seq<Bin>>)

  /** The error numpy raises for `argmax` of an empty column. */
  const EmptyArgMax := "attempt to get argmax of an empty sequence"

  function Magnitudes(column: seq<Bin>): (m: seq<real>)
    ensures |m| == |column|
    ensures forall i :: 0 <= i < |column| ==> m[i] == column[i].magnitude
  {
    seq(|column|, i requires 0 <= i < |column| => column[i].magnitude)
  }

  /** The pitch at the first bin of greatest magnitude. */
  function StrongestPitch(column: seq<Bin>): (p: real)
    requires |column| > 0
    ensures exists i ::
      && 0 <= i < |column| && p == column[i].pitch
      && (forall j :: 0 <= j < |column| ==> column[j].magnitude <= column[i].magnitude)
      && (forall j :: 0 <= j < i ==> column[j].magnitude < column[i].magnitude)
  {
    var i := Seqs.ArgMax(Magnitudes(column));
    column[i].pitch
  }

  /** The pitch-collection loop, frame by frame; an empty column raises. */
  function CollectPitches(track: seq<seq<Bin>>): Result<seq<real>>
  {
    if |track| == 0 then Success([])
    else
      match CollectPitches(track[..|track| - 1])
      case Failure(e) => Failure(e)
      case Success(values) =>
        var column := track[|track| - 1];
        if |column| == 0 then Failure(EmptyArgMax)
        else
          var p := StrongestPitch(column);
          Success(if p > 0.0 then values + [p] else values)
  }

  predicate NoEmptyColumn(track: seq<seq<Bin>>)
  {
    forall t :: 0 <= t < |track| ==> |track[t]| > 0
  }

  /** The strongest-bin pitch of every frame, in frame order. */
  function StrongestPitches(track: seq<seq<Bin>>): (r: seq<real>)
    requires NoEmptyColumn(track)
    ensures |r| == |track|
    ensures forall t :: 0 <= t < |track| ==> r[t] == StrongestPitch(track[t])
  {
    if |track| == 0 then []
    else
      var init := track[..|track| - 1];
      assert NoEmptyColumn(init);
      StrongestPitches(init) + [StrongestPitch(track[|track| - 1])]
  }

  /** The loop fails exactly when some column is empty. */
  lemma {:induction false} PitchLoopFails(track: seq<seq<Bin>>)
    ensures CollectPitches(track).Success? <==> NoEmptyColumn(track)
  {
    if |track| > 0 {
      var init := track[..|track| - 1];
      PitchLoopFails(init);
      if NoEmptyColumn(track) {
        assert NoEmptyColumn(init);
      } else if NoEmptyColumn(init) {
        assert |track[|track| - 1]| == 0;
      }
    }
  }

  /** The loop keeps, in frame order, exactly the positive strongest-bin
      pitches. */
  lemma {:induction false} PitchSelection(track: seq<seq<Bin>>)
    requires NoEmptyColumn(track)
    ensures CollectPitches(track) == Success(Seqs.Positives(StrongestPitches(track)))
  {
    if |track| > 0 {
      var init := track[..|track| - 1];
      assert NoEmptyColumn(init);
      PitchSelection(init);
      var all := StrongestPitches(track);
      var last := StrongestPitch(track[|track| - 1]);
      assert all[..|all| - 1] == StrongestPitches(init);
      assert all[|all| - 1] == last;
      var kept := Seqs.Positives(StrongestPitches(init));
      assert Seqs.Positives(all) == kept + (if last > 0.0 then [last] else []);
      assert |track[|track| - 1]| > 0;
      assert kept + [] == kept;
      assert CollectPitches(track) == Success(if last > 0.0 then kept + [last] else kept);
    }
  }

  /** `np.var(pitch_values) if pitch_values else 0`. */
  function PitchVariance(values: seq<real>): (v: real)
    ensures v >= 0.0
    ensures |values| == 0 ==> v == 0.0
  {
    if |values| == 0 then 0.0 else Seqs.Variance(values)
  }

  const MfccTable := Table(VoiceVariance, [
    Band(Below(100.0), 70, 95, Critical),
    Band(Below(150.0), 50, 90, VeryHigh),
    Band(Below(250.0), 25, 75, Moderate),
    Band(Otherwise, 5, 70, Plain)])

  const RolloffTable := Table(Bandwidth, [
    Band(Below(1500.0), 40, 85, Critical),
    Band(Below(2500.0), 20, 70, Moderate),
    Band(Otherwise, 5, 75, Plain)])

  const PitchTable := Table(PitchVariation, [
    Band(Below(300.0), 50, 90, Critical),
    Band(Below(500.0), 30, 80, High),
    Band(Otherwise, 5, 70, Plain)])

  const ZcrTable := Table(ZcrVariation, [
    Band(Below(0.005), 35, 85, Critical),
    Band(Below(0.01), 15, 70, Moderate),
    Band(Otherwise, 5, 75, Plain)])

  /** MFCC bands, with strict `<`. */
  lemma MfccBands(x: real)
    ensures x < 100.0 ==> Select(MfccTable, x) == Some(Band(Below(100.0), 70, 95, Critical))
    ensures 100.0 <= x < 150.0 ==> Select(MfccTable, x) == Some(Band(Below(150.0), 50, 90, VeryHigh))
    ensures 150.0 <= x < 250.0 ==> Select(MfccTable, x) == Some(Band(Below(250.0), 25, 75, Moderate))
    ensures x >= 250.0 ==> Select(MfccTable, x) == Some(Band(Otherwise, 5, 70, Plain))
  {
    assert Total(MfccTable);
    var i :| FirstHolding(MfccTable, x, i) && MfccTable.bands[i] == Select(MfccTable, x).value;
  }

  /** Both sides of the strict MFCC boundary: 99 is CRITICAL (+70, 0.95),
      100 falls to the next band (+50, 0.9). */
  lemma MfccBoundary()
    ensures Select(MfccTable, 99.0) == Some(Band(Below(100.0), 70, 95, Critical))
    ensures Select(MfccTable, 100.0) == Some(Band(Below(150.0), 50, 90, VeryHigh))
  {
    MfccBands(99.0);
    MfccBands(100.0);
  }

  lemma RolloffBands(x: real)
    ensures x < 1500.0 ==> Select(RolloffTable, x) == Some(Band(Below(1500.0), 40, 85, Critical))
    ensures 1500.0 <= x < 2500.0 ==> Select(RolloffTable, x) == Some(Band(Below(2500.0), 20, 70, Moderate))
    ensures x >= 2500.0 ==> Select(RolloffTable, x) == Some(Band(Otherwise, 5, 75, Plain))
  {
    assert Total(RolloffTable);
    var i :| FirstHolding(RolloffTable, x, i) && RolloffTable.bands[i] == Select(RolloffTable, x).value;
  }

  lemma PitchBands(x: real)
    ensures x < 300.0 ==> Select(PitchTable, x) == Some(Band(Below(300.0), 50, 90, Critical))
    ensures 300.0 <= x < 500.0 ==> Select(PitchTable, x) == Some(Band(Below(500.0), 30, 80, High))
    ensures x >= 500.0 ==> Select(PitchTable, x) == Some(Band(Otherwise, 5, 70, Plain))
  {
    assert Total(PitchTable);
    var i :| FirstHolding(PitchTable, x, i) && PitchTable.bands[i] == Select(PitchTable, x).value;
  }

  lemma ZcrBands(x: real)
    ensures x < 0.005 ==> Select(ZcrTable, x) == Some(Band(Below(0.005), 35, 85, Critical))
    ensures 0.005 <= x < 0.01 ==> Select(ZcrTable, x) == Some(Band(Below(0.01), 15, 70, Moderate))
    ensures x >= 0.01 ==> Select(ZcrTable, x) == Some(Band(Otherwise, 5, 75, Plain))
  {
    assert Total(ZcrTable);
    var i :| FirstHolding(ZcrTable, x, i) && ZcrTable.bands[i] == Select(ZcrTable, x).value;
  }

  /** MFCC, rolloff, pitch, ZCR: the order the rationales appear in. */
  function AudioChecks(mfcc: real, rolloff: real, pitch: real, zcr: real): seq<Check>
  {
    [Check(MfccTable, mfcc), Check(RolloffTable, rolloff), Check(PitchTable, pitch), Check(ZcrTable, zcr)]
  }

  lemma AudioTables(mfcc: real, rolloff: real, pitch: real, zcr: real)
    ensures AllTotal(AudioChecks(mfcc, rolloff, pitch, zcr))
    ensures TablesWeightsWithin(AudioChecks(mfcc, rolloff, pitch, zcr), 70, 95)
  {
    var checks := AudioChecks(mfcc, rolloff, pitch, zcr);
    assert Total(MfccTable) && Total(RolloffTable) && Total(PitchTable) && Total(ZcrTable);
    forall i, j | 0 <= i < |checks| && 0 <= j < |checks[i].table.bands|
      ensures 70 <= checks[i].table.bands[j].weight <= 95
    {
      if i == 0 {
        assert checks[i].table == MfccTable;
      } else if i == 1 {
        assert checks[i].table == RolloffTable;
      } else if i == 2 {
        assert checks[i].table == PitchTable;
      } else {
        assert checks[i].table == ZcrTable;
      }
    }
  }

  lemma AudioDeltas(mfcc: real, rolloff: real, pitch: real, zcr: real)
    ensures 5 <= Select(MfccTable, mfcc).value.delta <= 70
    ensures 5 <= Select(RolloffTable, rolloff).value.delta <= 40
    ensures 5 <= Select(PitchTable, pitch).value.delta <= 50
    ensures 5 <= Select(ZcrTable, zcr).value.delta <= 35
  {
    MfccBands(mfcc);
    RolloffBands(rolloff);
    PitchBands(pitch);
    ZcrBands(zcr);
  }

  /** Every feature fires exactly one band, in the order of the checks. */
  lemma AudioFired(mfcc: real, rolloff: real, pitch: real, zcr: real)
    ensures Fire(AudioChecks(mfcc, rolloff, pitch, zcr)) ==
      [Fired(VoiceVariance, Judge(MfccTable, mfcc)),
       Fired(Bandwidth, Judge(RolloffTable, rolloff)),
       Fired(PitchVariation, Judge(PitchTable, pitch)),
       Fired(ZcrVariation, Judge(ZcrTable, zcr))]
  {
    FireOfFour(Check(MfccTable, mfcc), Check(RolloffTable, rolloff), Check(PitchTable, pitch), Check(ZcrTable, zcr));
  }

  lemma AudioWeights(mfcc: real, rolloff: real, pitch: real, zcr: real)
    ensures 70 <= Judge(MfccTable, mfcc).weight <= 95
    ensures 70 <= Judge(RolloffTable, rolloff).weight <= 85
    ensures 70 <= Judge(PitchTable, pitch).weight <= 90
    ensures 70 <= Judge(ZcrTable, zcr).weight <= 85
  {
    MfccBands(mfcc);
    RolloffBands(rolloff);
    PitchBands(pitch);
    ZcrBands(zcr);
  }

  /** The scoring tail of the audio detector: the four features judged by
      their tables, the clamped sum of the deltas, the floored mean weight. */
  function ScoreAudioFeatures(f: AudioFeatures, pitch: real): (a: Analysis)
    ensures var b0 := Judge(MfccTable, f.mfccVariance);
      var b1 := Judge(RolloffTable, f.rolloffMean);
      var b2 := Judge(PitchTable, pitch);
      var b3 := Judge(ZcrTable, f.zcrSpread);
      a == Analysis(Clamp(5, 100, b0.delta + b1.delta + b2.delta + b3.delta),
                    (b0.weight + b1.weight + b2.weight + b3.weight) / 4,
                    [Rationale(VoiceVariance, b0.level), Rationale(Bandwidth, b1.level),
                     Rationale(PitchVariation, b2.level), Rationale(ZcrVariation, b3.level)],
                    MfccProsodySpectral, AudioMetrics(f.mfccVariance, pitch, f.rolloffMean, f.sampleRate))
    ensures Bounded(a) && 5 <= a.score && 70 <= a.confidence <= 95
  {
    AudioScoring(f, pitch);
    AudioWeights(f.mfccVariance, f.rolloffMean, pitch, f.zcrSpread);
    Scored(Fire(AudioChecks(f.mfccVariance, f.rolloffMean, pitch, f.zcrSpread)), [], MfccProsodySpectral,
           AudioMetrics(f.mfccVariance, pitch, f.rolloffMean, f.sampleRate))
  }

  lemma AudioScoring(f: AudioFeatures, pitch: real)
    ensures var a := Scored(Fire(AudioChecks(f.mfccVariance, f.rolloffMean, pitch, f.zcrSpread)), [],
                            MfccProsodySpectral, AudioMetrics(f.mfccVariance, pitch, f.rolloffMean, f.sampleRate));
      var b0 := Judge(MfccTable, f.mfccVariance);
      var b1 := Judge(RolloffTable, f.rolloffMean);
      var b2 := Judge(PitchTable, pitch);
      var b3 := Judge(ZcrTable, f.zcrSpread);
      a == Analysis(Clamp(5, 100, b0.delta + b1.delta + b2.delta + b3.delta),
                    (b0.weight + b1.weight + b2.weight + b3.weight) / 4,
                    [Rationale(VoiceVariance, b0.level), Rationale(Bandwidth, b1.level),
                     Rationale(PitchVariation, b2.level), Rationale(ZcrVariation, b3.level)],
                    MfccProsodySpectral, AudioMetrics(f.mfccVariance, pitch, f.rolloffMean, f.sampleRate))
  {
    ScoredChecksAlone(Check(MfccTable, f.mfccVariance), Check(RolloffTable, f.rolloffMean),
                      Check(PitchTable, pitch), Check(ZcrTable, f.zcrSpread),
                      MfccProsodySpectral, AudioMetrics(f.mfccVariance, pitch, f.rolloffMean, f.sampleRate));
  }

  /** Every feature fires one band: the raw sum lies in [20, 195]. */
  lemma AudioRawScore(mfcc: real, rolloff: real, pitch: real, zcr: real)
    ensures var fs := Fire(AudioChecks(mfcc, rolloff, pitch, zcr));
      && |fs| == 4
      && fs[0].feature == VoiceVariance && fs[1].feature == Bandwidth
      && fs[2].feature == PitchVariation && fs[3].feature == ZcrVariation
      && fs[2].band == Select(PitchTable, pitch).value
      && 20 <= SumDeltas(fs) <= 195
      && WeightsWithin(fs, 70, 95)
  {
    var checks := AudioChecks(mfcc, rolloff, pitch, zcr);
    AudioTables(mfcc, rolloff, pitch, zcr);
    FireWeightsWithin(checks, 70, 95);
    var fs := Fire(checks);
    AudioFired(mfcc, rolloff, pitch, zcr);
    AudioDeltas(mfcc, rolloff, pitch, zcr);
    SumDeltasOfFour(fs);
  }

  /** The pitch feature: the variance of the positive strongest-bin pitches. */
  function PitchFeature(track: seq<seq<Bin>>): real
    requires NoEmptyColumn(track)
  {
    PitchVariance(Seqs.Positives(StrongestPitches(track)))
  }

  /** `analyze_audio_enhanced`: a library failure, or an empty pitch column,
      becomes the `Failed` record; otherwise the four features, the pitch
      one taken from the strongest bin of every column, are scored. */
  function AnalyzeAudio(input: Result<AudioFeatures>): (a: Analysis)
    ensures Bounded(a)
    ensures a.technique == Failed <==> input.Failure? || !NoEmptyColumn(input.value.pitchTrack)
    ensures input.Failure? ==> a == FailedWith(input.error)
    ensures input.Success? && !NoEmptyColumn(input.value.pitchTrack) ==> a == FailedWith(EmptyArgMax)
    ensures input.Success? && NoEmptyColumn(input.value.pitchTrack) ==>
      a == ScoreAudioFeatures(input.value, PitchFeature(input.value.pitchTrack))
  {
    match input
    case Failure(e) => FailedWith(e)
    case Success(f) =>
      PitchLoopFails(f.pitchTrack);
      match CollectPitches(f.pitchTrack)
      case Failure(e) =>
        EmptyColumnError(f.pitchTrack);
        FailedWith(e)
      case Success(values) =>
        PitchSelection(f.pitchTrack);
        ScoreAudioFeatures(f, PitchVariance(values))
  }

  /** The only error the pitch loop raises is the empty-column one. */
  lemma {:induction false} EmptyColumnError(track: seq<seq<Bin>>)
    ensures CollectPitches(track).Failure? ==> CollectPitches(track).error == EmptyArgMax
  {
    if |track| > 0 {
      EmptyColumnError(track[..|track| - 1]);
    }
  }

  /** A perfectly flat (or absent) pitch contour has zero variance and so
      fires the CRITICAL monotone-pitch band. */
  lemma FlatPitchIsCritical(f: AudioFeatures, c: real)
    requires NoEmptyColumn(f.pitchTrack)
    requires forall t :: 0 <= t < |f.pitchTrack| ==>
      StrongestPitch(f.pitchTrack[t]) <= 0.0 || StrongestPitch(f.pitchTrack[t]) == c
    ensures AnalyzeAudio(Success(f)).notes[2] == Rationale(PitchVariation, Critical)
  {
    PitchSelection(f.pitchTrack);
    var values := Seqs.Positives(StrongestPitches(f.pitchTrack));
    if |values| > 0 {
      forall i | 0 <= i < |values|
        ensures values[i] == c
      {
        var all := StrongestPitches(f.pitchTrack);
        Seqs.PositivesMembers(all, values[i]);
        var t :| 0 <= t < |all| && all[t] == values[i];
        assert values[i] == StrongestPitch(f.pitchTrack[t]);
      }
      Seqs.VarianceOfConstant(values, c);
    }
    var pitch := PitchVariance(values);
    assert pitch == 0.0;
    PitchBands(pitch);
    AudioRawScore(f.mfccVariance, f.rolloffMean, pitch, f.zcrSpread);
  }
}
