/** The witness-statement scorer: a subjectivity bonus plus a penalty for
    every drastic polarity flip between adjacent sentences. The sentiment
    analyser's outputs (overall polarity and subjectivity, one polarity per
    sentence) are the inputs. */
module StatementVerifier {
  import Text

  const SubjectivityThreshold: real := 0.7
  const StrongPolarity: real := 0.5
  const SubjectivityBonus: int := 40
  const FlipPenalty: int := 30
  const MaxScore: int := 100

  /** One line of the details; the numeric lines keep the value they print. */
  datatype StatementNote =
    | PolarityLine(polarity: real)
    | SubjectivityLine(subjectivity: real)
    | HighSubjectivity
    | StrongEmotion
      // a flip between sentence `sentence` and sentence `sentence + 1`, 1-based
    | ToneFlip(sentence: nat)

  datatype Verdict = Verdict(score: int, notes: seq<StatementNote>)

  predicate Strong(p: real)
  {
    p < -StrongPolarity || p > StrongPolarity
  }

  /** A drastic flip: strictly above 0.5 to strictly below -0.5, or back. */
  predicate Flips(prev: real, cur: real)
  {
    (prev > StrongPolarity && cur < -StrongPolarity) || (prev < -StrongPolarity && cur > StrongPolarity)
  }

  /** Reference definition: the loop indices `i` (1 <= i < |ps|) at which
      sentence `i + 1` flips against sentence `i`, in increasing order. */
  function FlipSentences(ps: seq<real>): seq<nat>
  {
    if |ps| < 2 then []
    else
      FlipSentences(ps[..|ps| - 1])
      + (if Flips(ps[|ps| - 2], ps[|ps| - 1]) then [|ps| - 1] else [])
  }

  /** The flip list names exactly the adjacent pairs that flip, each once,
      in sentence order. */
  lemma {:induction false} FlipSentencesExact(ps: seq<real>)
    ensures forall i: nat :: i in FlipSentences(ps) <==> 1 <= i < |ps| && Flips(ps[i - 1], ps[i])
    ensures forall a, b :: 0 <= a < b < |FlipSentences(ps)| ==> FlipSentences(ps)[a] < FlipSentences(ps)[b]
    ensures forall a :: 0 <= a < |FlipSentences(ps)| ==> 1 <= FlipSentences(ps)[a] < |ps|
  {
    if |ps| >= 2 {
      var init := ps[..|ps| - 1];
      FlipSentencesExact(init);
      var last: seq<nat> := if Flips(ps[|ps| - 2], ps[|ps| - 1]) then [|ps| - 1] else [];
      assert FlipSentences(ps) == FlipSentences(init) + last;
      forall i: nat
        ensures i in FlipSentences(ps) <==> 1 <= i < |ps| && Flips(ps[i - 1], ps[i])
      {
        if i == |ps| - 1 {
          assert i !in FlipSentences(init);
        } else if 1 <= i < |init| {
          assert init[i - 1] == ps[i - 1] && init[i] == ps[i];
        }
      }
    } else {
      assert FlipSentences(ps) == [];
    }
  }

  /** With n sentences there are at most n - 1 adjacent pairs. */
  lemma {:induction false} FlipCountBound(ps: seq<real>)
    ensures |FlipSentences(ps)| <= if |ps| == 0 then 0 else |ps| - 1
  {
    if |ps| >= 2 {
      FlipCountBound(ps[..|ps| - 1]);
    }
  }

  function ToneNotes(flips: seq<nat>): (r: seq<StatementNote>)
    ensures |r| == |flips|
    ensures forall k :: 0 <= k < |flips| ==> r[k] == ToneFlip(flips[k])
  {
    seq(|flips|, k requires 0 <= k < |flips| => ToneFlip(flips[k]))
  }

  /** The lines the scorer writes before looking at the sentences. */
  function Header(polarity: real, subjectivity: real): seq<StatementNote>
  {
    [PolarityLine(polarity), SubjectivityLine(subjectivity)]
    + (if subjectivity > SubjectivityThreshold then [HighSubjectivity] else [])
    + (if Strong(polarity) then [StrongEmotion] else [])
  }

  /** The flip lines name exactly the listed sentences, and are nothing else. */
  lemma ToneNotesMembers(flips: seq<nat>)
    ensures forall n :: n in ToneNotes(flips) ==> n.ToneFlip?
    ensures forall i: nat :: ToneFlip(i) in ToneNotes(flips) <==> i in flips
  {
    var tones := ToneNotes(flips);
    forall i: nat
      ensures ToneFlip(i) in tones <==> i in flips
    {
      if i in flips {
        var k :| 0 <= k < |flips| && flips[k] == i;
        assert tones[k] == ToneFlip(i);
      }
    }
  }

  /** The header holds the two numeric lines, then each warning exactly
      when its threshold is crossed, and no flip line. */
  lemma HeaderMembers(polarity: real, subjectivity: real)
    ensures var header := Header(polarity, subjectivity);
      && |header| >= 2 && header[0] == PolarityLine(polarity) && header[1] == SubjectivityLine(subjectivity)
      && (HighSubjectivity in header <==> subjectivity > SubjectivityThreshold)
      && (StrongEmotion in header <==> Strong(polarity))
      && (forall n :: n in header ==> !n.ToneFlip?)
  {
    var lines := [PolarityLine(polarity), SubjectivityLine(subjectivity)];
    var high: seq<StatementNote> := if subjectivity > SubjectivityThreshold then [HighSubjectivity] else [];
    var strong: seq<StatementNote> := if Strong(polarity) then [StrongEmotion] else [];
    assert Header(polarity, subjectivity) == lines + high + strong;
    assert forall n :: n in lines + high + strong <==> n in lines || n in high || n in strong;
  }

  /** Every line of the details, with the flip lines naming exactly the
      adjacent pairs that flip. */
  ghost predicate FlipLinesExact(notes: seq<StatementNote>, sentences: seq<real>)
  {
    forall i: nat :: ToneFlip(i) in notes <==> 1 <= i < |sentences| && Flips(sentences[i - 1], sentences[i])
  }

  /** Which lines the details hold: the two numeric lines first, the
      subjectivity and emotion warnings exactly when their thresholds are
      crossed, and one flip line per flipping adjacent pair. */
  lemma NotesFacts(polarity: real, subjectivity: real, sentences: seq<real>, notes: seq<StatementNote>)
    requires notes == Header(polarity, subjectivity) + ToneNotes(FlipSentences(sentences))
    ensures |notes| >= 2 && notes[0] == PolarityLine(polarity) && notes[1] == SubjectivityLine(subjectivity)
    ensures HighSubjectivity in notes <==> subjectivity > SubjectivityThreshold
    ensures StrongEmotion in notes <==> Strong(polarity)
    ensures FlipLinesExact(notes, sentences)
  {
    var header := Header(polarity, subjectivity);
    var tones := ToneNotes(FlipSentences(sentences));
    HeaderMembers(polarity, subjectivity);
    FlipSentencesExact(sentences);
    ToneNotesMembers(FlipSentences(sentences));
    assert forall n :: n in notes <==> n in header || n in tones;
  }

  /** The contradiction loop: `prev` advances on every sentence, and each
      flipping pair adds the penalty and one flip line. */
  method ScanSentences(sentences: seq<real>, score0: int, notes0: seq<StatementNote>)
    returns (score: int, notes: seq<StatementNote>)
    ensures score == score0 + FlipPenalty * |FlipSentences(sentences)|
    ensures notes == notes0 + ToneNotes(FlipSentences(sentences))
  {
    score, notes := score0, notes0;
    if |sentences| > 1 {
      var prev := sentences[0];
      var i := 1;
      assert sentences[..1] == [sentences[0]];
      while i < |sentences|
        invariant 1 <= i <= |sentences|
        invariant prev == sentences[i - 1]
        invariant score == score0 + FlipPenalty * |FlipSentences(sentences[..i])|
        invariant notes == notes0 + ToneNotes(FlipSentences(sentences[..i]))
      {
        var cur := sentences[i];
        assert sentences[..i + 1][..i] == sentences[..i];
        if Flips(prev, cur) {
          score := score + FlipPenalty;
          notes := notes + [ToneFlip(i)];
        }
        prev := cur;
        i := i + 1;
      }
      assert sentences[..i] == sentences;
    } else {
      assert notes == notes0 + ToneNotes([]);
    }
  }

  /** `verify_statement`. */
  method VerifyStatement(polarity: real, subjectivity: real, sentences: seq<real>) returns (v: Verdict)
    ensures 0 <= v.score <= MaxScore
    ensures v.score == Min(MaxScore, (if subjectivity > SubjectivityThreshold then SubjectivityBonus else 0)
                                     + FlipPenalty * |FlipSentences(sentences)|)
    ensures |sentences| <= 1 ==> v.score == if subjectivity > SubjectivityThreshold then SubjectivityBonus else 0
    ensures |v.notes| >= 2 && v.notes[0] == PolarityLine(polarity) && v.notes[1] == SubjectivityLine(subjectivity)
    ensures HighSubjectivity in v.notes <==> subjectivity > SubjectivityThreshold
    ensures StrongEmotion in v.notes <==> Strong(polarity)
    ensures FlipLinesExact(v.notes, sentences)
    // the lines in order: the header, then one flip line per flipping pair
    ensures v.notes == Header(polarity, subjectivity) + ToneNotes(FlipSentences(sentences))
  {
    var score := 0;
    var notes := [PolarityLine(polarity), SubjectivityLine(subjectivity)];
    if subjectivity > SubjectivityThreshold {
      score := score + SubjectivityBonus;
      notes := notes + [HighSubjectivity];
    }
    if Strong(polarity) {
      notes := notes + [StrongEmotion];
    }
    assert notes == Header(polarity, subjectivity);
    score, notes := ScanSentences(sentences, score, notes);
    NotesFacts(polarity, subjectivity, sentences, notes);
    v := Verdict(Min(MaxScore, score), notes);
  }

  function Min(a: int, b: int): (r: int)
    ensures r <= a && r <= b && (r == a || r == b)
  {
    if a <= b then a else b
  }

  function Render(n: StatementNote): string
  {
    match n
    case PolarityLine(p) => PolarityLabel + Text.TwoDecimals(p) + " (Negative < 0 < Positive)"
    case SubjectivityLine(s) => "Subjectivity: " + Text.TwoDecimals(s) + " (0=Objective, 1=Subjective)"
    case HighSubjectivity =>
      "High subjectivity detected. Statement may be biased or emotional rather than factual."
    case StrongEmotion => "Strong emotional language detected."
    case ToneFlip(i) =>
      FlipPrefix + Text.Decimal(i) + " and " + Text.Decimal(i + 1) + "."
  }

  /** The details string: every line, joined by `" | "`. */
  function Details(v: Verdict): string
  {
    Text.Join(seq(|v.notes|, k requires 0 <= k < |v.notes| => Render(v.notes[k])), " | ")
  }

  const PolarityLabel: string := "Sentiment Polarity: "

  const FlipPrefix: string := "Potential tonal contradiction detected between sentence "

  /** The details open with the polarity label, the polarity to two places
      and the separator before the next line. */
  lemma DetailsOpenWithPolarity(v: Verdict)
    requires |v.notes| >= 2 && v.notes[0].PolarityLine?
    ensures Text.StartsWith(Details(v),
      PolarityLabel + Text.TwoDecimals(v.notes[0].polarity) + " (Negative < 0 < Positive) | ")
    ensures Text.StartsWith(Details(v), PolarityLabel)
  {
    var parts := seq(|v.notes|, k requires 0 <= k < |v.notes| => Render(v.notes[k]));
    Text.JoinStartsWith(parts, " | ");
    var line := PolarityLabel + Text.TwoDecimals(v.notes[0].polarity) + " (Negative < 0 < Positive) | ";
    assert parts[0] + " | " == line;
    assert Details(v)[..|PolarityLabel|] == line[..|PolarityLabel|];
  }

  /** A polarity of -0.25 prints as the source's f-string prints it. */
  lemma PolarityLineShowsValue()
    ensures Render(PolarityLine(-0.25)) == PolarityLabel + "-0.25" + " (Negative < 0 < Positive)"
  {
    assert (25.0).Floor == 25;
    assert Text.Cents(-0.25) == 25;
    assert Text.DigitChar(0) == '0' && Text.DigitChar(2) == '2' && Text.DigitChar(5) == '5';
    assert Text.Hundredths(25) == "0.25";
    assert Text.TwoDecimals(-0.25) == "-0.25";
  }

  /** A flip line names both sentences in decimal: sentence `i` right after
      the prefix and sentence `i + 1` right after " and ", each of which
      parses back to its number. */
  lemma ToneFlipNamesSentences(i: nat)
    ensures var line := Render(ToneFlip(i));
      && Text.StartsWith(line, FlipPrefix)
      && Text.OccursAt(line, Text.Decimal(i), |FlipPrefix|)
      && Text.OccursAt(line, " and ", |FlipPrefix| + |Text.Decimal(i)|)
      && Text.OccursAt(line, Text.Decimal(i + 1), |FlipPrefix| + |Text.Decimal(i)| + 5)
    ensures Text.ParseDecimal(Text.Decimal(i)) == i
    ensures Text.ParseDecimal(Text.Decimal(i + 1)) == i + 1
  {
    Text.DecimalRoundTrip(i);
    Text.DecimalRoundTrip(i + 1);
    var first, second := Text.Decimal(i), Text.Decimal(i + 1);
    Text.InfixAt(FlipPrefix, first, " and " + second + ".");
    Text.InfixAt(FlipPrefix + first, " and ", second + ".");
    Text.InfixAt(FlipPrefix + first + " and ", second, ".");
  }

  /** A positive then negative statement: one flip, 30 points. */
  lemma OneFlip()
    ensures FlipSentences([0.8, -0.9]) == [1]
    ensures FlipSentences([0.5, -0.9]) == []
    ensures FlipSentences([0.8, -0.9, 0.6, 0.9]) == [1, 2]
  {
    assert [0.8, -0.9][..1] == [0.8];
    assert [0.5, -0.9][..1] == [0.5];
    var ps := [0.8, -0.9, 0.6, 0.9];
    assert ps[..3] == [0.8, -0.9, 0.6];
    assert ps[..3][..2] == [0.8, -0.9];
    assert ps[..3][..2][..1] == [0.8];
  }
}
