# FALSIFEYE forensic scoring, modelled in Dafny

This project models the decision logic of the FALSIFEYE forensic media verifier. Each detector turns a few measured features into a tampering score (0–100), a confidence percentage, a list of rationales and a method label:

- the image detector (ELA and FFT quadrants);
- the video detector (per-frame blur, face FFT, optical flow and face tracking);
- the audio detector (MFCC, rolloff, pitch and ZCR);
- the PDF detector (metadata signatures and embedded JavaScript).

`analyze_media` routes a file to one of them by its declared type. Two smaller cores sit alongside:

- the witness-statement scorer (subjectivity and polarity flips between sentences);
- the forensic chatbot's keyword routing and knowledge-base lookup.

Every measurement that a library computes is an input of the model. This covers PIL, SciPy, OpenCV, librosa, PyPDF2, TextBlob and the sentence encoder. A failure inside that extraction is an input too (`Result.Failure(cause)`). The model owns what the repository owns:

- the band tables;
- first-match selection with strict comparisons;
- clamping and averaging;
- the every-fifth-frame video loop;
- the per-column pitch selection;
- the document rules;
- the statement scoring loop;
- the chatbot's routing.

Layout, one module per file:

- `wrappers.dfy`, `seqs.dfy`, `text.dfy`: `Option`/`Result`, first-match search, sums, variance and arg-max, and ASCII lower-casing, substring search, joining and decimal text.
- `rules.dfy`: a band table is data (`Guard`, `Band`, `Table`). `Select` picks the first band whose strict guard holds. `Fire` evaluates the checks in order. `Clamp` and `Confidence` aggregate the results.
- `results.dfy`: the analysis record, the failure and "N/A" records, the shared aggregator `Scored`, and the rendering of rationales.
- `image.dfy`, `video.dfy`, `audio.dfy`, `document.dfy`: one detector each.
- `dispatch.dfy`: `analyze_media`.
- `statement.dfy`: `verify_statement`.
- `chatbot.dfy`: `find_best_match` and `get_chat_response`.

Confidence weights are whole percents: 0.9 is written 90. Confidence is the floor of their mean, the exact counterpart of `int(np.mean(weights) * 100)`.

Some behaviour of the code, as modelled:

- The document score is floored at 5, like the detector scores (media_verifier.py:430).
- Confidence is truncated with `int()` (media_verifier.py:103).
- An unopened video, or one with no sampled frame, returns a zero-score "N/A" record (media_verifier.py:124-125, 179-180).

## Model

| member | source | states |
|---|---|---|
| Seqs.FirstWhere | falsifeye/modules/media_verifier.py:402-406 | the index returned satisfies the predicate and no earlier element does; None exactly when no element does (the `for ... break` search) |
| Seqs.ArgMax | falsifeye/modules/media_verifier.py:297 | the index holds a maximum and every earlier element is strictly smaller, i.e. the first maximum as `argmax` picks it |
| Seqs.PositivesMembers | falsifeye/modules/media_verifier.py:299-300 | a value is kept exactly when it occurs in the input and is positive |
| Seqs.Variance | falsifeye/modules/media_verifier.py:302 | the population variance of a non-empty list is non-negative |
| Text.Lower | falsifeye/modules/media_verifier.py:397-398 | lower-casing keeps the length, leaves no upper-case letter, shifts exactly the upper-case letters by 32 and leaves the rest |
| Text.LowerIdempotent | falsifeye/modules/media_verifier.py:410 | lower-casing twice equals lower-casing once |
| Text.Contains | falsifeye/modules/media_verifier.py:403 | `needle in hay` holds exactly when the needle occurs at some offset |
| Text.DecimalRoundTrip | falsifeye/modules/nlp_verifier.py:33 | the decimal text of a sentence number parses back to that number |
| Text.JoinSnoc | falsifeye/modules/media_verifier.py:108 | joining one more part appends the separator and the part to the joined text |
| Text.Cents | falsifeye/modules/nlp_verifier.py:14-15 | the whole number of hundredths nearest to the magnitude, within half a hundredth of it; at an exact tie the even count is taken |
| Text.HundredthsReadsBack | falsifeye/modules/nlp_verifier.py:14-15 | a count of hundredths is shown as whole digits, a point and exactly two digits, and reading the two parts back gives the count |
| Text.TwoDecimalsReadsBack | falsifeye/modules/nlp_verifier.py:14-15 | the `:.2f` text opens with "-" exactly for a negative value, and the rest is the rounded magnitude in hundredths |
| Rules.Select | falsifeye/modules/media_verifier.py:71-100 | some band is chosen exactly when some guard holds, and the chosen band is the first one whose guard holds; a table ending in `else` always chooses one |
| Rules.FirstHoldingUnique | falsifeye/modules/media_verifier.py:71-100 | at most one band is the first whose guard holds, so the `if/elif` chain has a single answer |
| Rules.SelectAt | falsifeye/modules/media_verifier.py:71-100 | when band k is the first whose guard holds, band k is the one selected |
| Rules.Judge | falsifeye/modules/media_verifier.py:71-100 | for a table ending in `else`, the band judged for a value is the one first-match selection returns |
| Rules.Fire | falsifeye/modules/media_verifier.py:70-100 | with tables that all end in `else`, every check fires exactly once, in order, with its first-matching band |
| Rules.FireOfTwo | falsifeye/modules/media_verifier.py:70-100 | two checks, the first against an `else`-terminated table, fire its judged band and then whatever the second table selects, or nothing |
| Rules.FireOfFour | falsifeye/modules/media_verifier.py:188-256 | four checks against `else`-terminated tables fire exactly their four judged bands, in check order |
| Rules.Clamp | falsifeye/modules/media_verifier.py:106 | the result is `min(100, max(5, x))`: within bounds, equal to x inside them and to the nearer bound outside them |
| Rules.Confidence | falsifeye/modules/media_verifier.py:103 | the floor of the mean weight (50 when no weight was added), always within 0..100 |
| Rules.FloorDivision | falsifeye/modules/media_verifier.py:103 | dividing a sum of n percentages by n gives a percentage q with q·n ≤ sum < (q+1)·n, the floor of the mean |
| Rules.ConfidenceWithin | falsifeye/modules/media_verifier.py:103 | when every weight lies in lo..hi, so does the confidence |
| Rules.AggregationFixture | falsifeye/modules/media_verifier.py:103-108 | deltas 10, 20, 30 with weights 0.5, 0.7, 0.9 give score 60 and confidence 70 |
| Results.Scored | falsifeye/modules/media_verifier.py:103-114 | the clamped score is at least 5 and the record is bounded; confidence is the floored mean; rationales follow the header notes in evaluation order |
| Results.ScoredOfOne | falsifeye/modules/media_verifier.py:103-108 | one fired band: the score is its delta clamped to 5..100, the confidence its own weight, and its rationale follows the header |
| Results.ScoredOfTwo | falsifeye/modules/media_verifier.py:103-108 | two fired bands: the clamped sum of their deltas, the floor of the mean of their two weights, their rationales in order |
| Results.ScoredOfFour | falsifeye/modules/media_verifier.py:257-260 | four fired bands: the clamped sum of their deltas, the floor of the mean of their four weights, their rationales in order after the header |
| Results.ScoredChecksOfFour | falsifeye/modules/media_verifier.py:188-260 | four checks against `else`-terminated tables: each is judged by its own table and the record aggregates the four judged bands in check order |
| Results.ScoredChecksAlone | falsifeye/modules/media_verifier.py:304-370 | the same aggregation with no header note: the notes are the four rationales alone |
| Results.FailureDetails | falsifeye/modules/media_verifier.py:115-116 | the failure record's details read `Error: ` followed by the cause |
| Results.DetailsSnoc | falsifeye/modules/media_verifier.py:108 | each further rationale is joined to the details by a single space |
| ImageDetector.ElaBands | falsifeye/modules/media_verifier.py:71-86 | ELA above 70 is critical (+65, 0.9), above 50 moderate (+40, 0.8), above 30 minor (+20, 0.75), otherwise baseline (+5, 0.7) |
| ImageDetector.FrequencyBands | falsifeye/modules/media_verifier.py:89-100 | frequency variance above 1000, 500 or 200 fires +50, +35 or +15; at or below 200 nothing fires |
| ImageDetector.ImageFired | falsifeye/modules/media_verifier.py:70-100 | the ELA band judged by its table always fires first; a frequency band follows exactly when the variance exceeds 200, and it is the one that table selects |
| ImageDetector.ImageWeights | falsifeye/modules/media_verifier.py:71-100 | the ELA weight lies in 0.7..0.9 and a fired frequency weight in 0.65..0.85 |
| ImageDetector.ImageScoring | falsifeye/modules/media_verifier.py:70-108 | aggregating the fired bands gives the clamped ELA delta and ELA weight when no frequency band fires, else the clamped sum of both deltas and the floor of the mean of both weights |
| ImageDetector.AnalyzeImage | falsifeye/modules/media_verifier.py:29-116 | `Failed` with the error exactly when extraction failed; otherwise the whole record, metrics included, is the table verdict on the features: the score is the clamped sum of the judged ELA delta and, above variance 200, the frequency delta; the confidence is the ELA weight or the floored mean of both weights (65..90); notes[0] is the ELA rationale and notes[1], when present, the frequency band's level |
| ImageDetector.ElaSeventyOne | falsifeye/modules/media_verifier.py:71-74 | ELA 71 with no frequency finding gives score 65, confidence 90 and details beginning "CRITICAL" |
| ImageDetector.ElaSeventy | falsifeye/modules/media_verifier.py:75-78 | ELA exactly 70 gives +40 and weight 0.8 |
| VideoDetector.SampledPositions | falsifeye/modules/media_verifier.py:143-145 | a frame is sampled exactly when its 1-based position is a multiple of 5; there are `n / 5` sampled frames |
| VideoDetector.ScanClosedForm | falsifeye/modules/media_verifier.py:129-175 | the loop state after any prefix holds the frame count, one blur per sampled frame, one flow per consecutive sampled pair, the face deltas and the last sampled frame |
| VideoDetector.FaceDeltasBound | falsifeye/modules/media_verifier.py:163-165 | a face-count delta is recorded only between consecutive sampled frames that both show faces, so there are fewer deltas than sampled frames |
| VideoDetector.FlowAndFaceCounts | falsifeye/modules/media_verifier.py:152-156 | the number of flow samples is the number of analysed frames minus one, each measured between frames 5k+5 and 5k+10 |
| VideoDetector.FlowBands | falsifeye/modules/media_verifier.py:221-240 | flow bands are tried in the order <0.2, <0.4, >15, >12, else, and exactly one fires |
| VideoDetector.BlurBands | falsifeye/modules/media_verifier.py:193-204 | blur below 50 is critical, below 80 moderate, otherwise clear |
| VideoDetector.SpectrumBands | falsifeye/modules/media_verifier.py:207-218 | face FFT above 180 is critical, above 165 high, otherwise natural |
| VideoDetector.TrackingBands | falsifeye/modules/media_verifier.py:243-254 | face inconsistency above 2 is critical, above 1 moderate, otherwise stable |
| VideoDetector.VideoRawScore | falsifeye/modules/media_verifier.py:188-256 | all four features fire once each, in order; the raw sum lies in 20..185 and every weight in 0.65..0.9 |
| VideoDetector.VideoFired | falsifeye/modules/media_verifier.py:188-256 | the four video features fire their judged blur, spectrum, flow and tracking bands, in that order |
| VideoDetector.VideoWeights | falsifeye/modules/media_verifier.py:191-254 | the judged weights lie in 0.75..0.85 (blur), 0.75..0.9 (face FFT), 0.65..0.85 (flow) and 0.75..0.85 (tracking) |
| VideoDetector.VideoScoring | falsifeye/modules/media_verifier.py:186-260 | the aggregator applied to the four fired video bands after the frame-count note gives the clamped delta sum, the floored mean of the four weights and the four rationales in order |
| VideoDetector.ScoreVideoFeatures | falsifeye/modules/media_verifier.py:186-268 | the scoring tail for four feature means: score, confidence and notes as just stated, technique and metrics from the means; score at least 5 and confidence 65..90 |
| VideoDetector.VideoWorstCase | falsifeye/modules/media_verifier.py:193-259 | the worst features sum to 185, which clamps to 100 |
| VideoDetector.AnalyzeVideo | falsifeye/modules/media_verifier.py:122-268 | an extraction failure gives `Failed`; an unopened video or one with fewer than 5 frames gives the zero "N/A" record; otherwise the record is the scoring tail applied to the means of the blurs, face spectra, flows and face deltas of the frames at positions 5, 10, 15, …, headed by "Analyzed n/5 frames (n total)" |
| AudioDetector.StrongestPitch | falsifeye/modules/media_verifier.py:297-298 | the pitch of the first bin of greatest magnitude in the column |
| AudioDetector.PitchLoopFails | falsifeye/modules/media_verifier.py:295-300 | pitch collection fails exactly when some column is empty |
| AudioDetector.PitchSelection | falsifeye/modules/media_verifier.py:295-300 | the collected pitches are the positive strongest pitches, column by column, in order |
| AudioDetector.EmptyColumnError | falsifeye/modules/media_verifier.py:297 | a failed collection carries the empty-argmax error |
| AudioDetector.PitchVariance | falsifeye/modules/media_verifier.py:302 | the pitch variance is non-negative and 0 when no pitch was collected |
| AudioDetector.MfccBands | falsifeye/modules/media_verifier.py:309-324 | MFCC variance below 100, 150 or 250 is critical, very high or moderate; otherwise natural |
| AudioDetector.MfccBoundary | falsifeye/modules/media_verifier.py:309-316 | 99 gives +70/0.95 and exactly 100 gives +50/0.9 |
| AudioDetector.RolloffBands | falsifeye/modules/media_verifier.py:327-338 | rolloff below 1500 is critical, below 2500 moderate, otherwise natural |
| AudioDetector.PitchBands | falsifeye/modules/media_verifier.py:341-352 | pitch variance below 300 is critical, below 500 high, otherwise natural |
| AudioDetector.ZcrBands | falsifeye/modules/media_verifier.py:355-366 | ZCR spread below 0.005 is critical, below 0.01 moderate, otherwise natural |
| AudioDetector.AudioRawScore | falsifeye/modules/media_verifier.py:304-368 | all four features fire once each; the raw sum lies in 20..195 |
| AudioDetector.AudioFired | falsifeye/modules/media_verifier.py:309-366 | the four audio features fire their judged MFCC, rolloff, pitch and ZCR bands, in that order |
| AudioDetector.AudioWeights | falsifeye/modules/media_verifier.py:309-366 | the judged weights lie in 0.7..0.95 (MFCC), 0.7..0.85 (rolloff), 0.7..0.9 (pitch) and 0.7..0.85 (ZCR) |
| AudioDetector.AudioScoring | falsifeye/modules/media_verifier.py:304-370 | the aggregator applied to the four fired audio bands gives the clamped delta sum, the floored mean of the four weights and the four rationales in order |
| AudioDetector.ScoreAudioFeatures | falsifeye/modules/media_verifier.py:304-381 | the scoring tail for the extracted features and a pitch variance: score, confidence and notes as just stated, with metrics carrying the pitch variance; score at least 5 and confidence 70..95 |
| AudioDetector.AnalyzeAudio | falsifeye/modules/media_verifier.py:274-381 | `Failed` exactly when extraction failed or a pitch column is empty, with the empty-argmax error in the latter case; otherwise the record is the scoring tail applied to the features and the variance of the positive strongest-bin pitches, column by column |
| AudioDetector.FlatPitchIsCritical | falsifeye/modules/media_verifier.py:295-344 | when every positive strongest pitch is the same value, the pitch rationale is critical |
| DocumentDetector.ToolFound | falsifeye/modules/media_verifier.py:396-406 | with metadata, the result is the first listed tool that the lower-cased creator or producer names, and no earlier tool is named; it is None exactly when metadata is missing or no listed tool is named |
| DocumentDetector.LegitMeansNamed | falsifeye/modules/media_verifier.py:409-410 | the second lower-casing is harmless: the file is legitimate exactly when creator or producer names a scanner or printer |
| DocumentDetector.FindingNotesFacts | falsifeye/modules/media_verifier.py:402-427 | the tool note appears at most once, and first; the no-scanner and JavaScript notes appear exactly when their rules fire; every note appears at most once, in the order the rules run; the fallback note is present exactly when no points were scored, and then alone; no note other than these four kinds appears; at most 70 points |
| DocumentDetector.AnalyzeDocument | falsifeye/modules/media_verifier.py:387-438 | `Failed` exactly on a parse failure; otherwise confidence 70 and the score is clamp(5, 100, 40·[a tool is named] + 20·[no scanner rule fires] + 30·[some page has a script]); each rationale appears exactly when its rule fires, at most once and in rule order, the fallback note is present exactly when no points were scored, and no other note appears, which together fix the note list (see `DocumentNotesPinned`) |
| DocumentDetector.ScriptFound | falsifeye/modules/media_verifier.py:419-424 | the page loop finds a script exactly when some page carries a `/JS` or `/JavaScript` key |
| DocumentDetector.DocumentScoring | falsifeye/modules/media_verifier.py:396-438 | the record built from the three rules keeps every promise stated for a parsed file: the score formula, confidence 70, the metrics, and the notes of the fired rules in rule order, with the fallback exactly when none fired |
| DocumentDetector.FindingNotesDetermined | falsifeye/modules/media_verifier.py:402-427 | any note list that keeps the rule clauses (only the four document notes, in rule order, each exactly when its rule fires, the fallback exactly when nothing scored) is the list the rules write |
| DocumentDetector.DocumentNotesPinned | falsifeye/modules/media_verifier.py:402-427 | a record keeping the parsed-file promises carries exactly the notes of the fired rules, or only the fallback when none fired, as `if not details` appends it |
| DocumentDetector.PhotoshopProducer | falsifeye/modules/media_verifier.py:397-406 | producer "Adobe Photoshop" with no scripts gives +40 and one note naming photoshop, with no no-scanner note |
| MediaVerifier.AnalyzeMedia | falsifeye/modules/media_verifier.py:9-23 | each known type goes to its own detector and any other type to the unknown-type record; the record is bounded, confidence is 0 exactly when no scoring path ran, and the score is then 0 |
| MediaVerifier.TypesAreCaseSensitive | falsifeye/modules/media_verifier.py:9-23 | media types match exactly: "Image" and the empty type both give the unknown-type record |
| StatementVerifier.FlipSentencesExact | falsifeye/modules/nlp_verifier.py:26-34 | the flip list names, in increasing order, exactly the adjacent pairs whose polarity goes from above 0.5 to below -0.5 or back |
| StatementVerifier.FlipCountBound | falsifeye/modules/nlp_verifier.py:26-29 | n sentences give at most n - 1 flips |
| StatementVerifier.ScanSentences | falsifeye/modules/nlp_verifier.py:25-34 | the loop adds 30 and one flip line for every flipping pair, with `prev` advancing every step |
| StatementVerifier.NotesFacts | falsifeye/modules/nlp_verifier.py:14-34 | the details start with the polarity and subjectivity lines; each warning appears exactly when its threshold is crossed; flip lines name exactly the flipping pairs |
| StatementVerifier.VerifyStatement | falsifeye/modules/nlp_verifier.py:3-39 | score = min(100, 40·[subjectivity > 0.7] + 30·flips) with no floor; no flip with one or zero sentences; strong sentiment adds a line but no points; the lines are exactly the header then one flip line per flipping pair, in sentence order |
| StatementVerifier.DetailsOpenWithPolarity | falsifeye/modules/nlp_verifier.py:14-15 | the details begin with "Sentiment Polarity: ", the polarity to two decimals, " (Negative < 0 < Positive)" and the `" | "` separator |
| StatementVerifier.PolarityLineShowsValue | falsifeye/modules/nlp_verifier.py:14 | a polarity of -0.25 renders as "Sentiment Polarity: -0.25 (Negative < 0 < Positive)" |
| StatementVerifier.ToneFlipNamesSentences | falsifeye/modules/nlp_verifier.py:33 | the flip line starts with the fixed prefix, has sentence i in decimal right after it and sentence i+1 right after " and ", and both numbers read back |
| StatementVerifier.OneFlip | falsifeye/modules/nlp_verifier.py:31 | 0.8 then -0.9 flips; 0.5 then -0.9 does not, because the comparison is strict |
| Chatbot.FindBestMatch | falsifeye/modules/chatbot.py:52-77 | None without model or embeddings or when the encoder fails; a returned response sits at the first most-similar entry, and its similarity exceeds 0.35 |
| Chatbot.MatchIffAboveThreshold | falsifeye/modules/chatbot.py:64-73 | for a ready knowledge base, a response comes back exactly when some similarity strictly exceeds 0.35 |
| Chatbot.VerdictOf | falsifeye/modules/chatbot.py:110 | the verdict is manipulation exactly when the score exceeds 50 |
| Chatbot.VerdictBoundary | falsifeye/modules/chatbot.py:110 | a score of exactly 50 is called authentic and 51 manipulation, because the comparison is strict |
| Chatbot.GetChatResponse | falsifeye/modules/chatbot.py:93-144 | a question about score or rating gets the score reply, taking priority over the why-fake/flag reply; an expert reply only comes from a non-empty knowledge-base match; otherwise the fallback |
| Chatbot.ScoreReplyShowsScore | falsifeye/modules/chatbot.py:111 | the score reply starts with the fixed prefix and shows the score in decimal, followed by "/100**" |
| Chatbot.RatingQuestion | falsifeye/modules/chatbot.py:100-111 | "RATING?" is lower-cased and routed to the score reply; a missing score reads as 0, which is authentic |

## Left out

- Signal extraction is left out, because it is foreign library code over floats. This covers ELA re-encoding, FFTs, Laplacian blur, Farneback flow, Haar cascades, MFCC, ZCR, rolloff, piptrack, PDF parsing, TextBlob sentiment and sentence embeddings. Their outputs are inputs here. The optical flow between two frames is an oracle function.
- Rules.Confidence: uses exact whole-percent weights and an exact floor, not floating point. Python's `int(mean * 100)` can come out one lower when the float mean is just below a whole number. The `round(...)` metric fields are kept unrounded.
- The numbers interpolated into the detectors' rationale text (`avg=…`, `var=…`) are left out. A detector rationale is modelled as its feature and its level tag. The witness-statement lines do carry their polarity and subjectivity values.
- Text.Cents: rounds the exact decimal value, with ties to even. Python's `:.2f` rounds the binary float, so a value whose decimal form ends in a 5 can print differently: 0.015 is stored just below 0.015 and Python prints 0.01, while the model rounds the exact tie to 0.02.
- Chatbot.GetChatResponse: does not model the `str.format` filling of expert templates (placeholders such as score and file hash). An expert reply carries the template as stored.
- Temporary ELA files and the release of the video handle are left out, because they are resource I/O.
- Chatbot.FindBestMatch: picks the first maximum on a tie, as `argmax` does, because `torch.topk` does not specify which index wins.
- How the chatbot's knowledge base is built (loading the model and the JSON file, computing embeddings) is left out. Its outcome is the `KnowledgeBase` record's two flags and its list of responses.
- Text.Lower: lower-cases ASCII letters only. Python's `str.lower` also maps non-ASCII letters.
- The 30-second truncation when audio is loaded is left out; it happens inside extraction.
- The backup detector module, the web front ends, the evidence log and the transcriber are not part of this model.
- The report generator is not part of this model. Its verdict uses `score < 50`, while the chatbot calls a score of exactly 50 authentic (`> 50`). Chatbot.VerdictBoundary states the chatbot's side.
- Flow is averaged over pairs of consecutive sampled frames. With one sampled frame there is no pair, and the mean is taken as 0 (`if optical_flow_scores else 0`).
