/** The forensic chatbot: keyword routing over the lower-cased question,
    with a semantic lookup in the expert knowledge base as the last resort.
    The sentence encoder and its cosine similarities are an oracle. */
module Chatbot {
  import opened Wrappers
  import Seqs
  import Text

  /** A knowledge-base entry is returned only above this similarity. */
  const MatchThreshold: real := 0.35

  /** Above this score the verdict is manipulation. */
  const VerdictThreshold: int := 50

  const DefaultScore: int := 0
  const DefaultDetails: string := "No specific details found."

  /** The loaded knowledge base: whether the encoder and the corpus
      embeddings were built, and the expert responses in corpus order. */
  datatype KnowledgeBase = KnowledgeBase(modelLoaded: bool, embeddingsReady: bool, responses: seq<string>)

  /** The cosine similarity of a query against every corpus entry, or the
      exception the encoder raised. */
  type Similarity = string -> Result<seq<real>>

  /** `find_best_match`: the response at the most similar entry (the first
      one among equals), if that similarity clears the threshold. Every
      failure inside the lookup is swallowed into `None`. */
  function FindBestMatch(kb: KnowledgeBase, query: string, similarity: Similarity): (r: Option<string>)
    ensures !kb.modelLoaded || !kb.embeddingsReady ==> r.None?
    ensures similarity(query).Failure? ==> r.None?
    ensures r.Some? ==>
      var scores := similarity(query).value;
      exists i ::
        && 0 <= i < |scores| && i < |kb.responses|
        && r.value == kb.responses[i]
        && scores[i] > MatchThreshold
        && (forall j :: 0 <= j < |scores| ==> scores[j] <= scores[i])
        && (forall j :: 0 <= j < i ==> scores[j] < scores[i])
  {
    if !kb.modelLoaded || !kb.embeddingsReady then None
    else
      match similarity(query)
      case Failure(_) => None
      case Success(scores) =>
        // top-k over an empty corpus raises, and indexing past the entries raises
        if |scores| == 0 then None
        else
          var idx := Seqs.ArgMax(scores);
          if scores[idx] > MatchThreshold && idx < |kb.responses| then Some(kb.responses[idx])
          else None
  }

  /** The lookup succeeds exactly when a similarity clears the threshold,
      for a ready knowledge base whose scores line up with its entries. */
  lemma MatchIffAboveThreshold(kb: KnowledgeBase, query: string, similarity: Similarity)
    requires kb.modelLoaded && kb.embeddingsReady && similarity(query).Success?
    requires |similarity(query).value| == |kb.responses|
    ensures FindBestMatch(kb, query, similarity).Some? <==>
      exists i :: 0 <= i < |kb.responses| && similarity(query).value[i] > MatchThreshold
  {
    var scores := similarity(query).value;
    if exists i :: 0 <= i < |kb.responses| && scores[i] > MatchThreshold {
      var i :| 0 <= i < |kb.responses| && scores[i] > MatchThreshold;
      var idx := Seqs.ArgMax(scores);
      assert scores[i] <= scores[idx];
    }
  }

  /** What the request carries from the last analysis; any key may be absent. */
  datatype Context = Context(score: Option<int>, details: Option<string>, fileHash: Option<string>)

  function ContextScore(c: Context): int
  {
    if c.score.Some? then c.score.value else DefaultScore
  }

  function ContextDetails(c: Context): string
  {
    if c.details.Some? then c.details.value else DefaultDetails
  }

  datatype Verdict = HighProbability | LikelyAuthentic

  /** The reply kinds. An expert reply carries the knowledge-base template
      as found; filling its placeholders is not modelled. */
  datatype Reply =
    | ScoreReply(score: int, verdict: Verdict, details: string)
    | FlagReply(details: string)
    | ExpertReply(response: string)
    | FallbackReply

  function VerdictOf(score: int): (v: Verdict)
    ensures v == HighProbability <==> score > VerdictThreshold
  {
    if score > VerdictThreshold then HighProbability else LikelyAuthentic
  }

  predicate AsksScore(query: string)
  {
    Text.Contains(query, "score") || Text.Contains(query, "rating")
  }

  predicate AsksWhyFlagged(query: string)
  {
    Text.Contains(query, "why") && (Text.Contains(query, "fake") || Text.Contains(query, "flag"))
  }

  /** `get_chat_response`. The global engine is `None` when building it
      raised; the semantic lookup sees the lower-cased question. */
  function GetChatResponse(userQuery: string, context: Context, engine: Option<KnowledgeBase>,
                           similarity: Similarity): (r: Reply)
    // the score question wins over every other route
    ensures AsksScore(Text.Lower(userQuery)) ==>
      r == ScoreReply(ContextScore(context), VerdictOf(ContextScore(context)), ContextDetails(context))
    ensures r.ScoreReply? ==> AsksScore(Text.Lower(userQuery))
    ensures r.FlagReply? <==> !AsksScore(Text.Lower(userQuery)) && AsksWhyFlagged(Text.Lower(userQuery))
    ensures r.FlagReply? ==> r.details == ContextDetails(context)
    ensures r.ExpertReply? ==>
      && engine.Some?
      && FindBestMatch(engine.value, Text.Lower(userQuery), similarity) == Some(r.response)
      && r.response != ""
    ensures engine.None? ==> !r.ExpertReply?
    ensures r.FallbackReply? <==>
      && !AsksScore(Text.Lower(userQuery))
      && !AsksWhyFlagged(Text.Lower(userQuery))
      && (engine.None? || FindBestMatch(engine.value, Text.Lower(userQuery), similarity) in {None, Some("")})
  {
    var query := Text.Lower(userQuery);
    var score := ContextScore(context);
    var details := ContextDetails(context);
    if AsksScore(query) then ScoreReply(score, VerdictOf(score), details)
    else if AsksWhyFlagged(query) then FlagReply(details)
    else if engine.None? then FallbackReply
    else
      match FindBestMatch(engine.value, query, similarity)
      // an empty response is falsy and falls through
      case Some(response) => if response != "" then ExpertReply(response) else FallbackReply
      case None => FallbackReply
  }

  const FallbackText: string :=
    "I am a specialized Forensic AI. I can explain terms like **ELA**, **FFT**, **Chain of Custody**, "
    + "or interpret the **Score** for you. Please ask a specific legal or technical question."

  function VerdictText(v: Verdict): string
  {
    match v
    case HighProbability => "High Probability of Manipulation"
    case LikelyAuthentic => "Likely Authentic"
  }

  function IntText(n: int): (s: string)
    ensures |s| > 0
  {
    if n < 0 then "-" + Text.Decimal(-n) else Text.Decimal(n)
  }

  /** The reply as the user sees it. */
  function Render(r: Reply): string
  {
    match r
    case ScoreReply(score, verdict, details) =>
      ScorePrefix + (IntText(score) + "/100**") + (". Verdict: **" + VerdictText(verdict) + "**. " + details)
    case FlagReply(details) => "The system flagged this file based on the following anomalies: " + details
    case ExpertReply(response) => response
    case FallbackReply => FallbackText
  }

  const ScorePrefix: string := "The forensic analysis score is **"

  /** The score reply shows the score itself, recoverable from the text. */
  lemma ScoreReplyShowsScore(score: nat, details: string)
    ensures var text := Render(ScoreReply(score, VerdictOf(score), details));
      && Text.StartsWith(text, ScorePrefix)
      && Text.OccursAt(text, Text.Decimal(score) + "/100**", |ScorePrefix|)
      && Text.ParseDecimal(Text.Decimal(score)) == score
  {
    Text.DecimalRoundTrip(score);
    var shown := Text.Decimal(score) + "/100**";
    var rest := ". Verdict: **" + VerdictText(VerdictOf(score)) + "**. " + details;
    Text.InfixAt(ScorePrefix, shown, rest);
  }

  /** A question about the rating, in any case, is answered with the
      context's score; a missing score reads as 0, which is authentic. */
  lemma RatingQuestion()
    ensures GetChatResponse("RATING?", Context(None, None, None), None, _ => Failure("offline"))
      == ScoreReply(0, LikelyAuthentic, DefaultDetails)
  {
    var q := Text.Lower("RATING?");
    assert q == "rating?";
    assert Text.OccursAt(q, "rating", 0);
  }

  /** At exactly 50 the chatbot still calls the file authentic. */
  lemma VerdictBoundary()
    ensures VerdictOf(50) == LikelyAuthentic && VerdictOf(51) == HighProbability
  {
  }
}
