/** The PDF detector: signature checks on the creator and producer metadata
    and a scan of the pages for embedded JavaScript. Parsing is done by the
    PDF library; its result (or its exception) is the input here. */
module DocumentDetector {
  import opened Wrappers
  import opened Rules
  import opened Results
  import Seqs
  import Text

  /** One page object, by the keys of its dictionary. */
  datatype Page = Page(keys: set<string>)

  /** What the PDF reader exposes: the document information dictionary, if
      any, and the pages. */
  datatype Pdf = Pdf(metadata: Option<map<string, string>>, pages: seq<Page>)

  const SuspiciousTools: seq<string> := ["photoshop", "gimp", "foxit", "pdf editor", "acrobat"]
  const LegitSources: seq<string> := ["scanner", "hp", "canon", "epson", "xerox"]

  const ToolDelta: nat := 40
  const NoScannerDelta: nat := 20
  const ScriptDelta: nat := 30
  const DocumentConfidence: int := 70

  /** `metadata.get(key, '')`. */
  function Field(m: map<string, string>, key: string): string
  {
    if key in m then m[key] else ""
  }

  /** `if metadata:` is false for a missing and for an empty dictionary. */
  predicate HasMetadata(pdf: Pdf)
  {
    pdf.metadata.Some? && |pdf.metadata.value| > 0
  }

  function Creator(pdf: Pdf): string
    requires HasMetadata(pdf)
  {
    Text.Lower(Field(pdf.metadata.value, "/Creator"))
  }

  function Producer(pdf: Pdf): string
    requires HasMetadata(pdf)
  {
    Text.Lower(Field(pdf.metadata.value, "/Producer"))
  }

  /** `name in creator or name in producer`, over the lower-cased fields. */
  predicate Names(pdf: Pdf, name: string)
    requires HasMetadata(pdf)
  {
    Text.Contains(Creator(pdf), name) || Text.Contains(Producer(pdf), name)
  }

  /** The first editing tool, in list order, named by the creator or producer. */
  function ToolFound(pdf: Pdf): (r: Option<nat>)
    ensures r.Some? ==> HasMetadata(pdf) && r.value < |SuspiciousTools| && Names(pdf, SuspiciousTools[r.value])
    // the loop breaks at the first listed tool that is named
    ensures r.Some? ==> forall j :: 0 <= j < r.value ==> !Names(pdf, SuspiciousTools[j])
    ensures r.None? <==> !HasMetadata(pdf) || forall i :: 0 <= i < |SuspiciousTools| ==> !Names(pdf, SuspiciousTools[i])
  {
    if !HasMetadata(pdf) then None
    else
      var creator := Creator(pdf);
      var producer := Producer(pdf);
      Seqs.FirstWhere(SuspiciousTools, (tool: string) => Text.Contains(creator, tool) || Text.Contains(producer, tool))
  }

  /** `any(src in creator.lower() or src in producer.lower() for src in legit_sources)`. */
  predicate IsLegit(pdf: Pdf)
    requires HasMetadata(pdf)
  {
    var creator := Creator(pdf);
    var producer := Producer(pdf);
    Seqs.FirstWhere(LegitSources, (src: string) =>
      Text.Contains(Text.Lower(creator), src) || Text.Contains(Text.Lower(producer), src)).Some?
  }

  /** Lower-casing the already lower-cased fields again changes nothing:
      a scanner signature is found exactly when one of the fields names it. */
  lemma LegitMeansNamed(pdf: Pdf)
    requires HasMetadata(pdf)
    ensures IsLegit(pdf) <==> exists i :: 0 <= i < |LegitSources| && Names(pdf, LegitSources[i])
  {
    Text.LowerIdempotent(Field(pdf.metadata.value, "/Creator"));
    Text.LowerIdempotent(Field(pdf.metadata.value, "/Producer"));
  }

  predicate HasScript(p: Page)
  {
    "/JS" in p.keys || "/JavaScript" in p.keys
  }

  /** The first page carrying a script marker; the page loop stops there. */
  function ScriptPage(pdf: Pdf): Option<nat>
  {
    Seqs.FirstWhere(pdf.pages, HasScript)
  }

  /** The "no scanner" rule fires only when metadata is present, no
      legitimate source is named and no tool was found (`score == 0`). */
  predicate NoScannerFires(pdf: Pdf)
  {
    HasMetadata(pdf) && !IsLegit(pdf) && ToolFound(pdf).None?
  }

  function RawScore(pdf: Pdf): nat
  {
    Points(ToolFound(pdf), NoScannerFires(pdf), ScriptPage(pdf).Some?)
  }

  /** The additive contributions of the three rules. */
  function Points(tool: Option<nat>, noScanner: bool, script: bool): nat
  {
    (if tool.Some? then ToolDelta else 0)
    + (if noScanner then NoScannerDelta else 0)
    + (if script then ScriptDelta else 0)
  }

  /** The rationales of the rules that fired, in evaluation order; the
      fallback note when none did. */
  function FindingNotes(tool: Option<nat>, noScanner: bool, script: bool): seq<Note>
    requires tool.Some? ==> tool.value < |SuspiciousTools|
  {
    var found :=
      (if tool.Some? then [EditingTool(SuspiciousTools[tool.value])] else [])
      + (if noScanner then [NoScannerMetadata] else [])
      + (if script then [EmbeddedJavaScript] else []);
    if |found| == 0 then [NoIndicators] else found
  }

  /** The position of a rule's rationale in evaluation order. */
  function RuleRank(n: Note): nat
  {
    match n
    case EditingTool(_) => 0
    case NoScannerMetadata => 1
    case EmbeddedJavaScript => 2
    case _ => 3
  }

  /** The notes the document detector can write. */
  predicate IsDocumentNote(n: Note)
  {
    n.EditingTool? || n == NoScannerMetadata || n == EmbeddedJavaScript || n == NoIndicators
  }

  /** Each rule contributes its rationale at most once; the fallback note
      stands alone exactly when no points were scored; since the tool rule
      and the no-scanner rule exclude each other, at most 70 points arise. */
  lemma FindingNotesFacts(tool: Option<nat>, noScanner: bool, script: bool)
    requires tool.Some? ==> tool.value < |SuspiciousTools|
    requires !(tool.Some? && noScanner)
    ensures var notes := FindingNotes(tool, noScanner, script);
      && |notes| > 0
      && (forall i, j ::
            0 <= i < |notes| && 0 <= j < |notes| && notes[i].EditingTool? && notes[j].EditingTool?
            ==> i == j)
      && (tool.Some? <==> exists i :: 0 <= i < |notes| && notes[i].EditingTool?)
      && (tool.Some? ==> notes[0] == EditingTool(SuspiciousTools[tool.value]))
      && (NoScannerMetadata in notes <==> noScanner)
      && (EmbeddedJavaScript in notes <==> script)
      && (notes == [NoIndicators] <==> Points(tool, noScanner, script) == 0)
      // the fallback is written only when nothing else was, and no other note is
      && (NoIndicators in notes <==> Points(tool, noScanner, script) == 0)
      && (forall n :: n in notes ==> IsDocumentNote(n))
      && Points(tool, noScanner, script) <= 70
      // every rationale at most once, in the order the rules run
      && (forall i, j :: 0 <= i < j < |notes| ==> RuleRank(notes[i]) < RuleRank(notes[j]))
  {
    var notes := FindingNotes(tool, noScanner, script);
    if tool.Some? {
      assert notes[0].EditingTool?;
    }
  }

  /** The clauses above leave no freedom: any note list that keeps them is
      the one the rules write. */
  lemma {:induction false} FindingNotesDetermined(tool: Option<nat>, noScanner: bool, script: bool, notes: seq<Note>)
    requires tool.Some? ==> tool.value < |SuspiciousTools|
    requires !(tool.Some? && noScanner)
    requires |notes| > 0
    requires forall n :: n in notes ==> IsDocumentNote(n)
    requires forall i, j :: 0 <= i < j < |notes| ==> RuleRank(notes[i]) < RuleRank(notes[j])
    requires tool.Some? <==> exists i :: 0 <= i < |notes| && notes[i].EditingTool?
    requires tool.Some? ==> notes[0] == EditingTool(SuspiciousTools[tool.value])
    requires NoScannerMetadata in notes <==> noScanner
    requires EmbeddedJavaScript in notes <==> script
    requires NoIndicators in notes <==> Points(tool, noScanner, script) == 0
    ensures notes == FindingNotes(tool, noScanner, script)
  {
    var expected := FindingNotes(tool, noScanner, script);
    FindingNotesFacts(tool, noScanner, script);
    // both lists hold the same notes, each strictly ranked, so they agree
    assert forall n :: IsDocumentNote(n) ==> (n in notes <==> n in expected);
    RankedUnique(notes, expected);
  }

  /** Two strictly ranked lists of document notes with the same members
      are equal. */
  lemma {:induction false} RankedUnique(xs: seq<Note>, ys: seq<Note>)
    requires forall n :: n in xs ==> IsDocumentNote(n)
    requires forall n :: n in ys ==> IsDocumentNote(n)
    requires forall i, j :: 0 <= i < j < |xs| ==> RuleRank(xs[i]) < RuleRank(xs[j])
    requires forall i, j :: 0 <= i < j < |ys| ==> RuleRank(ys[i]) < RuleRank(ys[j])
    requires forall n :: IsDocumentNote(n) ==> (n in xs <==> n in ys)
    ensures xs == ys
    decreases |xs|
  {
    // a non-empty list shares its head with the other, so neither is empty alone
    assert |xs| > 0 ==> xs[0] in xs;
    assert |ys| > 0 ==> ys[0] in ys;
    if |xs| > 0 && |ys| > 0 {
      assert xs[0] in ys && ys[0] in xs;
      var i :| 0 <= i < |ys| && ys[i] == xs[0];
      var j :| 0 <= j < |xs| && xs[j] == ys[0];
      assert xs[0] == ys[0];
      forall n | IsDocumentNote(n)
        ensures n in xs[1..] <==> n in ys[1..]
      {
        if n in xs[1..] {
          var k :| 1 <= k < |xs| && xs[k] == n;
          assert RuleRank(xs[0]) < RuleRank(xs[k]);
        }
        if n in ys[1..] {
          var k :| 1 <= k < |ys| && ys[k] == n;
          assert RuleRank(ys[0]) < RuleRank(ys[k]);
        }
      }
      RankedUnique(xs[1..], ys[1..]);
      assert xs == [xs[0]] + xs[1..] && ys == [ys[0]] + ys[1..];
    }
  }

  /** What `analyze_document` promises for a parsed file: the score and the
      rationales of the three rules, the fixed confidence, and the metrics. */
  predicate DocumentPromises(pdf: Pdf, a: Analysis)
  {
    && a.technique == PdfMetadata
    && a.confidence == DocumentConfidence
    // +40 for an editing tool, +20 for a missing scanner signature, +30
    // for a page with a script, floored at 5
    && a.score == Clamp(5, 100,
         (if ToolFound(pdf).Some? then 40 else 0)
         + (if NoScannerFires(pdf) then 20 else 0)
         + (if exists k :: 0 <= k < |pdf.pages| && HasScript(pdf.pages[k]) then 30 else 0))
    && 5 <= a.score <= 70
    && |a.notes| > 0
    && a.metrics == DocumentMetrics(|pdf.pages|, ScriptPage(pdf).Some?)
    // the editing-tool rationale appears at most once
    && (forall i, j ::
          0 <= i < |a.notes| && 0 <= j < |a.notes| && a.notes[i].EditingTool? && a.notes[j].EditingTool?
          ==> i == j)
    && (ToolFound(pdf).Some? <==> exists i :: 0 <= i < |a.notes| && a.notes[i].EditingTool?)
    && (ToolFound(pdf).Some? ==> a.notes[0] == EditingTool(SuspiciousTools[ToolFound(pdf).value]))
    && (NoScannerMetadata in a.notes <==> NoScannerFires(pdf))
    && (EmbeddedJavaScript in a.notes <==> exists k :: 0 <= k < |pdf.pages| && HasScript(pdf.pages[k]))
    && (a.notes == [NoIndicators] <==> RawScore(pdf) == 0)
    // the fallback is written only when nothing else was, and no other note is
    && (NoIndicators in a.notes <==> RawScore(pdf) == 0)
    && (forall n :: n in a.notes ==> IsDocumentNote(n))
    // each rationale at most once, in the order the rules run
    && (forall i, j :: 0 <= i < j < |a.notes| ==> RuleRank(a.notes[i]) < RuleRank(a.notes[j]))
  }

  /** The record built from the three rules of a parsed file. */
  function ScoreDocument(pdf: Pdf): Analysis
  {
    var tool := ToolFound(pdf);
    var noScanner := NoScannerFires(pdf);
    var script := ScriptPage(pdf).Some?;
    Analysis(Clamp(5, 100, Points(tool, noScanner, script)), DocumentConfidence,
             FindingNotes(tool, noScanner, script), PdfMetadata, DocumentMetrics(|pdf.pages|, script))
  }

  /** The page loop finds a script exactly when some page carries one. */
  lemma ScriptFound(pdf: Pdf)
    ensures ScriptPage(pdf).Some? <==> exists k :: 0 <= k < |pdf.pages| && HasScript(pdf.pages[k])
  {
    if ScriptPage(pdf).None? {
      assert forall k :: 0 <= k < |pdf.pages| ==> !HasScript(pdf.pages[k]);
    }
  }

  /** The record built from the rules keeps every promise above. */
  lemma DocumentScoring(pdf: Pdf)
    ensures DocumentPromises(pdf, ScoreDocument(pdf))
  {
    ScriptFound(pdf);
    var tool, noScanner, script := ToolFound(pdf), NoScannerFires(pdf), ScriptPage(pdf).Some?;
    FindingNotesFacts(tool, noScanner, script);
    assert RawScore(pdf) == Points(tool, noScanner, script);
  }

  /** The promises pin the notes: a record that keeps them carries exactly
      the rationales the rules write, the fallback only when none fired. */
  lemma DocumentNotesPinned(pdf: Pdf, a: Analysis)
    requires DocumentPromises(pdf, a)
    ensures a.notes == FindingNotes(ToolFound(pdf), NoScannerFires(pdf), ScriptPage(pdf).Some?)
  {
    ScriptFound(pdf);
    FindingNotesDetermined(ToolFound(pdf), NoScannerFires(pdf), ScriptPage(pdf).Some?, a.notes);
  }

  /** `analyze_document`. */
  function AnalyzeDocument(input: Result<Pdf>): (a: Analysis)
    ensures Bounded(a)
    ensures input.Failure? <==> a.technique == Failed
    ensures input.Failure? ==> a == FailedWith(input.error)
    ensures input.Success? ==> DocumentPromises(input.value, a)
  {
    match input
    case Failure(e) => FailedWith(e)
    case Success(pdf) =>
      DocumentScoring(pdf);
      ScoreDocument(pdf)
  }

  /** A file produced by Photoshop, with no scripts: one +40 finding,
      naming the tool, and no "no scanner" finding on top of it. */
  lemma PhotoshopProducer()
    ensures var pdf := Pdf(Some(map["/Producer" := "Adobe Photoshop"]), [Page({"/Type"})]);
      AnalyzeDocument(Success(pdf)).score == 40
      && AnalyzeDocument(Success(pdf)).notes == [EditingTool("photoshop")]
  {
    var pdf := Pdf(Some(map["/Producer" := "Adobe Photoshop"]), [Page({"/Type"})]);
    assert HasMetadata(pdf);
    assert Producer(pdf) == "adobe photoshop";
    assert Text.OccursAt(Producer(pdf), "photoshop", 6);
    assert ToolFound(pdf) == Some(0);
    assert !HasScript(pdf.pages[0]);
    assert ScriptPage(pdf) == None;
  }
}
