/**
 * The report panel: the PDF export, whose vertical cursor `y` moves through
 * the title, the wrapped sections, page breaks and the footer, the AI-report
 * request's state changes, and the scenario sample it lists.
 *
 * The PDF document is observed through the trace of calls made on it;
 * line wrapping is a given function from text to lines.
 */
module ReportGen {
  import opened Wrappers
  import opened MockData

  datatype FontStyle = Bold | Normal | Italic

  /** One call on the PDF document. */
  datatype PdfOp =
    | SetFontSize(size: nat)
    | SetFont(style: FontStyle)
    | Text(text: string, x: int, y: int)
    | AddPage
    | Save(fileName: string)

  /** A trace of calls and the cursor after them. */
  datatype Layout = Layout(ops: seq<PdfOp>, y: int)

  const Margin: int := 10
  const PageTop: int := 10
  const BodyLimit: int := 280
  const FooterLimit: int := 270
  const FooterY: int := 290
  const TitleText: string := "Experiment Report"
  const FooterText: string := "Exported from Report Generator UI"
  const FileName: string := "experiment_report.pdf"
  const GeneratingText: string := "Generating report…"
  const FailedText: string := "Failed to generate report."
  const SampleSize: nat := 5

  /** Every text call of `ops` is drawn at a height in [lo, hi]. */
  ghost predicate TextWithin(ops: seq<PdfOp>, lo: int, hi: int) {
    forall i :: 0 <= i < |ops| && ops[i].Text? ==> lo <= ops[i].y <= hi
  }

  /** The strings drawn by `ops`, in order. */
  function TextsOf(ops: seq<PdfOp>): seq<string> {
    if ops == [] then []
    else (if ops[0].Text? then [ops[0].text] else []) + TextsOf(ops[1..])
  }

  lemma {:induction false} TextsOfAppend(a: seq<PdfOp>, b: seq<PdfOp>)
    ensures TextsOf(a + b) == TextsOf(a) + TextsOf(b)
  {
    if a != [] {
      assert (a + b)[1..] == a[1..] + b;
      TextsOfAppend(a[1..], b);
    } else {
      assert a + b == b;
    }
  }

  // ------------------------------------------------------------ the cursor

  /** The per-line loop: break the page when `y` is past the body limit, draw, move down 5. */
  function LinesLayout(y: int, lines: seq<string>): Layout
    decreases |lines|
  {
    if lines == [] then Layout([], y)
    else
      var breakOps := if y > BodyLimit then [AddPage] else [];
      var at := if y > BodyLimit then PageTop else y;
      var rest := LinesLayout(at + 5, lines[1..]);
      Layout(breakOps + [Text(lines[0], Margin, at)] + rest.ops, rest.y)
  }

  /**
   * `addWrappedText`: nothing for a missing or empty text; otherwise the bold
   * heading at `y`, 6 down, the wrapped lines, and 4 more.
   */
  function SectionLayout(y: int, heading: string, text: Option<string>, wrap: string -> seq<string>): Layout {
    if !Truthy(text) then Layout([], y)
    else
      var body := LinesLayout(y + 6, wrap(text.value));
      Layout([SetFontSize(11), SetFont(Bold), Text(heading, Margin, y), SetFont(Normal)] + body.ops, body.y + 4)
  }

  /**
   * Starting anywhere at or below the top margin, wrapped lines are drawn
   * between the top margin and the body limit, the cursor never rises above
   * the top margin, and a non-empty run ends with a drawn line at most 5 above
   * the cursor's final position.
   */
  lemma {:induction false} LinesInBounds(y: int, lines: seq<string>)
    requires y >= PageTop
    ensures TextWithin(LinesLayout(y, lines).ops, PageTop, BodyLimit)
    ensures LinesLayout(y, lines).y >= PageTop
    ensures lines == [] ==> LinesLayout(y, lines) == Layout([], y)
    ensures lines != [] ==> LinesLayout(y, lines).y <= BodyLimit + 5
    ensures lines != [] ==> LinesLayout(y, lines).ops[|LinesLayout(y, lines).ops| - 1].Text?
    decreases |lines|
  {
    if lines != [] {
      var at := if y > BodyLimit then PageTop else y;
      var head := (if y > BodyLimit then [AddPage] else []) + [Text(lines[0], Margin, at)];
      LinesInBounds(at + 5, lines[1..]);
      var rest := LinesLayout(at + 5, lines[1..]);
      assert LinesLayout(y, lines).ops == head + rest.ops;
      assert TextWithin(head, PageTop, BodyLimit);
    }
  }

  /** The strings drawn are exactly the wrapped lines, in order. */
  lemma {:induction false} LinesTexts(y: int, lines: seq<string>)
    ensures TextsOf(LinesLayout(y, lines).ops) == lines
    decreases |lines|
  {
    if lines != [] {
      var at := if y > BodyLimit then PageTop else y;
      var head: seq<PdfOp> := (if y > BodyLimit then [AddPage] else []) + [Text(lines[0], Margin, at)];
      var rest := LinesLayout(at + 5, lines[1..]);
      assert LinesLayout(y, lines).ops == head + rest.ops by {
        if y > BodyLimit {
          assert LinesLayout(y, lines).ops == [AddPage] + [Text(lines[0], Margin, PageTop)] + rest.ops;
        } else {
          assert LinesLayout(y, lines).ops == [] + [Text(lines[0], Margin, y)] + rest.ops;
        }
      }
      assert TextsOf(head) == [lines[0]] by {
        var t: seq<PdfOp> := [Text(lines[0], Margin, at)];
        assert TextsOf(t) == [lines[0]] by {
          assert t[1..] == [];
        }
        if y > BodyLimit {
          assert head == [AddPage] + t && head[1..] == t;
        } else {
          assert head == t;
        }
      }
      LinesTexts(at + 5, lines[1..]);
      TextsOfAppend(head, rest.ops);
      assert lines == [lines[0]] + lines[1..];
    }
  }

  /** While the lines fit above the limit there is no page break and each line moves the cursor down 5. */
  lemma {:induction false} LinesWithoutBreak(y: int, lines: seq<string>)
    requires y + 5 * (|lines| - 1) <= BodyLimit
    ensures LinesLayout(y, lines).y == y + 5 * |lines|
    ensures AddPage !in LinesLayout(y, lines).ops
    decreases |lines|
  {
    if lines != [] {
      LinesWithoutBreak(y + 5, lines[1..]);
    }
  }

  /**
   * A missing or empty text leaves everything as it was; otherwise the cursor
   * ends 10 lower when wrapping gives no lines, and otherwise within 9 of the
   * body limit. It never rises above the top margin.
   */
  lemma SectionCursor(y: int, heading: string, text: Option<string>, wrap: string -> seq<string>)
    requires y >= PageTop
    ensures !Truthy(text) ==> SectionLayout(y, heading, text, wrap) == Layout([], y)
    ensures SectionLayout(y, heading, text, wrap).y >= PageTop
    ensures Truthy(text) && wrap(text.value) != [] ==> SectionLayout(y, heading, text, wrap).y <= BodyLimit + 9
    ensures Truthy(text) && wrap(text.value) == [] ==> SectionLayout(y, heading, text, wrap).y == y + 10
  {
    if Truthy(text) {
      LinesInBounds(y + 6, wrap(text.value));
    }
  }

  /**
   * A drawn section opens with the bold heading at the cursor, draws its lines
   * within the body limits, and does not end on a page break.
   */
  lemma SectionDraws(y: int, heading: string, text: Option<string>, wrap: string -> seq<string>)
    requires y >= PageTop && Truthy(text)
    ensures var ops := SectionLayout(y, heading, text, wrap).ops;
            |ops| >= 4
            && ops[..4] == [SetFontSize(11), SetFont(Bold), Text(heading, Margin, y), SetFont(Normal)]
            && TextWithin(ops[4..], PageTop, BodyLimit)
            && !ops[|ops| - 1].AddPage?
  {
    var body := LinesLayout(y + 6, wrap(text.value));
    LinesInBounds(y + 6, wrap(text.value));
    var ops := SectionLayout(y, heading, text, wrap).ops;
    assert ops[4..] == body.ops;
  }

  /** A drawn section draws its heading and then exactly its wrapped lines. */
  lemma SectionTexts(y: int, heading: string, text: Option<string>, wrap: string -> seq<string>)
    requires Truthy(text)
    ensures TextsOf(SectionLayout(y, heading, text, wrap).ops) == [heading] + wrap(text.value)
  {
    var body := LinesLayout(y + 6, wrap(text.value));
    var head := [SetFontSize(11), SetFont(Bold), Text(heading, Margin, y), SetFont(Normal)];
    LinesTexts(y + 6, wrap(text.value));
    TextsOfAppend(head, body.ops);
    assert TextsOf(head) == [heading] by {
      assert head[3..][1..] == [];
      assert TextsOf(head[3..]) == [];
      assert head[2..][1..] == head[3..] && head[2..][0] == Text(heading, Margin, y);
      assert TextsOf(head[2..]) == [heading];
      assert head[1..][1..] == head[2..];
    }
  }

  /** One turn of the per-line loop, seen from the layout of the lines still to draw. */
  lemma LinesStep(y: int, lines: seq<string>, i: nat)
    requires i < |lines|
    ensures var at := if y > BodyLimit then PageTop else y;
            var rest := LinesLayout(at + 5, lines[i + 1..]);
            LinesLayout(y, lines[i..])
            == Layout((if y > BodyLimit then [AddPage] else []) + [Text(lines[i], Margin, at)] + rest.ops, rest.y)
  {
    assert lines[i..][1..] == lines[i + 1..];
  }

  /** One turn of the per-line loop keeps "what is drawn, then the layout of the rest" equal to the whole layout. */
  lemma DrawStep(ops: seq<PdfOp>, y: int, lines: seq<string>, i: nat, whole: Layout)
    requires i < |lines|
    requires ops + LinesLayout(y, lines[i..]).ops == whole.ops && LinesLayout(y, lines[i..]).y == whole.y
    ensures y > BodyLimit ==>
              var rest := LinesLayout(PageTop + 5, lines[i + 1..]);
              ops + [AddPage] + [Text(lines[i], Margin, PageTop)] + rest.ops == whole.ops && rest.y == whole.y
    ensures y <= BodyLimit ==>
              var rest := LinesLayout(y + 5, lines[i + 1..]);
              ops + [Text(lines[i], Margin, y)] + rest.ops == whole.ops && rest.y == whole.y
  {
    LinesStep(y, lines, i);
    var at := if y > BodyLimit then PageTop else y;
    var step := (if y > BodyLimit then [AddPage] else []) + [Text(lines[i], Margin, at)];
    Regroup3(ops, step, LinesLayout(at + 5, lines[i + 1..]).ops);
    if y > BodyLimit {
      assert ops + step == ops + [AddPage] + [Text(lines[i], Margin, PageTop)];
    }
  }

  /** The per-line `forEach`: each line after a page break if needed, 5 apart. */
  method DrawLines(y: int, lines: seq<string>) returns (y': int, ops: seq<PdfOp>)
    ensures Layout(ops, y') == LinesLayout(y, lines)
  {
    ghost var whole := LinesLayout(y, lines);
    y', ops := y, [];
    var i := 0;
    while i < |lines|
      invariant 0 <= i <= |lines|
      invariant ops + LinesLayout(y', lines[i..]).ops == whole.ops
      invariant LinesLayout(y', lines[i..]).y == whole.y
    {
      DrawStep(ops, y', lines, i, whole);
      if y' > BodyLimit {
        ops := ops + [AddPage];
        y' := PageTop;
      }
      ops := ops + [Text(lines[i], Margin, y')];
      y' := y' + 5;
      i := i + 1;
    }
    assert lines[i..] == [];
    assert ops + [] == ops;
  }

  /** The `addWrappedText` closure, with the captured cursor passed in and out. */
  method AddWrappedText(y: int, heading: string, text: Option<string>, wrap: string -> seq<string>)
    returns (y': int, ops: seq<PdfOp>)
    ensures Layout(ops, y') == SectionLayout(y, heading, text, wrap)
  {
    if text.None? || text.value == "" {
      return y, [];
    }
    ops := [SetFontSize(11), SetFont(Bold), Text(heading, Margin, y)];
    y' := y + 6;
    ops := ops + [SetFont(Normal)];
    var lines := wrap(text.value);
    var body;
    y', body := DrawLines(y', lines);
    ops := ops + body;
    y' := y' + 4;
  }

  lemma Regroup3<T>(a: seq<T>, b: seq<T>, c: seq<T>)
    ensures a + b + c == a + (b + c)
  {
  }

  lemma Regroup6<T>(a: seq<T>, b: seq<T>, c: seq<T>, d: seq<T>, e: seq<T>, f: seq<T>)
    ensures a + (b + (c + (d + e))) + f == a + b + c + d + e + f
  {
    Regroup3(c, d, e);
    Regroup3(b, c, d + e);
    Regroup3(b + c, d, e);
    Regroup3(a, b, c + (d + e));
  }

  // ------------------------------------------------------------ the export

  const TitleOps: seq<PdfOp> := [SetFontSize(14), SetFont(Bold), Text(TitleText, Margin, PageTop)]

  /** A page break when the cursor is past the footer limit, then the footer at a fixed height, then the save. */
  function FooterOps(y: int): seq<PdfOp> {
    (if y > FooterLimit then [AddPage] else [])
    + [SetFontSize(9), SetFont(Italic), Text(FooterText, Margin, FooterY), Save(FileName)]
  }

  /** A heading and the text `addWrappedText` lays out under it. */
  datatype Section = Section(heading: string, text: Option<string>)

  /** Sections laid out one after the other, each starting where the previous one left the cursor. */
  function SectionsLayout(y: int, secs: seq<Section>, wrap: string -> seq<string>): Layout
    decreases |secs|
  {
    if secs == [] then Layout([], y)
    else
      var first := SectionLayout(y, secs[0].heading, secs[0].text, wrap);
      var rest := SectionsLayout(first.y, secs[1..], wrap);
      Layout(first.ops + rest.ops, rest.y)
  }

  /** The export's sections in order: main, top, impact, then the AI report only when it is set. */
  function ReportSections(d: Dataset, aiSummary: Option<string>): seq<Section> {
    [Section("Main Summary:", d.mainSummary),
     Section("Top Summary:", d.topSummary),
     Section("Impact Summary:", d.impactSummary)]
    + (if Truthy(aiSummary) then [Section("AI-Generated Report:", aiSummary)] else [])
  }

  /** The body of the export, starting 10 below the title. */
  function BodyLayout(d: Dataset, aiSummary: Option<string>, wrap: string -> seq<string>): Layout {
    SectionsLayout(PageTop + 10, ReportSections(d, aiSummary), wrap)
  }

  /** The calls `handleExportPdf` makes: none without data. */
  function ExportOps(data: Option<Dataset>, aiSummary: Option<string>, wrap: string -> seq<string>): seq<PdfOp> {
    match data
    case None => []
    case Some(d) =>
      var body := BodyLayout(d, aiSummary, wrap);
      TitleOps + body.ops + FooterOps(body.y)
  }

  /** One more section continues from where the others left the cursor. */
  lemma {:induction false} SectionsSnoc(y: int, secs: seq<Section>, s: Section, wrap: string -> seq<string>)
    ensures var before := SectionsLayout(y, secs, wrap);
            var last := SectionLayout(before.y, s.heading, s.text, wrap);
            SectionsLayout(y, secs + [s], wrap) == Layout(before.ops + last.ops, last.y)
    decreases |secs|
  {
    if secs == [] {
      assert [] + [s] == [s] && [s][1..] == [];
      var last := SectionLayout(y, s.heading, s.text, wrap);
      assert last.ops + [] == [] + last.ops;
    } else {
      assert (secs + [s])[0] == secs[0];
      assert (secs + [s])[1..] == secs[1..] + [s];
      var first := SectionLayout(y, secs[0].heading, secs[0].text, wrap);
      SectionsSnoc(first.y, secs[1..], s, wrap);
      var rest := SectionsLayout(first.y, secs[1..], wrap);
      var last := SectionLayout(rest.y, s.heading, s.text, wrap);
      Regroup3(first.ops, rest.ops, last.ops);
    }
  }

  /** Sections never leave the cursor above the top margin, and never end on a page break. */
  lemma {:induction false} SectionsBounds(y: int, secs: seq<Section>, wrap: string -> seq<string>)
    requires y >= PageTop
    ensures SectionsLayout(y, secs, wrap).y >= PageTop
    ensures var ops := SectionsLayout(y, secs, wrap).ops; ops == [] || !ops[|ops| - 1].AddPage?
    decreases |secs|
  {
    if secs != [] {
      var s := secs[0];
      var first := SectionLayout(y, s.heading, s.text, wrap);
      SectionCursor(y, s.heading, s.text, wrap);
      if Truthy(s.text) {
        SectionDraws(y, s.heading, s.text, wrap);
      }
      SectionsBounds(first.y, secs[1..], wrap);
      var rest := SectionsLayout(first.y, secs[1..], wrap);
      if rest.ops == [] {
        assert first.ops + rest.ops == first.ops;
      } else {
        assert (first.ops + rest.ops)[|first.ops + rest.ops| - 1] == rest.ops[|rest.ops| - 1];
      }
    }
  }

  /**
   * Without data nothing is drawn. With data the trace opens with the title at
   * the top margin and closes with the footer at its fixed height and the save,
   * and a page is added just before the footer exactly when the cursor is past
   * the footer limit.
   */
  lemma ExportFrame(data: Option<Dataset>, aiSummary: Option<string>, wrap: string -> seq<string>)
    ensures data.None? ==> ExportOps(data, aiSummary, wrap) == []
    ensures data.Some? ==>
              var ops := ExportOps(data, aiSummary, wrap);
              var endY := BodyLayout(data.value, aiSummary, wrap).y;
              |ops| >= 7
              && ops[..3] == [SetFontSize(14), SetFont(Bold), Text(TitleText, Margin, PageTop)]
              && ops[|ops| - 4..] == [SetFontSize(9), SetFont(Italic), Text(FooterText, Margin, FooterY), Save(FileName)]
              && (ops[|ops| - 5] == AddPage <==> endY > FooterLimit)
  {
    if data.Some? {
      var body := BodyLayout(data.value, aiSummary, wrap);
      SectionsBounds(PageTop + 10, ReportSections(data.value, aiSummary), wrap);
      var ops := ExportOps(data, aiSummary, wrap);
      var footer := [SetFontSize(9), SetFont(Italic), Text(FooterText, Margin, FooterY), Save(FileName)];
      if body.y > FooterLimit {
        assert ops == TitleOps + body.ops + [AddPage] + footer;
      } else {
        assert ops == TitleOps + body.ops + footer;
        if body.ops == [] {
          assert ops[|ops| - 5] == TitleOps[2];
        } else {
          assert ops[|ops| - 5] == body.ops[|body.ops| - 1];
        }
      }
    }
  }

  /** Wrapping a non-empty text yields at least one line. */
  ghost predicate WrapsNonEmpty(wrap: string -> seq<string>) {
    forall t: string :: t != "" ==> wrap(t) != []
  }

  /** A section that starts on the page ends low enough for the next heading to be on the page. */
  lemma SectionKeepsOnPage(y: int, heading: string, text: Option<string>, wrap: string -> seq<string>)
    requires PageTop <= y <= BodyLimit + 9
    requires WrapsNonEmpty(wrap)
    ensures TextWithin(SectionLayout(y, heading, text, wrap).ops, PageTop, BodyLimit + 9)
    ensures PageTop <= SectionLayout(y, heading, text, wrap).y <= BodyLimit + 9
  {
    SectionCursor(y, heading, text, wrap);
    if Truthy(text) {
      SectionDraws(y, heading, text, wrap);
      var ops := SectionLayout(y, heading, text, wrap).ops;
      assert wrap(text.value) != [];
      assert ops == ops[..4] + ops[4..];
      forall i | 0 <= i < |ops| && ops[i].Text?
        ensures PageTop <= ops[i].y <= BodyLimit + 9
      {
        if i >= 4 {
          assert ops[i] == ops[4..][i - 4];
        }
      }
    }
  }

  /** Sections that start on the page draw every string on the page and leave the cursor on it. */
  lemma {:induction false} SectionsOnPage(y: int, secs: seq<Section>, wrap: string -> seq<string>)
    requires PageTop <= y <= BodyLimit + 9
    requires WrapsNonEmpty(wrap)
    ensures TextWithin(SectionsLayout(y, secs, wrap).ops, PageTop, BodyLimit + 9)
    ensures PageTop <= SectionsLayout(y, secs, wrap).y <= BodyLimit + 9
    decreases |secs|
  {
    if secs != [] {
      var s := secs[0];
      var first := SectionLayout(y, s.heading, s.text, wrap);
      SectionKeepsOnPage(y, s.heading, s.text, wrap);
      SectionsOnPage(first.y, secs[1..], wrap);
      WithinAppend(first.ops, SectionsLayout(first.y, secs[1..], wrap).ops, PageTop, BodyLimit + 9);
    }
  }

  /**
   * When wrapping never drops a non-empty text, every string of the export,
   * headings included, is drawn on the page: at or below the top margin and no
   * lower than the footer.
   */
  lemma ExportOnPage(data: Option<Dataset>, aiSummary: Option<string>, wrap: string -> seq<string>)
    requires WrapsNonEmpty(wrap)
    ensures TextWithin(ExportOps(data, aiSummary, wrap), PageTop, FooterY)
  {
    if data.Some? {
      var body := BodyLayout(data.value, aiSummary, wrap);
      SectionsOnPage(PageTop + 10, ReportSections(data.value, aiSummary), wrap);
      assert TextWithin(body.ops, PageTop, FooterY);
      WithinAppend(TitleOps, body.ops, PageTop, FooterY);
      WithinAppend(TitleOps + body.ops, FooterOps(body.y), PageTop, FooterY);
    }
  }

  lemma WithinAppend(a: seq<PdfOp>, b: seq<PdfOp>, lo: int, hi: int)
    requires TextWithin(a, lo, hi) && TextWithin(b, lo, hi)
    ensures TextWithin(a + b, lo, hi)
  {
    forall i | 0 <= i < |a + b| && (a + b)[i].Text?
      ensures lo <= (a + b)[i].y <= hi
    {
      if i >= |a| {
        assert (a + b)[i] == b[i - |a|];
      }
    }
  }

  /** The strings a section draws: its heading and its wrapped lines, or nothing for a missing or empty text. */
  function SectionStrings(s: Section, wrap: string -> seq<string>): seq<string> {
    if Truthy(s.text) then [s.heading] + wrap(s.text.value) else []
  }

  /** The strings of each section in turn. */
  function SectionsStrings(secs: seq<Section>, wrap: string -> seq<string>): seq<string>
    decreases |secs|
  {
    if secs == [] then [] else SectionStrings(secs[0], wrap) + SectionsStrings(secs[1..], wrap)
  }

  /** Wherever they start and however pages break, sections draw their strings section by section. */
  lemma {:induction false} SectionsTexts(y: int, secs: seq<Section>, wrap: string -> seq<string>)
    ensures TextsOf(SectionsLayout(y, secs, wrap).ops) == SectionsStrings(secs, wrap)
    decreases |secs|
  {
    if secs != [] {
      var s := secs[0];
      var first := SectionLayout(y, s.heading, s.text, wrap);
      var rest := SectionsLayout(first.y, secs[1..], wrap);
      SectionsTexts(first.y, secs[1..], wrap);
      TextsOfAppend(first.ops, rest.ops);
      if Truthy(s.text) {
        SectionTexts(y, s.heading, s.text, wrap);
      }
    }
  }

  lemma TextsOfCons(op: PdfOp, rest: seq<PdfOp>)
    ensures TextsOf([op] + rest) == (if op.Text? then [op.text] else []) + TextsOf(rest)
  {
    assert ([op] + rest)[1..] == rest;
  }

  /** The strings of the fixed title and of any footer. */
  lemma FrameTexts(y: int)
    ensures TextsOf(TitleOps) == [TitleText]
    ensures TextsOf(FooterOps(y)) == [FooterText]
  {
    TextsOfCons(Save(FileName), []);
    TextsOfCons(Text(FooterText, Margin, FooterY), [Save(FileName)]);
    TextsOfCons(SetFont(Italic), [Text(FooterText, Margin, FooterY), Save(FileName)]);
    var footer := [SetFontSize(9), SetFont(Italic), Text(FooterText, Margin, FooterY), Save(FileName)];
    TextsOfCons(SetFontSize(9), footer[1..]);
    assert TextsOf(footer) == [FooterText];
    TextsOfCons(AddPage, footer);
    assert FooterOps(y) == footer || FooterOps(y) == [AddPage] + footer;
    TextsOfCons(Text(TitleText, Margin, PageTop), []);
    TextsOfCons(SetFont(Bold), [Text(TitleText, Margin, PageTop)]);
    TextsOfCons(SetFontSize(14), TitleOps[1..]);
  }

  /** The strings of a list of sections after its first. */
  lemma SectionsStringsStep(secs: seq<Section>, wrap: string -> seq<string>, i: nat)
    requires i < |secs|
    ensures SectionsStrings(secs[i..], wrap) == SectionStrings(secs[i], wrap) + SectionsStrings(secs[i + 1..], wrap)
  {
    assert secs[i..][1..] == secs[i + 1..];
  }

  /**
   * The export draws the title, then the main, top and impact summaries and
   * the AI report, each with its heading and only when its text is set, and
   * then the footer.
   */
  lemma ExportTexts(d: Dataset, aiSummary: Option<string>, wrap: string -> seq<string>)
    ensures TextsOf(ExportOps(Some(d), aiSummary, wrap))
            == [TitleText]
               + SectionStrings(Section("Main Summary:", d.mainSummary), wrap)
               + SectionStrings(Section("Top Summary:", d.topSummary), wrap)
               + SectionStrings(Section("Impact Summary:", d.impactSummary), wrap)
               + SectionStrings(Section("AI-Generated Report:", aiSummary), wrap)
               + [FooterText]
  {
    var secs := ReportSections(d, aiSummary);
    var body := BodyLayout(d, aiSummary, wrap);
    var ai := SectionStrings(Section("AI-Generated Report:", aiSummary), wrap);
    SectionsTexts(PageTop + 10, secs, wrap);
    assert SectionsStrings(secs[3..], wrap) == ai by {
      if Truthy(aiSummary) {
        SectionsStringsStep(secs, wrap, 3);
        assert secs[4..] == [];
      } else {
        assert secs[3..] == [];
      }
    }
    SectionsStringsStep(secs, wrap, 2);
    SectionsStringsStep(secs, wrap, 1);
    SectionsStringsStep(secs, wrap, 0);
    assert secs[0..] == secs;
    var main := SectionStrings(Section("Main Summary:", d.mainSummary), wrap);
    var top := SectionStrings(Section("Top Summary:", d.topSummary), wrap);
    var impact := SectionStrings(Section("Impact Summary:", d.impactSummary), wrap);
    assert secs[0] == Section("Main Summary:", d.mainSummary);
    assert secs[1] == Section("Top Summary:", d.topSummary);
    assert secs[2] == Section("Impact Summary:", d.impactSummary);
    assert TextsOf(body.ops) == main + (top + (impact + ai));
    FrameTexts(body.y);
    TextsOfAppend(TitleOps, body.ops);
    TextsOfAppend(TitleOps + body.ops, FooterOps(body.y));
    assert TextsOf(ExportOps(Some(d), aiSummary, wrap)) == [TitleText] + (main + (top + (impact + ai))) + [FooterText];
    Regroup6([TitleText], main, top, impact, ai, [FooterText]);
  }

  /** After the sections so far, one more `addWrappedText` call extends the body by that section. */
  lemma ExtendBody(done: seq<Section>, s: Section, wrap: string -> seq<string>,
                   body: seq<PdfOp>, y: int, section: seq<PdfOp>, y': int)
    requires Layout(body, y) == SectionsLayout(PageTop + 10, done, wrap)
    requires Layout(section, y') == SectionLayout(y, s.heading, s.text, wrap)
    ensures Layout(body + section, y') == SectionsLayout(PageTop + 10, done + [s], wrap)
  {
    SectionsSnoc(PageTop + 10, done, s, wrap);
  }

  /** The section calls of `handleExportPdf`, from 10 below the title. */
  method WriteSections(d: Dataset, aiSummary: Option<string>, wrap: string -> seq<string>)
    returns (y: int, body: seq<PdfOp>)
    ensures Layout(body, y) == BodyLayout(d, aiSummary, wrap)
  {
    y, body := PageTop + 10, [];
    ghost var done: seq<Section> := [];
    var section, y';
    y', section := AddWrappedText(y, "Main Summary:", d.mainSummary, wrap);
    ExtendBody(done, Section("Main Summary:", d.mainSummary), wrap, body, y, section, y');
    body, y := body + section, y';
    done := done + [Section("Main Summary:", d.mainSummary)];
    y', section := AddWrappedText(y, "Top Summary:", d.topSummary, wrap);
    ExtendBody(done, Section("Top Summary:", d.topSummary), wrap, body, y, section, y');
    body, y := body + section, y';
    done := done + [Section("Top Summary:", d.topSummary)];
    y', section := AddWrappedText(y, "Impact Summary:", d.impactSummary, wrap);
    ExtendBody(done, Section("Impact Summary:", d.impactSummary), wrap, body, y, section, y');
    body, y := body + section, y';
    done := done + [Section("Impact Summary:", d.impactSummary)];
    if aiSummary.Some? && aiSummary.value != "" {
      y', section := AddWrappedText(y, "AI-Generated Report:", aiSummary, wrap);
      ExtendBody(done, Section("AI-Generated Report:", aiSummary), wrap, body, y, section, y');
      body, y := body + section, y';
      done := done + [Section("AI-Generated Report:", aiSummary)];
      assert done == ReportSections(d, aiSummary);
    } else {
      assert done == ReportSections(d, aiSummary);
    }
  }

  // ------------------------------------------------------------ the panel

  /** What the AI-report request produced: a reply carrying `report` (possibly absent), or a failure. */
  datatype Reply = Replied(report: Option<string>) | Failed

  /** The summary the panel ends up showing after a request. */
  function FinalSummary(reply: Reply): Option<string> {
    match reply
    case Replied(report) => report
    case Failed => Some(FailedText)
  }

  /** The first `SampleSize` scenarios of the file, in file order. */
  function SampleScenarios(data: Option<Dataset>): (r: seq<Entry>)
    ensures |r| == if |SimulatedData(data)| < SampleSize then |SimulatedData(data)| else SampleSize
    ensures r <= SimulatedData(data)
  {
    var all := SimulatedData(data);
    if |all| < SampleSize then all else all[..SampleSize]
  }

  /** The scenario count shown, a missing list counting as empty. */
  function TotalScenarios(data: Option<Dataset>): (n: nat)
    ensures !HasSimulatedData(data) ==> n == 0
    ensures HasSimulatedData(data) ==> n == |data.value.simulatedSummary.value.simulatedData.value|
  {
    |SimulatedData(data)|
  }

  /** The panel's state: the loaded data and the AI summary, with every value the summary has taken. */
  class ReportPanel {
    var data: Option<Dataset>
    var aiSummary: Option<string>
    ghost var shown: seq<Option<string>>

    constructor (data: Option<Dataset>)
      ensures this.data == data && aiSummary == None && shown == [None]
    {
      this.data := data;
      aiSummary := None;
      shown := [None];
    }

    /** `handleGenerateReport`: nothing without data; otherwise the pending text, then the outcome. */
    method GenerateReport(reply: Reply)
      modifies this
      ensures data == old(data)
      ensures old(data).None? ==> aiSummary == old(aiSummary) && shown == old(shown)
      ensures old(data).Some? ==>
                aiSummary == FinalSummary(reply)
                && shown == old(shown) + [Some(GeneratingText), FinalSummary(reply)]
    {
      if data.None? {
        return;
      }
      aiSummary := Some(GeneratingText);
      shown := shown + [aiSummary];
      match reply {
        case Replied(report) =>
          aiSummary := report;
        case Failed =>
          aiSummary := Some(FailedText);
      }
      shown := shown + [aiSummary];
    }

    /** `handleExportPdf`: the calls made on a fresh document. */
    method ExportPdf(wrap: string -> seq<string>) returns (ops: seq<PdfOp>)
      ensures ops == ExportOps(data, aiSummary, wrap)
    {
      var data, aiSummary := this.data, this.aiSummary;
      if data.None? {
        return [];
      }
      var d := data.value;
      var y := PageTop;
      ops := [SetFontSize(14), SetFont(Bold), Text(TitleText, Margin, y)];
      y := y + 10;
      var body;
      y, body := WriteSections(d, aiSummary, wrap);
      ops := ops + body;
      if y > FooterLimit {
        ops := ops + [AddPage];
        y := PageTop;
      }
      ops := ops + [SetFontSize(9), SetFont(Italic), Text(FooterText, Margin, FooterY)];
      ops := ops + [Save(FileName)];
      assert ops == TitleOps + body + FooterOps(BodyLayout(d, aiSummary, wrap).y);
    }
  }
}
