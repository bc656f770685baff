/**
 * What the report generator (report_generator.py) puts in its reports: the word wrap of long
 * recommendations in the PDF summary, the recommendation lines of that summary, the action rows
 * of the summary sheet, the three sections of the recommendations sheet, and the column-width
 * rule of the spreadsheet. Fonts, colours, cell addresses, number formatting and the writing of
 * files are not modelled.
 */
module Reports {
  import opened Wrappers
  import opened Seqs
  import opened Text
  import opened Analysis

  // ---------------------------------------------------------------------------------------------
  // Word wrap of a long recommendation.

  /** A word joins the line being built only while the two together stay under 80 characters. */
  const LineLimit: nat := 80
  /** Only recommendations longer than 80 characters are wrapped. */
  const WrapAbove: nat := 80

  /** The wrap loop's variables: the lines flushed so far and the line being built. */
  datatype WrapState = WrapState(lines: seq<string>, current: string)

  /**
   * One word of the wrap loop. With `skipEmpty` the line is flushed only when it is non-empty,
   * as the flush after the loop already is.
   */
  function WrapStep(st: WrapState, word: string, skipEmpty: bool): WrapState {
    if |st.current + word| < LineLimit then WrapState(st.lines, st.current + word + " ")
    else if skipEmpty && st.current == "" then WrapState(st.lines, word + " ")
    else WrapState(st.lines + [Strip(st.current)], word + " ")
  }

  /** The wrap loop's variables after the given words. */
  function WrapRun(words: seq<string>, skipEmpty: bool): WrapState
    decreases |words|
  {
    if words == [] then WrapState([], "")
    else WrapStep(WrapRun(words[..|words| - 1], skipEmpty), words[|words| - 1], skipEmpty)
  }

  /** The flush after the loop: a non-empty line being built becomes the last line. */
  function Finish(st: WrapState): seq<string> {
    st.lines + (if st.current != "" then [Strip(st.current)] else [])
  }

  /** The lines of a recommendation as the wrap loop of `generate_pdf_report` produces them. */
  function WrappedAsWritten(rec: string): seq<string> {
    Finish(WrapRun(SplitOn(rec, ' '), false))
  }

  /** The lines of a recommendation when the loop, too, never flushes an empty line. */
  function Wrapped(rec: string): seq<string> {
    Finish(WrapRun(SplitOn(rec, ' '), true))
  }

  predicate PlainWord(w: string) {
    w != [] && NoSpace(w)
  }

  /** Words separated by single spaces, with no other whitespace anywhere. */
  predicate PlainText(rec: string) {
    forall i :: 0 <= i < |SplitOn(rec, ' ')| ==> PlainWord(SplitOn(rec, ' ')[i])
  }

  /** A non-empty line with no whitespace at either end. */
  predicate Bare(line: string) {
    line != [] && !IsSpace(line[0]) && !IsSpace(line[|line| - 1])
  }

  /** Shorter than 80 characters, or one single word. */
  predicate Fits(line: string) {
    |line| < LineLimit || NoSpace(line)
  }

  /** Every line is bare and fits. */
  predicate LinesOk(lines: seq<string>) {
    forall j :: 0 <= j < |lines| ==> Bare(lines[j]) && Fits(lines[j])
  }

  /** The line being built without its trailing space. */
  function Pending(st: WrapState): string {
    if st.current == [] then [] else st.current[..|st.current| - 1]
  }

  /**
   * The wrap loop's invariant over plain words: the line being built is a bare line that fits
   * followed by one space; every flushed line fits; and the flushed lines with the one being
   * built join back to the words.
   */
  predicate Building(st: WrapState, words: seq<string>) {
    var c := Pending(st);
    st.current == c + " " && Bare(c) && Fits(c) && LinesOk(st.lines)
    && JoinWith(st.lines + [c], ' ') == JoinWith(words, ' ')
  }

  lemma LinesOkSnoc(lines: seq<string>, line: string)
    requires LinesOk(lines) && Bare(line) && Fits(line)
    ensures LinesOk(lines + [line])
  {
  }

  lemma WrapFirst(w: string, skipEmpty: bool)
    requires PlainWord(w) && (skipEmpty || |w| < LineLimit)
    ensures Building(WrapRun([w], skipEmpty), [w])
  {
    assert [w][..0] == [];
    assert WrapRun([w], skipEmpty) == WrapStep(WrapState([], ""), w, skipEmpty);
    assert "" + w + " " == w + " ";
    var st := WrapRun([w], skipEmpty);
    assert st == WrapState([], w + " ");
    assert (w + " ")[..|w|] == w;
  }

  /** A word that joins the line being built. */
  lemma WrapExtend(st: WrapState, ws: seq<string>, w: string)
    requires ws != [] && Building(st, ws) && PlainWord(w) && |st.current + w| < LineLimit
    ensures Building(WrapState(st.lines, st.current + w + " "), ws + [w])
  {
    var c := Pending(st);
    var t := c + (" " + w);
    var next := WrapState(st.lines, st.current + w + " ");
    AppendAssoc(c, " ", w);
    AppendAssoc(c + " ", w, " ");
    assert next.current == t + " ";
    assert (t + " ")[..|t|] == t;
    assert Pending(next) == t;
    assert t[0] == c[0] && t[|t| - 1] == w[|w| - 1];
    assert |t| < LineLimit;
    JoinExtendLast(st.lines, c, " " + w, ' ');
    JoinSnoc(ws, w, ' ');
    AppendAssoc(JoinWith(ws, ' '), [' '], w);
  }

  /** A word that starts a new line, after the one being built is flushed. */
  lemma WrapFlush(st: WrapState, ws: seq<string>, w: string)
    requires ws != [] && Building(st, ws) && PlainWord(w)
    ensures Building(WrapState(st.lines + [Strip(st.current)], w + " "), ws + [w])
  {
    var c := Pending(st);
    StripPadded(c);
    LinesOkSnoc(st.lines, c);
    var next := WrapState(st.lines + [c], w + " ");
    assert (w + " ")[..|w|] == w;
    assert Pending(next) == w;
    JoinSnoc(st.lines + [c], w, ' ');
    JoinSnoc(ws, w, ' ');
  }

  lemma WrapNext(st: WrapState, ws: seq<string>, w: string, skipEmpty: bool)
    requires ws != [] && Building(st, ws) && PlainWord(w)
    ensures Building(WrapStep(st, w, skipEmpty), ws + [w])
  {
    if |st.current + w| < LineLimit {
      WrapExtend(st, ws, w);
    } else {
      assert st.current != "";
      WrapFlush(st, ws, w);
    }
  }

  lemma {:induction false} WrapRunBuilding(ws: seq<string>, skipEmpty: bool)
    requires ws != [] && forall i :: 0 <= i < |ws| ==> PlainWord(ws[i])
    requires skipEmpty || |ws[0]| < LineLimit
    ensures Building(WrapRun(ws, skipEmpty), ws)
    decreases |ws|
  {
    var front := ws[..|ws| - 1];
    if front == [] {
      assert ws == [ws[0]];
      WrapFirst(ws[0], skipEmpty);
    } else {
      assert front[0] == ws[0];
      WrapRunBuilding(front, skipEmpty);
      WrapNext(WrapRun(front, skipEmpty), front, ws[|ws| - 1], skipEmpty);
      assert front + [ws[|ws| - 1]] == ws;
    }
  }

  /** Finishing a loop state that keeps the invariant gives lines that fit and join back. */
  lemma FinishBuilding(st: WrapState, ws: seq<string>)
    requires Building(st, ws)
    ensures JoinWith(Finish(st), ' ') == JoinWith(ws, ' ') && LinesOk(Finish(st))
  {
    var c := Pending(st);
    StripPadded(c);
    assert Finish(st) == st.lines + [c];
    LinesOkSnoc(st.lines, c);
  }

  /**
   * For a recommendation of plain words, the wrapped lines joined by single spaces give back
   * the recommendation, no line is empty or padded, and a line reaches 80 characters only
   * when it is a single word.
   */
  lemma WrappedRoundTrip(rec: string)
    requires PlainText(rec)
    ensures JoinWith(Wrapped(rec), ' ') == rec
    ensures forall i :: 0 <= i < |Wrapped(rec)| ==> Bare(Wrapped(rec)[i]) && Fits(Wrapped(rec)[i])
  {
    var ws := SplitOn(rec, ' ');
    assert forall i :: 0 <= i < |ws| ==> PlainWord(ws[i]);
    WrapRunBuilding(ws, true);
    FinishBuilding(WrapRun(ws, true), ws);
    JoinSplitOn(rec, ' ');
  }

  /**
   * The two loops agree unless the first word is 80 characters or longer; then the loop as
   * written flushes the empty starting line first. After any word the line being built is
   * non-empty.
   */
  lemma {:induction false} WrapRunsCompared(ws: seq<string>)
    ensures ws == [] || |ws[0]| < LineLimit ==> WrapRun(ws, false) == WrapRun(ws, true)
    ensures ws != [] && |ws[0]| >= LineLimit ==>
      WrapRun(ws, false) == WrapState([""] + WrapRun(ws, true).lines, WrapRun(ws, true).current)
    ensures ws != [] ==> WrapRun(ws, true).current != ""
    decreases |ws|
  {
    if ws != [] {
      var front := ws[..|ws| - 1];
      WrapRunsCompared(front);
      if front == [] {
        assert ws == [ws[0]];
        assert [ws[0]][..0] == [];
        assert Strip("") == "";
        assert [] + [""] == [""] + [];
      } else {
        assert front[0] == ws[0];
        var a := WrapRun(front, false);
        var b := WrapRun(front, true);
        var w := ws[|ws| - 1];
        if |front[0]| >= LineLimit && |b.current + w| >= LineLimit {
          assert a.lines + [Strip(a.current)] == [""] + (b.lines + [Strip(b.current)]);
        }
      }
    }
  }

  /**
   * The wrap as written differs from the corrected one exactly when the recommendation's first
   * word has 80 characters or more: it then starts with an empty line.
   */
  lemma AsWrittenLeadingEmptyLine(rec: string)
    ensures |SplitOn(rec, ' ')[0]| < LineLimit ==> WrappedAsWritten(rec) == Wrapped(rec)
    ensures |SplitOn(rec, ' ')[0]| >= LineLimit ==>
      WrappedAsWritten(rec) == [""] + Wrapped(rec) && WrappedAsWritten(rec)[0] == ""
  {
    var ws := SplitOn(rec, ' ');
    WrapRunsCompared(ws);
    var b := WrapRun(ws, true);
    if |ws[0]| >= LineLimit {
      assert ([""] + b.lines) + [Strip(b.current)] == [""] + (b.lines + [Strip(b.current)]);
    }
  }

  /** The wrap loop of `generate_pdf_report`, as written. */
  method WrapRecommendation(rec: string) returns (lines: seq<string>)
    ensures lines == WrappedAsWritten(rec)
  {
    var words := SplitOn(rec, ' ');
    lines := [];
    var currentLine := "";
    for i := 0 to |words|
      invariant WrapState(lines, currentLine) == WrapRun(words[..i], false)
    {
      assert words[..i + 1][..i] == words[..i];
      var word := words[i];
      if |currentLine + word| < LineLimit {
        currentLine := currentLine + word + " ";
      } else {
        lines := lines + [Strip(currentLine)];
        currentLine := word + " ";
      }
    }
    assert words[..|words|] == words;
    if currentLine != "" {
      lines := lines + [Strip(currentLine)];
    }
  }

  // ---------------------------------------------------------------------------------------------
  // The recommendation lines of the PDF summary.

  const MaxPdfRecommendations: nat := 5

  /**
   * A recommendation's lines: wrapped by the loop as written when longer than 80 characters,
   * else the text itself.
   */
  function RecommendationLines(rec: string): seq<string> {
    if |rec| > WrapAbove then WrappedAsWritten(rec) else [rec]
  }

  function Bullets(lines: seq<string>): (r: seq<string>)
    ensures |r| == |lines|
    ensures forall i :: 0 <= i < |r| ==> r[i] == "• " + lines[i]
  {
    seq(|lines|, i requires 0 <= i < |lines| => "• " + lines[i])
  }

  /** The bullet lines of the given recommendations, in order. */
  function PdfLines(recs: seq<string>): seq<string>
    decreases |recs|
  {
    if recs == [] then []
    else PdfLines(recs[..|recs| - 1]) + Bullets(RecommendationLines(recs[|recs| - 1]))
  }

  /** The bullet lines under the PDF's recommendations heading: those of the first five. */
  function PdfRecommendations(recs: seq<string>): seq<string> {
    PdfLines(Take(recs, MaxPdfRecommendations))
  }

  /**
   * Each recommendation gives at least one line, a short one exactly itself. The lines of a
   * plain recommendation join back to it when its first word is under 80 characters; when the
   * first word is longer, a long recommendation's lines are an empty line followed by lines
   * that join back to it.
   */
  lemma RecommendationLinesSpec(rec: string)
    ensures |RecommendationLines(rec)| >= 1
    ensures |rec| <= WrapAbove ==> RecommendationLines(rec) == [rec]
    ensures PlainText(rec) && |SplitOn(rec, ' ')[0]| < LineLimit ==>
      JoinWith(RecommendationLines(rec), ' ') == rec
    ensures PlainText(rec) && |rec| > WrapAbove && |SplitOn(rec, ' ')[0]| >= LineLimit ==>
      RecommendationLines(rec)[0] == "" && JoinWith(RecommendationLines(rec)[1..], ' ') == rec
  {
    WrapRunsCompared(SplitOn(rec, ' '));
    AsWrittenLeadingEmptyLine(rec);
    if PlainText(rec) && |rec| > WrapAbove {
      WrappedRoundTrip(rec);
      if |SplitOn(rec, ' ')[0]| >= LineLimit {
        assert RecommendationLines(rec)[1..] == Wrapped(rec);
      }
    }
  }

  lemma {:induction false} PdfLinesShort(recs: seq<string>)
    requires forall i :: 0 <= i < |recs| ==> |recs[i]| <= WrapAbove
    ensures PdfLines(recs) == Bullets(recs)
    decreases |recs|
  {
    if recs != [] {
      var front := recs[..|recs| - 1];
      PdfLinesShort(front);
      RecommendationLinesSpec(recs[|recs| - 1]);
      assert Bullets(recs) == Bullets(front) + Bullets([recs[|recs| - 1]]);
    }
  }

  lemma {:induction false} PdfLinesCount(recs: seq<string>)
    ensures |PdfLines(recs)| >= |recs|
    decreases |recs|
  {
    if recs != [] {
      PdfLinesCount(recs[..|recs| - 1]);
      RecommendationLinesSpec(recs[|recs| - 1]);
    }
  }

  /** The number of lines the given recommendations take. */
  function LineCount(recs: seq<string>): nat
    decreases |recs|
  {
    if recs == [] then 0
    else LineCount(recs[..|recs| - 1]) + |RecommendationLines(recs[|recs| - 1])|
  }

  /** The output holds the bullets of the given lines as one block from position start. */
  predicate BlockAt(out: seq<string>, start: nat, lines: seq<string>) {
    start + |lines| <= |out| && out[start..start + |lines|] == Bullets(lines)
  }

  /** Every recommendation's lines form one block, after the lines of those before it. */
  predicate Blocks(recs: seq<string>, out: seq<string>) {
    forall k :: 0 <= k < |recs| ==> BlockAt(out, LineCount(recs[..k]), RecommendationLines(recs[k]))
  }

  /** A block stays in place when more lines are appended. */
  lemma BlockAtExtend(out: seq<string>, more: seq<string>, start: nat, lines: seq<string>)
    requires BlockAt(out, start, lines)
    ensures BlockAt(out + more, start, lines)
  {
    assert (out + more)[start..start + |lines|] == out[start..start + |lines|];
  }

  /** The lines appended last form a block after the ones before. */
  lemma BlockAtEnd(out: seq<string>, lines: seq<string>)
    ensures BlockAt(out + Bullets(lines), |out|, lines)
  {
    assert (out + Bullets(lines))[|out|..|out| + |lines|] == Bullets(lines);
  }

  /**
   * The lines of recommendation k are one contiguous block of bullets, starting after the
   * lines of the recommendations before it.
   */
  lemma {:induction false} PdfLinesBlocks(recs: seq<string>)
    ensures |PdfLines(recs)| == LineCount(recs)
    ensures Blocks(recs, PdfLines(recs))
    decreases |recs|
  {
    if recs != [] {
      var front := recs[..|recs| - 1];
      var lines := RecommendationLines(recs[|recs| - 1]);
      PdfLinesBlocks(front);
      assert PdfLines(recs) == PdfLines(front) + Bullets(lines);
      forall k | 0 <= k < |recs|
        ensures BlockAt(PdfLines(recs), LineCount(recs[..k]), RecommendationLines(recs[k]))
      {
        BlockStep(recs, k);
      }
    }
  }

  /** The step of PdfLinesBlocks for one recommendation k. */
  lemma BlockStep(recs: seq<string>, k: nat)
    requires k < |recs|
    requires Blocks(recs[..|recs| - 1], PdfLines(recs[..|recs| - 1]))
    requires |PdfLines(recs[..|recs| - 1])| == LineCount(recs[..|recs| - 1])
    ensures BlockAt(PdfLines(recs), LineCount(recs[..k]), RecommendationLines(recs[k]))
  {
    var front := recs[..|recs| - 1];
    var lines := RecommendationLines(recs[|recs| - 1]);
    assert PdfLines(recs) == PdfLines(front) + Bullets(lines);
    if k < |front| {
      assert recs[..k] == front[..k];
      assert recs[k] == front[k];
      BlockAtExtend(PdfLines(front), Bullets(lines), LineCount(front[..k]), RecommendationLines(front[k]));
    } else {
      assert recs[..k] == front;
      BlockAtEnd(PdfLines(front), lines);
    }
  }

  /**
   * Only the first five recommendations are shown. Recommendation k of them is shown as the
   * bullets of its own lines, in one block after those of the recommendations before it, so
   * every line is a bullet; when none of them exceeds 80 characters each is one bullet line,
   * unchanged.
   */
  lemma PdfRecommendationsSpec(recs: seq<string>)
    ensures |PdfRecommendations(recs)| >= Min(MaxPdfRecommendations, |recs|)
    ensures PdfRecommendations(recs) == PdfRecommendations(recs[..Min(MaxPdfRecommendations, |recs|)])
    ensures |PdfRecommendations(recs)| == LineCount(recs[..Min(MaxPdfRecommendations, |recs|)])
    ensures Blocks(recs[..Min(MaxPdfRecommendations, |recs|)], PdfRecommendations(recs))
    ensures (forall i :: 0 <= i < Min(MaxPdfRecommendations, |recs|) ==> |recs[i]| <= WrapAbove) ==>
      PdfRecommendations(recs) == Bullets(recs[..Min(MaxPdfRecommendations, |recs|)])
  {
    var first := Take(recs, MaxPdfRecommendations);
    PdfLinesCount(first);
    PdfLinesBlocks(first);
    assert Take(first, MaxPdfRecommendations) == first;
    if forall i :: 0 <= i < Min(MaxPdfRecommendations, |recs|) ==> |recs[i]| <= WrapAbove {
      PdfLinesShort(first);
    }
  }

  // ---------------------------------------------------------------------------------------------
  // The actions block of the summary sheet.

  datatype ActionRow = ActionRow(caption: string, count: int)

  /** The label of an action; an action without a label is shown by its own name. */
  function ActionLabel(a: Action): string {
    match a
    case Pause => "Отключить ключей"
    case IncreaseBid => "Повысить ставки"
    case DecreaseBid => "Понизить ставки"
    case Monitor => "Мониторить"
    case Keep => "keep"
  }

  predicate Needed(c: ActionCount) {
    c.count > 0
  }

  function RowOf(c: ActionCount): ActionRow {
    ActionRow(ActionLabel(c.action), c.count)
  }

  /**
   * The rows of the actions block: one per action with a positive count, in the order of the
   * counts, and every action with a positive count has its row.
   */
  method ActionRows(actions: seq<ActionCount>) returns (rows: seq<ActionRow>)
    ensures |rows| == |Filter(actions, Needed)|
    ensures forall i :: 0 <= i < |rows| ==> rows[i] == RowOf(Filter(actions, Needed)[i])
    ensures forall i :: 0 <= i < |rows| ==> rows[i].count > 0
    ensures forall c :: c in actions && c.count > 0 ==> RowOf(c) in rows
  {
    rows := [];
    for i := 0 to |actions|
      invariant |rows| == |Filter(actions[..i], Needed)|
      invariant forall j :: 0 <= j < |rows| ==> rows[j] == RowOf(Filter(actions[..i], Needed)[j])
    {
      assert actions[..i + 1] == actions[..i] + [actions[i]];
      FilterSnoc(actions[..i], actions[i], Needed);
      if actions[i].count > 0 {
        rows := rows + [RowOf(actions[i])];
      }
    }
    assert actions[..|actions|] == actions;
    forall c | c in actions && c.count > 0
      ensures RowOf(c) in rows
    {
      var j :| 0 <= j < |actions| && actions[j] == c;
      assert Needed(actions[j]);
      var k :| 0 <= k < |Filter(actions, Needed)| && Filter(actions, Needed)[k] == c;
      assert rows[k] == RowOf(c);
    }
  }

  // ---------------------------------------------------------------------------------------------
  // The recommendations sheet.

  datatype Section = CriticalSection | PerformersSection | BidSection

  datatype Direction = Up | Down

  datatype SheetRow =
    | Title
    | Blank
    | Heading(section: Section)
    | CriticalRow(keyword: string, advice: Advice, priority: int)
    | PerformerRow(keyword: string, advice: Advice, ctr: real, cr: real)
    | BidRow(keyword: string, direction: Direction, percent: real, advice: Advice)

  const MaxCriticalRows: nat := 10
  const MaxPerformerRows: nat := 10
  const MaxBidRows: nat := 15

  predicate AdjustsBid(c: Classified) {
    c.bidAdjustment != 0.0
  }

  function Abs(x: real): real {
    if x < 0.0 then -x else x
  }

  function CriticalRowOf(c: Classified): SheetRow {
    CriticalRow(c.metric.keyword, c.advice, c.priority)
  }

  function PerformerRowOf(c: Classified): SheetRow {
    PerformerRow(c.metric.keyword, c.advice, c.metric.ctr, c.metric.cr)
  }

  /** The arrow points up for a raise and down otherwise; the percentage is shown unsigned. */
  function BidRowOf(c: Classified): SheetRow {
    BidRow(c.metric.keyword, if c.bidAdjustment > 0.0 then Up else Down, Abs(c.bidAdjustment), c.advice)
  }

  function Rows(entries: seq<Classified>, rowOf: Classified -> SheetRow): (r: seq<SheetRow>)
    ensures |r| == |entries|
    ensures forall i :: 0 <= i < |r| ==> r[i] == rowOf(entries[i])
  {
    seq(|entries|, i requires 0 <= i < |entries| => rowOf(entries[i]))
  }

  /** A section: nothing when no entry qualifies, else its heading and the first `cap` entries. */
  function Part(qualifying: seq<Classified>, cap: nat, section: Section, rowOf: Classified -> SheetRow,
                blankAfter: bool): seq<SheetRow>
  {
    if qualifying == [] then []
    else if blankAfter then [Heading(section)] + Rows(Take(qualifying, cap), rowOf) + [Blank]
    else [Heading(section)] + Rows(Take(qualifying, cap), rowOf)
  }

  function CriticalPart(analysis: seq<Classified>): seq<SheetRow> {
    Part(Filter(analysis, IsCritical), MaxCriticalRows, CriticalSection, CriticalRowOf, true)
  }

  function PerformersPart(analysis: seq<Classified>): seq<SheetRow> {
    Part(Filter(analysis, IsHighPerformer), MaxPerformerRows, PerformersSection, PerformerRowOf, true)
  }

  function BidPart(analysis: seq<Classified>): seq<SheetRow> {
    Part(Filter(analysis, AdjustsBid), MaxBidRows, BidSection, BidRowOf, false)
  }

  /** The rows of the recommendations sheet, from the title down. */
  function RecommendationsSheet(analysis: seq<Classified>): seq<SheetRow> {
    [Title, Blank] + CriticalPart(analysis) + PerformersPart(analysis) + BidPart(analysis)
  }

  /** The loop of one section: one row per entry, in order. */
  method SectionRows(entries: seq<Classified>, rowOf: Classified -> SheetRow) returns (rows: seq<SheetRow>)
    ensures rows == Rows(entries, rowOf)
  {
    rows := [];
    for i := 0 to |entries|
      invariant rows == Rows(entries[..i], rowOf)
    {
      rows := rows + [rowOf(entries[i])];
    }
    assert entries[..|entries|] == entries;
  }

  /** One section of `_create_recommendations_sheet`. */
  method CreatePart(qualifying: seq<Classified>, cap: nat, section: Section, rowOf: Classified -> SheetRow,
                    blankAfter: bool)
    returns (part: seq<SheetRow>)
    ensures part == Part(qualifying, cap, section, rowOf, blankAfter)
  {
    part := [];
    if qualifying != [] {
      var listed := SectionRows(Take(qualifying, cap), rowOf);
      part := [Heading(section)] + listed;
      if blankAfter {
        part := part + [Blank];
      }
    }
  }

  /** `_create_recommendations_sheet`: the title, then the three sections in turn. */
  method CreateRecommendationsSheet(analysis: seq<Classified>) returns (rows: seq<SheetRow>)
    ensures rows == RecommendationsSheet(analysis)
  {
    rows := [Title, Blank];
    var part := CreatePart(Filter(analysis, IsCritical), MaxCriticalRows, CriticalSection, CriticalRowOf, true);
    rows := rows + part;
    part := CreatePart(Filter(analysis, IsHighPerformer), MaxPerformerRows, PerformersSection, PerformerRowOf, true);
    rows := rows + part;
    part := CreatePart(Filter(analysis, AdjustsBid), MaxBidRows, BidSection, BidRowOf, false);
    rows := rows + part;
  }

  /** A filter keeps nothing exactly when no element passes it. */
  lemma FilterEmpty<T>(xs: seq<T>, p: T -> bool)
    ensures Filter(xs, p) == [] <==> forall i :: 0 <= i < |xs| ==> !p(xs[i])
  {
    var r := Filter(xs, p);
    if r != [] {
      assert r[0] in xs && p(r[0]);
    }
  }

  /**
   * A section is empty exactly when nothing qualifies; otherwise it is its heading, one row for
   * each of the first `cap` qualifying entries in order, and the blank row when asked for.
   */
  lemma PartShape(qualifying: seq<Classified>, cap: nat, section: Section, rowOf: Classified -> SheetRow,
                  blankAfter: bool)
    ensures var part := Part(qualifying, cap, section, rowOf, blankAfter);
      (part == [] <==> qualifying == [])
      && (part != [] ==>
            |part| == Min(cap, |qualifying|) + 1 + (if blankAfter then 1 else 0)
            && part[0] == Heading(section)
            && (blankAfter ==> part[|part| - 1] == Blank)
            && forall i :: 0 <= i < Min(cap, |qualifying|) ==> part[i + 1] == rowOf(qualifying[i]))
  {
    if qualifying != [] {
      var listed := Take(qualifying, cap);
      var rows := Rows(listed, rowOf);
      var head := [Heading(section)] + rows;
      assert |head| == Min(cap, |qualifying|) + 1;
      assert forall i :: 0 <= i < |rows| ==> head[i + 1] == rows[i];
      if blankAfter {
        var part := head + [Blank];
        assert forall i :: 0 <= i < |head| ==> part[i] == head[i];
      }
    }
  }

  /**
   * The critical section is there exactly when some entry has priority at least 90; it lists,
   * in input order, the first ten such entries, and all of them when there are at most ten.
   */
  lemma CriticalPartSpec(analysis: seq<Classified>)
    ensures var part := CriticalPart(analysis);
      var critical := Filter(analysis, IsCritical);
      (part == [] <==> forall i :: 0 <= i < |analysis| ==> analysis[i].priority < 90)
      && (part != [] ==>
            |part| == Min(MaxCriticalRows, |critical|) + 2
            && part[0] == Heading(CriticalSection) && part[|part| - 1] == Blank
            && (forall i :: 0 <= i < Min(MaxCriticalRows, |critical|) ==>
                  part[i + 1] == CriticalRowOf(critical[i]) && critical[i].priority >= 90 && critical[i] in analysis))
      && (|critical| <= MaxCriticalRows ==>
            forall c :: c in analysis && c.priority >= 90 ==> CriticalRowOf(c) in part)
  {
    var critical := Filter(analysis, IsCritical);
    var part := CriticalPart(analysis);
    FilterEmpty(analysis, IsCritical);
    PartShape(critical, MaxCriticalRows, CriticalSection, CriticalRowOf, true);
    if |critical| <= MaxCriticalRows {
      forall c | c in analysis && c.priority >= 90
        ensures CriticalRowOf(c) in part
      {
        var j :| 0 <= j < |analysis| && analysis[j] == c;
        assert IsCritical(analysis[j]);
        var k :| 0 <= k < |critical| && critical[k] == c;
        assert part[k + 1] == CriticalRowOf(c);
      }
    }
  }

  /**
   * The high-performer section lists, in input order, the first ten entries tagged as high
   * performers, with their CTR and CR; it is there exactly when one is tagged.
   */
  lemma PerformersPartSpec(analysis: seq<Classified>)
    ensures var part := PerformersPart(analysis);
      var tagged := Filter(analysis, IsHighPerformer);
      (part == [] <==> forall i :: 0 <= i < |analysis| ==> HighPerformance !in analysis[i].issues)
      && (part != [] ==>
            |part| == Min(MaxPerformerRows, |tagged|) + 2
            && part[0] == Heading(PerformersSection) && part[|part| - 1] == Blank
            && (forall i :: 0 <= i < Min(MaxPerformerRows, |tagged|) ==>
                  part[i + 1] == PerformerRow(tagged[i].metric.keyword, tagged[i].advice,
                                              tagged[i].metric.ctr, tagged[i].metric.cr)
                  && HighPerformance in tagged[i].issues && tagged[i] in analysis))
  {
    FilterEmpty(analysis, IsHighPerformer);
    PartShape(Filter(analysis, IsHighPerformer), MaxPerformerRows, PerformersSection, PerformerRowOf, true);
  }

  /**
   * The bid section lists at most fifteen entries whose bid adjustment is non-zero, in input
   * order; each row's arrow points up exactly when the adjustment is positive, and it shows
   * the adjustment's magnitude, which is positive.
   */
  lemma BidPartSpec(analysis: seq<Classified>)
    ensures var part := BidPart(analysis);
      var adjusted := Filter(analysis, AdjustsBid);
      (part == [] <==> forall i :: 0 <= i < |analysis| ==> analysis[i].bidAdjustment == 0.0)
      && |part| <= MaxBidRows + 1
      && (part != [] ==>
            |part| == Min(MaxBidRows, |adjusted|) + 1 && part[0] == Heading(BidSection)
            && (forall i :: 0 <= i < Min(MaxBidRows, |adjusted|) ==>
                  part[i + 1].BidRow? && part[i + 1].keyword == adjusted[i].metric.keyword
                  && adjusted[i] in analysis
                  && (part[i + 1].direction == Up <==> adjusted[i].bidAdjustment > 0.0)
                  && part[i + 1].percent == Abs(adjusted[i].bidAdjustment) && part[i + 1].percent > 0.0))
  {
    var adjusted := Filter(analysis, AdjustsBid);
    FilterEmpty(analysis, AdjustsBid);
    PartShape(adjusted, MaxBidRows, BidSection, BidRowOf, false);
    forall i | 0 <= i < Min(MaxBidRows, |adjusted|)
      ensures AdjustsBid(adjusted[i])
    {
    }
  }

  // ---------------------------------------------------------------------------------------------
  // Column widths.

  datatype SheetKind = SummaryTab | KeywordsTab | RecommendationsTab

  /** The widest a column may be made: 50 on the summary and keyword sheets, 60 on the other. */
  function WidthCap(sheet: SheetKind): nat {
    match sheet
    case SummaryTab => 50
    case KeywordsTab => 50
    case RecommendationsTab => 60
  }

  /** The length of the longest shown value of a column, 0 when no value is shown. */
  function Longest(cells: seq<Option<string>>): (m: nat)
    ensures forall i :: 0 <= i < |cells| && cells[i].Some? ==> |cells[i].value| <= m
    ensures m == 0 || exists i :: 0 <= i < |cells| && cells[i].Some? && m == |cells[i].value|
    decreases |cells|
  {
    if cells == [] then 0
    else
      var m := Longest(cells[..|cells| - 1]);
      var last := cells[|cells| - 1];
      assert forall i :: 0 <= i < |cells| - 1 ==> cells[i] == cells[..|cells| - 1][i];
      if last.Some? && |last.value| > m then |last.value| else m
  }

  /**
   * A column's width: two more than its longest shown value, at most the sheet's cap. A cell
   * is None when its value is empty (None, zero or the empty string), and is then not measured.
   * The width is the cap only when some shown value needs it.
   */
  method ColumnWidth(sheet: SheetKind, cells: seq<Option<string>>) returns (width: nat)
    ensures width == Min(Longest(cells) + 2, WidthCap(sheet))
    ensures 2 <= width <= WidthCap(sheet)
    ensures forall i :: 0 <= i < |cells| && cells[i].Some? ==>
      |cells[i].value| + 2 <= width || width == WidthCap(sheet)
    ensures width == WidthCap(sheet) ==>
      exists i :: 0 <= i < |cells| && cells[i].Some? && |cells[i].value| + 2 >= WidthCap(sheet)
    ensures width == 2
      || exists i :: 0 <= i < |cells| && cells[i].Some? && width == Min(|cells[i].value| + 2, WidthCap(sheet))
  {
    var maxLength: nat := 0;
    for i := 0 to |cells|
      invariant maxLength == Longest(cells[..i])
    {
      assert cells[..i + 1][..i] == cells[..i];
      if cells[i].Some? && |cells[i].value| > maxLength {
        maxLength := |cells[i].value|;
      }
    }
    assert cells[..|cells|] == cells;
    width := if maxLength + 2 <= WidthCap(sheet) then maxLength + 2 else WidthCap(sheet);
  }
}
