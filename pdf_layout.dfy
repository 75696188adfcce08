/** The page layout of the report PDF: the greedy word wrapper
    `wrapPdfLine` and the page cursor of `buildReportPdf`, which turns the
    report text into a list of draw commands (page, y, text, title or not).
    Fonts, glyph widths and the PDF bytes themselves are not modelled. */
module ReportLayout {
  import opened Text

  /** Page geometry of `buildReportPdf`, in PDF points. */
  const PageHeight := 842
  const Margin := 48
  const LineHeight := 16
  /** The first y of every page: the page height less the margin. */
  const Top := PageHeight - Margin
  const TitleMaxChars := 80
  const BodyMaxChars := 95

  // ----------------------------------------------------------------------
  // wrapPdfLine

  /** The two loop variables of `wrapPdfLine`: the finished lines and the
      line being filled. */
  datatype WrapState = WrapState(lines: seq<string>, current: string)

  /** One iteration of the loop over the words. */
  function WrapStep(s: WrapState, word: string, maxChars: nat): WrapState
  {
    var next := if s.current != "" then s.current + " " + word else word;
    if |next| > maxChars && s.current != "" then WrapState(s.lines + [s.current], word)
    else WrapState(s.lines, next)
  }

  /** The loop state after the given words. */
  function WrapWords(words: seq<string>, maxChars: nat): WrapState
  {
    if words == [] then WrapState([], "")
    else WrapStep(WrapWords(words[..|words| - 1], maxChars), words[|words| - 1], maxChars)
  }

  /** What `wrapPdfLine(text, maxChars)` returns. */
  function WrapLine(text: string, maxChars: nat): seq<string>
  {
    var words := Words(text);
    if words == [] then [""]
    else
      var s := WrapWords(words, maxChars);
      if s.current != "" then s.lines + [s.current] else s.lines
  }

  /** `lines` is a wrapping of `words`: joined by single spaces they read
      the same, no line is empty, and a line longer than `maxChars` is one
      of the words on its own. */
  predicate WrapsWords(lines: seq<string>, words: seq<string>, maxChars: nat)
  {
    && Join(lines, " ") == Join(words, " ")
    && forall k :: 0 <= k < |lines| ==> lines[k] != "" && (|lines[k]| <= maxChars || lines[k] in words)
  }

  lemma JoinExtendLast(xs: seq<string>, a: string, b: string, sep: string)
    ensures Join(xs + [a + sep + b], sep) == Join(xs + [a], sep) + sep + b
  {
    if xs != [] {
      JoinAppend(xs, a + sep + b, sep);
      JoinAppend(xs, a, sep);
    }
  }

  /** Joining the loop's lines and current line gives back the words. */
  lemma {:induction false} WrapWordsJoin(words: seq<string>, maxChars: nat)
    requires words != []
    requires forall k :: 0 <= k < |words| ==> words[k] != ""
    ensures var s := WrapWords(words, maxChars);
      s.current != "" && Join(s.lines + [s.current], " ") == Join(words, " ")
  {
    var init, w := words[..|words| - 1], words[|words| - 1];
    assert words == init + [w];
    if init != [] {
      WrapWordsJoin(init, maxChars);
      var s := WrapWords(init, maxChars);
      JoinAppend(init, w, " ");
      if |s.current + " " + w| > maxChars {
        JoinAppend(s.lines + [s.current], w, " ");
      } else {
        JoinExtendLast(s.lines, s.current, w, " ");
      }
    }
  }

  /** No line of the loop is empty, and a line over the limit is a single word. */
  lemma {:induction false} WrapWordsLines(words: seq<string>, maxChars: nat)
    requires forall k :: 0 <= k < |words| ==> words[k] != ""
    ensures var s := WrapWords(words, maxChars);
      && (words != [] ==> s.current != "" && (|s.current| <= maxChars || s.current in words))
      && forall k :: 0 <= k < |s.lines| ==>
           s.lines[k] != "" && (|s.lines[k]| <= maxChars || s.lines[k] in words)
  {
    if words != [] {
      var init, w := words[..|words| - 1], words[|words| - 1];
      assert words == init + [w];
      WrapWordsLines(init, maxChars);
      var s := WrapWords(init, maxChars);
      var r := WrapWords(words, maxChars);
      forall k | 0 <= k < |r.lines|
        ensures r.lines[k] != "" && (|r.lines[k]| <= maxChars || r.lines[k] in words)
      {
        if k < |s.lines| {
          assert r.lines[k] == s.lines[k];
        }
      }
    }
  }

  lemma WrapWordsWraps(words: seq<string>, maxChars: nat)
    requires words != []
    requires forall k :: 0 <= k < |words| ==> words[k] != ""
    ensures var s := WrapWords(words, maxChars);
      s.current != "" && WrapsWords(s.lines + [s.current], words, maxChars)
  {
    WrapWordsJoin(words, maxChars);
    WrapWordsLines(words, maxChars);
    var s := WrapWords(words, maxChars);
    var ls := s.lines + [s.current];
    assert forall k :: 0 <= k < |s.lines| ==> ls[k] == s.lines[k];
  }

  /** `wrapPdfLine` returns `[""]` for a text without words and otherwise a
      wrapping of its words. */
  lemma WrapLineSpec(text: string, maxChars: nat)
    ensures Words(text) == [] ==> WrapLine(text, maxChars) == [""]
    ensures Words(text) != [] ==> WrapsWords(WrapLine(text, maxChars), Words(text), maxChars)
  {
    if Words(text) != [] {
      WrapWordsWraps(Words(text), maxChars);
    }
  }

  /** A non-blank line wraps to at least one line, and a blank one to `[""]`. */
  lemma WrapLineNonEmpty(text: string, maxChars: nat)
    ensures WrapLine(text, maxChars) != []
    ensures IsBlank(text) <==> WrapLine(text, maxChars) == [""]
  {
    WordsEmptyIffBlank(text);
    WrapLineSpec(text, maxChars);
  }

  /** `wrapPdfLine`: splits into words, then fills each line greedily. */
  method WrapPdfLine(text: string, maxChars: nat) returns (lines: seq<string>)
    ensures lines == WrapLine(text, maxChars)
  {
    var words := Words(text);
    if |words| == 0 {
      return [""];
    }
    lines := [];
    var current := "";
    for i := 0 to |words|
      invariant WrapState(lines, current) == WrapWords(words[..i], maxChars)
    {
      assert words[..i + 1][..i] == words[..i];
      var word := words[i];
      var next := if current != "" then current + " " + word else word;
      if |next| > maxChars && current != "" {
        lines := lines + [current];
        current := word;
      } else {
        current := next;
      }
    }
    assert words[..|words|] == words;
    if current != "" {
      lines := lines + [current];
    }
  }

  // ----------------------------------------------------------------------
  // buildReportPdf

  /** One `page.drawText` call: the page index, the baseline, the text and
      whether it is drawn in the bold title font. */
  datatype Draw = Draw(page: nat, y: int, text: string, isTitle: bool)

  /** The closure state of `buildReportPdf`: the current page, the y cursor
      and the draws made so far. */
  datatype Cursor = Cursor(page: nat, y: int, draws: seq<Draw>)

  const Start := Cursor(0, Top, [])

  /** `addLine`: a new page when the cursor has reached the bottom margin,
      then a draw, then the cursor moves down by 22 for a title and 16
      otherwise. */
  function AddLine(c: Cursor, line: string, isTitle: bool): Cursor
  {
    var page := if c.y <= Margin then c.page + 1 else c.page;
    var y := if c.y <= Margin then Top else c.y;
    Cursor(page, y - (if isTitle then LineHeight + 6 else LineHeight),
           c.draws + [Draw(page, y, line, isTitle)])
  }

  /** The wrapped segments of one raw line, in order; only the first segment
      of a title line is drawn as a title. */
  function AddSegments(c: Cursor, segments: seq<string>, titleLine: bool): Cursor
  {
    if segments == [] then c
    else
      var n := |segments| - 1;
      AddLine(AddSegments(c, segments[..n], titleLine), segments[n], titleLine && n == 0)
  }

  /** The step for raw line number `index`: a blank line only moves the
      cursor down by half a line height; any other line is wrapped at 80
      characters if it is the first line and at 95 otherwise. */
  function LayoutLine(c: Cursor, line: string, index: nat): Cursor
  {
    if IsBlank(line) then c.(y := c.y - LineHeight / 2)
    else AddSegments(c, WrapLine(line, if index == 0 then TitleMaxChars else BodyMaxChars), index == 0)
  }

  /** The cursor after the given raw lines. */
  function Layout(raw: seq<string>): Cursor
  {
    if raw == [] then Start
    else LayoutLine(Layout(raw[..|raw| - 1]), raw[|raw| - 1], |raw| - 1)
  }

  /** The draws `buildReportPdf` makes for a report text. */
  function ReportDraws(reportText: string): seq<Draw>
  {
    Layout(Split(reportText, '\n')).draws
  }

  /** `buildReportPdf` up to the drawing calls: the page cursor over the
      lines of the report text. */
  method BuildReportPdf(reportText: string) returns (draws: seq<Draw>)
    ensures draws == ReportDraws(reportText)
  {
    var rawLines := Split(reportText, '\n');
    var page: nat, y: int := 0, Top;
    draws := [];
    for i := 0 to |rawLines|
      invariant Cursor(page, y, draws) == Layout(rawLines[..i])
    {
      assert rawLines[..i + 1][..i] == rawLines[..i];
      var line := rawLines[i];
      TrimSpec(line);
      if Trim(line) == "" {
        y := y - LineHeight / 2;
      } else {
        var isTitle := i == 0;
        var wrapped := WrapPdfLine(line, if isTitle then TitleMaxChars else BodyMaxChars);
        page, y, draws := DrawWrapped(page, y, draws, wrapped, isTitle);
      }
    }
    assert rawLines[..|rawLines|] == rawLines;
  }

  /** The `forEach` over the wrapped segments of one raw line, with the
      `addLine` closure inlined. */
  method DrawWrapped(page0: nat, y0: int, draws0: seq<Draw>, wrapped: seq<string>, isTitle: bool)
    returns (page: nat, y: int, draws: seq<Draw>)
    ensures Cursor(page, y, draws) == AddSegments(Cursor(page0, y0, draws0), wrapped, isTitle)
  {
    page, y, draws := page0, y0, draws0;
    for j := 0 to |wrapped|
      invariant Cursor(page, y, draws) == AddSegments(Cursor(page0, y0, draws0), wrapped[..j], isTitle)
    {
      assert wrapped[..j + 1][..j] == wrapped[..j];
      var title := isTitle && j == 0;
      if y <= Margin {
        page := page + 1;
        y := Top;
      }
      draws := draws + [Draw(page, y, wrapped[j], title)];
      y := y - (if title then LineHeight + 6 else LineHeight);
    }
    assert wrapped[..|wrapped|] == wrapped;
  }

  // ----------------------------------------------------------------------
  // Layout properties

  /** Moving from draw `a` to the next draw `b` either stays on the page or
      opens the next page at its top. */
  predicate PageStep(a: Draw, b: Draw)
  {
    b.page == a.page || (b.page == a.page + 1 && b.y == Top)
  }

  /** Every draw lies between the bottom margin (exclusive) and the top of
      the page, the last draw is on the current page, and pages advance one
      at a time, each new page starting at the top. */
  predicate Sound(c: Cursor)
  {
    && c.y <= Top
    && (forall k :: 0 <= k < |c.draws| ==> Margin < c.draws[k].y <= Top)
    && (c.draws != [] ==> c.draws[|c.draws| - 1].page == c.page)
    && (forall k :: 0 <= k < |c.draws| - 1 ==> PageStep(c.draws[k], c.draws[k + 1]))
  }

  /** One draw keeps the layout sound. It appends exactly one draw of the
      line, and that draw opens a new page, at its top, exactly when the
      cursor had reached the bottom margin; the cursor then moves down by
      22 points after a title and 16 otherwise. */
  lemma AddLineSound(c: Cursor, line: string, isTitle: bool)
    requires Sound(c)
    ensures Sound(AddLine(c, line, isTitle))
    ensures var r := AddLine(c, line, isTitle);
      && |r.draws| == |c.draws| + 1 && r.draws[..|c.draws|] == c.draws
      && r.draws[|c.draws|].text == line && r.draws[|c.draws|].isTitle == isTitle
      && r.draws[|c.draws|].page == (if c.y <= Margin then c.page + 1 else c.page)
      && r.draws[|c.draws|].y == (if c.y <= Margin then Top else c.y)
      && r.page == r.draws[|c.draws|].page
      && r.y == r.draws[|c.draws|].y - (if isTitle then 22 else 16)
  {
    var r := AddLine(c, line, isTitle);
    assert forall k :: 0 <= k < |c.draws| ==> r.draws[k] == c.draws[k];
  }

  lemma {:induction false} AddSegmentsSound(c: Cursor, segments: seq<string>, titleLine: bool)
    requires Sound(c)
    ensures Sound(AddSegments(c, segments, titleLine))
    decreases |segments|
  {
    if segments != [] {
      var n := |segments| - 1;
      AddSegmentsSound(c, segments[..n], titleLine);
      AddLineSound(AddSegments(c, segments[..n], titleLine), segments[n], titleLine && n == 0);
    }
  }

  /** Every draw of every layout has `Margin < y <= Top`; a page break
      happens only at a draw, which then sits at the top of the new page. */
  lemma {:induction false} LayoutSound(raw: seq<string>)
    ensures Sound(Layout(raw))
  {
    if raw != [] {
      var n := |raw| - 1;
      LayoutSound(raw[..n]);
      if !IsBlank(raw[n]) {
        AddSegmentsSound(Layout(raw[..n]), WrapLine(raw[n], if n == 0 then TitleMaxChars else BodyMaxChars), n == 0);
      }
    }
  }

  /** The texts of a list of draws. */
  function Texts(draws: seq<Draw>): (r: seq<string>)
    ensures |r| == |draws|
    ensures forall k :: 0 <= k < |draws| ==> r[k] == draws[k].text
  {
    if draws == [] then [] else Texts(draws[..|draws| - 1]) + [draws[|draws| - 1].text]
  }

  /** The reference for what gets drawn: the wrapped segments of every
      non-blank raw line, in order; blank lines contribute nothing. */
  function DrawnTexts(raw: seq<string>): seq<string>
  {
    if raw == [] then []
    else
      var n := |raw| - 1;
      DrawnTexts(raw[..n])
        + (if IsBlank(raw[n]) then [] else WrapLine(raw[n], if n == 0 then TitleMaxChars else BodyMaxChars))
  }

  lemma {:induction false} AddSegmentsTexts(c: Cursor, segments: seq<string>, titleLine: bool)
    ensures Texts(AddSegments(c, segments, titleLine).draws) == Texts(c.draws) + segments
    decreases |segments|
  {
    if segments != [] {
      var n := |segments| - 1;
      AddSegmentsTexts(c, segments[..n], titleLine);
      assert segments == segments[..n] + [segments[n]];
      var d := AddSegments(c, segments[..n], titleLine).draws;
      var r := AddSegments(c, segments, titleLine).draws;
      assert r[..|r| - 1] == d;
    }
  }

  /** The layout draws exactly the wrapped segments of the non-blank lines,
      in order. */
  lemma {:induction false} LayoutTexts(raw: seq<string>)
    ensures Texts(Layout(raw).draws) == DrawnTexts(raw)
  {
    if raw != [] {
      var n := |raw| - 1;
      var prev := Layout(raw[..n]);
      LayoutTexts(raw[..n]);
      assert Layout(raw) == LayoutLine(prev, raw[n], n);
      if IsBlank(raw[n]) {
        assert Layout(raw).draws == prev.draws;
        assert DrawnTexts(raw) == DrawnTexts(raw[..n]) + [];
      } else {
        var segments := WrapLine(raw[n], if n == 0 then TitleMaxChars else BodyMaxChars);
        assert Layout(raw) == AddSegments(prev, segments, n == 0);
        assert DrawnTexts(raw) == DrawnTexts(raw[..n]) + segments;
        AddSegmentsTexts(prev, segments, n == 0);
      }
    }
  }

  /** The draws `AddSegments` appends are titles exactly at the first
      segment of a title line. */
  lemma {:induction false} AddSegmentsTitles(c: Cursor, segments: seq<string>, titleLine: bool)
    ensures |AddSegments(c, segments, titleLine).draws| == |c.draws| + |segments|
    ensures AddSegments(c, segments, titleLine).draws[..|c.draws|] == c.draws
    ensures forall k :: |c.draws| <= k < |AddSegments(c, segments, titleLine).draws| ==>
              (AddSegments(c, segments, titleLine).draws[k].isTitle <==> titleLine && k == |c.draws|)
    decreases |segments|
  {
    if segments != [] {
      var n := |segments| - 1;
      AddSegmentsTitles(c, segments[..n], titleLine);
    }
  }

  /** Only one draw can be a title: the first one, and only when the first
      raw line is not blank. */
  lemma {:induction false} LayoutTitles(raw: seq<string>)
    ensures forall k :: 0 <= k < |Layout(raw).draws| ==>
              (Layout(raw).draws[k].isTitle <==> k == 0 && !IsBlank(raw[0]))
    ensures raw != [] && !IsBlank(raw[0]) ==> Layout(raw).draws != []
  {
    if raw != [] {
      var n := |raw| - 1;
      LayoutTitles(raw[..n]);
      var c := Layout(raw[..n]);
      if !IsBlank(raw[n]) {
        var segments := WrapLine(raw[n], if n == 0 then TitleMaxChars else BodyMaxChars);
        WrapLineNonEmpty(raw[n], if n == 0 then TitleMaxChars else BodyMaxChars);
        AddSegmentsTitles(c, segments, n == 0);
        var r := Layout(raw).draws;
        if n == 0 {
          assert c.draws == [];
        } else {
          assert raw[..n][0] == raw[0];
          TitlesExtend(c.draws, r, IsBlank(raw[0]));
        }
      } else {
        assert Layout(raw).draws == c.draws;
        if n > 0 {
          assert raw[..n][0] == raw[0];
        }
      }
    }
  }

  lemma TitlesExtend(before: seq<Draw>, after: seq<Draw>, firstBlank: bool)
    requires |after| >= |before| && after[..|before|] == before
    requires forall k :: 0 <= k < |before| ==> (before[k].isTitle <==> k == 0 && !firstBlank)
    requires forall k :: |before| <= k < |after| ==> !after[k].isTitle
    requires !firstBlank ==> before != []
    ensures forall k :: 0 <= k < |after| ==> (after[k].isTitle <==> k == 0 && !firstBlank)
  {
    forall k | 0 <= k < |after| ensures after[k].isTitle <==> k == 0 && !firstBlank {
      if k < |before| {
        assert after[k] == before[k];
      }
    }
  }

  /** A blank raw line draws nothing, stays on the page and moves the
      cursor 8 points down, wherever the cursor is. */
  lemma LayoutLineBlank(c: Cursor, line: string, index: nat)
    requires IsBlank(line)
    ensures var r := LayoutLine(c, line, index);
      r.draws == c.draws && r.page == c.page && r.y == c.y - 8
  {
  }

  /** A text made only of blank lines draws nothing and leaves the cursor
      8 points lower per line on the first page. */
  lemma {:induction false} BlankLayout(raw: seq<string>)
    requires forall k :: 0 <= k < |raw| ==> IsBlank(raw[k])
    ensures Layout(raw) == Cursor(0, Top - 8 * |raw|, [])
  {
    if raw != [] {
      BlankLayout(raw[..|raw| - 1]);
    }
  }
}
