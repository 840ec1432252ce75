/** The fragment renderers: one per section tag, each turning a payload into a
    block of beamer markup, plus the shared itemize helper. Payload text is
    passed through verbatim; nothing is escaped. */
module Frames {
  import opened Wrappers
  import opened Text
  import opened Outline

  const ItemMarker := "\\item "
  const ItemizeBegin := "\\begin{itemize}"
  const ItemizeEnd := "\\end{itemize}"
  const FrameBegin := "\\begin{frame}"
  const FrameEnd := "\\end{frame}"
  /** The closing line of every bullet frame. */
  const BulletClosing := ItemizeEnd + FrameEnd

  /** `\begin{frame}{title}`. */
  function FrameHeading(title: string): string
  {
    FrameBegin + "{" + title + "}"
  }

  const AccomplishmentsOpening := FrameHeading("What We Have Accomplished So Far") + ItemizeBegin
  const NextSprintOpening := FrameHeading("On Deck for the Next Sprint") + ItemizeBegin
  const ConcernsOpening := FrameHeading("Concerns and Risks") + ItemizeBegin
  const SummaryOpening := FrameHeading("Project Summary") + ItemizeBegin
  const DemoHeading := FrameHeading("Demo or Video of the Demo")
  const QAndAHeading := FrameHeading("Q&A")

  /** The keys each dictionary payload is read with, in the order the source reads them. */
  const TitleKeys := ["title", "author", "date", "logo"]
  const TimelineKeys := ["progress", "color", "label", "start", "end"]
  const DemoKeys := ["description", "url", "link_text"]

  /** The fixed text around each title-slide value. */
  const LogoPrefix := "    \\logo{" + "\\includegraphics[height=1cm]{"
  const TitlePrefix := "    \\title{"
  const AuthorPrefix := "    \\author{"
  const DatePrefix := "    \\date{"

  const ChartStart := "2023-03-06"
  const ChartEnd := "2023-06-11"

  /** The timeline frame's lines before its bars. */
  const TimelineHead: seq<string> := [
    FrameBegin,
    "\\frametitle{Project Timeline}",
    "\\begin{center}",
    "\\begin{ganttchart}[",
    "  x unit=0.1cm,",
    "  y unit chart=0.5cm,",
    "  time slot format=isodate,",
    "  title/.style={fill=none, " + "draw=none, yshift=0.375cm}",
    "]{" + ChartStart + "}{" + ChartEnd + "}",
    "  \\gantttitlecalendar{month} \\\\"]

  /** The timeline frame's lines after its bars. */
  const TimelineTail: seq<string> := ["\\end{ganttchart}", "\\end{center}", FrameEnd]

  /** Ends every bar but the last; a newline follows it. */
  const BarContinuation := " \\\\"
  const BarIndent := "  "

  lemma FrameHeadingSingle(title: string)
    requires '\n' !in title
    ensures '\n' !in FrameHeading(title) + ItemizeBegin
  {
    assert '\n' !in FrameBegin && '\n' !in ItemizeBegin;
  }

  lemma OpeningsSingle()
    ensures '\n' !in AccomplishmentsOpening && '\n' !in NextSprintOpening
    ensures '\n' !in ConcernsOpening && '\n' !in SummaryOpening
  {
    FrameHeadingSingle("What We Have Accomplished So Far");
    FrameHeadingSingle("On Deck for the Next Sprint");
    FrameHeadingSingle("Concerns and Risks");
    FrameHeadingSingle("Project Summary");
  }

  /** The timeline's fixed lines hold no newline; the head is taken in three
      groups, which keeps each proof small. */
  lemma TimelineHeadSingle()
    ensures '\n' !in TimelineHead[0] && '\n' !in TimelineHead[1] && '\n' !in TimelineHead[2]
    ensures '\n' !in TimelineHead[3] && '\n' !in TimelineHead[4]
  {
  }

  lemma TimelineHeadSingleMiddle()
    ensures '\n' !in TimelineHead[5] && '\n' !in TimelineHead[6] && '\n' !in TimelineHead[7]
  {
  }

  lemma TimelineHeadSingleRest()
    ensures '\n' !in TimelineHead[8] && '\n' !in TimelineHead[9]
  {
  }

  lemma TimelineFixedSingle()
    ensures Free(TimelineHead, '\n') && Free(TimelineTail, '\n')
  {
    TimelineHeadSingle();
    TimelineHeadSingleMiddle();
    TimelineHeadSingleRest();
    assert '\n' !in TimelineTail[0] && '\n' !in TimelineTail[1] && '\n' !in TimelineTail[2];
  }

  /** None of the fixed lines of the templates holds a newline. */
  lemma FixedLinesSingle()
    ensures '\n' !in ItemMarker && '\n' !in ItemizeBegin && '\n' !in ItemizeEnd
    ensures '\n' !in FrameEnd && '\n' !in BulletClosing
    ensures '\n' !in AccomplishmentsOpening && '\n' !in NextSprintOpening
    ensures '\n' !in ConcernsOpening && '\n' !in SummaryOpening
    ensures '\n' !in DemoHeading && '\n' !in QAndAHeading
    ensures '\n' !in LogoPrefix && '\n' !in TitlePrefix
    ensures '\n' !in AuthorPrefix && '\n' !in DatePrefix
    ensures Free(TimelineHead, '\n') && Free(TimelineTail, '\n')
  {
    OpeningsSingle();
    TimelineFixedSingle();
  }

  /** `\item s` for each item, in order. */
  function ItemLines(items: seq<string>): seq<string>
  {
    seq(|items|, k requires 0 <= k < |items| => ItemMarker + items[k])
  }

  /** Reads item lines back: each must start with the item marker, which is dropped. */
  function ParseItems(lines: seq<string>): Option<seq<string>>
  {
    if forall k :: 0 <= k < |lines| ==> ItemMarker <= lines[k]
    then Some(seq(|lines|, k requires 0 <= k < |lines| => lines[k][|ItemMarker|..]))
    else None
  }

  lemma ParseItemLines(items: seq<string>)
    ensures ParseItems(ItemLines(items)) == Some(items)
  {
    var lines := ItemLines(items);
    forall k | 0 <= k < |lines|
      ensures ItemMarker <= lines[k] && lines[k][|ItemMarker|..] == items[k]
    {
      assert lines[k] == ItemMarker + items[k];
    }
    var back := seq(|lines|, k requires 0 <= k < |lines| => lines[k][|ItemMarker|..]);
    assert back == items;
  }

  lemma ItemLinesFree(items: seq<string>)
    requires Free(items, '\n')
    ensures Free(ItemLines(items), '\n')
  {
    FixedLinesSingle();
    forall k | 0 <= k < |items|
      ensures '\n' !in ItemLines(items)[k]
    {
      assert ItemLines(items)[k] == ItemMarker + items[k];
    }
  }

  // ---------------------------------------------------------------------------
  // The shared itemize helper

  /** `format_list_items`: an itemize environment with one item per string. */
  function FormatListItems(items: seq<string>): string
  {
    ItemizeBegin + "\n" + Join("\n", ItemLines(items)) + "\n" + ItemizeEnd
  }

  /** The helper's lines are the environment's begin, one `\item` line per item in
      order (a blank line when there are none), and its end. */
  lemma FormatListItemsLines(items: seq<string>)
    requires Free(items, '\n')
    ensures Split(FormatListItems(items), '\n')
         == [ItemizeBegin] + (if |items| == 0 then [""] else ItemLines(items)) + [ItemizeEnd]
  {
    var body := if |items| == 0 then [""] else ItemLines(items);
    assert Join("\n", body) == Join("\n", ItemLines(items));
    JoinCons("\n", ItemizeBegin, body);
    JoinSnoc("\n", [ItemizeBegin] + body, ItemizeEnd);
    ItemLinesFree(items);
    FixedLinesSingle();
    SplitJoin([ItemizeBegin] + body + [ItemizeEnd], '\n');
  }

  // ---------------------------------------------------------------------------
  // Accomplishments, next sprint, concerns and risks

  /** A bullet frame: its opening line, one `\item` line per item, the closing
      line, joined by newlines. */
  function BulletFrame(opening: string, items: seq<string>): string
  {
    Join("\n", [opening] + ItemLines(items) + [BulletClosing])
  }

  /** Reads a bullet frame with the given opening line back into its items. */
  function ParseBulletFrame(opening: string, text: string): Option<seq<string>>
  {
    var lines := Split(text, '\n');
    if |lines| >= 2 && lines[0] == opening && lines[|lines| - 1] == BulletClosing
    then ParseItems(lines[1..|lines| - 1])
    else None
  }

  /** The frame's lines are the opening, the items in order behind the item
      marker, and the closing. */
  lemma BulletFrameLines(opening: string, items: seq<string>)
    requires '\n' !in opening && Free(items, '\n')
    ensures Split(BulletFrame(opening, items), '\n') == [opening] + ItemLines(items) + [BulletClosing]
  {
    ItemLinesFree(items);
    FixedLinesSingle();
    FreeAppend([opening] + ItemLines(items), [BulletClosing], '\n');
    SplitJoin([opening] + ItemLines(items) + [BulletClosing], '\n');
  }

  /** Exactly the items, in order, can be read back from a bullet frame. */
  lemma BulletFrameRoundTrip(opening: string, items: seq<string>)
    requires '\n' !in opening && Free(items, '\n')
    ensures ParseBulletFrame(opening, BulletFrame(opening, items)) == Some(items)
  {
    BulletFrameLines(opening, items);
    var lines := [opening] + ItemLines(items) + [BulletClosing];
    assert lines[1..|lines| - 1] == ItemLines(items);
    ParseItemLines(items);
  }

  /** With no items the frame is the opening line, a newline and the closing line. */
  lemma BulletFrameEmpty(opening: string)
    ensures BulletFrame(opening, []) == opening + "\n" + BulletClosing
  {
    assert [opening] + ItemLines([]) + [BulletClosing] == [opening] + [BulletClosing];
    JoinSnoc("\n", [opening], BulletClosing);
  }

  /** Builds a bullet frame line by line, as the three list renderers do. */
  method RenderBulletFrame(opening: string, items: seq<string>) returns (latex: string)
    ensures latex == BulletFrame(opening, items)
  {
    var lines := [opening];
    for i := 0 to |items|
      invariant lines == [opening] + ItemLines(items[..i])
    {
      lines := lines + [ItemMarker + items[i]];
    }
    assert items[..|items|] == items;
    lines := lines + [BulletClosing];
    latex := Join("\n", lines);
  }

  /** `generate_accomplishments_latex`. */
  method GenerateAccomplishments(accomplishments: seq<string>) returns (latex: string)
    ensures latex == BulletFrame(AccomplishmentsOpening, accomplishments)
  {
    latex := RenderBulletFrame(AccomplishmentsOpening, accomplishments);
  }

  /** `generate_next_sprint_latex`. */
  method GenerateNextSprint(nextSprint: seq<string>) returns (latex: string)
    ensures latex == BulletFrame(NextSprintOpening, nextSprint)
  {
    latex := RenderBulletFrame(NextSprintOpening, nextSprint);
  }

  /** `generate_concerns_and_risks_latex`. */
  method GenerateConcernsAndRisks(concerns: seq<string>) returns (latex: string)
    ensures latex == BulletFrame(ConcernsOpening, concerns)
  {
    latex := RenderBulletFrame(ConcernsOpening, concerns);
  }

  // ---------------------------------------------------------------------------
  // Project summary

  /** The summary's items, each `\item s` followed by a newline. */
  function SummaryItems(items: seq<string>): string
  {
    if |items| == 0 then ""
    else SummaryItems(items[..|items| - 1]) + ItemMarker + items[|items| - 1] + "\n"
  }

  /** The summary frame: no newline after the opening, every item ended by a
      newline, then the closing. */
  function SummaryFrame(items: seq<string>): string
  {
    SummaryOpening + SummaryItems(items) + BulletClosing
  }

  lemma {:induction false} SummaryItemsJoin(items: seq<string>)
    requires |items| > 0
    ensures SummaryItems(items) == Join("\n", ItemLines(items)) + "\n"
  {
    var init, last := items[..|items| - 1], items[|items| - 1];
    assert ItemLines(items) == ItemLines(init) + [ItemMarker + last];
    if |init| > 0 {
      SummaryItemsJoin(init);
      JoinSnoc("\n", ItemLines(init), ItemMarker + last);
    }
  }

  /** The first item shares the opening's line, each further item has a line of
      its own, and the closing has the last line; with no items the opening and
      the closing form a single line. */
  lemma SummaryFrameLines(items: seq<string>)
    requires Free(items, '\n')
    ensures Split(SummaryFrame(items), '\n')
         == if |items| == 0 then [SummaryOpening + BulletClosing]
            else [SummaryOpening + ItemLines(items)[0]] + ItemLines(items)[1..] + [BulletClosing]
  {
    FixedLinesSingle();
    if |items| == 0 {
      assert SummaryFrame(items) == SummaryOpening + BulletClosing;
      SplitFree(SummaryOpening + BulletClosing, '\n');
    } else {
      var lines := ItemLines(items);
      var withOpening := [SummaryOpening + lines[0]] + lines[1..];
      var all := withOpening + [BulletClosing];
      calc {
        SummaryFrame(items);
          { SummaryItemsJoin(items); }
        SummaryOpening + (Join("\n", lines) + "\n") + BulletClosing;
        (SummaryOpening + Join("\n", lines)) + "\n" + BulletClosing;
          { JoinPrefix(SummaryOpening, "\n", lines); }
        Join("\n", withOpening) + "\n" + BulletClosing;
          { JoinSnoc("\n", withOpening, BulletClosing); }
        Join("\n", all);
      }
      ItemLinesFree(items);
      forall k | 0 <= k < |all|
        ensures '\n' !in all[k]
      {
        if k == 0 {
          assert all[0] == SummaryOpening + lines[0];
        } else if k < |lines| {
          assert all[k] == lines[k];
        }
      }
      SplitJoin(all, '\n');
    }
  }

  /** `generate_project_summary_latex`: appends to one string. */
  method GenerateProjectSummary(items: seq<string>) returns (latex: string)
    ensures latex == SummaryFrame(items)
  {
    latex := SummaryOpening;
    for i := 0 to |items|
      invariant latex == SummaryOpening + SummaryItems(items[..i])
    {
      assert items[..i + 1][..i] == items[..i];
      latex := latex + ItemMarker + items[i] + "\n";
    }
    assert items[..|items|] == items;
    latex := latex + BulletClosing;
  }

  // ---------------------------------------------------------------------------
  // Title slide

  /** The preamble's lines: a blank first line, the four declarations, and the
      template's trailing indent. */
  function PreambleLines(title: string, author: string, date: string, logo: string): seq<string>
  {
    ["", LogoPrefix + logo + "}}", TitlePrefix + title + "}", AuthorPrefix + author + "}",
     DatePrefix + date + "}", "    "]
  }

  /** `generate_title_slide_latex`: the preamble declaring logo, title, author
      and date; keys are read in the order title, author, date, logo. */
  function TitlePreamble(data: Fields): (r: Outcome<string>)
    ensures r.Ok? <==> HasAll(data, TitleKeys)
    ensures r.Err? ==> r.error == MissingField(TitleKeys[FirstMissing(data, TitleKeys)])
    ensures r.Ok? ==>
      r.value == Join("\n", PreambleLines(data["title"], data["author"], data["date"], data["logo"]))
  {
    var values :- GetAll(data, TitleKeys);
    Ok(Join("\n", PreambleLines(values[0], values[1], values[2], values[3])))
  }

  /** The title-slide values. */
  datatype TitleSlide = TitleSlide(title: string, author: string, date: string, logo: string)

  /** The text between a fixed prefix and a fixed suffix of a line. */
  function Unwrap(line: string, prefix: string, suffix: string): Option<string>
  {
    if |prefix| + |suffix| <= |line| && line[..|prefix|] == prefix
       && line[|line| - |suffix|..] == suffix
    then Some(line[|prefix|..|line| - |suffix|])
    else None
  }

  lemma UnwrapWrapped(prefix: string, value: string, suffix: string)
    ensures Unwrap(prefix + value + suffix, prefix, suffix) == Some(value)
  {
    var line := prefix + value + suffix;
    assert line[..|prefix|] == prefix;
    assert line[|line| - |suffix|..] == suffix;
    assert line[|prefix|..|line| - |suffix|] == value;
  }

  /** Reads the four values back out of a preamble. */
  function ParseTitlePreamble(text: string): Option<TitleSlide>
  {
    var lines := Split(text, '\n');
    if |lines| != 6 || lines[0] != "" || lines[5] != "    " then None
    else
      var logo := Unwrap(lines[1], LogoPrefix, "}}");
      var title := Unwrap(lines[2], TitlePrefix, "}");
      var author := Unwrap(lines[3], AuthorPrefix, "}");
      var date := Unwrap(lines[4], DatePrefix, "}");
      if logo.None? || title.None? || author.None? || date.None? then None
      else Some(TitleSlide(title.value, author.value, date.value, logo.value))
  }

  /** The preamble carries exactly the four values, each in its own slot. */
  lemma TitlePreambleRoundTrip(data: Fields)
    requires HasAll(data, TitleKeys) && SingleLineValues(data, TitleKeys)
    ensures ParseTitlePreamble(TitlePreamble(data).value)
         == Some(TitleSlide(data["title"], data["author"], data["date"], data["logo"]))
  {
    assert "title" in TitleKeys && "author" in TitleKeys && "date" in TitleKeys && "logo" in TitleKeys;
    var title, author, date, logo := data["title"], data["author"], data["date"], data["logo"];
    var lines := PreambleLines(title, author, date, logo);
    FixedLinesSingle();
    assert Free(lines, '\n');
    SplitJoin(lines, '\n');
    UnwrapWrapped(LogoPrefix, logo, "}}");
    UnwrapWrapped(TitlePrefix, title, "}");
    UnwrapWrapped(AuthorPrefix, author, "}");
    UnwrapWrapped(DatePrefix, date, "}");
  }

  // ---------------------------------------------------------------------------
  // Project timeline

  /** One `\ganttbar` directive. */
  function BarDirective(progress: string, color: string, caption: string, start: string, finish: string): string
  {
    "\\ganttbar[progress=" + progress + ", bar label font=\\tiny," + " bar/.append style={fill="
    + color + "}]{" + caption + "}{" + start + "}{" + finish + "}"
  }

  /** The directive for one timeline entry; keys are read in the order progress,
      color, label, start, end, and each value goes verbatim into its slot. */
  function GanttBar(entry: Fields): (r: Outcome<string>)
    ensures r.Ok? <==> HasAll(entry, TimelineKeys)
    ensures r.Err? ==> r.error == MissingField(TimelineKeys[FirstMissing(entry, TimelineKeys)])
    ensures r.Ok? ==> r.value == BarDirective(entry["progress"], entry["color"], entry["label"],
                                              entry["start"], entry["end"])
  {
    var values :- GetAll(entry, TimelineKeys);
    Ok(BarDirective(values[0], values[1], values[2], values[3], values[4]))
  }

  /** The bar of each entry, or the entry's missing key, in entry order. */
  function BarResults(entries: seq<Fields>): (rs: seq<Outcome<string>>)
    ensures |rs| == |entries|
    ensures forall k :: 0 <= k < |entries| ==> rs[k] == GanttBar(entries[k])
  {
    seq(|entries|, k requires 0 <= k < |entries| => GanttBar(entries[k]))
  }

  /** The bars of all entries in order, or the error of the first entry that
      lacks a key. */
  function GanttBars(entries: seq<Fields>): Outcome<seq<string>>
  {
    Collect(BarResults(entries))
  }

  /** The bar block: indented, the bars separated by a continuation and a newline. */
  function TimelineBars(bars: seq<string>): string
  {
    BarIndent + Join(BarContinuation + "\n", bars)
  }

  /** The frame text around the bars, as it stands once stripped. */
  function TimelineBody(bars: seq<string>): string
  {
    Join("\n", TimelineHead) + "\n" + TimelineBars(bars) + "\n" + Join("\n", TimelineTail)
  }

  /** `generate_project_timeline_latex`: the chart frame with one bar per entry,
      padded by the template's surrounding whitespace and then stripped. */
  function TimelineFrame(entries: seq<Fields>): (r: Outcome<string>)
    ensures r.Ok? <==> forall k :: 0 <= k < |entries| ==> HasAll(entries[k], TimelineKeys)
  {
    CollectOk(BarResults(entries));
    var bars :- GanttBars(entries);
    Ok(Strip("\n" + TimelineBody(bars) + "\n    "))
  }

  /** The rows of the bar block: the bars in order, each but the last continued
      by a line break, the first one indented; a lone indent when there are none. */
  function BarRows(bars: seq<string>): seq<string>
  {
    if |bars| == 0 then [BarIndent]
    else seq(|bars|, k requires 0 <= k < |bars| =>
               (if k == 0 then BarIndent else "") + bars[k]
               + (if k < |bars| - 1 then BarContinuation else ""))
  }

  /** Each bar, all but the last followed by the continuation. */
  function Continued(bars: seq<string>): seq<string>
  {
    seq(|bars|, k requires 0 <= k < |bars| =>
          bars[k] + (if k < |bars| - 1 then BarContinuation else ""))
  }

  lemma {:induction false} JoinContinued(bars: seq<string>)
    requires |bars| > 0
    ensures Join(BarContinuation + "\n", bars) == Join("\n", Continued(bars))
  {
    if |bars| == 1 {
      assert Continued(bars)[0] == bars[0];
      assert Continued(bars) == [bars[0]];
    } else {
      var init, last := bars[..|bars| - 1], bars[|bars| - 1];
      assert bars == init + [last];
      JoinContinued(init);
      var c := Continued(init);
      JoinSnoc(BarContinuation + "\n", init, last);
      JoinSuffix("\n", c, BarContinuation);
      var c' := c[..|c| - 1] + [c[|c| - 1] + BarContinuation];
      JoinSnoc("\n", c', last);
      forall k | 0 <= k < |bars|
        ensures Continued(bars)[k] == (c' + [last])[k]
      {
        if k < |bars| - 1 {
          assert c[k] == init[k] + (if k < |init| - 1 then BarContinuation else "");
        } else {
          assert Continued(bars)[k] == last + "";
        }
      }
      assert Continued(bars) == c' + [last];
    }
  }

  /** The bar block, read as lines, is the bar rows. */
  lemma BarRowsJoin(bars: seq<string>)
    ensures TimelineBars(bars) == Join("\n", BarRows(bars))
  {
    var rows := BarRows(bars);
    if |bars| > 0 {
      JoinContinued(bars);
      var c := Continued(bars);
      JoinPrefix(BarIndent, "\n", c);
      forall k | 0 <= k < |bars|
        ensures ([BarIndent + c[0]] + c[1..])[k] == rows[k]
      {
        if k == 0 {
          assert rows[0] == BarIndent + bars[0] + (if 0 < |bars| - 1 then BarContinuation else "");
        } else {
          assert rows[k] == "" + bars[k] + (if k < |bars| - 1 then BarContinuation else "");
        }
      }
      assert [BarIndent + c[0]] + c[1..] == rows;
    }
  }

  lemma BarRowsFree(bars: seq<string>)
    requires Free(bars, '\n')
    ensures Free(BarRows(bars), '\n')
  {
    var rows := BarRows(bars);
    forall k | 0 <= k < |rows|
      ensures '\n' !in rows[k]
    {
      if |bars| > 0 {
        assert rows[k] == (if k == 0 then BarIndent else "") + bars[k]
                          + (if k < |bars| - 1 then BarContinuation else "");
      }
    }
  }

  lemma TimelineBodyStart(bars: seq<string>)
    ensures TimelineHead[0] <= TimelineBody(bars)
  {
    var rest := Join("\n", TimelineHead[1..]);
    assert TimelineHead == [TimelineHead[0]] + TimelineHead[1..];
    JoinCons("\n", TimelineHead[0], TimelineHead[1..]);
    var after := "\n" + rest + "\n" + TimelineBars(bars) + "\n" + Join("\n", TimelineTail);
    assert TimelineBody(bars) == TimelineHead[0] + after;
  }

  lemma TimelineBodyEnd(bars: seq<string>)
    ensures |FrameEnd| <= |TimelineBody(bars)|
    ensures TimelineBody(bars)[|TimelineBody(bars)| - |FrameEnd|..] == FrameEnd
  {
    assert TimelineTail == TimelineTail[..2] + [FrameEnd];
    JoinSnoc("\n", TimelineTail[..2], FrameEnd);
    var front := Join("\n", TimelineHead) + "\n" + TimelineBars(bars) + "\n"
                 + Join("\n", TimelineTail[..2]) + "\n";
    assert TimelineBody(bars) == front + FrameEnd;
  }

  /** Stripping removes just the template's padding, so the frame runs from
      `\begin{frame}` to `\end{frame}`. */
  lemma TimelineStripped(bars: seq<string>)
    ensures Strip("\n" + TimelineBody(bars) + "\n    ") == TimelineBody(bars)
    ensures TimelineHead[0] <= TimelineBody(bars)
    ensures |FrameEnd| <= |TimelineBody(bars)|
    ensures TimelineBody(bars)[|TimelineBody(bars)| - |FrameEnd|..] == FrameEnd
  {
    var body := TimelineBody(bars);
    TimelineBodyStart(bars);
    TimelineBodyEnd(bars);
    assert body[0] == TimelineHead[0][0] == '\\';
    assert body[|body| - 1] == FrameEnd[|FrameEnd| - 1] == '}';
    StripPadded("\n", body, "\n    ");
  }

  /** A rendered timeline is the frame around the entries' bars, with nothing
      of the template's padding left. */
  lemma TimelineFrameBars(entries: seq<Fields>)
    ensures TimelineFrame(entries).Ok? ==>
      && GanttBars(entries).Ok?
      && TimelineFrame(entries).value == TimelineBody(GanttBars(entries).value)
  {
    if GanttBars(entries).Ok? {
      TimelineStripped(GanttBars(entries).value);
    }
  }

  /** A timeline fails with the first missing key of the first entry that lacks one. */
  lemma TimelineFirstError(entries: seq<Fields>, i: nat)
    requires i < |entries| && !HasAll(entries[i], TimelineKeys)
    requires forall j :: 0 <= j < i ==> HasAll(entries[j], TimelineKeys)
    ensures TimelineFrame(entries)
         == Err(MissingField(TimelineKeys[FirstMissing(entries[i], TimelineKeys)]))
  {
    CollectFirstError(BarResults(entries), i);
  }

  /** Read line by line, a rendered timeline is the fixed head, one row per bar
      in input order (a lone indent when there are none), and the fixed tail. */
  lemma TimelineLines(bars: seq<string>)
    requires Free(bars, '\n')
    ensures Split(TimelineBody(bars), '\n') == TimelineHead + BarRows(bars) + TimelineTail
  {
    var rows := BarRows(bars);
    BarRowsJoin(bars);
    JoinAppend("\n", TimelineHead, rows);
    JoinAppend("\n", TimelineHead + rows, TimelineTail);
    FixedLinesSingle();
    BarRowsFree(bars);
    FreeAppend(TimelineHead, rows, '\n');
    FreeAppend(TimelineHead + rows, TimelineTail, '\n');
    SplitJoin(TimelineHead + rows + TimelineTail, '\n');
  }

  /** `generate_project_timeline_latex` as the source runs it: one directive per
      entry appended in a loop, stopping at the first entry that lacks a key. */
  method GenerateTimeline(entries: seq<Fields>) returns (r: Outcome<string>)
    ensures r == TimelineFrame(entries)
  {
    ghost var results := BarResults(entries);
    var bars: seq<string> := [];
    for i := 0 to |entries|
      invariant Collect(results[..i]) == Ok(bars)
    {
      var bar := GanttBar(entries[i]);
      if bar.Err? {
        CollectOk(results[..i]);
        assert forall j :: 0 <= j < i ==> results[..i][j] == results[j];
        CollectFirstError(results, i);
        return Err(bar.error);
      }
      assert results[..i + 1][..i] == results[..i];
      bars := bars + [bar.value];
    }
    assert results[..|entries|] == results;
    r := Ok(Strip("\n" + TimelineBody(bars) + "\n    "));
  }

  /** The bar of an entry that has every key. */
  function EntryBar(entry: Fields): string
    requires HasAll(entry, TimelineKeys)
  {
    BarDirective(entry["progress"], entry["color"], entry["label"], entry["start"], entry["end"])
  }

  /** The bars of entries that all have every key, in entry order. */
  function EntryBars(entries: seq<Fields>): seq<string>
    requires forall k :: 0 <= k < |entries| ==> HasAll(entries[k], TimelineKeys)
  {
    seq(|entries|, k requires 0 <= k < |entries| => EntryBar(entries[k]))
  }

  /** A bar is one line when its values are. */
  lemma BarDirectiveSingle(progress: string, color: string, caption: string, start: string, finish: string)
    requires '\n' !in progress && '\n' !in color && '\n' !in caption
    requires '\n' !in start && '\n' !in finish
    ensures '\n' !in BarDirective(progress, color, caption, start, finish)
  {
    assert '\n' !in "\\ganttbar[progress=" && '\n' !in ", bar label font=\\tiny,";
    assert '\n' !in " bar/.append style={fill=" && '\n' !in "}]{" && '\n' !in "}{" && '\n' !in "}";
  }

  /** Entries that all have every key give one bar each, in entry order. */
  lemma EntryBarsOk(entries: seq<Fields>)
    requires forall k :: 0 <= k < |entries| ==> HasAll(entries[k], TimelineKeys)
    ensures GanttBars(entries) == Ok(EntryBars(entries))
  {
    var results := BarResults(entries);
    CollectOk(results);
    var bars := GanttBars(entries).value;
    forall k | 0 <= k < |entries|
      ensures bars[k] == EntryBar(entries[k])
    {
      assert results[k] == GanttBar(entries[k]);
    }
    assert bars == EntryBars(entries);
  }

  /** Each bar is one line when the values it carries are. */
  lemma EntryBarsFree(entries: seq<Fields>)
    requires forall k :: 0 <= k < |entries| ==> HasAll(entries[k], TimelineKeys)
    requires forall k :: 0 <= k < |entries| ==> SingleLineValues(entries[k], TimelineKeys)
    ensures Free(EntryBars(entries), '\n')
  {
    forall k | 0 <= k < |entries|
      ensures '\n' !in EntryBars(entries)[k]
    {
      var e := entries[k];
      assert SingleLineValues(e, TimelineKeys);
      assert "progress" in TimelineKeys && "color" in TimelineKeys && "label" in TimelineKeys;
      assert "start" in TimelineKeys && "end" in TimelineKeys;
      BarDirectiveSingle(e["progress"], e["color"], e["label"], e["start"], e["end"]);
    }
  }

  /** A timeline whose entries all have every key renders, and its lines are
      the fixed head, one row per entry in entry order carrying that entry's
      progress, color, label, start and end, and the fixed tail. */
  lemma TimelineFidelity(entries: seq<Fields>)
    requires forall k :: 0 <= k < |entries| ==> HasAll(entries[k], TimelineKeys)
    requires forall k :: 0 <= k < |entries| ==> SingleLineValues(entries[k], TimelineKeys)
    ensures TimelineFrame(entries).Ok?
    ensures Split(TimelineFrame(entries).value, '\n')
         == TimelineHead + BarRows(EntryBars(entries)) + TimelineTail
  {
    EntryBarsOk(entries);
    EntryBarsFree(entries);
    TimelineFrameBars(entries);
    TimelineLines(EntryBars(entries));
  }

  // ---------------------------------------------------------------------------
  // Demo and Q&A

  /** The demo frame's middle line: the description, then the link. */
  function DemoLink(description: string, url: string, linkText: string): string
  {
    description + " \\href{" + url + "}{\\textcolor{blue}{" + linkText + "}} or video."
  }

  /** `generate_demo_latex`: keys are read in the order description, url, link_text. */
  function Demo(demo: Fields): (r: Outcome<string>)
    ensures r.Ok? <==> HasAll(demo, DemoKeys)
    ensures r.Err? ==> r.error == MissingField(DemoKeys[FirstMissing(demo, DemoKeys)])
    ensures r.Ok? ==> r.value == Join("\n", [DemoHeading,
      DemoLink(demo["description"], demo["url"], demo["link_text"]), FrameEnd])
  {
    var values :- GetAll(demo, DemoKeys);
    Ok(Join("\n", [DemoHeading, DemoLink(values[0], values[1], values[2]), FrameEnd]))
  }

  /** The demo frame is exactly three lines: heading, link line, end of frame. */
  lemma DemoLines(demo: Fields)
    requires HasAll(demo, DemoKeys) && SingleLineValues(demo, DemoKeys)
    ensures Split(Demo(demo).value, '\n')
         == [DemoHeading, DemoLink(demo["description"], demo["url"], demo["link_text"]), FrameEnd]
  {
    assert "description" in DemoKeys && "url" in DemoKeys && "link_text" in DemoKeys;
    var lines := [DemoHeading, DemoLink(demo["description"], demo["url"], demo["link_text"]), FrameEnd];
    FixedLinesSingle();
    assert Free(lines, '\n');
    SplitJoin(lines, '\n');
  }

  /** `generate_q_and_a_latex`. */
  function QAndA(qa: Fields): (r: Outcome<string>)
    ensures r.Ok? <==> "description" in qa
    ensures r.Err? ==> r.error == MissingField("description")
  {
    var description :- Get(qa, "description");
    Ok(Join("\n", [QAndAHeading, description, FrameEnd]))
  }

  /** The Q&A frame is exactly three lines, the description in the middle. */
  lemma QAndALines(qa: Fields)
    requires "description" in qa && '\n' !in qa["description"]
    ensures Split(QAndA(qa).value, '\n') == [QAndAHeading, qa["description"], FrameEnd]
  {
    var lines := [QAndAHeading, qa["description"], FrameEnd];
    FixedLinesSingle();
    assert Free(lines, '\n');
    SplitJoin(lines, '\n');
  }
}
