/** The script's driver: the loop that walks the outline and collects the
    title-slide preamble and the frames, and the assembly of the final document. */
module Deck {
  import opened Wrappers
  import opened Text
  import opened Outline
  import opened Frames

  /** What has been collected: the preamble of the last title slide seen, if
      any, and the frames in the order they were appended. */
  datatype Rendered = Rendered(preamble: Option<string>, fragments: seq<string>)

  /** Nothing collected yet. */
  const Start := Rendered(None, [])

  /** The tags that yield a frame, in the order the loop checks them. */
  const FrameTags := [ProjectTimelineTag, AccomplishmentsTag, DemoTag, NextSprintTag,
                      ConcernsOrRisksTag, QAndATag, ProjectSummaryTag]

  /** Every payload of the section has the keys its renderer reads. */
  predicate SectionOk(s: Section)
  {
    && (s.titleSlide.Some? ==> HasAll(s.titleSlide.value, TitleKeys))
    && (s.projectTimeline.Some? ==>
          forall k :: 0 <= k < |s.projectTimeline.value| ==> HasAll(s.projectTimeline.value[k], TimelineKeys))
    && (s.demo.Some? ==> HasAll(s.demo.value, DemoKeys))
    && (s.qAndA.Some? ==> "description" in s.qAndA.value)
  }

  /** The preamble a section sets, if it holds a title slide. */
  function TitleStep(s: Section): Outcome<Option<string>>
  {
    if s.titleSlide.None? then Ok(None)
    else
      var preamble :- TitlePreamble(s.titleSlide.value);
      Ok(Some(preamble))
  }

  /** The frame for a payload that may be absent, as a list of none or one. */
  function FrameStep(r: Option<Outcome<string>>): Outcome<seq<string>>
  {
    if r.None? then Ok([])
    else
      var frame :- r.value;
      Ok([frame])
  }

  function TimelineStep(s: Section): Outcome<seq<string>>
  {
    FrameStep(if s.projectTimeline.Some? then Some(TimelineFrame(s.projectTimeline.value)) else None)
  }

  function AccomplishmentsStep(s: Section): seq<string>
  {
    if s.accomplishments.Some? then [BulletFrame(AccomplishmentsOpening, s.accomplishments.value)] else []
  }

  function DemoStep(s: Section): Outcome<seq<string>>
  {
    FrameStep(if s.demo.Some? then Some(Demo(s.demo.value)) else None)
  }

  function NextSprintStep(s: Section): seq<string>
  {
    if s.nextSprint.Some? then [BulletFrame(NextSprintOpening, s.nextSprint.value)] else []
  }

  function ConcernsStep(s: Section): seq<string>
  {
    if s.concernsOrRisks.Some? then [BulletFrame(ConcernsOpening, s.concernsOrRisks.value)] else []
  }

  function QAndAStep(s: Section): Outcome<seq<string>>
  {
    FrameStep(if s.qAndA.Some? then Some(QAndA(s.qAndA.value)) else None)
  }

  function SummaryStep(s: Section): seq<string>
  {
    if s.projectSummary.Some? then [SummaryFrame(s.projectSummary.value)] else []
  }

  /** One pass of the loop body: the preamble the section sets and the frames it
      appends, checked in the order title slide, timeline, accomplishments, demo,
      next sprint, concerns, Q&A, summary; or the first lookup that fails. */
  function RenderSection(s: Section): (r: Outcome<Rendered>)
    ensures r.Ok? <==> SectionOk(s)
    ensures r.Ok? ==> (r.value.preamble.Some? <==> s.titleSlide.Some?)
  {
    var preamble :- TitleStep(s);
    var timeline :- TimelineStep(s);
    var accomplishments := AccomplishmentsStep(s);
    var demo :- DemoStep(s);
    var nextSprint := NextSprintStep(s);
    var concerns := ConcernsStep(s);
    var qAndA :- QAndAStep(s);
    var summary := SummaryStep(s);
    Ok(Rendered(preamble, timeline + (accomplishments + (demo + (nextSprint + (concerns + (qAndA + summary)))))))
  }

  /** Within a section, a bad title slide is reported first, then a bad
      timeline, then a bad demo, then a bad Q&A block. */
  lemma SectionErrorOrder(s: Section)
    ensures s.titleSlide.Some? && !HasAll(s.titleSlide.value, TitleKeys) ==>
      RenderSection(s) == Err(MissingField(TitleKeys[FirstMissing(s.titleSlide.value, TitleKeys)]))
    ensures
      (&& (s.titleSlide.Some? ==> HasAll(s.titleSlide.value, TitleKeys))
       && s.projectTimeline.Some? && TimelineFrame(s.projectTimeline.value).Err?)
      ==> RenderSection(s) == Err(TimelineFrame(s.projectTimeline.value).error)
    ensures
      (&& (s.titleSlide.Some? ==> HasAll(s.titleSlide.value, TitleKeys))
       && (s.projectTimeline.Some? ==> TimelineFrame(s.projectTimeline.value).Ok?)
       && s.demo.Some? && !HasAll(s.demo.value, DemoKeys))
      ==> RenderSection(s) == Err(MissingField(DemoKeys[FirstMissing(s.demo.value, DemoKeys)]))
    ensures
      (&& (s.titleSlide.Some? ==> HasAll(s.titleSlide.value, TitleKeys))
       && (s.projectTimeline.Some? ==> TimelineFrame(s.projectTimeline.value).Ok?)
       && (s.demo.Some? ==> HasAll(s.demo.value, DemoKeys))
       && s.qAndA.Some? && "description" !in s.qAndA.value)
      ==> RenderSection(s) == Err(MissingField("description"))
  {
  }

  /** A section holds a tag exactly when the tag's name is one of its
      dictionary's keys. */
  lemma HoldsKeys(s: Section, t: Tag)
    requires WellFormed(s)
    ensures Holds(s, t) <==> TagName(t) in Keys(s)
  {
    assert t in AllTags;
    if TagName(t) in Keys(s) {
      assert TagName(t) !in s.otherKeys;
      var u :| u in AllTags && Holds(s, u) && TagName(u) == TagName(t);
      TagOfName(t);
      TagOfName(u);
    }
  }

  /** The frame the renderer of `tag` makes from the section's payload. */
  function FrameFor(s: Section, tag: Tag): (r: Outcome<string>)
    requires tag != TitleSlideTag && Holds(s, tag)
    ensures SectionOk(s) ==> r.Ok?
  {
    match tag
    case ProjectTimelineTag => TimelineFrame(s.projectTimeline.value)
    case AccomplishmentsTag => Ok(BulletFrame(AccomplishmentsOpening, s.accomplishments.value))
    case DemoTag => Demo(s.demo.value)
    case NextSprintTag => Ok(BulletFrame(NextSprintOpening, s.nextSprint.value))
    case ConcernsOrRisksTag => Ok(BulletFrame(ConcernsOpening, s.concernsOrRisks.value))
    case QAndATag => QAndA(s.qAndA.value)
    case ProjectSummaryTag => Ok(SummaryFrame(s.projectSummary.value))
  }

  /** Every tag but the title slide's yields a frame. */
  lemma FrameTagsExact()
    ensures forall tag :: tag in FrameTags <==> tag != TitleSlideTag
  {
    forall tag
      ensures tag in FrameTags <==> tag != TitleSlideTag
    {
      match tag
      case TitleSlideTag =>
      case ProjectTimelineTag => assert FrameTags[0] == tag;
      case AccomplishmentsTag => assert FrameTags[1] == tag;
      case DemoTag => assert FrameTags[2] == tag;
      case NextSprintTag => assert FrameTags[3] == tag;
      case ConcernsOrRisksTag => assert FrameTags[4] == tag;
      case QAndATag => assert FrameTags[5] == tag;
      case ProjectSummaryTag => assert FrameTags[6] == tag;
    }
  }

  /** The frame of every frame tag the section holds. */
  function FrameTable(s: Section): (table: map<Tag, string>)
    requires SectionOk(s)
    ensures forall tag :: tag in table <==> tag != TitleSlideTag && Holds(s, tag)
    ensures forall tag :: tag in table ==> FrameFor(s, tag) == Ok(table[tag])
  {
    FrameTagsExact();
    map tag | tag in FrameTags && Holds(s, tag) :: FrameFor(s, tag).value
  }

  /** The tags of `tags`, in their order, that are in `held`. */
  function Present(tags: seq<Tag>, held: set<Tag>): (r: seq<Tag>)
    ensures |r| <= |tags|
    ensures forall k :: 0 <= k < |r| ==> r[k] in held
  {
    if |tags| == 0 then []
    else (if tags[0] in held then [tags[0]] else []) + Present(tags[1..], held)
  }

  /** The entries of the table for the tags of `tags`, in the order of `tags`. */
  function Select(tags: seq<Tag>, table: map<Tag, string>): seq<string>
  {
    if |tags| == 0 then []
    else Entry(table, tags[0]) + Select(tags[1..], table)
  }

  lemma {:induction false} SelectPresent(tags: seq<Tag>, table: map<Tag, string>)
    ensures |Select(tags, table)| == |Present(tags, table.Keys)|
    ensures forall k :: 0 <= k < |Select(tags, table)| ==>
      Select(tags, table)[k] == table[Present(tags, table.Keys)[k]]
  {
    if |tags| > 0 {
      var rest := tags[1..];
      SelectPresent(rest, table);
      var frames, present := Select(tags, table), Present(tags, table.Keys);
      var restFrames, restPresent := Select(rest, table), Present(rest, table.Keys);
      if tags[0] in table {
        assert frames == [table[tags[0]]] + restFrames;
        assert present == [tags[0]] + restPresent;
        forall k | 1 <= k < |frames|
          ensures frames[k] == table[present[k]]
        {
          assert frames[k] == restFrames[k - 1] && present[k] == restPresent[k - 1];
        }
      } else {
        assert frames == restFrames;
        assert present == restPresent;
      }
    }
  }

  /** `Select` from position `k` on takes the entry of `tags[k]`, if any, first. */
  lemma SelectFrom(tags: seq<Tag>, k: nat, table: map<Tag, string>)
    requires k < |tags|
    ensures Select(tags[k..], table) == Entry(table, tags[k]) + Select(tags[k + 1..], table)
  {
    assert tags[k..][0] == tags[k] && tags[k..][1..] == tags[k + 1..];
  }

  /** The table's entry for a frame tag, as none or one frame. */
  function Entry(table: map<Tag, string>, tag: Tag): seq<string>
  {
    if tag in table then [table[tag]] else []
  }

  lemma TableEntry(s: Section, tag: Tag)
    requires SectionOk(s) && tag != TitleSlideTag
    ensures Entry(FrameTable(s), tag) == if Holds(s, tag) then [FrameFor(s, tag).value] else []
  {
  }

  /** The table's entries for the first three frame tags are their steps. */
  lemma LeadingEntries(s: Section)
    requires SectionOk(s)
    ensures var table := FrameTable(s);
      && Entry(table, ProjectTimelineTag) == TimelineStep(s).value
      && Entry(table, AccomplishmentsTag) == AccomplishmentsStep(s)
      && Entry(table, DemoTag) == DemoStep(s).value
  {
    TableEntry(s, ProjectTimelineTag);
    TableEntry(s, AccomplishmentsTag);
    TableEntry(s, DemoTag);
  }

  /** The table's entries for the last four frame tags are their steps. */
  lemma TrailingEntries(s: Section)
    requires SectionOk(s)
    ensures var table := FrameTable(s);
      && Entry(table, NextSprintTag) == NextSprintStep(s)
      && Entry(table, ConcernsOrRisksTag) == ConcernsStep(s)
      && Entry(table, QAndATag) == QAndAStep(s).value
      && Entry(table, ProjectSummaryTag) == SummaryStep(s)
  {
    TableEntry(s, NextSprintTag);
    TableEntry(s, ConcernsOrRisksTag);
    TableEntry(s, QAndATag);
    TableEntry(s, ProjectSummaryTag);
  }

  /** `Select` over seven tags, entry by entry. */
  lemma SelectSeven(t: seq<Tag>, table: map<Tag, string>)
    requires |t| == 7
    ensures Select(t, table)
         == Entry(table, t[0]) + (Entry(table, t[1]) + (Entry(table, t[2]) + (Entry(table, t[3])
            + (Entry(table, t[4]) + (Entry(table, t[5]) + Entry(table, t[6]))))))
  {
    assert t[7..] == [];
    SelectFrom(t, 6, table);
    assert Select(t[6..], table) == Entry(table, t[6]);
    SelectFrom(t, 5, table);
    SelectFrom(t, 4, table);
    SelectFrom(t, 3, table);
    SelectFrom(t, 2, table);
    SelectFrom(t, 1, table);
    SelectFrom(t, 0, table);
    assert t[0..] == t;
  }

  lemma SectionSteps(s: Section)
    requires SectionOk(s)
    ensures RenderSection(s).value.fragments
         == TimelineStep(s).value + (AccomplishmentsStep(s) + (DemoStep(s).value + (NextSprintStep(s)
            + (ConcernsStep(s) + (QAndAStep(s).value + SummaryStep(s))))))
  {
  }

  /** The frames a section appends are the table's entries in check order. */
  lemma SectionSelect(s: Section)
    requires SectionOk(s)
    ensures RenderSection(s).value.fragments == Select(FrameTags, FrameTable(s))
  {
    SelectSeven(FrameTags, FrameTable(s));
    LeadingEntries(s);
    TrailingEntries(s);
    SectionSteps(s);
  }

  /** A section yields one frame per frame tag it holds, in the loop's check
      order, each made by that tag's renderer; a title slide, and any key the
      loop does not check, yields none. */
  lemma SectionFrames(s: Section)
    requires SectionOk(s)
    ensures var table := FrameTable(s);
      var tags := Present(FrameTags, table.Keys);
      && |RenderSection(s).value.fragments| == |tags|
      && forall k :: 0 <= k < |tags| ==> FrameFor(s, tags[k]) == Ok(RenderSection(s).value.fragments[k])
  {
    var table := FrameTable(s);
    SectionSelect(s);
    SelectPresent(FrameTags, table);
    var frames := RenderSection(s).value.fragments;
    var tags := Present(FrameTags, table.Keys);
    forall k | 0 <= k < |tags|
      ensures FrameFor(s, tags[k]) == Ok(frames[k])
    {
      assert frames[k] == table[tags[k]];
    }
  }

  /** One iteration: a new preamble replaces the old one, the frames are appended. */
  function Step(st: Rendered, c: Rendered): Rendered
  {
    Rendered(if c.preamble.Some? then c.preamble else st.preamble, st.fragments + c.fragments)
  }

  /** The loop run from state `st` over the remaining sections. */
  function WalkFrom(st: Rendered, sections: seq<Section>): Outcome<Rendered>
    decreases |sections|
  {
    if |sections| == 0 then Ok(st)
    else
      var c :- RenderSection(sections[0]);
      WalkFrom(Step(st, c), sections[1..])
  }

  /** The whole loop over the outline (project_progress.py, lines 122 to 164). */
  function Walk(outline: seq<Section>): Outcome<Rendered>
  {
    WalkFrom(Start, outline)
  }

  // ---------------------------------------------------------------------------
  // Reference definitions for the loop's result

  predicate AllOk(sections: seq<Section>)
  {
    forall k :: 0 <= k < |sections| ==> SectionOk(sections[k])
  }

  predicate HasTitle(sections: seq<Section>)
  {
    exists k :: 0 <= k < |sections| && sections[k].titleSlide.Some?
  }

  /** The first section with a payload that lacks a key. */
  function FirstBad(sections: seq<Section>): (i: nat)
    requires !AllOk(sections)
    ensures i < |sections| && !SectionOk(sections[i])
    ensures forall j :: 0 <= j < i ==> SectionOk(sections[j])
  {
    if !SectionOk(sections[0]) then 0
    else
      assert !AllOk(sections[1..]) by {
        var k :| 0 <= k < |sections| && !SectionOk(sections[k]);
        assert sections[1..][k - 1] == sections[k];
      }
      1 + FirstBad(sections[1..])
  }

  /** The last section holding a title slide. */
  function LastTitle(sections: seq<Section>): (i: nat)
    requires HasTitle(sections)
    ensures i < |sections| && sections[i].titleSlide.Some?
    ensures forall j :: i < j < |sections| ==> sections[j].titleSlide.None?
  {
    if HasTitle(sections[1..]) then 1 + LastTitle(sections[1..])
    else
      assert forall j :: 0 < j < |sections| ==> sections[1..][j - 1] == sections[j];
      0
  }

  /** The frames of all sections, in outline order. */
  function AllFragments(sections: seq<Section>): seq<string>
    requires AllOk(sections)
  {
    if |sections| == 0 then []
    else RenderSection(sections[0]).value.fragments + AllFragments(sections[1..])
  }

  lemma {:induction false} WalkFromError(st: Rendered, sections: seq<Section>)
    decreases |sections|
    ensures WalkFrom(st, sections).Ok? <==> AllOk(sections)
    ensures !AllOk(sections) ==>
      WalkFrom(st, sections) == Err(RenderSection(sections[FirstBad(sections)]).error)
  {
    if |sections| > 0 {
      var rest := sections[1..];
      assert forall j :: 0 < j < |sections| ==> rest[j - 1] == sections[j];
      if SectionOk(sections[0]) {
        WalkFromError(Step(st, RenderSection(sections[0]).value), rest);
        assert AllOk(sections) <==> AllOk(rest);
        if !AllOk(sections) {
          assert FirstBad(sections) == 1 + FirstBad(rest);
        }
      }
    }
  }

  /** Concatenating frame lists is associative; stated over plain variables so
      callers need not reason about the lists' definitions. */
  lemma AppendAssoc(a: seq<string>, b: seq<string>, c: seq<string>)
    ensures a + b + c == a + (b + c)
  {
  }

  lemma AllOkTail(sections: seq<Section>)
    requires |sections| > 0 && AllOk(sections)
    ensures SectionOk(sections[0]) && AllOk(sections[1..])
  {
    assert forall j :: 0 <= j < |sections| - 1 ==> sections[1..][j] == sections[j + 1];
  }

  /** One turn of the loop over a section that renders. */
  lemma WalkFromStep(st: Rendered, sections: seq<Section>)
    requires |sections| > 0 && SectionOk(sections[0])
    ensures WalkFrom(st, sections) == WalkFrom(Step(st, RenderSection(sections[0]).value), sections[1..])
  {
  }

  lemma {:induction false} WalkFromFragments(st: Rendered, sections: seq<Section>)
    decreases |sections|
    requires AllOk(sections)
    ensures WalkFrom(st, sections).Ok?
    ensures WalkFrom(st, sections).value.fragments == st.fragments + AllFragments(sections)
  {
    if |sections| == 0 {
      assert st.fragments + [] == st.fragments;
    } else {
      var rest := sections[1..];
      AllOkTail(sections);
      var c := RenderSection(sections[0]).value;
      WalkFromStep(st, sections);
      WalkFromFragments(Step(st, c), rest);
      AppendAssoc(st.fragments, c.fragments, AllFragments(rest));
    }
  }

  lemma {:induction false} WalkFromPreamble(st: Rendered, sections: seq<Section>)
    decreases |sections|
    requires AllOk(sections)
    ensures WalkFrom(st, sections).Ok?
    ensures WalkFrom(st, sections).value.preamble ==
      if HasTitle(sections) then Some(TitlePreamble(sections[LastTitle(sections)].titleSlide.value).value)
      else st.preamble
  {
    WalkFromError(st, sections);
    if |sections| > 0 {
      var rest := sections[1..];
      AllOkTail(sections);
      var c := RenderSection(sections[0]).value;
      assert WalkFrom(st, sections) == WalkFrom(Step(st, c), rest);
      WalkFromPreamble(Step(st, c), rest);
      assert forall j :: 0 <= j < |rest| ==> rest[j] == sections[j + 1];
      if HasTitle(rest) {
        assert sections[1 + LastTitle(rest)].titleSlide.Some?;
        assert LastTitle(sections) == 1 + LastTitle(rest);
      } else if sections[0].titleSlide.Some? {
        assert LastTitle(sections) == 0;
      } else {
        forall k | 0 <= k < |sections|
          ensures sections[k].titleSlide.None?
        {
          if k > 0 {
            assert rest[k - 1] == sections[k];
          }
        }
      }
    }
  }

  // ---------------------------------------------------------------------------
  // The document

  const Header :=
    "\n\\documentclass{beamer}\n\\usepackage{pgfgantt}\n\\usepackage{hyperref}\n\\usepackage{xcolor}\n\n"
    + "\\usetheme{metropolis}           % Use metropolis theme\n"
    + "\\definecolor{header}{RGB}{197,32,49}\n\\definecolor{font}{RGB}{255,255,255}\n\n"
    + "% Set colors for header bar\n"
    + "\\setbeamercolor{palette primary}{bg=header,fg=font}\n"
    + "\\setbeamercolor{palette secondary}{bg=header,fg=font}\n"
    + "\\setbeamercolor{palette tertiary}{bg=header,fg=font}\n"
    + "\\setbeamercolor{palette quaternary}{bg=header,fg=font}\n"

  /** Between the preamble and the frames: the document begins with the title page. */
  const TitlePage := "\n\n\\begin{document}\n\n\\begin{frame}\n\\titlepage\n\\end{frame}\n"

  const Footer := "\n\n\\end{document}\n"

  /** `generate_latex_document`. */
  function Document(preamble: string, content: string): string
  {
    Header + preamble + TitlePage + content + Footer
  }

  /** Where each of five concatenated texts sits in the whole. */
  lemma FiveParts(h: string, p: string, t: string, c: string, f: string)
    ensures var doc := h + p + t + c + f;
      var i, j := |h| + |p|, |h| + |p| + |t|;
      && |doc| == j + |c| + |f|
      && doc[..|h|] == h
      && doc[|h|..i] == p
      && doc[i..j] == t
      && doc[j..j + |c|] == c
      && doc[j + |c|..] == f
  {
    var doc := h + p + t + c + f;
    var tail := t + c + f;
    assert doc == h + p + tail;
    assert tail[..|t|] == t && tail[|t|..] == c + f;
  }

  /** The document is the fixed header, the preamble, the fixed title page, the
      content and the fixed footer, each at its own place. */
  lemma DocumentLayout(preamble: string, content: string)
    ensures var doc := Document(preamble, content);
      var p, c := |Header| + |preamble|, |Header| + |preamble| + |TitlePage|;
      && |doc| == c + |content| + |Footer|
      && doc[..|Header|] == Header
      && doc[|Header|..p] == preamble
      && doc[p..c] == TitlePage
      && doc[c..c + |content|] == content
      && doc[c + |content|..] == Footer
  {
    FiveParts(Header, preamble, TitlePage, content, Footer);
  }

  /** The content can be read back from a document whose preamble is known, so
      different contents never give the same document. */
  lemma DocumentContent(preamble: string, content: string, other: string)
    requires Document(preamble, content) == Document(preamble, other)
    ensures content == other
  {
    DocumentLayout(preamble, content);
    DocumentLayout(preamble, other);
  }

  /** The whole script: the loop, then the document around the preamble of the
      last title slide and the newline-joined frames; without a title slide the
      preamble's name is never bound, and the run fails. */
  function Render(outline: seq<Section>): Outcome<string>
  {
    var st :- Walk(outline);
    if st.preamble.None? then Err(MissingTitleSlide)
    else Ok(Document(st.preamble.value, Join("\n", st.fragments)))
  }

  /** The script succeeds exactly when every payload has its keys and some section
      holds a title slide. The first section with a missing key decides the
      error; otherwise a missing title slide is the error. On success the
      document wraps the last title slide's preamble and all frames, in outline
      order, joined by single newlines. */
  lemma RenderMeaning(outline: seq<Section>)
    ensures Render(outline).Ok? <==> AllOk(outline) && HasTitle(outline)
    ensures !AllOk(outline) ==>
      Render(outline) == Err(RenderSection(outline[FirstBad(outline)]).error)
    ensures AllOk(outline) && !HasTitle(outline) ==> Render(outline) == Err(MissingTitleSlide)
    ensures AllOk(outline) && HasTitle(outline) ==>
      Render(outline) == Ok(Document(TitlePreamble(outline[LastTitle(outline)].titleSlide.value).value,
                                     Join("\n", AllFragments(outline))))
  {
    WalkFromError(Start, outline);
    var w := Walk(outline);
    if AllOk(outline) {
      WalkFromFragments(Start, outline);
      WalkFromPreamble(Start, outline);
      assert w.value.fragments == AllFragments(outline);
      if HasTitle(outline) {
        assert w.value.preamble == Some(TitlePreamble(outline[LastTitle(outline)].titleSlide.value).value);
      } else {
        assert w.value.preamble == None;
      }
    } else {
      assert w == Err(RenderSection(outline[FirstBad(outline)]).error);
    }
  }

  /** Running over two stretches of the outline is running over the first, then
      over the second from where the first left off. */
  lemma {:induction false} WalkAppend(st: Rendered, a: seq<Section>, b: seq<Section>)
    ensures WalkFrom(st, a + b) ==
      if WalkFrom(st, a).Err? then WalkFrom(st, a) else WalkFrom(WalkFrom(st, a).value, b)
    decreases |a|
  {
    if |a| > 0 {
      assert (a + b)[0] == a[0];
      assert (a + b)[1..] == a[1..] + b;
      if RenderSection(a[0]).Ok? {
        WalkAppend(Step(st, RenderSection(a[0]).value), a[1..], b);
      }
    } else {
      assert a + b == b;
    }
  }

  /** A section that holds no recognised tag sets no preamble and appends no frame. */
  lemma SilentSection(s: Section)
    requires forall t :: !Holds(s, t)
    ensures RenderSection(s) == Ok(Rendered(None, []))
  {
    assert !Holds(s, TitleSlideTag) && !Holds(s, ProjectTimelineTag) && !Holds(s, AccomplishmentsTag);
    assert !Holds(s, DemoTag) && !Holds(s, NextSprintTag) && !Holds(s, ConcernsOrRisksTag);
    assert !Holds(s, QAndATag) && !Holds(s, ProjectSummaryTag);
    assert TitleStep(s) == Ok(None);
    assert TimelineStep(s) == Ok([]) && DemoStep(s) == Ok([]) && QAndAStep(s) == Ok([]);
    assert AccomplishmentsStep(s) == [] && NextSprintStep(s) == [];
    assert ConcernsStep(s) == [] && SummaryStep(s) == [];
    SectionSteps(s);
  }

  /** A section none of whose keys the loop checks changes nothing, wherever it
      stands in the outline. */
  lemma IgnoredSection(a: seq<Section>, s: Section, b: seq<Section>)
    requires WellFormed(s) && Keys(s) !! Tags
    ensures Render(a + [s] + b) == Render(a + b)
  {
    forall t: Tag
      ensures !Holds(s, t)
    {
      HoldsKeys(s, t);
    }
    SilentSection(s);
    assert a + [s] + b == a + ([s] + b);
    WalkAppend(Start, a, [s] + b);
    WalkAppend(Start, a, b);
    if WalkFrom(Start, a).Ok? {
      var st := WalkFrom(Start, a).value;
      assert ([s] + b)[1..] == b;
      assert Step(st, Rendered(None, [])) == st;
    }
  }

  // ---------------------------------------------------------------------------
  // The loop as the script runs it

  /** The first half of the loop body: the title slide, timeline, accomplishments
      and demo blocks, each run only when the section holds its tag. */
  method CollectLeading(st: Rendered, section: Section) returns (r: Outcome<Rendered>)
    ensures TitleStep(section).Err? ==> r == Err(TitleStep(section).error)
    ensures TitleStep(section).Ok? && TimelineStep(section).Err? ==> r == Err(TimelineStep(section).error)
    ensures TitleStep(section).Ok? && TimelineStep(section).Ok? && DemoStep(section).Err? ==>
      r == Err(DemoStep(section).error)
    ensures TitleStep(section).Ok? && TimelineStep(section).Ok? && DemoStep(section).Ok? ==>
      r == Ok(Rendered(
        if TitleStep(section).value.Some? then TitleStep(section).value else st.preamble,
        st.fragments + (TimelineStep(section).value + (AccomplishmentsStep(section) + DemoStep(section).value))))
  {
    var preamble := st.preamble;
    var sections := st.fragments;
    if section.titleSlide.Some? {
      var titleSlidePreamble := TitlePreamble(section.titleSlide.value);
      if titleSlidePreamble.Err? {
        return Err(titleSlidePreamble.error);
      }
      preamble := Some(titleSlidePreamble.value);
    }
    assert TitleStep(section).Ok?;
    assert preamble == if TitleStep(section).value.Some? then TitleStep(section).value else st.preamble;
    if section.projectTimeline.Some? {
      var timeline := GenerateTimeline(section.projectTimeline.value);
      if timeline.Err? {
        return Err(timeline.error);
      }
      sections := sections + [timeline.value];
    }
    ghost var added := TimelineStep(section).value;
    assert sections == st.fragments + added;
    if section.accomplishments.Some? {
      var accomplishments := GenerateAccomplishments(section.accomplishments.value);
      sections := sections + [accomplishments];
    }
    AppendAssoc(st.fragments, added, AccomplishmentsStep(section));
    added := added + AccomplishmentsStep(section);
    assert sections == st.fragments + added;
    if section.demo.Some? {
      var demo := Demo(section.demo.value);
      if demo.Err? {
        return Err(demo.error);
      }
      sections := sections + [demo.value];
    }
    assert sections == st.fragments + added + DemoStep(section).value;
    AppendAssoc(st.fragments, added, DemoStep(section).value);
    AppendAssoc(TimelineStep(section).value, AccomplishmentsStep(section), DemoStep(section).value);
    return Ok(Rendered(preamble, sections));
  }

  /** The second half of the loop body: the next sprint, concerns, Q&A and
      summary blocks, appending to the frames collected so far. */
  method CollectTrailing(sections: seq<string>, section: Section) returns (r: Outcome<seq<string>>)
    ensures QAndAStep(section).Err? ==> r == Err(QAndAStep(section).error)
    ensures QAndAStep(section).Ok? ==>
      r == Ok(sections + (NextSprintStep(section) + (ConcernsStep(section) + (QAndAStep(section).value + SummaryStep(section)))))
  {
    var collected := sections;
    if section.nextSprint.Some? {
      var nextSprint := GenerateNextSprint(section.nextSprint.value);
      collected := collected + [nextSprint];
    }
    ghost var added := NextSprintStep(section);
    assert collected == sections + added;
    if section.concernsOrRisks.Some? {
      var concerns := GenerateConcernsAndRisks(section.concernsOrRisks.value);
      collected := collected + [concerns];
    }
    AppendAssoc(sections, added, ConcernsStep(section));
    added := added + ConcernsStep(section);
    assert collected == sections + added;
    if section.qAndA.Some? {
      var qAndA := QAndA(section.qAndA.value);
      if qAndA.Err? {
        return Err(qAndA.error);
      }
      collected := collected + [qAndA.value];
    }
    AppendAssoc(sections, added, QAndAStep(section).value);
    added := added + QAndAStep(section).value;
    assert collected == sections + added;
    if section.projectSummary.Some? {
      var summary := GenerateProjectSummary(section.projectSummary.value);
      collected := collected + [summary];
    }
    AppendAssoc(sections, added, SummaryStep(section));
    added := added + SummaryStep(section);
    assert collected == sections + added;
    AppendAssoc(NextSprintStep(section) + ConcernsStep(section), QAndAStep(section).value, SummaryStep(section));
    AppendAssoc(NextSprintStep(section), ConcernsStep(section), QAndAStep(section).value + SummaryStep(section));
    return Ok(collected);
  }

  /** One pass of the loop body: the section's renderers called in check order,
      extending what has been collected, or the first lookup that fails. */
  method CollectSection(st: Rendered, section: Section) returns (r: Outcome<Rendered>)
    ensures RenderSection(section).Err? ==> r == Err(RenderSection(section).error)
    ensures RenderSection(section).Ok? ==> r == Ok(Step(st, RenderSection(section).value))
  {
    var leading := CollectLeading(st, section);
    if leading.Err? {
      return Err(leading.error);
    }
    var trailing := CollectTrailing(leading.value.fragments, section);
    if trailing.Err? {
      return Err(trailing.error);
    }
    SectionSteps(section);
    ghost var front := TimelineStep(section).value + (AccomplishmentsStep(section) + DemoStep(section).value);
    ghost var back := NextSprintStep(section) + (ConcernsStep(section) + (QAndAStep(section).value + SummaryStep(section)));
    AppendAssoc(st.fragments, front, back);
    AppendAssoc(TimelineStep(section).value, AccomplishmentsStep(section) + DemoStep(section).value, back);
    AppendAssoc(AccomplishmentsStep(section), DemoStep(section).value, back);
    return Ok(Rendered(leading.value.preamble, trailing.value));
  }

  /** The loop over the outline (project_progress.py, lines 122 to 164): each
      section's keys are checked in turn, a title slide replaces the preamble and
      every other recognised key appends its frame; the first failing lookup ends
      the run. */
  method CollectSections(outline: seq<Section>) returns (r: Outcome<Rendered>)
    ensures r == Walk(outline)
  {
    var preamble: Option<string> := None;
    var sections: seq<string> := [];
    for i := 0 to |outline|
      invariant Walk(outline) == WalkFrom(Rendered(preamble, sections), outline[i..])
    {
      var section := outline[i];
      assert outline[i..][0] == section && outline[i..][1..] == outline[i + 1..];
      var collected := CollectSection(Rendered(preamble, sections), section);
      if collected.Err? {
        return Err(collected.error);
      }
      preamble, sections := collected.value.preamble, collected.value.fragments;
    }
    return Ok(Rendered(preamble, sections));
  }

  /** The script from the decoded outline to the printed document. */
  method RenderDeck(outline: seq<Section>) returns (r: Outcome<string>)
    ensures r == Render(outline)
  {
    var collected := CollectSections(outline);
    if collected.Err? {
      return Err(collected.error);
    }
    var titleSlidePreamble := collected.value.preamble;
    if titleSlidePreamble.None? {
      return Err(MissingTitleSlide);
    }
    var content := Join("\n", collected.value.fragments);
    r := Ok(Document(titleSlidePreamble.value, content));
  }
}
