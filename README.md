# Project-progress slide deck, modelled in Dafny

`project_progress.py` turns a decoded outline into a LaTeX/beamer slide deck. The outline is a list of sections, each a dictionary keyed by section tag.

- A `title_slide` section sets the document preamble (logo, title, author, date). A later title slide replaces an earlier one.
- Each other recognised tag appends one frame to the content:
  - `project_timeline`: a pgfgantt chart with one bar per sprint;
  - `accomplishments`, `next_sprint`, `concerns_or_risks`: itemized bullet frames;
  - `demo`: a link frame;
  - `q_and_a`: a text frame;
  - `project_summary`: an itemize built by string accumulation.
- Unknown keys are skipped.
- The frames are joined by newlines and wrapped in a fixed document header, the title page and a fixed footer.
- A payload without a key its renderer reads raises a `KeyError`. An outline with no title slide raises a `NameError` when the document is assembled. Either way no document is produced.

The model has five modules:

- `Wrappers`: `Option` and `Result`.
- `Text`: Python's `sep.join` and `str.strip`, and a line decoder (`Split` on one character) that undoes a newline join.
- `Outline`:
  - the decoded input: `Fields` dictionaries, and a `Section` record with one optional payload per recognised tag plus the names of its other keys;
  - the two errors (`MissingField(key)` for a `KeyError`, `MissingTitleSlide` for the `NameError`);
  - in-order key lookup (`GetAll`);
  - a run of lookups that stops at the first failure (`Collect`).
- `Frames`: one renderer per tag, plus the unused `format_list_items` helper.
  - Pure renderers are functions (title slide, demo, Q&A, itemize helper).
  - Renderers that loop are methods proved equal to a function, with the loop's invariant. These are the bullet frames, the summary's `+=` accumulation and the timeline's bar loop.
  - The functions' properties are stated against a line decoder (`Split` on `'\n'`). The rendered text is shown to be exactly the expected lines, or the bullet frames are parsed back to their items.
- `Deck`:
  - the loop over the outline as a method (`CollectSections`), proved equal to a functional fold (`Walk`);
  - the assembly of the document (`Render`, `RenderDeck`);
  - lemmas that say what the fold computes: whether it succeeds, which error wins, which title slide wins, which frames appear and in what order, and what an unknown key contributes.

Three consequences of the script's structure are worth stating:

- A section may carry several recognised keys. The loop checks each in a fixed order and appends a frame for each (`Deck.SectionFrames`).
- A title-slide value can also occur in a frame or in the fixed text. The model therefore proves where the preamble sits in the document and that the preamble reads back to the four values (`Deck.DocumentLayout`, `Frames.TitlePreambleRoundTrip`).
- A `KeyError` in any section is raised before the `NameError` of a missing title slide (`Deck.RenderMeaning`).

## Model

| member | source | states |
|---|---|---|
| Outline.GetAll | project_progress.py:11-14 | Consecutive `d[key]` reads: all values in key order exactly when every key is present, otherwise the error names the first absent key |
| Outline.Collect | project_progress.py:29-34 | A run of fallible results has one value per result when it succeeds |
| Outline.CollectOk | project_progress.py:29-34 | The run succeeds exactly when every result does, and its k-th value is the k-th result's |
| Outline.CollectFirstError | project_progress.py:29-34 | The run fails with the error of its first failing result |
| Outline.TagOfName | project_progress.py:125-161 | Every recognised tag's key reads back to that tag, so the eight keys are distinct |
| Text.SplitJoin | project_progress.py:64 | Splitting a newline join of newline-free lines gives back the lines |
| Text.StripStart | project_progress.py:52 | `lstrip` drops exactly a leading run of whitespace and stops at a non-space |
| Text.StripEnd | project_progress.py:52 | `rstrip` drops exactly a trailing run of whitespace and stops at a non-space |
| Text.StripPadded | project_progress.py:52 | Stripping whitespace padding off a text that starts and ends with non-space gives the text |
| Frames.FormatListItemsLines | project_progress.py:5-7 | The itemize block is `\begin{itemize}`, one `\item s` line per item in order (one empty line for no items), then `\end{itemize}` |
| Frames.TitlePreamble | project_progress.py:10-23 | Fails exactly when a key is missing, naming the first of title, author, date, logo that is absent; otherwise the six preamble lines with the values in their slots |
| Frames.TitlePreambleRoundTrip | project_progress.py:16-21 | Reading the preamble back recovers title, author, date and logo verbatim |
| Frames.GanttBar | project_progress.py:31 | A bar fails exactly when the entry lacks a key, naming the first absent key in the f-string's order; otherwise it is the `\ganttbar` directive carrying progress, color, label, start and end |
| Frames.EntryBarsOk | project_progress.py:29-34 | Entries with every key give exactly one bar each, in entry order |
| Frames.EntryBarsFree | project_progress.py:31 | Each bar is a single line when the five values it carries are |
| Frames.TimelineFrame | project_progress.py:26-52 | The timeline renders exactly when every entry has all five keys |
| Frames.TimelineFirstError | project_progress.py:29-32 | A timeline fails with the first missing key of the first entry lacking one |
| Frames.TimelineStripped | project_progress.py:36-52 | Stripping removes only the template's padding; the frame starts with `\begin{frame}` and ends with `\end{frame}` |
| Frames.TimelineLines | project_progress.py:34-51 | The frame's lines are the fixed head (fixed chart bounds and scale), the bar rows joined by ` \\` line breaks, then the fixed tail |
| Frames.TimelineFidelity | project_progress.py:26-52 | For K complete entries the frame is the fixed head, then one row per entry in order carrying that entry's five values verbatim, then the fixed tail |
| Frames.GenerateTimeline | project_progress.py:26-52 | The loop that appends one bar per sprint returns the timeline frame, or the first entry's missing key |
| Frames.BulletFrameLines | project_progress.py:55-64 | A bullet frame's lines are the opening, one `\item s` per item in order, and the closing |
| Frames.BulletFrameRoundTrip | project_progress.py:55-64 | Parsing a bullet frame back yields exactly the items, in order |
| Frames.BulletFrameEmpty | project_progress.py:55-64 | With no items the frame is the opening line, a newline and the closing line |
| Frames.RenderBulletFrame | project_progress.py:56-64 | The line-appending loop yields the bullet frame of its items |
| Frames.GenerateAccomplishments | project_progress.py:55-64 | The accomplishments renderer is the bullet frame under its own heading |
| Frames.GenerateConcernsAndRisks | project_progress.py:77-86 | The concerns renderer is the bullet frame under its own heading |
| Frames.GenerateNextSprint | project_progress.py:89-98 | The next-sprint renderer is the bullet frame under its own heading |
| Frames.SummaryItemsJoin | project_progress.py:112-113 | The accumulated items are the `\item s` lines joined by newlines, with a newline after the last |
| Frames.SummaryFrameLines | project_progress.py:110-115 | The first item shares the opening's line, each later item has its own line, and the closing follows the last item's newline; with no items, the opening and closing form one line |
| Frames.GenerateProjectSummary | project_progress.py:110-115 | The `+=` loop yields the summary frame |
| Frames.Demo | project_progress.py:67-74 | Fails exactly when description, url or link_text is missing, naming the first absent one; otherwise the three lines with the link sentence |
| Frames.DemoLines | project_progress.py:67-74 | The demo frame is exactly three lines: heading, the link sentence built from the three values, `\end{frame}` |
| Frames.QAndA | project_progress.py:101-107 | Fails exactly when description is missing |
| Frames.QAndALines | project_progress.py:101-107 | The Q&A frame is exactly three lines: heading, the description, `\end{frame}` |
| Deck.RenderSection | project_progress.py:124-164 | One section succeeds exactly when each payload it holds has its renderer's keys; it sets a preamble exactly when it holds a title slide |
| Deck.SectionErrorOrder | project_progress.py:125-159 | Within a section the title slide's error is reported before the timeline's, which comes before the demo's, which comes before the Q&A block's |
| Deck.HoldsKeys | project_progress.py:125-161 | A section holds a tag exactly when the tag's key is among its dictionary's keys |
| Deck.FrameFor | project_progress.py:129-164 | Each frame tag's renderer succeeds on a section whose payloads have their keys |
| Deck.FrameTable | project_progress.py:129-164 | A section's frames are keyed by exactly the frame tags it holds, each made by that tag's renderer |
| Deck.SectionSelect | project_progress.py:129-164 | A section's frames are its table's entries taken in the loop's check order |
| Deck.SectionFrames | project_progress.py:129-164 | A section yields one frame per frame tag it holds, in the order timeline, accomplishments, demo, next sprint, concerns, Q&A, summary; the title slide and other keys yield none |
| Deck.FirstBad | project_progress.py:124-164 | The first section whose payloads lack a key: every earlier one is complete |
| Deck.LastTitle | project_progress.py:125-127 | The last section holding a title slide: no later section holds one |
| Deck.WalkFromError | project_progress.py:124-164 | The loop succeeds exactly when every section is complete, and otherwise fails with the first incomplete section's error |
| Deck.WalkFromFragments | project_progress.py:122-164 | The collected frames are every section's frames, in outline order |
| Deck.WalkFromPreamble | project_progress.py:124-127 | The preamble is the last title slide's; it is unchanged when no section holds one |
| Deck.WalkAppend | project_progress.py:124-164 | Running over two stretches of the outline is running over the second from where the first stopped |
| Deck.SilentSection | project_progress.py:124-164 | A section holding no recognised tag sets nothing and appends nothing |
| Deck.IgnoredSection | project_progress.py:124-164 | Inserting a section whose keys are all unrecognised anywhere in the outline does not change the result |
| Deck.DocumentLayout | project_progress.py:170-197 | The document is the fixed header, the preamble, the fixed title page, the content and the fixed footer, each at its place |
| Deck.DocumentContent | project_progress.py:170-197 | With the preamble fixed, different contents give different documents |
| Deck.RenderMeaning | project_progress.py:122-200 | A document results exactly when all sections are complete and one holds a title slide. Otherwise the first incomplete section's error comes before the missing title slide. The document is the last title slide's preamble with all frames joined by newlines |
| Deck.CollectLeading | project_progress.py:125-143 | The title-slide, timeline, accomplishments and demo blocks set the preamble and append their frames, or stop at the first failing lookup |
| Deck.CollectTrailing | project_progress.py:145-164 | The next-sprint, concerns, Q&A and summary blocks append their frames, or stop at the Q&A block's missing description |
| Deck.CollectSection | project_progress.py:125-164 | One pass of the loop body extends the collected state by the section's result, or fails with its error |
| Deck.CollectSections | project_progress.py:122-164 | The loop over the outline computes the fold `Walk` |
| Deck.RenderDeck | project_progress.py:122-200 | The script from decoded outline to document computes `Render` |

## Left out

- Reading `outline.yaml` and YAML decoding (project_progress.py:119-120). These are file I/O and a foreign library. The model starts from the decoded list of sections.
- Printing the document (project_progress.py:203). This is I/O; `RenderDeck` returns the text instead.
- The unused `from string import Template` import (project_progress.py:1).
- How `str()` formats a YAML number in the timeline f-string (project_progress.py:31). `progress` and every other payload value are modelled as already-converted strings.
- Payloads of unexpected types are not modelled: a list item that is not a string, a payload that is not a dictionary, a section that is not a dictionary. Some of these raise `TypeError`. Others are iterated or skipped silently. A string or a mapping given for a list tag is iterated character by character or key by key. A section that is a list or a string is skipped when no tag is among its elements or substrings.
- Whether the emitted LaTeX is well formed, and how it compiles. Strings pass through without escaping, as in the source.
- `str.strip` whitespace is the set of characters Python treats as whitespace, written out explicitly (`Text.IsSpace`). Only the fixed template padding is ever stripped, so no payload text is affected.
- Frames.FormatListItemsLines: `format_list_items` is modelled and proved, but nothing in the script calls it.
- Frames.FormatListItemsLines, Frames.BulletFrameLines, Frames.BulletFrameRoundTrip, Frames.SummaryFrameLines, Frames.TimelineLines, Frames.TimelineFidelity, Frames.EntryBarsFree, Frames.TitlePreambleRoundTrip, Frames.DemoLines, Frames.QAndALines: these line-by-line statements assume that the items and the values read by the renderer hold no newline. A value with a newline produces the same text, but its lines are no longer one per value.
