/** The decoded outline the renderers consume: an ordered list of sections, each
    a dictionary from section tag to payload, and the errors a render can stop with. */
module Outline {
  import opened Wrappers

  /** A decoded dictionary of text fields: a title slide, a demo, a Q&A block or
      one timeline entry. A timeline entry's `progress` is kept as the text it
      prints as. */
  type Fields = map<string, string>

  /** Why a render stops; each one ends the run with no document. */
  datatype Error =
    | MissingField(key: string)  // a payload lookup with an absent key (KeyError)
    | MissingTitleSlide          // no section carried `title_slide` (NameError)

  type Outcome<T> = Result<T, Error>

  /** `fields[key]`. */
  function Get(fields: Fields, key: string): Outcome<string>
  {
    if key in fields then Ok(fields[key]) else Err(MissingField(key))
  }

  /** Every key of `keys` is present. */
  predicate HasAll(fields: Fields, keys: seq<string>)
  {
    forall key :: key in keys ==> key in fields
  }

  /** The values stored under `keys` hold no newline. */
  predicate SingleLineValues(fields: Fields, keys: seq<string>)
  {
    forall key :: key in keys && key in fields ==> '\n' !in fields[key]
  }

  /** The position of the first key of `keys`, in order, that `fields` lacks. */
  function FirstMissing(fields: Fields, keys: seq<string>): (i: nat)
    requires !HasAll(fields, keys)
    ensures i < |keys| && keys[i] !in fields
    ensures forall j :: 0 <= j < i ==> keys[j] in fields
  {
    if keys[0] !in fields then 0
    else
      assert !HasAll(fields, keys[1..]);
      1 + FirstMissing(fields, keys[1..])
  }

  /** Looks the keys up one after the other, as consecutive `fields[key]`
      expressions do: their values in order, or the error of the first absent key. */
  function GetAll(fields: Fields, keys: seq<string>): (r: Outcome<seq<string>>)
    ensures r.Ok? <==> HasAll(fields, keys)
    ensures r.Ok? ==> |r.value| == |keys|
    ensures r.Ok? ==> forall k :: 0 <= k < |keys| ==> r.value[k] == fields[keys[k]]
    ensures r.Err? ==> r.error == MissingField(keys[FirstMissing(fields, keys)])
  {
    if |keys| == 0 then Ok([])
    else
      var first :- Get(fields, keys[0]);
      var rest :- GetAll(fields, keys[1..]);
      Ok([first] + rest)
  }

  /** The values of a run of results in order, or the error of the first that
      failed, as a loop that stops at the first failure collects them. */
  function Collect<T>(rs: seq<Outcome<T>>): (r: Outcome<seq<T>>)
    ensures r.Ok? ==> |r.value| == |rs|
  {
    if |rs| == 0 then Ok([])
    else
      var values :- Collect(rs[..|rs| - 1]);
      var last :- rs[|rs| - 1];
      Ok(values + [last])
  }

  /** The run succeeds exactly when every result does, and keeps their values. */
  lemma {:induction false} CollectOk<T>(rs: seq<Outcome<T>>)
    ensures Collect(rs).Ok? <==> forall k :: 0 <= k < |rs| ==> rs[k].Ok?
    ensures Collect(rs).Ok? ==> forall k :: 0 <= k < |rs| ==> rs[k] == Ok(Collect(rs).value[k])
  {
    if |rs| > 0 {
      var init := rs[..|rs| - 1];
      CollectOk(init);
      assert forall k :: 0 <= k < |init| ==> init[k] == rs[k];
      if Collect(rs).Ok? {
        var values := Collect(rs).value;
        assert values == Collect(init).value + [rs[|rs| - 1].value];
        forall k | 0 <= k < |rs|
          ensures rs[k] == Ok(values[k])
        {
          if k < |init| {
            assert values[k] == Collect(init).value[k];
          }
        }
      }
    }
  }

  /** The run fails with the error of its first failing result. */
  lemma {:induction false} CollectFirstError<T>(rs: seq<Outcome<T>>, i: nat)
    requires i < |rs| && rs[i].Err?
    requires forall j :: 0 <= j < i ==> rs[j].Ok?
    ensures Collect(rs) == Err(rs[i].error)
  {
    var init := rs[..|rs| - 1];
    assert forall j :: 0 <= j < |init| ==> init[j] == rs[j];
    if i < |rs| - 1 {
      CollectFirstError(init, i);
    } else {
      CollectOk(init);
    }
  }

  /** One outline entry. A decoded dictionary may carry several keys; each
      recognised tag has its payload here (None when the key is absent), and the
      keys outside the recognised set are kept only as names. */
  datatype Section = Section(
    titleSlide: Option<Fields>,
    projectTimeline: Option<seq<Fields>>,
    accomplishments: Option<seq<string>>,
    demo: Option<Fields>,
    nextSprint: Option<seq<string>>,
    concernsOrRisks: Option<seq<string>>,
    qAndA: Option<Fields>,
    projectSummary: Option<seq<string>>,
    otherKeys: set<string>)

  /** The section tags the renderer recognises. */
  const Tags: set<string> :=
    {"title_slide", "project_timeline", "accomplishments", "demo",
     "next_sprint", "concerns_or_risks", "q_and_a", "project_summary"}

  /** The recognised section tags, one constructor each. */
  datatype Tag =
    | TitleSlideTag | ProjectTimelineTag | AccomplishmentsTag | DemoTag
    | NextSprintTag | ConcernsOrRisksTag | QAndATag | ProjectSummaryTag

  const AllTags: set<Tag> :=
    {TitleSlideTag, ProjectTimelineTag, AccomplishmentsTag, DemoTag,
     NextSprintTag, ConcernsOrRisksTag, QAndATag, ProjectSummaryTag}

  /** The key a tag is written as in the outline. */
  function TagName(t: Tag): (name: string)
    ensures name in Tags
  {
    match t
    case TitleSlideTag => "title_slide"
    case ProjectTimelineTag => "project_timeline"
    case AccomplishmentsTag => "accomplishments"
    case DemoTag => "demo"
    case NextSprintTag => "next_sprint"
    case ConcernsOrRisksTag => "concerns_or_risks"
    case QAndATag => "q_and_a"
    case ProjectSummaryTag => "project_summary"
  }

  /** The tag a key names, if it is a recognised one. */
  function TagOf(key: string): (t: Option<Tag>)
    ensures t.Some? ==> TagName(t.value) == key
  {
    if key == "title_slide" then Some(TitleSlideTag)
    else if key == "project_timeline" then Some(ProjectTimelineTag)
    else if key == "accomplishments" then Some(AccomplishmentsTag)
    else if key == "demo" then Some(DemoTag)
    else if key == "next_sprint" then Some(NextSprintTag)
    else if key == "concerns_or_risks" then Some(ConcernsOrRisksTag)
    else if key == "q_and_a" then Some(QAndATag)
    else if key == "project_summary" then Some(ProjectSummaryTag)
    else None
  }

  /** Reading a tag's key back gives the tag, so different tags have different keys. */
  lemma TagOfName(t: Tag)
    ensures TagOf(TagName(t)) == Some(t)
  {
  }

  /** `tag in section` for a recognised tag. */
  predicate Holds(s: Section, t: Tag)
  {
    match t
    case TitleSlideTag => s.titleSlide.Some?
    case ProjectTimelineTag => s.projectTimeline.Some?
    case AccomplishmentsTag => s.accomplishments.Some?
    case DemoTag => s.demo.Some?
    case NextSprintTag => s.nextSprint.Some?
    case ConcernsOrRisksTag => s.concernsOrRisks.Some?
    case QAndATag => s.qAndA.Some?
    case ProjectSummaryTag => s.projectSummary.Some?
  }

  /** The keys of the section's dictionary: the key of every tag it holds, and
      the others. */
  function Keys(s: Section): set<string>
  {
    (set t | t in AllTags && Holds(s, t) :: TagName(t)) + s.otherKeys
  }

  /** The unrecognised keys are not tags. */
  predicate WellFormed(s: Section)
  {
    s.otherKeys !! Tags
  }
}
