/**
  The course selector: which list it shows, what it draws for that list,
  and where activating an entry leads.
 */
module Course {
  import opened Wrappers
  import opened Interaction

  datatype Course = Course(id: int, name: string, instructor: string)

  /** The three courses shown when the component is given no list. */
  const DefaultCourses: seq<Course> := [
    Course(1, "React Fundamentals", "John Doe"),
    Course(2, "Advanced Python", "Jane Smith"),
    Course(3, "UI/UX Design Basics", "Emily Johnson")
  ]

  /** The `courses` prop as JavaScript can pass it: left out, `null`, or a list. */
  datatype CoursesProp = Undefined | Null | List(courses: seq<Course>)

  const FeedbackRoute: string := "/feedback"
  const EmptyMessage: string := "No courses available"
  const LabelPrefix: string := "View course: "

  /** The prop's default value: it replaces only a missing prop, not a null or an empty list. */
  function WithDefault(p: CoursesProp): CoursesProp
  {
    if p.Undefined? then List(DefaultCourses) else p
  }

  /** The empty-list fallback: any list, even an empty one, is kept; only a non-list becomes []. */
  function OrEmptyList(p: CoursesProp): seq<Course>
  {
    if p.List? then p.courses else []
  }

  /** The list the selector renders for a given prop. */
  function CoursesToRender(p: CoursesProp): (r: seq<Course>)
    ensures p.Undefined? ==> r == DefaultCourses
    ensures p.Null? ==> r == []
    ensures p.List? ==> r == p.courses
  {
    OrEmptyList(WithDefault(p))
  }

  /** Without a prop the selector shows exactly the three built-in courses, ids 1, 2, 3 in order. */
  lemma AbsentPropGivesDefaults()
    ensures var r := CoursesToRender(Undefined);
      |r| == 3 && r[0].id == 1 && r[1].id == 2 && r[2].id == 3
  {
  }

  /** A supplied empty list is not replaced by the defaults. */
  lemma EmptyListStaysEmpty()
    ensures CoursesToRender(List([])) == []
    ensures CoursesToRender(List([])) != CoursesToRender(Undefined)
  {
  }

  /** One button of the course grid. */
  datatype Entry = Entry(key: int, ariaLabel: string, title: string, instructor: string)

  /** What the selector draws: the grid of entries, or the single empty-state message. */
  datatype View = Grid(entries: seq<Entry>) | EmptyState(message: string)

  /** The accessible label of a course's button. */
  function AriaLabel(c: Course): (text: string)
    ensures |text| == |LabelPrefix| + |c.name|
    ensures text[..|LabelPrefix|] == LabelPrefix && text[|LabelPrefix|..] == c.name
  {
    LabelPrefix + c.name
  }

  function RenderEntry(c: Course): Entry
  {
    Entry(c.id, AriaLabel(c), c.name, c.instructor)
  }

  /** The conditional rendering: an empty list gives the message, any other list one entry per course, in order. */
  function Render(courses: seq<Course>): (v: View)
    ensures v.EmptyState? <==> courses == []
    ensures v.EmptyState? ==> v.message == EmptyMessage
    ensures v.Grid? ==> |v.entries| == |courses|
    ensures v.Grid? ==> forall i :: 0 <= i < |courses| ==>
      v.entries[i].key == courses[i].id && v.entries[i].title == courses[i].name &&
      v.entries[i].instructor == courses[i].instructor &&
      v.entries[i].ariaLabel == LabelPrefix + courses[i].name
  {
    if |courses| > 0 then Grid(seq(|courses|, i requires 0 <= i < |courses| => RenderEntry(courses[i])))
    else EmptyState(EmptyMessage)
  }

  /** The number of buttons a user can activate in a view. */
  function SelectableCount(v: View): nat
  {
    if v.Grid? then |v.entries| else 0
  }

  /** A supplied empty list (or a null prop) leaves nothing to select; no prop leaves three courses. */
  lemma SelectableCounts(xs: seq<Course>)
    ensures SelectableCount(Render(CoursesToRender(List(xs)))) == |xs|
    ensures SelectableCount(Render(CoursesToRender(Null))) == 0
    ensures SelectableCount(Render(CoursesToRender(Undefined))) == 3
  {
  }

  /** `handleNavigation`: the target does not mention any course. */
  function HandleNavigation(): string
  {
    FeedbackRoute
  }

  /** A click or key press on a course's button: the navigation target it triggers, if any. */
  function Activate(c: Course, ev: UiEvent): (target: Option<string>)
    ensures target.Some? <==> Activates(ev)
    ensures target.Some? ==> target.value == FeedbackRoute
  {
    if Activates(ev) then Some(HandleNavigation()) else None
  }

  /** Enter and Space act like a click on every entry; any other key does nothing. */
  lemma KeyboardMatchesClick(c: Course, key: string)
    ensures key == EnterKey || key == SpaceKey ==> Activate(c, KeyDown(key)) == Activate(c, Click)
    ensures key != EnterKey && key != SpaceKey ==> Activate(c, KeyDown(key)) == None
  {
  }

  /** Which course was chosen makes no difference to the navigation. */
  lemma TargetIgnoresCourse(c1: Course, c2: Course, ev: UiEvent)
    ensures Activate(c1, ev) == Activate(c2, ev)
  {
  }
}
