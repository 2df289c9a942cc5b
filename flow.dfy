/**
  The course list and the feedback screen put together: activating a course
  navigates to the feedback path with no query string, and the feedback
  screen reads its course fields from that (empty) query.
 */
module Flow {
  import opened Wrappers
  import opened Interaction
  import Course
  import Feedback
  import Router

  /** The feedback state a course activation opens, if the interaction activates the entry. */
  function OpenedFeedback(c: Course.Course, ev: UiEvent): Option<Feedback.FeedbackState>
  {
    match Course.Activate(c, ev)
    case Some(target) =>
      assert target == "/feedback";
      Some(Feedback.InitialState(Router.Navigate(target).query))
    case None => None
  }

  /**
    Every activation of a rendered course opens the feedback path with a
    fresh, unrated state whose course id and course name are both empty:
    no course identity reaches the feedback screen.
   */
  lemma SelectionOpensBlankFeedback(p: Course.CoursesProp, i: nat, ev: UiEvent)
    requires i < |Course.CoursesToRender(p)|
    requires Activates(ev)
    ensures var c := Course.CoursesToRender(p)[i];
      Course.Activate(c, ev) == Some("/feedback") &&
      Router.Navigate("/feedback").pathname == "/feedback" &&
      OpenedFeedback(c, ev).Some? &&
      var s := OpenedFeedback(c, ev).value;
      s.courseId == "" && s.courseName == "" &&
      Feedback.Ids(s.criteria) == Feedback.CanonicalIds &&
      Feedback.AllUnrated(s.criteria) && s.comment == ""
  {
    var c := Course.CoursesToRender(p)[i];
    var loc := Router.Navigate("/feedback");
    assert "courseId" !in loc.query && "courseName" !in loc.query;
  }

  /** Two different courses open exactly the same feedback state. */
  lemma FeedbackIgnoresChosenCourse(c1: Course.Course, c2: Course.Course, ev: UiEvent)
    ensures OpenedFeedback(c1, ev) == OpenedFeedback(c2, ev)
  {
  }
}
