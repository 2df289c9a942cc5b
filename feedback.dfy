/**
  The feedback screen: one feedback record per visit, built from the query
  string, edited by copy-on-write updaters, and left by submit or cancel.

  The pure part (records, the two updaters, the star rule) is written as
  datatypes and functions; the component's single state cell is the class
  `FeedbackScreen`, whose handlers replace its `feedback` field.
 */
module Feedback {
  import opened Wrappers
  import opened Interaction

  /** One rating criterion; `rating` 0 means "not yet rated". */
  datatype RatingCriteria = RatingCriteria(id: string, name: string, rating: int)

  /** The whole in-progress feedback of one screen visit. */
  datatype FeedbackState = FeedbackState(
    courseId: string,
    courseName: string,
    criteria: seq<RatingCriteria>,
    comment: string)

  /** The query string, already parsed: a key present maps to its (first) value. */
  type Query = map<string, string>

  const CoursesRoute: string := "/courses"

  /** The six criteria every visit starts from, in display order. */
  const CanonicalCriteria: seq<RatingCriteria> := [
    RatingCriteria("content", "Nội dung khóa học", 0),
    RatingCriteria("teaching", "Phương pháp giảng dạy", 0),
    RatingCriteria("materials", "Tài liệu học tập", 0),
    RatingCriteria("interaction", "Mức độ tương tác", 0),
    RatingCriteria("difficulty", "Độ khó phù hợp", 0),
    RatingCriteria("overall", "Trải nghiệm tổng thể", 0)
  ]

  const CanonicalIds: seq<string> :=
    ["content", "teaching", "materials", "interaction", "difficulty", "overall"]

  function Ids(cs: seq<RatingCriteria>): seq<string>
  {
    seq(|cs|, i requires 0 <= i < |cs| => cs[i].id)
  }

  function Names(cs: seq<RatingCriteria>): seq<string>
  {
    seq(|cs|, i requires 0 <= i < |cs| => cs[i].name)
  }

  predicate DistinctIds(cs: seq<RatingCriteria>)
  {
    forall i, j :: 0 <= i < j < |cs| ==> cs[i].id != cs[j].id
  }

  predicate AllUnrated(cs: seq<RatingCriteria>)
  {
    forall i :: 0 <= i < |cs| ==> cs[i].rating == 0
  }

  /** Every rating is one a star button can produce, or 0 for "not yet rated". */
  predicate RatingsInRange(cs: seq<RatingCriteria>)
  {
    forall i :: 0 <= i < |cs| ==> 0 <= cs[i].rating <= 5
  }

  /** The criteria list still has the canonical ids and names, in canonical order. */
  predicate CanonicalShape(s: FeedbackState)
  {
    Ids(s.criteria) == Ids(CanonicalCriteria) && Names(s.criteria) == Names(CanonicalCriteria)
  }

  // ---------------------------------------------------------------------
  // Initialisation from the query string
  // ---------------------------------------------------------------------

  /** `URLSearchParams.get`: the value of the key, or nothing when it is absent. */
  function QueryGet(q: Query, key: string): Option<string>
  {
    if key in q then Some(q[key]) else None
  }

  /** The empty-string fallback on a parameter: a missing value and the empty string both give "". */
  function OrEmpty(v: Option<string>): string
  {
    if v.Some? && v.value != "" then v.value else ""
  }

  /** The fallback never changes a present value: the result is the value, or "" when absent. */
  lemma ParamOrEmpty(q: Query, key: string)
    ensures OrEmpty(QueryGet(q, key)) == (if key in q then q[key] else "")
    ensures OrEmpty(QueryGet(q, key)) != "" <==> key in q && q[key] != ""
  {
  }

  /** The state `useState` starts from: course fields from the query, canonical criteria, empty comment. */
  function InitialState(q: Query): (s: FeedbackState)
    ensures s.courseId == (if "courseId" in q then q["courseId"] else "")
    ensures s.courseName == (if "courseName" in q then q["courseName"] else "")
    ensures Ids(s.criteria) == CanonicalIds
    ensures CanonicalShape(s) && DistinctIds(s.criteria)
    ensures AllUnrated(s.criteria) && RatingsInRange(s.criteria)
    ensures s.comment == ""
  {
    ParamOrEmpty(q, "courseId");
    ParamOrEmpty(q, "courseName");
    FeedbackState(
      OrEmpty(QueryGet(q, "courseId")),
      OrEmpty(QueryGet(q, "courseName")),
      CanonicalCriteria,
      "")
  }

  // ---------------------------------------------------------------------
  // The rating updater: a map over the criteria that rewrites the matching ones
  // ---------------------------------------------------------------------

  function SetRating(cs: seq<RatingCriteria>, criteriaId: string, rating: int): (r: seq<RatingCriteria>)
    ensures |r| == |cs|
    ensures forall i :: 0 <= i < |cs| ==> r[i].id == cs[i].id && r[i].name == cs[i].name
    ensures forall i :: 0 <= i < |cs| && cs[i].id == criteriaId ==> r[i].rating == rating
    ensures forall i :: 0 <= i < |cs| && cs[i].id != criteriaId ==> r[i] == cs[i]
  {
    if cs == [] then []
    else
      var head := if cs[0].id == criteriaId then cs[0].(rating := rating) else cs[0];
      [head] + SetRating(cs[1..], criteriaId, rating)
  }

  /** The rating shown for a criterion id: that of the first criterion carrying it. */
  function RatingOf(cs: seq<RatingCriteria>, criteriaId: string): Option<int>
  {
    if cs == [] then None
    else if cs[0].id == criteriaId then Some(cs[0].rating)
    else RatingOf(cs[1..], criteriaId)
  }

  /** A criterion id can be looked up exactly when some criterion carries it. */
  lemma {:induction false} RatingOfFound(cs: seq<RatingCriteria>, criteriaId: string)
    ensures RatingOf(cs, criteriaId).Some? <==> criteriaId in Ids(cs)
  {
    if cs != [] {
      RatingOfFound(cs[1..], criteriaId);
      assert Ids(cs) == [cs[0].id] + Ids(cs[1..]);
    }
  }

  /** Reading back the criterion just rated gives the new rating. */
  lemma {:induction false} SetRatingReadBack(cs: seq<RatingCriteria>, criteriaId: string, rating: int)
    requires criteriaId in Ids(cs)
    ensures RatingOf(SetRating(cs, criteriaId, rating), criteriaId) == Some(rating)
  {
    var r := SetRating(cs, criteriaId, rating);
    if cs[0].id != criteriaId {
      assert Ids(cs) == [cs[0].id] + Ids(cs[1..]);
      assert r[1..] == SetRating(cs[1..], criteriaId, rating);
      SetRatingReadBack(cs[1..], criteriaId, rating);
    }
  }

  /** Rating one criterion does not change what any other id reads back. */
  lemma {:induction false} SetRatingReadOther(cs: seq<RatingCriteria>, criteriaId: string, rating: int, other: string)
    requires other != criteriaId
    ensures RatingOf(SetRating(cs, criteriaId, rating), other) == RatingOf(cs, other)
  {
    if cs != [] {
      var r := SetRating(cs, criteriaId, rating);
      assert r[1..] == SetRating(cs[1..], criteriaId, rating);
      SetRatingReadOther(cs[1..], criteriaId, rating, other);
    }
  }

  /** An id that no criterion carries leaves the list exactly as it was. */
  lemma SetRatingUnknownId(cs: seq<RatingCriteria>, criteriaId: string, rating: int)
    requires criteriaId !in Ids(cs)
    ensures SetRating(cs, criteriaId, rating) == cs
  {
    var r := SetRating(cs, criteriaId, rating);
    forall i | 0 <= i < |cs|
      ensures r[i] == cs[i]
    {
      assert Ids(cs)[i] == cs[i].id;
    }
  }

  /** Only the last of two ratings of the same criterion is kept. */
  lemma SetRatingLastWins(cs: seq<RatingCriteria>, criteriaId: string, first: int, second: int)
    ensures SetRating(SetRating(cs, criteriaId, first), criteriaId, second) == SetRating(cs, criteriaId, second)
  {
  }

  /** Ratings of two different criteria can be given in either order. */
  lemma SetRatingCommutes(cs: seq<RatingCriteria>, a: string, ra: int, b: string, rb: int)
    requires a != b
    ensures SetRating(SetRating(cs, a, ra), b, rb) == SetRating(SetRating(cs, b, rb), a, ra)
  {
  }

  /** `handleRatingChange`'s updater: only the matching criterion's rating changes. */
  function UpdateRating(prev: FeedbackState, criteriaId: string, rating: int): (next: FeedbackState)
    ensures next.courseId == prev.courseId && next.courseName == prev.courseName
    ensures next.comment == prev.comment
    ensures Ids(next.criteria) == Ids(prev.criteria) && Names(next.criteria) == Names(prev.criteria)
    ensures criteriaId in Ids(prev.criteria) ==> RatingOf(next.criteria, criteriaId) == Some(rating)
    ensures forall other :: other != criteriaId ==>
      RatingOf(next.criteria, other) == RatingOf(prev.criteria, other)
    ensures criteriaId !in Ids(prev.criteria) ==> next == prev
  {
    var cs := SetRating(prev.criteria, criteriaId, rating);
    assert Ids(cs) == Ids(prev.criteria);
    assert Names(cs) == Names(prev.criteria);
    SetRatingReadOthers(prev.criteria, criteriaId, rating);
    if criteriaId in Ids(prev.criteria) then
      SetRatingReadBack(prev.criteria, criteriaId, rating);
      prev.(criteria := cs)
    else
      SetRatingUnknownId(prev.criteria, criteriaId, rating);
      prev.(criteria := cs)
  }

  /** `SetRatingReadOther` for every other id at once. */
  lemma SetRatingReadOthers(cs: seq<RatingCriteria>, criteriaId: string, rating: int)
    ensures forall other :: other != criteriaId ==>
      RatingOf(SetRating(cs, criteriaId, rating), other) == RatingOf(cs, other)
  {
    forall other | other != criteriaId
      ensures RatingOf(SetRating(cs, criteriaId, rating), other) == RatingOf(cs, other)
    {
      SetRatingReadOther(cs, criteriaId, rating, other);
    }
  }

  /** `handleCommentChange`'s updater: the comment is replaced and nothing else changes. */
  function UpdateComment(prev: FeedbackState, text: string): (next: FeedbackState)
    ensures next.comment == text
    ensures next.courseId == prev.courseId && next.courseName == prev.courseName
    ensures next.criteria == prev.criteria
  {
    prev.(comment := text)
  }

  /** Comment edits and rating edits touch disjoint fields, so their order does not matter. */
  lemma CommentAndRatingCommute(s: FeedbackState, text: string, criteriaId: string, rating: int)
    ensures UpdateComment(UpdateRating(s, criteriaId, rating), text)
         == UpdateRating(UpdateComment(s, text), criteriaId, rating)
  {
  }

  // ---------------------------------------------------------------------
  // The star rating widget
  // ---------------------------------------------------------------------

  /** The rendered star buttons carry the values 1 to 5. */
  type Star = s: int | 1 <= s <= 5 witness 1

  /** The value a star button hands to `onChange`, if the interaction activates it. */
  function StarEmit(star: Star, ev: UiEvent): (r: Option<int>)
    ensures r.Some? <==> Activates(ev)
    ensures r.Some? ==> 1 <= r.value <= 5 && r.value == star
  {
    if Activates(ev) then Some(star as int) else None
  }

  /** Which of the five stars are drawn highlighted for a rating (index i is star i + 1). */
  function StarHighlights(rating: int): seq<bool>
  {
    seq(5, i requires 0 <= i < 5 => i + 1 <= rating)
  }

  function CountTrue(bs: seq<bool>): nat
  {
    if bs == [] then 0 else (if bs[0] then 1 else 0) + CountTrue(bs[1..])
  }

  /** Highlighted stars form a prefix of length `rating` (clamped to 0..5); rating 0 lights none. */
  lemma StarHighlightsPrefix(rating: int)
    ensures var h := StarHighlights(rating);
      |h| == 5 &&
      (forall i :: 0 <= i < 5 ==> (h[i] <==> i < rating)) &&
      CountTrue(h) == (if rating <= 0 then 0 else if rating >= 5 then 5 else rating)
  {
    PrefixCount(StarHighlights(rating), rating);
  }

  /** A boolean sequence true exactly below position k has min(max(k, 0), length) true entries. */
  lemma {:induction false} PrefixCount(bs: seq<bool>, k: int)
    requires forall i :: 0 <= i < |bs| ==> (bs[i] <==> i < k)
    ensures CountTrue(bs) == (if k <= 0 then 0 else if k >= |bs| then |bs| else k)
    decreases |bs|
  {
    if bs != [] {
      PrefixCount(bs[1..], k - 1);
    }
  }

  /** Pressing a star on a criterion row: the emitted value, if any, goes to the rating updater. */
  function PressStar(s: FeedbackState, criteriaId: string, star: Star, ev: UiEvent): (next: FeedbackState)
    ensures Activates(ev) ==> next == UpdateRating(s, criteriaId, star)
    ensures !Activates(ev) ==> next == s
  {
    match StarEmit(star, ev)
    case Some(v) => UpdateRating(s, criteriaId, v)
    case None => s
  }

  /** What the user can do on the screen before leaving it. */
  datatype UiAction =
    | StarPressed(criteriaId: string, star: Star, ev: UiEvent)
    | CommentTyped(text: string)

  /** The state after React has applied the updaters of a sequence of actions, in order. */
  function Replay(s: FeedbackState, actions: seq<UiAction>): FeedbackState
    decreases |actions|
  {
    if actions == [] then s
    else
      var next := match actions[0]
        case StarPressed(id, star, ev) => PressStar(s, id, star, ev)
        case CommentTyped(text) => UpdateComment(s, text);
      Replay(next, actions[1..])
  }

  /**
    Whatever the user does through the widgets, the course fields stay as
    read, the criteria keep their canonical ids and names, and every rating
    stays within 0..5.
   */
  lemma {:induction false} ReplayKeepsShape(s: FeedbackState, actions: seq<UiAction>)
    requires CanonicalShape(s) && RatingsInRange(s.criteria)
    ensures var t := Replay(s, actions);
      CanonicalShape(t) && RatingsInRange(t.criteria) &&
      t.courseId == s.courseId && t.courseName == s.courseName
    decreases |actions|
  {
    if actions != [] {
      var next := match actions[0]
        case StarPressed(id, star, ev) => PressStar(s, id, star, ev)
        case CommentTyped(text) => UpdateComment(s, text);
      if actions[0].StarPressed? {
        var star := actions[0].star;
        var cs := SetRating(s.criteria, actions[0].criteriaId, star);
        assert next.criteria == cs || next.criteria == s.criteria;
        assert RatingsInRange(cs);
      }
      ReplayKeepsShape(next, actions[1..]);
    }
  }

  /** Every state reachable on the screen has the canonical criteria and ratings in 0..5. */
  lemma ReachableStates(q: Query, actions: seq<UiAction>)
    ensures var t := Replay(InitialState(q), actions);
      Ids(t.criteria) == CanonicalIds && RatingsInRange(t.criteria) &&
      t.courseId == InitialState(q).courseId && t.courseName == InitialState(q).courseName
  {
    ReplayKeepsShape(InitialState(q), actions);
  }

  // ---------------------------------------------------------------------
  // The component's state cell and handlers
  // ---------------------------------------------------------------------

  /** The mounted feedback screen: `feedback` is the `useState` cell. */
  class FeedbackScreen {
    var feedback: FeedbackState

    /** The criteria keep the canonical ids and names for the whole visit. */
    ghost predicate Valid()
      reads this
    {
      CanonicalShape(feedback)
    }

    constructor (q: Query)
      ensures Valid()
      ensures feedback == InitialState(q)
    {
      feedback := InitialState(q);
    }

    method HandleRatingChange(criteriaId: string, rating: int)
      requires Valid()
      modifies this
      ensures Valid()
      ensures feedback == UpdateRating(old(feedback), criteriaId, rating)
    {
      feedback := UpdateRating(feedback, criteriaId, rating);
    }

    method HandleCommentChange(text: string)
      requires Valid()
      modifies this
      ensures Valid()
      ensures feedback == UpdateComment(old(feedback), text)
    {
      feedback := UpdateComment(feedback, text);
    }

    /** A star button's click or key press on the row of `criteriaId`. */
    method OnStar(criteriaId: string, star: Star, ev: UiEvent)
      requires Valid()
      modifies this
      ensures Valid()
      ensures feedback == PressStar(old(feedback), criteriaId, star, ev)
      ensures RatingsInRange(old(feedback).criteria) ==> RatingsInRange(feedback.criteria)
    {
      var v := StarEmit(star, ev);
      if v.Some? {
        HandleRatingChange(criteriaId, v.value);
      }
    }

    /** Submitting: no validation, the state is not changed, and the screen goes back to the course list. */
    method HandleSubmit() returns (target: string)
      ensures target == CoursesRoute
    {
      target := CoursesRoute;
    }

    /** The cancel button goes back to the course list too. */
    method Cancel() returns (target: string)
      ensures target == CoursesRoute
    {
      target := CoursesRoute;
    }
  }
}
