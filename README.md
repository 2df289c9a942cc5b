# Course review client: course selection and feedback screen

This project is a Dafny model of the two screens that make up the
course → feedback flow of a small React course-review client. It also proves
properties of that model.

- **Course selector** (`src/modules/course/index.tsx`). It chooses the list to
  show, either the `courses` prop or three built-in courses. It draws one
  button per course, or a single "No courses available" message when the list
  is empty. A click, Enter or Space on any button navigates to `/feedback`.
- **Feedback screen** (`src/modules/feedback/index.tsx`). It builds one
  feedback record from the `courseId` and `courseName` query parameters, six
  fixed rating criteria (all at 0) and an empty comment. Two copy-on-write
  updaters change it: one replaces the rating of the criterion with a given
  id, the other replaces the comment. Five star buttons per criterion emit
  the values 1 to 5. A star is highlighted when its value is at most the
  rating. Submit and cancel both navigate to `/courses`.

Files:

- `wrappers.dfy`: `Option`.
- `interaction.dfy`: clicks and key presses, and the "click, Enter or Space" rule that both screens share.
- `feedback.dfy`: the records, the pure updaters, the star rule, and a replay of user actions. The class `FeedbackScreen` holds the component's one `useState` cell, and its handlers replace it.
- `course.dfy`: prop defaulting, rendering, activation.
- `router.dfy`: `navigate` with a bare path.
- `flow.dfy`: the two screens composed.

Where the prose design of this system and the code disagree, the model
follows the code:

- The selector passes no course identity. It navigates to the bare path `/feedback`, so the feedback screen always opens with `courseId == ""` and `courseName == ""`.
- There is no "Untitled Course" placeholder. A missing or empty `courseName` becomes `""`.
- A supplied empty course list is kept as it is and shows the empty-state message. It is not replaced by the defaults. Only an absent prop gets the defaults.
- Submitting builds no report. It computes no average, takes no timestamp and calls no sink. It only logs, shows an alert and navigates. No validation blocks it.
- The rating updater does not range-check its argument. Ratings stay within 0..5 only because the star buttons emit 1..5.
- No course id is ever read from a path segment.

## Model

| member | source | states |
|---|---|---|
| Feedback.ParamOrEmpty | src/modules/feedback/index.tsx:25-27 | reading a parameter with the empty-string fallback gives the parameter's value when the key is present and `""` when it is absent; the result is non-empty exactly when the key is present with a non-empty value |
| Feedback.InitialState | src/modules/feedback/index.tsx:25-42 | the starting state has the query's `courseId`/`courseName` (or `""`), exactly the six criteria `content, teaching, materials, interaction, difficulty, overall` in that order with their fixed names and distinct ids, every rating 0 and an empty comment |
| Feedback.SetRating | src/modules/feedback/index.tsx:48-50 | the mapped list has the same length, ids and names in the same order; every criterion with the given id has the new rating and every other criterion is identical to before |
| Feedback.RatingOfFound | src/modules/feedback/index.tsx:111-118 | looking a criterion up by id succeeds exactly when some criterion carries that id |
| Feedback.SetRatingReadBack | src/modules/feedback/index.tsx:48-49 | after rating a present id, reading that id back gives the new rating |
| Feedback.SetRatingReadOther | src/modules/feedback/index.tsx:48-49 | rating one id does not change what any other id reads back |
| Feedback.SetRatingUnknownId | src/modules/feedback/index.tsx:48-49 | an id no criterion carries leaves the list exactly as it was, without error |
| Feedback.SetRatingLastWins | src/modules/feedback/index.tsx:45-52 | rating the same criterion twice keeps only the second rating |
| Feedback.SetRatingCommutes | src/modules/feedback/index.tsx:45-52 | ratings of two different criteria give the same list in either order |
| Feedback.UpdateRating | src/modules/feedback/index.tsx:45-52 | `courseId`, `courseName` and `comment` are unchanged; ids and names are unchanged; the rated id reads back the new rating; other ids read back as before; an unknown id returns a state equal to the input |
| Feedback.UpdateComment | src/modules/feedback/index.tsx:55-60 | only `comment` is replaced; `courseId`, `courseName` and the criteria are unchanged |
| Feedback.CommentAndRatingCommute | src/modules/feedback/index.tsx:45-60 | a comment edit and a rating edit give the same state in either order |
| Feedback.StarEmit | src/modules/feedback/index.tsx:80-90 | a star button emits a value exactly on click, Enter or Space, and the value is its own star number, within 1..5 |
| Feedback.StarHighlightsPrefix | src/modules/feedback/index.tsx:80-93 | star i is highlighted exactly when i <= rating, so the highlighted stars are a prefix of length min(max(rating, 0), 5); rating 0 highlights none |
| Feedback.PrefixCount | src/modules/feedback/index.tsx:92 | a row of flags that is true exactly below position k has min(max(k, 0), length) true flags |
| Feedback.PressStar | src/modules/feedback/index.tsx:116-119 | an activating interaction on a star applies the rating updater with that star's value; any other key leaves the state unchanged |
| Feedback.ReplayKeepsShape | src/modules/feedback/index.tsx:45-119 | after any sequence of star presses and comment edits, the criteria keep their canonical ids and names, all ratings stay within 0..5, and the course fields are unchanged |
| Feedback.ReachableStates | src/modules/feedback/index.tsx:30-119 | every state reachable from the initial state through the widgets has the six canonical ids in order, ratings within 0..5, and the course fields read from the query |
| Feedback.FeedbackScreen.constructor | src/modules/feedback/index.tsx:30-42 | the state cell starts at the initial state built from the query |
| Feedback.FeedbackScreen.HandleRatingChange | src/modules/feedback/index.tsx:45-52 | the cell is replaced by the rating updater applied to its previous value; the canonical shape is kept |
| Feedback.FeedbackScreen.HandleCommentChange | src/modules/feedback/index.tsx:55-60 | the cell is replaced by the comment updater applied to its previous value |
| Feedback.FeedbackScreen.OnStar | src/modules/feedback/index.tsx:84-89 | a star press updates the cell as `PressStar` says and keeps every rating within 0..5 |
| Feedback.FeedbackScreen.HandleSubmit | src/modules/feedback/index.tsx:63-74 | submission has no precondition (an all-zero state is submittable), changes no state and navigates to `/courses` |
| Feedback.FeedbackScreen.Cancel | src/modules/feedback/index.tsx:141-147 | cancelling navigates to `/courses` |
| Course.CoursesToRender | src/modules/course/index.tsx:22-34 | an absent prop gives the default courses; a supplied list, even an empty one, is used unchanged and in order; `null` gives the empty list |
| Course.AbsentPropGivesDefaults | src/modules/course/index.tsx:16-22 | without a prop the rendered list is the three built-in courses with ids 1, 2, 3 in that order |
| Course.EmptyListStaysEmpty | src/modules/course/index.tsx:22-34 | a supplied empty list stays empty and is not replaced by the defaults |
| Course.AriaLabel | src/modules/course/index.tsx:50 | each entry's accessible label is `"View course: "` followed by exactly the course name |
| Course.Render | src/modules/course/index.tsx:38-60 | the empty-state message appears exactly when the list is empty; otherwise there is one entry per course, in order, with that course's id, name, instructor and label |
| Course.SelectableCounts | src/modules/course/index.tsx:34-59 | a supplied list yields as many selectable entries as it has courses (none for an empty list); `null` yields none; no prop yields three |
| Course.Activate | src/modules/course/index.tsx:29-48 | an entry navigates exactly on click, Enter or Space, and always to `/feedback` |
| Course.KeyboardMatchesClick | src/modules/course/index.tsx:42-48 | Enter and Space trigger the same navigation as a click; any other key triggers nothing |
| Course.TargetIgnoresCourse | src/modules/course/index.tsx:29-31 | the navigation does not depend on which course was activated |
| Flow.SelectionOpensBlankFeedback | src/modules/feedback/index.tsx:25-42 | activating any rendered course navigates to `/feedback` with no query (src/modules/course/index.tsx:30), so the feedback state opens with `courseId == ""`, `courseName == ""`, the six canonical unrated criteria and an empty comment |
| Flow.FeedbackIgnoresChosenCourse | src/modules/course/index.tsx:29-31 | any two courses open exactly the same feedback state |

## Left out

- Query parsing: `URLSearchParams` splitting, percent-decoding and `+` decoding are library behaviour. The query is an abstract map from key to value, and a missing key reads as absent.
- Router.Navigate: only bare paths, which are the only targets this core uses, are modelled. Route matching is left out, including the fact that `src/App.js` registers neither `/courses` nor `/feedback`.
- React's re-rendering and batching: queued updater functions are modelled as applied one after another in event order (`Replay`, `FeedbackScreen`).
- Side effects of `handleSubmit`: `console.log`, `alert` and `preventDefault` have no observable effect on the model's state. They are left out.
- Markup and styling: the heading showing `courseName`, the star buttons' `aria-label`, the `Instructor:` text, CSS classes and layout are left out.
- Number types: ratings are mathematical integers. JavaScript numbers, including fractional ratings passed to the updater directly, are not modelled. No path in this core produces them.
- Authentication (`src/services/authService.ts`) and the navigation bar (`src/components/NavBar.tsx`) are left out. They are HTTP calls and browser storage, not part of this flow.
- Duplicate rapid activations are not modelled. Each activation is modelled as one navigation, and the code has no debounce.
