/**
 * The professor's submissions page: the list returned by the professor submissions route,
 * filtered by status and by course, the course choices derived from that list, the
 * summary counts, and the feedback form that grades one submission.
 * Identifiers are the strings the browser receives.
 */
module StudentSubmissions {
  import opened Wrappers
  import opened Json
  import opened Seqs
  import opened ApiCalls

  /** One row of the list: a submission annotated with its course. `courseId` is undefined
      when the exercise's course could not be found; a `score` of `None` is a missing score. */
  datatype Row = Row(id: string, status: string, courseId: Option<string>, courseName: string,
                     score: Option<int>, feedback: Option<string>)

  /** A choice of the course filter. */
  datatype CourseOption = CourseOption(id: Option<string>, name: string)

  /** The feedback form's contents. */
  datatype FeedbackForm = FeedbackForm(feedback: string, score: int)

  /** The body of the grading request. */
  datatype FeedbackPatch = FeedbackPatch(submission: string, feedback: string, score: int, status: string)

  const All := "all"

  /** A row passes the status filter and the course filter; `"all"` lets every row through. */
  predicate Matches(r: Row, filterStatus: string, filterCourse: string) {
    (filterStatus == All || r.status == filterStatus) && (filterCourse == All || r.courseId == Some(filterCourse))
  }

  /** The test both filters make, as a function value. */
  function MatchesAll(filterStatus: string, filterCourse: string): Row -> bool {
    x => Matches(x, filterStatus, filterCourse)
  }

  /** The rows the page lists for the chosen filters. */
  function Filtered(rows: seq<Row>, filterStatus: string, filterCourse: string): (r: seq<Row>)
    ensures forall i :: 0 <= i < |r| ==> Matches(r[i], filterStatus, filterCourse)
    ensures |r| <= |rows|
  {
    Filter(rows, MatchesAll(filterStatus, filterCourse))
  }

  /** The filtered list keeps the order of the full list. */
  lemma FilteredIsSubsequence(rows: seq<Row>, filterStatus: string, filterCourse: string)
    ensures IsSubsequence(Filtered(rows, filterStatus, filterCourse), rows)
  {
    FilterIsSubsequence(rows, MatchesAll(filterStatus, filterCourse));
  }

  /** A row is listed exactly when it is in the full list and passes both filters. */
  lemma FilteredMembership(rows: seq<Row>, filterStatus: string, filterCourse: string, x: Row)
    ensures x in Filtered(rows, filterStatus, filterCourse) <==> x in rows && Matches(x, filterStatus, filterCourse)
  {
    FilterMembership(rows, MatchesAll(filterStatus, filterCourse), x);
  }

  /** With both filters at `"all"` the whole list is shown. */
  lemma FilteredAllIsAll(rows: seq<Row>)
    ensures Filtered(rows, All, All) == rows
  {
    FilterKeepsAll(rows, MatchesAll(All, All));
  }

  /** The list `courses` is built from: one entry per row. */
  function LastName(rows: seq<Row>, id: Option<string>): (name: Option<string>)
    ensures name.Some? <==> exists i :: 0 <= i < |rows| && rows[i].courseId == id
    decreases |rows|
  {
    if rows == [] then None
    else if rows[|rows| - 1].courseId == id then Some(rows[|rows| - 1].courseName)
    else LastName(rows[..|rows| - 1], id)
  }

  /** One more row: its id now names that row's course; every other id keeps its name. */
  lemma LastNameStep(rows: seq<Row>, i: nat, k: Option<string>)
    requires i < |rows|
    ensures LastName(rows[..i + 1], k) ==
              if rows[i].courseId == k then Some(rows[i].courseName) else LastName(rows[..i], k)
  {
    assert rows[..i + 1][..i] == rows[..i];
  }

  /** No two course choices share an id. */
  predicate UniqueIds(courses: seq<CourseOption>) {
    forall a, b :: 0 <= a < b < |courses| ==> courses[a].id != courses[b].id
  }

  /** Some course option carries `id`. */
  predicate Offers(courses: seq<CourseOption>, id: Option<string>) {
    exists j :: 0 <= j < |courses| && courses[j].id == id
  }

  /** The course de-duplication: a `Map` from course id to name filled row by row, read back
      in insertion order. Ids are unique, every row's course is offered, and an id carries
      the name of the last row with that id. */
  method UniqueCourses(rows: seq<Row>) returns (courses: seq<CourseOption>)
    ensures UniqueIds(courses)
    ensures forall i :: 0 <= i < |rows| ==> Offers(courses, rows[i].courseId)
    ensures forall j :: 0 <= j < |courses| ==> LastName(rows, courses[j].id) == Some(courses[j].name)
    ensures courses == [] <==> rows == []
  {
    var ids, names := CollectCourses(rows);
    courses := seq(|ids|, j requires 0 <= j < |ids| => CourseOption(ids[j], names[ids[j]]));
    forall i | 0 <= i < |rows|
      ensures Offers(courses, rows[i].courseId)
    {
      assert rows[i].courseId in ids;
      var j :| 0 <= j < |ids| && ids[j] == rows[i].courseId;
      assert courses[j].id == rows[i].courseId;
    }
    if rows != [] {
      assert Offers(courses, rows[0].courseId);
    }
    if courses != [] {
      assert LastName(rows, courses[0].id).Some?;
    }
  }

  /** The `forEach` that fills the `Map`: `ids` records the keys in insertion order. */
  method CollectCourses(rows: seq<Row>) returns (ids: seq<Option<string>>, names: map<Option<string>, string>)
    ensures forall id :: id in names <==> id in ids
    ensures forall a, b :: 0 <= a < b < |ids| ==> ids[a] != ids[b]
    ensures forall k :: 0 <= k < |rows| ==> rows[k].courseId in names
    ensures forall id :: id in names ==> LastName(rows, id) == Some(names[id])
  {
    ids, names := [], map[];
    for i := 0 to |rows|
      invariant forall id :: id in names <==> id in ids
      invariant forall a, b :: 0 <= a < b < |ids| ==> ids[a] != ids[b]
      invariant forall k :: 0 <= k < i ==> rows[k].courseId in names
      invariant forall id :: id in names ==> LastName(rows[..i], id) == Some(names[id])
    {
      var id := rows[i].courseId;
      if id !in names {
        ids := ids + [id];
      }
      ghost var before := names;
      names := names[id := rows[i].courseName];
      assert names.Keys == before.Keys + {id};
      forall k | k in names
        ensures LastName(rows[..i + 1], k) == Some(names[k])
      {
        LastNameStep(rows, i, k);
      }
    }
    assert rows[..|rows|] == rows;
  }

  /** `s.score || 0`. */
  function ScoreOf(r: Row): (s: int)
    ensures r.score.Some? ==> s == r.score.value
    ensures r.score.None? ==> s == 0
  {
    if r.score.Some? && r.score.value != 0 then r.score.value else 0
  }

  /** The sum the average is taken of. */
  function ScoreSum(rows: seq<Row>): int
    decreases |rows|
  {
    if rows == [] then 0 else ScoreSum(rows[..|rows| - 1]) + ScoreOf(rows[|rows| - 1])
  }

  /** Every score present lies between `lo` and `hi`. */
  predicate ScoresWithin(rows: seq<Row>, lo: int, hi: int) {
    forall i :: 0 <= i < |rows| ==> rows[i].score.None? || lo <= rows[i].score.value <= hi
  }

  /** With scores in `0..hi` (missing ones counting 0) the sum lies in `0..hi * |rows|`. */
  lemma {:induction false} ScoreSumWithin(rows: seq<Row>, hi: nat)
    requires ScoresWithin(rows, 0, hi)
    ensures 0 <= ScoreSum(rows) <= hi * |rows|
    decreases |rows|
  {
    if rows != [] {
      var init := rows[..|rows| - 1];
      assert ScoresWithin(init, 0, hi) by {
        forall i | 0 <= i < |init| ensures init[i] == rows[i] { }
      }
      ScoreSumWithin(init, hi);
      assert hi * |rows| == hi * |init| + hi;
    }
  }

  /** `Math.round(num / den)`: the integer nearest to the quotient, halves rounded up. */
  function JsRound(num: int, den: int): (r: int)
    requires den > 0
    ensures 2 * num - den < 2 * den * r <= 2 * num + den
  {
    (2 * num + den) / (2 * den)
  }

  lemma MulMonotone(d: int, a: int, b: int)
    requires d > 0
    ensures a <= b ==> d * a <= d * b
  {
  }

  /** A rounded quotient of a value in `0..hi * den` lies in `0..hi`. */
  lemma RoundWithin(num: int, den: int, hi: nat)
    requires den > 0 && 0 <= num <= hi * den
    ensures 0 <= JsRound(num, den) <= hi
  {
    var r := JsRound(num, den);
    MulMonotone(2 * den, hi + 1, r);
    MulMonotone(2 * den, r, -1);
    assert 2 * den * (hi + 1) == 2 * (hi * den) + 2 * den;
  }

  datatype Stats = Stats(total: nat, pending: nat, graded: nat, avgScore: int)

  /** The summary counts: all rows, pending rows, graded rows and the rounded average score. */
  function SummaryStats(rows: seq<Row>): (st: Stats)
    ensures st.total == |rows|
    ensures st.pending + st.graded <= st.total
    ensures rows == [] ==> st.avgScore == 0
    ensures ScoresWithin(rows, 0, 100) ==> 0 <= st.avgScore <= 100
  {
    var pending := Count(rows, (r: Row) => r.status == "pending");
    var graded := Count(rows, (r: Row) => r.status == "graded");
    CountDisjoint(rows, (r: Row) => r.status == "pending", (r: Row) => r.status == "graded");
    var avg := if |rows| > 0 then JsRound(ScoreSum(rows), |rows|) else 0;
    assert ScoresWithin(rows, 0, 100) ==> 0 <= avg <= 100 by {
      if ScoresWithin(rows, 0, 100) && |rows| > 0 {
        ScoreSumWithin(rows, 100);
        RoundWithin(ScoreSum(rows), |rows|, 100);
      }
    }
    Stats(|rows|, pending, graded, avg)
  }

  /** The form as the modal opens on a row: its feedback or `""`, its score or 0. */
  function FormFor(r: Row): (f: FeedbackForm)
    ensures f.feedback == (if r.feedback.Some? then r.feedback.value else "")
    ensures f.score == (if r.score.Some? then r.score.value else 0)
  {
    FeedbackForm(OrStr(r.feedback, ""), ScoreOf(r))
  }

  class SubmissionsPage {
    var submissions: seq<Row>
    var filteredSubmissions: seq<Row>
    var loading: bool
    var selected: Option<Row>
    var filterStatus: string
    var filterCourse: string
    var courses: seq<CourseOption>
    var feedbackForm: FeedbackForm

    /** The effect on `[submissions, filterStatus, filterCourse]` keeps the shown list in step,
        and the course choices never repeat an id. */
    predicate Valid()
      reads this
    {
      filteredSubmissions == Filtered(submissions, filterStatus, filterCourse) && UniqueIds(courses)
    }

    constructor ()
      ensures Valid()
      ensures submissions == [] && filteredSubmissions == [] && loading && selected.None?
      ensures filterStatus == All && filterCourse == All && courses == [] && feedbackForm == FeedbackForm("", 0)
    {
      submissions, filteredSubmissions, loading, selected := [], [], true, None;
      filterStatus, filterCourse, courses := All, All, [];
      feedbackForm := FeedbackForm("", 0);
    }

    /** `applyFilters`: the status filter, then the course filter, each skipped at `"all"`. */
    method ApplyFilters()
      modifies this
      ensures filteredSubmissions == Filtered(submissions, filterStatus, filterCourse)
      ensures submissions == old(submissions) && filterStatus == old(filterStatus) && filterCourse == old(filterCourse)
      ensures loading == old(loading) && selected == old(selected) && courses == old(courses)
      ensures feedbackForm == old(feedbackForm)
    {
      var status, course := filterStatus, filterCourse;
      var byStatus := (x: Row) => x.status == status;
      var byCourse := (x: Row) => x.courseId == Some(course);
      var matches := MatchesAll(status, course);
      var filtered := submissions;
      if status != All {
        filtered := Filter(filtered, byStatus);
      }
      if course != All {
        filtered := Filter(filtered, byCourse);
      }
      if status != All && course != All {
        FilterFilter(submissions, byStatus, byCourse, matches);
      } else if status != All {
        FilterCongruent(submissions, byStatus, matches);
      } else if course != All {
        FilterCongruent(submissions, byCourse, matches);
      } else {
        FilterKeepsAll(submissions, matches);
      }
      filteredSubmissions := filtered;
    }

    /** `loadSubmissions`: `reply` is the list received, `None` when the call fails. Loading ends
        either way, and the filter effect runs on the new list. */
    method LoadSubmissions(reply: Option<seq<Row>>)
      requires Valid()
      modifies this
      ensures Valid()
      ensures !loading
      ensures reply.Some? ==>
        && submissions == reply.value
        && (forall i :: 0 <= i < |submissions| ==>
              exists j :: 0 <= j < |courses| && courses[j].id == submissions[i].courseId)
        && (forall j :: 0 <= j < |courses| ==> LastName(submissions, courses[j].id) == Some(courses[j].name))
      ensures reply.None? ==> submissions == old(submissions) && courses == old(courses)
      ensures filterStatus == old(filterStatus) && filterCourse == old(filterCourse)
      ensures selected == old(selected) && feedbackForm == old(feedbackForm)
    {
      if reply.Some? {
        submissions := reply.value;
        courses := UniqueCourses(reply.value);
      }
      loading := false;
      ApplyFilters();
    }

    /** Choosing a status in the filter; the effect re-applies the filters. */
    method SetFilterStatus(status: string)
      requires Valid()
      modifies this
      ensures Valid() && filterStatus == status
      ensures submissions == old(submissions) && filterCourse == old(filterCourse) && courses == old(courses)
      ensures loading == old(loading) && selected == old(selected) && feedbackForm == old(feedbackForm)
    {
      filterStatus := status;
      ApplyFilters();
    }

    /** Choosing a course in the filter; the effect re-applies the filters. */
    method SetFilterCourse(course: string)
      requires Valid()
      modifies this
      ensures Valid() && filterCourse == course
      ensures submissions == old(submissions) && filterStatus == old(filterStatus) && courses == old(courses)
      ensures loading == old(loading) && selected == old(selected) && feedbackForm == old(feedbackForm)
    {
      filterCourse := course;
      ApplyFilters();
    }

    /** `openFeedbackModal`. */
    method OpenFeedbackModal(r: Row)
      requires Valid()
      modifies this
      ensures Valid()
      ensures selected == Some(r) && feedbackForm == FormFor(r)
      ensures submissions == old(submissions) && filteredSubmissions == old(filteredSubmissions)
      ensures filterStatus == old(filterStatus) && filterCourse == old(filterCourse)
      ensures courses == old(courses) && loading == old(loading)
    {
      selected := Some(r);
      feedbackForm := FormFor(r);
    }

    /** `handleGiveFeedback`: with a row selected, the form is sent as a grading of that row;
        once the call succeeds the form is cleared, the modal closed and the list reloaded
        (`reload` is the list the reload receives). A failed call leaves the page as it was. */
    method HandleGiveFeedback(reply: CallOutcome, reload: Option<seq<Row>>) returns (patch: Option<FeedbackPatch>)
      requires Valid()
      modifies this
      ensures Valid()
      ensures old(selected).None? ==> patch.None? && unchanged(this)
      ensures old(selected).Some? ==>
        patch == Some(FeedbackPatch(old(selected).value.id, old(feedbackForm).feedback, old(feedbackForm).score, "graded"))
      ensures old(selected).Some? && reply.Failed? ==> unchanged(this)
      ensures old(selected).Some? && reply.Answered? ==>
        && selected.None? && feedbackForm == FeedbackForm("", 0) && !loading
        && (reload.Some? ==> submissions == reload.value)
        && (reload.None? ==> submissions == old(submissions))
    {
      if selected.None? {
        return None;
      }
      patch := Some(FeedbackPatch(selected.value.id, feedbackForm.feedback, feedbackForm.score, "graded"));
      if reply.Failed? {
        return;
      }
      feedbackForm := FeedbackForm("", 0);
      selected := None;
      LoadSubmissions(reload);
    }
  }
}
