/**
 * The professor's course page: of everything the list routes return, the page keeps the
 * courses the current professor teaches and the exercises of those courses, groups
 * submissions by course, counts the pending ones, builds the options of a new
 * multiple-choice exercise and the patch that toggles publication.
 * Identifiers are the strings the browser receives.
 */
module ProfessorCourses {
  import opened Wrappers
  import opened Text
  import opened Seqs

  datatype CourseItem = CourseItem(id: string, professor: string, isPublished: bool)
  datatype ExerciseItem = ExerciseItem(id: string, course: string)

  /** A submission as listed: `exercise` is the id of its populated exercise, undefined when
      the exercise is missing. */
  datatype SubmissionItem = SubmissionItem(exercise: Option<string>, status: string)

  /** What `loadData` keeps. */
  datatype PageData = PageData(courses: seq<CourseItem>, exercises: seq<ExerciseItem>, submissions: seq<SubmissionItem>)

  /** The three lists the routes return. */
  datatype Replies = Replies(courses: seq<CourseItem>, exercises: seq<ExerciseItem>, submissions: seq<SubmissionItem>)

  /** `c.professor === user?._id`: no course matches when nobody is signed in. */
  predicate Teaches(user: Option<string>, c: CourseItem) {
    user == Some(c.professor)
  }

  function TeachesOf(user: Option<string>): CourseItem -> bool {
    (c: CourseItem) => Teaches(user, c)
  }

  /** The courses shown: those taught by the current user, in the order received. */
  function MyCourses(courses: seq<CourseItem>, user: Option<string>): (r: seq<CourseItem>)
    ensures forall i :: 0 <= i < |r| ==> user == Some(r[i].professor)
  {
    Filter(courses, TeachesOf(user))
  }

  /** A course is shown exactly when it was received and the current user teaches it. */
  lemma MyCoursesExactly(courses: seq<CourseItem>, user: Option<string>, c: CourseItem)
    ensures c in MyCourses(courses, user) <==> c in courses && user == Some(c.professor)
  {
    FilterMembership(courses, TeachesOf(user), c);
  }

  /** `courseIds.includes(e.course)`. */
  predicate InCourses(courses: seq<CourseItem>, e: ExerciseItem) {
    exists i :: 0 <= i < |courses| && courses[i].id == e.course
  }

  function InCoursesOf(courses: seq<CourseItem>): ExerciseItem -> bool {
    (e: ExerciseItem) => InCourses(courses, e)
  }

  /** The exercises shown: those whose course is one of `myCourses`, in the order received. */
  function MyExercises(exercises: seq<ExerciseItem>, myCourses: seq<CourseItem>): (r: seq<ExerciseItem>)
    ensures forall i :: 0 <= i < |r| ==> InCourses(myCourses, r[i])
  {
    Filter(exercises, InCoursesOf(myCourses))
  }

  /** An exercise is shown exactly when it was received and its course is one of the user's courses. */
  lemma MyExercisesExactly(exercises: seq<ExerciseItem>, courses: seq<CourseItem>, user: Option<string>, e: ExerciseItem)
    ensures e in MyExercises(exercises, MyCourses(courses, user)) <==>
              e in exercises && exists c :: c in courses && Teaches(user, c) && c.id == e.course
  {
    var mine := MyCourses(courses, user);
    FilterMembership(exercises, InCoursesOf(mine), e);
    if exists c :: c in courses && Teaches(user, c) && c.id == e.course {
      var c :| c in courses && Teaches(user, c) && c.id == e.course;
      MyCoursesExactly(courses, user, c);
      var i :| 0 <= i < |mine| && mine[i] == c;
      assert InCourses(mine, e);
    }
    if InCourses(mine, e) {
      var i :| 0 <= i < |mine| && mine[i].id == e.course;
      MyCoursesExactly(courses, user, mine[i]);
    }
  }

  /** `loadData`: all three lists arrive, or (`None`) one of the calls fails and nothing is replaced. */
  function LoadData(prior: PageData, user: Option<string>, replies: Option<Replies>): (d: PageData)
    ensures replies.None? ==> d == prior
    ensures replies.Some? ==>
      && d.courses == MyCourses(replies.value.courses, user)
      && d.exercises == MyExercises(replies.value.exercises, d.courses)
      && d.submissions == replies.value.submissions
  {
    if replies.None? then prior
    else
      var mine := MyCourses(replies.value.courses, user);
      PageData(mine, MyExercises(replies.value.exercises, mine), replies.value.submissions)
  }

  function OfCourse(courseId: string): ExerciseItem -> bool {
    (e: ExerciseItem) => e.course == courseId
  }

  /** `getExercisesForCourse`. */
  function ExercisesForCourse(exercises: seq<ExerciseItem>, courseId: string): (r: seq<ExerciseItem>)
    ensures forall i :: 0 <= i < |r| ==> r[i].course == courseId
    ensures forall e :: e in exercises && e.course == courseId ==> e in r
  {
    FilterMembershipAll(exercises, OfCourse(courseId));
    Filter(exercises, OfCourse(courseId))
  }

  lemma FilterMembershipAll<T>(s: seq<T>, p: T -> bool)
    ensures forall x :: x in Filter(s, p) <==> x in s && p(x)
  {
    forall x {
      FilterMembership(s, p, x);
    }
  }

  /** `courseExerciseIds.includes(s.exercise?._id)`. */
  predicate ForExercises(ids: seq<string>, s: SubmissionItem) {
    s.exercise.Some? && s.exercise.value in ids
  }

  function ForExercisesOf(ids: seq<string>): SubmissionItem -> bool {
    (s: SubmissionItem) => ForExercises(ids, s)
  }

  function ExerciseIds(exercises: seq<ExerciseItem>): seq<string> {
    Map(exercises, (e: ExerciseItem) => e.id)
  }

  /** `getSubmissionsForCourse`: the submissions whose exercise is one of the course's exercises. */
  function SubmissionsForCourse(exercises: seq<ExerciseItem>, submissions: seq<SubmissionItem>, courseId: string)
    : (r: seq<SubmissionItem>)
    ensures |r| <= |submissions|
  {
    Filter(submissions, ForExercisesOf(ExerciseIds(ExercisesForCourse(exercises, courseId))))
  }

  /** A submission is listed for a course exactly when it was received and its exercise is an
      exercise of that course. */
  lemma SubmissionsForCourseExactly(exercises: seq<ExerciseItem>, submissions: seq<SubmissionItem>,
                                    courseId: string, s: SubmissionItem)
    ensures s in SubmissionsForCourse(exercises, submissions, courseId) <==>
              s in submissions && s.exercise.Some?
              && exists e :: e in exercises && e.course == courseId && e.id == s.exercise.value
  {
    var ofCourse := ExercisesForCourse(exercises, courseId);
    var ids := ExerciseIds(ofCourse);
    FilterMembership(submissions, ForExercisesOf(ids), s);
    FilterMembershipAll(exercises, OfCourse(courseId));
    if s.exercise.Some? && s.exercise.value in ids {
      var i :| 0 <= i < |ids| && ids[i] == s.exercise.value;
      assert ofCourse[i] in exercises && ofCourse[i].course == courseId;
    }
    if s.exercise.Some? && exists e :: e in exercises && e.course == courseId && e.id == s.exercise.value {
      var e :| e in exercises && e.course == courseId && e.id == s.exercise.value;
      var i :| 0 <= i < |ofCourse| && ofCourse[i] == e;
      assert ids[i] == s.exercise.value;
    }
  }

  /** Submissions whose exercise is not listed for any course belong to none. */
  lemma UnknownExerciseBelongsNowhere(exercises: seq<ExerciseItem>, submissions: seq<SubmissionItem>,
                                      courseId: string, s: SubmissionItem)
    requires s.exercise.None? || forall e :: e in exercises ==> e.id != s.exercise.value
    ensures s !in SubmissionsForCourse(exercises, submissions, courseId)
  {
    SubmissionsForCourseExactly(exercises, submissions, courseId, s);
  }

  /** `getPendingSubmissionsCount`: never more than the course's submissions. */
  function PendingCount(exercises: seq<ExerciseItem>, submissions: seq<SubmissionItem>, courseId: string): (n: nat)
    ensures n <= |SubmissionsForCourse(exercises, submissions, courseId)|
  {
    Count(SubmissionsForCourse(exercises, submissions, courseId), (s: SubmissionItem) => s.status == "pending")
  }

  function NotBlank(o: string): bool {
    !IsBlank(o)
  }

  /** The entries of a multiple-choice exercise kept by `o.trim()`: those holding some
      character other than white space, in their order. */
  lemma NonBlankOptions(options: seq<string>)
    ensures IsSubsequence(Filter(options, NotBlank), options)
    ensures forall o :: o in Filter(options, NotBlank) <==> o in options && !AllSpace(o)
  {
    FilterIsSubsequence(options, NotBlank);
    forall o
      ensures o in Filter(options, NotBlank) <==> o in options && !AllSpace(o)
    {
      FilterMembership(options, NotBlank, o);
      BlankIffAllSpace(o);
    }
  }

  /** The options sent for a new exercise: for a multiple-choice exercise the entries that are
      not blank, in their order; for any other type the form's options as they are. */
  function ExerciseOptions(exerciseType: string, options: seq<string>): (r: seq<string>)
    ensures exerciseType == "multiple-choice" ==>
      IsSubsequence(r, options) && forall o :: o in r <==> o in options && !AllSpace(o)
    ensures exerciseType != "multiple-choice" ==> r == options
  {
    if exerciseType == "multiple-choice" then
      NonBlankOptions(options);
      Filter(options, NotBlank)
    else options
  }

  /** `handleTogglePublish`: the patch carries the opposite of the current flag. */
  function PublishPatch(isPublished: bool): (p: bool)
    ensures p != isPublished
  {
    !isPublished
  }

  /** What `handleTogglePublish` leaves behind: the flag it sent and the page data. */
  datatype PublishToggle = PublishToggle(patch: bool, data: PageData)

  /** `handleTogglePublish`: the patch negates the course's flag; a failed patch only alerts
      and keeps the page, a successful one reloads it, so a course the server now lists with
      the new flag is shown with it when the user teaches it. */
  function TogglePublish(prior: PageData, user: Option<string>, course: CourseItem, patched: bool, replies: Option<Replies>)
    : (t: PublishToggle)
    ensures t.patch != course.isPublished
    ensures !patched ==> t.data == prior
    ensures patched ==> t.data == LoadData(prior, user, replies)
    ensures patched && replies.Some? && Teaches(user, course) &&
            CourseItem(course.id, course.professor, t.patch) in replies.value.courses
            ==> CourseItem(course.id, course.professor, t.patch) in t.data.courses
  {
    var patch := PublishPatch(course.isPublished);
    if !patched then PublishToggle(patch, prior)
    else
      if replies.Some? then
        MyCoursesExactly(replies.value.courses, user, CourseItem(course.id, course.professor, patch));
        PublishToggle(patch, LoadData(prior, user, replies))
      else PublishToggle(patch, LoadData(prior, user, replies))
  }
}
