/**
 * Exercise submissions: create and update (with an optional sentiment annotation of the
 * professor's feedback), list by query, read, delete, and the submissions to the courses
 * of one professor annotated with their course.
 */
module SubmissionController {
  import opened Wrappers
  import opened Json
  import opened Records

  /** The submission fields a request body may carry; `None` is a field left undefined. */
  datatype SubmissionBody = SubmissionBody(
    exercise: Option<Id>,
    student: Option<Id>,
    submittedAnswer: Option<JsonValue>,
    isCorrect: Option<bool>,
    score: Option<int>,
    feedback: Option<string>,
    sentimentAnalysis: Option<JsonValue>,
    status: Option<string>)

  /** `req.body.feedback && typeof req.body.feedback === 'string'`: a non-empty feedback text. */
  predicate HasFeedbackText(body: SubmissionBody) {
    body.feedback.Some? && body.feedback.value != ""
  }

  // ---------------------------------------------------------------------------
  // Create
  // ---------------------------------------------------------------------------

  /** The body has what the schema requires: an exercise, a student and a non-null answer. */
  predicate HasRequired(body: SubmissionBody) {
    body.exercise.Some? && body.student.Some? && body.submittedAnswer.Some? && !body.submittedAnswer.value.JNull?
  }

  /** The document `Submission.create(body)` builds: the body's fields, status defaulting to "pending". */
  function FromBody(body: SubmissionBody): (s: Submission)
    requires HasRequired(body)
    ensures s.exercise == body.exercise.value && s.student == body.student.value
    ensures s.submittedAnswer == body.submittedAnswer.value
    ensures s.status == body.status.GetOr("pending")
    ensures s.score == body.score && s.feedback == body.feedback && s.isCorrect == body.isCorrect
    ensures s.sentimentAnalysis == body.sentimentAnalysis
  {
    Submission(body.exercise.value, body.student.value, body.submittedAnswer.value, body.isCorrect,
               body.score, body.feedback, body.sentimentAnalysis, body.status.GetOr("pending"))
  }

  /** `submission.save()`: stores `s` under an id the counter has issued; nothing else changes. */
  method PutSubmission(db: Database, id: Id, s: Submission)
    requires db.Valid() && id < db.nextId && SubmissionValid(s)
    modifies db
    ensures db.Valid()
    ensures db.submissions == old(db.submissions)[id := s]
    ensures db.courses == old(db.courses) && db.exercises == old(db.exercises) && db.enrollments == old(db.enrollments)
    ensures db.profiles == old(db.profiles) && db.profileOf == old(db.profileOf) && db.nextId == old(db.nextId)
  {
    db.submissions := db.submissions[id := s];
  }

  /** Saving a record again under the same id keeps only the second version. */
  lemma SecondSaveWins(m: map<Id, Submission>, id: Id, first: Submission, second: Submission)
    ensures m[id := first][id := second] == m[id := second]
  {
  }

  /** `createSubmission`. `reply` is the sentiment service's answer (`None` when the request fails),
      `analysed` tells whether the request was made, `id` is the new submission's id. The annotated
      document is saved again only when it passes the schema; either way the answer is 201 with the
      document as annotated in memory. */
  method CreateSubmission(db: Database, body: SubmissionBody, reply: Option<JsonValue>)
    returns (r: Outcome<Submission>, analysed: bool, id: Id)
    requires db.Valid()
    modifies db
    ensures db.Valid()
    ensures r.Done? || r.Invalid?
    ensures r.Invalid? <==> !HasRequired(body) || !SubmissionValid(FromBody(body))
    ensures r.Invalid? ==> unchanged(db) && !analysed
    ensures r.Done? ==>
      var created := FromBody(body);
      var annotated := if analysed && Annotation(reply).Some? then created.(sentimentAnalysis := Annotation(reply)) else created;
      && r == Done(201, annotated)
      && (analysed <==> HasFeedbackText(body))
      && id !in old(db.submissions)
      && db.submissions == old(db.submissions)[id := if SubmissionValid(annotated) then annotated else created]
      && db.courses == old(db.courses) && db.exercises == old(db.exercises) && db.enrollments == old(db.enrollments)
      && db.profiles == old(db.profiles) && db.profileOf == old(db.profileOf)
  {
    analysed, id := false, 0;
    if !HasRequired(body) || !SubmissionValid(FromBody(body)) {
      return Invalid, analysed, id;
    }
    var submission := FromBody(body);
    id := db.NewId();
    PutSubmission(db, id, submission);
    if HasFeedbackText(body) {
      analysed := true;
      var annotation := Annotation(reply);
      if annotation.Some? {
        var created := submission;
        submission := submission.(sentimentAnalysis := annotation);
        if SubmissionValid(submission) {
          PutSubmission(db, id, submission);
          SecondSaveWins(old(db.submissions), id, created, submission);
        }
      }
    }
    return Done(201, submission), analysed, id;
  }

  // ---------------------------------------------------------------------------
  // List, read, update, delete
  // ---------------------------------------------------------------------------

  /** The query string of a listing, its ids already parsed; `None` or `""` is a parameter left out. */
  datatype Query = Query(exercise: Option<Id>, student: Option<Id>, status: Option<string>)

  /** A condition of a Mongo filter document. */
  datatype Criterion = IdIs(id: Id) | TextIs(text: string)

  /** A submission satisfies every condition of a filter on exercise, student and status. */
  predicate Matches(s: Submission, filter: map<string, Criterion>) {
    && ("exercise" in filter ==> filter["exercise"] == IdIs(s.exercise))
    && ("student" in filter ==> filter["student"] == IdIs(s.student))
    && ("status" in filter ==> filter["status"] == TextIs(s.status))
  }

  /** `getSubmissions`: the filter holds exactly the query parameters that are present, and the
      listing is the submissions satisfying it. */
  method GetSubmissions(db: Database, query: Query) returns (filter: map<string, Criterion>, found: set<Id>)
    ensures filter.Keys <= {"exercise", "student", "status"}
    ensures "exercise" in filter <==> query.exercise.Some?
    ensures "student" in filter <==> query.student.Some?
    ensures "status" in filter <==> query.status.Some? && query.status.value != ""
    ensures forall id :: id in found <==>
      && id in db.submissions
      && (query.exercise.Some? ==> db.submissions[id].exercise == query.exercise.value)
      && (query.student.Some? ==> db.submissions[id].student == query.student.value)
      && (query.status.Some? && query.status.value != "" ==> db.submissions[id].status == query.status.value)
  {
    filter := map[];
    if query.exercise.Some? {
      filter := filter["exercise" := IdIs(query.exercise.value)];
    }
    if query.student.Some? {
      filter := filter["student" := IdIs(query.student.value)];
    }
    if query.status.Some? && query.status.value != "" {
      filter := filter["status" := TextIs(query.status.value)];
    }
    found := set id | id in db.submissions && Matches(db.submissions[id], filter);
  }

  /** `getSubmissionById`. */
  method GetSubmissionById(db: Database, id: Id) returns (r: Outcome<Submission>)
    ensures id !in db.submissions <==> r == Refused(404, "Submission not found")
    ensures id in db.submissions ==> r == Done(200, db.submissions[id])
  {
    if id !in db.submissions {
      return Refused(404, "Submission not found");
    }
    return Done(200, db.submissions[id]);
  }

  /** `findByIdAndUpdate(id, body)`: the provided fields replace the stored ones. */
  function Patched(s: Submission, body: SubmissionBody): (t: Submission)
    ensures t.exercise == body.exercise.GetOr(s.exercise) && t.student == body.student.GetOr(s.student)
    ensures t.submittedAnswer == body.submittedAnswer.GetOr(s.submittedAnswer)
    ensures t.isCorrect == (if body.isCorrect.Some? then body.isCorrect else s.isCorrect)
    ensures t.score == (if body.score.Some? then body.score else s.score)
    ensures t.feedback == (if body.feedback.Some? then body.feedback else s.feedback)
    ensures t.sentimentAnalysis == (if body.sentimentAnalysis.Some? then body.sentimentAnalysis else s.sentimentAnalysis)
    ensures t.status == body.status.GetOr(s.status)
  {
    Submission(
      body.exercise.GetOr(s.exercise), body.student.GetOr(s.student),
      body.submittedAnswer.GetOr(s.submittedAnswer),
      if body.isCorrect.Some? then body.isCorrect else s.isCorrect,
      if body.score.Some? then body.score else s.score,
      if body.feedback.Some? then body.feedback else s.feedback,
      if body.sentimentAnalysis.Some? then body.sentimentAnalysis else s.sentimentAnalysis,
      body.status.GetOr(s.status))
  }

  /** `{ ...earlier, ...later }` on two request bodies: each field the later body defines wins. */
  function Merge(earlier: SubmissionBody, later: SubmissionBody): SubmissionBody {
    SubmissionBody(
      if later.exercise.Some? then later.exercise else earlier.exercise,
      if later.student.Some? then later.student else earlier.student,
      if later.submittedAnswer.Some? then later.submittedAnswer else earlier.submittedAnswer,
      if later.isCorrect.Some? then later.isCorrect else earlier.isCorrect,
      if later.score.Some? then later.score else earlier.score,
      if later.feedback.Some? then later.feedback else earlier.feedback,
      if later.sentimentAnalysis.Some? then later.sentimentAnalysis else earlier.sentimentAnalysis,
      if later.status.Some? then later.status else earlier.status)
  }

  /** Two updates in a row are one update with the merged body: the later patch wins field by
      field, and every field neither patch names keeps its stored value. */
  lemma PatchesCompose(s: Submission, first: SubmissionBody, second: SubmissionBody)
    ensures Patched(Patched(s, first), second) == Patched(s, Merge(first, second))
  {
  }

  /** Sending the same update twice is sending it once. */
  lemma PatchIdempotent(s: Submission, body: SubmissionBody)
    ensures Patched(Patched(s, body), body) == Patched(s, body)
  {
    PatchesCompose(s, body, body);
    assert Merge(body, body) == body;
  }

  /** Creating a submission and then updating it gives the submission created from the merged
      body, as long as the update does not null the required answer. */
  lemma CreateThenUpdate(first: SubmissionBody, second: SubmissionBody)
    requires HasRequired(first)
    requires second.submittedAnswer.Some? ==> !second.submittedAnswer.value.JNull?
    ensures HasRequired(Merge(first, second))
    ensures Patched(FromBody(first), second) == FromBody(Merge(first, second))
  {
  }

  /** A body with no fields changes nothing. */
  lemma EmptyPatchKeeps(s: Submission)
    ensures Patched(s, SubmissionBody(None, None, None, None, None, None, None, None)) == s
  {
  }

  /** `updateSubmission`. The sentiment request is made for a feedback text before the submission
      is looked up, so it is made even when the answer is 404; a failed request leaves the update as sent. */
  method UpdateSubmission(db: Database, id: Id, body: SubmissionBody, reply: Option<JsonValue>)
    returns (r: Outcome<Submission>, analysed: bool)
    requires db.Valid()
    modifies db
    ensures db.Valid()
    ensures analysed <==> HasFeedbackText(body)
    ensures !r.Done? ==> unchanged(db)
    ensures id !in old(db.submissions) ==> r == Refused(404, "Submission not found")
    ensures id in old(db.submissions) ==>
      var sent := if analysed && Annotation(reply).Some? then body.(sentimentAnalysis := Annotation(reply)) else body;
      var updated := Patched(old(db.submissions)[id], sent);
      && (r.Done? || r.Invalid?)
      && (r.Invalid? <==> !SubmissionValid(updated))
      && (r.Done? ==> r == Done(200, updated) && db.submissions == old(db.submissions)[id := updated])
    ensures db.courses == old(db.courses) && db.exercises == old(db.exercises) && db.enrollments == old(db.enrollments)
    ensures db.profiles == old(db.profiles) && db.profileOf == old(db.profileOf) && db.nextId == old(db.nextId)
  {
    var sent := body;
    analysed := false;
    if body.feedback.Some? && body.feedback.value != "" {
      analysed := true;
      if reply.Some? && !reply.value.JNull? {
        sent := sent.(sentimentAnalysis := Some(SentimentOf(reply.value)));
      }
    }
    if id !in db.submissions {
      return Refused(404, "Submission not found"), analysed;
    }
    var updated := Patched(db.submissions[id], sent);
    if !SubmissionValid(updated) {
      return Invalid, analysed;
    }
    db.submissions := db.submissions[id := updated];
    return Done(200, updated), analysed;
  }

  /** `deleteSubmission`. */
  method DeleteSubmission(db: Database, id: Id) returns (r: Outcome<string>)
    requires db.Valid()
    modifies db
    ensures db.Valid()
    ensures id !in old(db.submissions) ==> r == Refused(404, "Submission not found") && unchanged(db)
    ensures id in old(db.submissions) ==> r == Done(200, "Submission deleted") && db.submissions == old(db.submissions) - {id}
    ensures id !in db.submissions
    ensures db.courses == old(db.courses) && db.exercises == old(db.exercises) && db.enrollments == old(db.enrollments)
    ensures db.profiles == old(db.profiles) && db.profileOf == old(db.profileOf) && db.nextId == old(db.nextId)
  {
    if id !in db.submissions {
      return Refused(404, "Submission not found");
    }
    db.submissions := db.submissions - {id};
    return Done(200, "Submission deleted");
  }

  // ---------------------------------------------------------------------------
  // Submissions to a professor's courses
  // ---------------------------------------------------------------------------

  /** A submission with the course it was made in. */
  datatype Annotated = Annotated(id: Id, submission: Submission, courseName: string, courseId: Option<Id>)

  /** `req.query.professorId || req.user._id`. */
  function ProfessorOf(queried: Option<Id>, user: Id): (p: Id)
    ensures queried.Some? ==> p == queried.value
    ensures queried.None? ==> p == user
  {
    if queried.Some? then queried.value else user
  }

  /** `course?.title || 'Unknown Course'`. */
  function CourseName(course: Option<Course>): (name: string)
    ensures name != ""
    ensures course.Some? && course.value.title != "" ==> name == course.value.title
  {
    if course.Some? && course.value.title != "" then course.value.title else "Unknown Course"
  }

  /** The submission `id` belongs to the professor: its exercise belongs to a course the professor owns. */
  predicate OwnedBy(courses: map<Id, Course>, exercises: map<Id, Exercise>, submissions: map<Id, Submission>,
                    professor: Id, id: Id) {
    && id in submissions
    && submissions[id].exercise in exercises
    && exercises[submissions[id].exercise].course in courses
    && courses[exercises[submissions[id].exercise].course].professor == professor
  }

  /** `getProfessorSubmissions`: the professor's courses, their exercises, the submissions to those
      exercises, each annotated with the course found through its exercise. */
  function ProfessorSubmissions(courses: map<Id, Course>, exercises: map<Id, Exercise>,
                                submissions: map<Id, Submission>, professor: Id): (r: set<Annotated>)
    ensures forall a :: a in r ==>
      && OwnedBy(courses, exercises, submissions, professor, a.id)
      && a.submission == submissions[a.id]
      && a.courseId == Some(exercises[a.submission.exercise].course)
      && a.courseName == CourseName(Some(courses[exercises[a.submission.exercise].course]))
    ensures forall id :: OwnedBy(courses, exercises, submissions, professor, id) ==>
      exists a :: a in r && a.id == id
    ensures forall a, b :: a in r && b in r && a.id == b.id ==> a == b
  {
    var courseIds := set c | c in courses && courses[c].professor == professor;
    var exerciseIds := set e | e in exercises && exercises[e].course in courseIds;
    var found := set s | s in submissions && submissions[s].exercise in exerciseIds;
    var r := set s | s in found :: Annotate(courses, exercises, submissions, s);
    assert forall id :: OwnedBy(courses, exercises, submissions, professor, id) ==>
      id in found && Annotate(courses, exercises, submissions, id) in r;
    r
  }

  /** The annotation of one found submission: its exercise and that exercise's course looked up. */
  function Annotate(courses: map<Id, Course>, exercises: map<Id, Exercise>, submissions: map<Id, Submission>, s: Id): Annotated
    requires s in submissions
  {
    var sub := submissions[s];
    var course := if sub.exercise in exercises && exercises[sub.exercise].course in courses
                  then Some(courses[exercises[sub.exercise].course]) else None;
    var courseId := if sub.exercise in exercises && exercises[sub.exercise].course in courses
                    then Some(exercises[sub.exercise].course) else None;
    Annotated(s, sub, CourseName(course), courseId)
  }

  /** A professor who owns no course gets no submissions. */
  lemma NoCoursesNoSubmissions(courses: map<Id, Course>, exercises: map<Id, Exercise>,
                               submissions: map<Id, Submission>, professor: Id)
    requires forall c :: c in courses ==> courses[c].professor != professor
    ensures ProfessorSubmissions(courses, exercises, submissions, professor) == {}
  {
  }

  /** Two professors never see the same submission. */
  lemma ProfessorsSeeDisjointSubmissions(courses: map<Id, Course>, exercises: map<Id, Exercise>,
                                         submissions: map<Id, Submission>, p: Id, q: Id, a: Annotated)
    requires p != q
    requires a in ProfessorSubmissions(courses, exercises, submissions, p)
    ensures forall b :: b in ProfessorSubmissions(courses, exercises, submissions, q) ==> b.id != a.id
  {
  }
}
