/**
 * Enrolment of students in courses: enrol, update progress, unenrol, and the
 * enrolment status of a course for the current user. The enrollment collection
 * keeps at most one enrollment per (student, course); `course.students` mirrors it.
 */
module EnrollmentController {
  import opened Wrappers
  import opened Records

  /** Some enrollment links `student` to `course`. */
  predicate IsEnrolled(enrollments: map<Id, Enrollment>, student: Id, course: Id) {
    exists id :: id in enrollments && enrollments[id].student == student && enrollments[id].course == course
  }

  /** A new enrollment: schema defaults for progress and status. */
  function NewEnrollment(student: Id, course: Id): (e: Enrollment)
    ensures EnrollmentValid(e)
    ensures e.progress == Progress(0, 0, 0) && e.status == "active"
  {
    Enrollment(student, course, Progress(0, 0, 0), "active")
  }

  /** A new enrollment, under a fresh id, for a pair that has none keeps the enrollment table valid. */
  lemma EnrollKeepsEnrollmentsValid(enrollments: map<Id, Enrollment>, nextId: nat, id: Id, student: Id, course: Id)
    requires EnrollmentsValid(enrollments, nextId)
    requires id < nextId && id !in enrollments && !IsEnrolled(enrollments, student, course)
    ensures EnrollmentsValid(enrollments[id := NewEnrollment(student, course)], nextId)
  {
  }

  /** Adding a student to a course's list keeps the course table valid. */
  lemma AddStudentKeepsCoursesValid(courses: map<Id, Course>, nextId: nat, course: Id, student: Id)
    requires CoursesValid(courses, nextId) && course in courses
    ensures CoursesValid(courses[course := courses[course].(students := AddToSet(courses[course].students, student))], nextId)
  {
    var c := courses[course];
    assert CourseValid(c.(students := AddToSet(c.students, student))) by {
      assert c.(students := AddToSet(c.students, student)).reviews == c.reviews;
    }
  }

  /** `enrollInCourse`. */
  method EnrollInCourse(db: Database, user: Id, courseId: Id) returns (r: Outcome<Id>)
    requires db.Valid()
    modifies db
    ensures db.Valid()
    ensures courseId !in old(db.courses) ==> r == Refused(404, "Course not found") && unchanged(db)
    ensures courseId in old(db.courses) && IsEnrolled(old(db.enrollments), user, courseId) ==>
              r == Refused(400, "Already enrolled in this course") && unchanged(db)
    ensures courseId in old(db.courses) && !IsEnrolled(old(db.enrollments), user, courseId) ==>
      && r.Done? && r.status == 201
      && r.value !in old(db.enrollments)
      && db.enrollments == old(db.enrollments)[r.value := NewEnrollment(user, courseId)]
      && db.courses == old(db.courses)[courseId := old(db.courses)[courseId].(
                         students := AddToSet(old(db.courses)[courseId].students, user))]
      && db.exercises == old(db.exercises) && db.profiles == old(db.profiles)
      && db.profileOf == old(db.profileOf) && db.submissions == old(db.submissions)
    ensures IsEnrolled(db.enrollments, user, courseId) <==> courseId in old(db.courses) || IsEnrolled(old(db.enrollments), user, courseId)
  {
    if courseId !in db.courses {
      return Refused(404, "Course not found");
    }
    if IsEnrolled(db.enrollments, user, courseId) {
      return Refused(400, "Already enrolled in this course");
    }
    var id := db.NewId();
    EnrollKeepsEnrollmentsValid(db.enrollments, db.nextId, id, user, courseId);
    AddStudentKeepsCoursesValid(db.courses, db.nextId, courseId, user);
    var course := db.courses[courseId];
    SaveEnrollmentsAndCourses(db, db.enrollments[id := NewEnrollment(user, courseId)],
                              db.courses[courseId := course.(students := AddToSet(course.students, user))]);
    assert db.enrollments[id].student == user && db.enrollments[id].course == courseId;
    return Done(201, id);
  }

  /** The fields a progress update may carry; `None` is a field left undefined. */
  datatype ProgressUpdate = ProgressUpdate(completedExercises: Option<int>, totalExercises: Option<int>, percentage: Option<int>)

  /** `updateEnrollmentProgress`: only the enrolled student may update; only the provided
      fields change; a percentage of 100 or more completes the enrollment; a value outside
      the schema's bounds is a validation error and nothing is saved. */
  method UpdateEnrollmentProgress(db: Database, user: Id, enrollmentId: Id, update: ProgressUpdate)
    returns (r: Outcome<Enrollment>)
    requires db.Valid()
    modifies db
    ensures db.Valid()
    ensures enrollmentId !in old(db.enrollments) ==> r == Refused(404, "Enrollment not found") && unchanged(db)
    ensures enrollmentId in old(db.enrollments) && old(db.enrollments)[enrollmentId].student != user ==>
              r == Refused(403, "Not authorized") && unchanged(db)
    ensures r.Invalid? ==> unchanged(db)
    ensures r.Done? ==>
      var before := old(db.enrollments)[enrollmentId];
      var after := r.value;
      && enrollmentId in old(db.enrollments) && before.student == user
      && r.status == 200
      && db.enrollments == old(db.enrollments)[enrollmentId := after]
      && after.student == before.student && after.course == before.course
      && after.progress.completedExercises == update.completedExercises.GetOr(before.progress.completedExercises)
      && after.progress.totalExercises == update.totalExercises.GetOr(before.progress.totalExercises)
      && after.progress.percentage == update.percentage.GetOr(before.progress.percentage)
      && after.status == (if after.progress.percentage >= 100 then "completed" else before.status)
      && db.courses == old(db.courses) && db.exercises == old(db.exercises) && db.profiles == old(db.profiles)
      && db.profileOf == old(db.profileOf) && db.submissions == old(db.submissions) && db.nextId == old(db.nextId)
    ensures enrollmentId in old(db.enrollments) && old(db.enrollments)[enrollmentId].student == user ==>
      (r.Done? <==> ProgressValid(Progress(
                      update.completedExercises.GetOr(old(db.enrollments)[enrollmentId].progress.completedExercises),
                      update.totalExercises.GetOr(old(db.enrollments)[enrollmentId].progress.totalExercises),
                      update.percentage.GetOr(old(db.enrollments)[enrollmentId].progress.percentage))))
  {
    if enrollmentId !in db.enrollments {
      return Refused(404, "Enrollment not found");
    }
    var enrollment := db.enrollments[enrollmentId];
    if enrollment.student != user {
      return Refused(403, "Not authorized");
    }
    if update.completedExercises.Some? {
      enrollment := enrollment.(progress := enrollment.progress.(completedExercises := update.completedExercises.value));
    }
    if update.totalExercises.Some? {
      enrollment := enrollment.(progress := enrollment.progress.(totalExercises := update.totalExercises.value));
    }
    if update.percentage.Some? {
      enrollment := enrollment.(progress := enrollment.progress.(percentage := update.percentage.value));
    }
    if enrollment.progress.percentage >= 100 {
      enrollment := enrollment.(status := "completed");
    }
    if !EnrollmentValid(enrollment) {
      return Invalid;
    }
    assert EnrollmentsValid(db.enrollments[enrollmentId := enrollment], db.nextId);
    SaveEnrollmentsAndCourses(db, db.enrollments[enrollmentId := enrollment], db.courses);
    return Done(200, enrollment);
  }

  /** The enrollments left once the one for (student, course) is deleted. */
  function WithoutPair(enrollments: map<Id, Enrollment>, student: Id, course: Id): (rest: map<Id, Enrollment>)
    ensures !IsEnrolled(rest, student, course)
    ensures forall id :: id in rest ==> id in enrollments && rest[id] == enrollments[id]
    ensures forall id :: id in enrollments && !(enrollments[id].student == student && enrollments[id].course == course)
              ==> id in rest
  {
    map id | id in enrollments && !(enrollments[id].student == student && enrollments[id].course == course) :: enrollments[id]
  }

  /** The course table after `$pull` of `student` from `course.students`; a missing course
      leaves the table as it is. */
  function PullStudent(courses: map<Id, Course>, course: Id, student: Id): (r: map<Id, Course>)
    ensures r.Keys == courses.Keys
    ensures forall id :: id in r && id != course ==> r[id] == courses[id]
    ensures course in courses ==>
              r[course] == courses[course].(students := Pull(courses[course].students, student))
              && student !in r[course].students
    ensures forall id :: id in courses && CourseValid(courses[id]) ==> CourseValid(r[id])
  {
    if course in courses then courses[course := courses[course].(students := Pull(courses[course].students, student))]
    else courses
  }

  /** Deleting a pair's enrollments and pulling the student from the course keep both tables valid. */
  lemma UnenrollKeepsValid(enrollments: map<Id, Enrollment>, courses: map<Id, Course>, nextId: nat, student: Id, course: Id)
    requires EnrollmentsValid(enrollments, nextId) && CoursesValid(courses, nextId)
    ensures EnrollmentsValid(WithoutPair(enrollments, student, course), nextId)
    ensures CoursesValid(PullStudent(courses, course, student), nextId)
  {
  }

  /** Saves new enrollment and course tables that keep their invariants. */
  method SaveEnrollmentsAndCourses(db: Database, enrollments: map<Id, Enrollment>, courses: map<Id, Course>)
    requires db.Valid() && EnrollmentsValid(enrollments, db.nextId) && CoursesValid(courses, db.nextId)
    modifies db
    ensures db.Valid()
    ensures db.enrollments == enrollments && db.courses == courses
    ensures db.exercises == old(db.exercises) && db.profiles == old(db.profiles) && db.profileOf == old(db.profileOf)
    ensures db.submissions == old(db.submissions) && db.nextId == old(db.nextId)
  {
    db.enrollments, db.courses := enrollments, courses;
  }

  /** `unenrollFromCourse`. */
  method UnenrollFromCourse(db: Database, user: Id, courseId: Id) returns (r: Outcome<string>)
    requires db.Valid()
    modifies db
    ensures db.Valid()
    ensures !IsEnrolled(old(db.enrollments), user, courseId) ==> r == Refused(404, "Enrollment not found") && unchanged(db)
    ensures IsEnrolled(old(db.enrollments), user, courseId) ==>
      && r == Done(200, "Successfully unenrolled from course")
      && db.enrollments == WithoutPair(old(db.enrollments), user, courseId)
      && |db.enrollments| == |old(db.enrollments)| - 1
      && db.courses == PullStudent(old(db.courses), courseId, user)
      && db.exercises == old(db.exercises) && db.profiles == old(db.profiles)
      && db.profileOf == old(db.profileOf) && db.submissions == old(db.submissions)
    ensures !IsEnrolled(db.enrollments, user, courseId)
  {
    if !IsEnrolled(db.enrollments, user, courseId) {
      return Refused(404, "Enrollment not found");
    }
    var id :| id in db.enrollments && db.enrollments[id].student == user && db.enrollments[id].course == courseId;
    WithoutPairRemovesOne(db.enrollments, user, courseId, id);
    UnenrollKeepsValid(db.enrollments, db.courses, db.nextId, user, courseId);
    SaveEnrollmentsAndCourses(db, WithoutPair(db.enrollments, user, courseId), PullStudent(db.courses, courseId, user));
    return Done(200, "Successfully unenrolled from course");
  }

  /** `getEnrollmentStatus`: enrolled exactly when an enrollment exists for the pair, and then
      that enrollment is returned. */
  method GetEnrollmentStatus(db: Database, user: Id, courseId: Id)
    returns (isEnrolled: bool, enrollment: Option<Enrollment>)
    requires db.Valid()
    ensures isEnrolled <==> IsEnrolled(db.enrollments, user, courseId)
    ensures enrollment.Some? <==> isEnrolled
    ensures enrollment.Some? ==>
              enrollment.value.student == user && enrollment.value.course == courseId
              && exists id :: id in db.enrollments && db.enrollments[id] == enrollment.value
  {
    if IsEnrolled(db.enrollments, user, courseId) {
      var id :| id in db.enrollments && db.enrollments[id].student == user && db.enrollments[id].course == courseId;
      return true, Some(db.enrollments[id]);
    }
    return false, None;
  }

  /** With at most one enrollment per pair, deleting the pair's enrollment removes exactly one record. */
  lemma WithoutPairRemovesOne(enrollments: map<Id, Enrollment>, student: Id, course: Id, id: Id)
    requires PairsUnique(enrollments)
    requires id in enrollments && enrollments[id].student == student && enrollments[id].course == course
    ensures WithoutPair(enrollments, student, course) == enrollments - {id}
    ensures |WithoutPair(enrollments, student, course)| == |enrollments| - 1
  {
    assert (enrollments - {id}).Keys == enrollments.Keys - {id};
  }
}
