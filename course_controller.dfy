/**
 * Course reviews: a student rates a course once, with an optional comment whose
 * sentiment the sentiment service may annotate.
 */
module CourseController {
  import opened Wrappers
  import opened Json
  import opened Text
  import opened Records

  /** `course.reviews.find(r => r.student === studentId)` finds something. */
  predicate HasReviewBy(reviews: seq<Review>, student: Id) {
    exists i :: 0 <= i < |reviews| && reviews[i].student == student
  }

  /** Appending the review of a student who has none keeps one review per student. */
  lemma AppendNewReviewer(reviews: seq<Review>, review: Review)
    requires ReviewersUnique(reviews) && !HasReviewBy(reviews, review.student)
    ensures ReviewersUnique(reviews + [review])
  {
    var all := reviews + [review];
    forall i, j | 0 <= i < j < |all| ensures all[i].student != all[j].student {
      if j == |reviews| {
        assert all[i] == reviews[i];
      }
    }
  }

  /** A course with one more review with a rating in range passes the schema exactly when the
      comment fits its `maxlength`. */
  lemma AppendedCourseValid(course: Course, review: Review)
    requires CourseValid(course) && 1 <= review.rating <= 5
    ensures CourseValid(course.(reviews := course.reviews + [review])) <==> |review.comment| <= 1000
  {
    var all := course.reviews + [review];
    assert all[|all| - 1] == review;
    forall i | 0 <= i < |course.reviews| ensures all[i] == course.reviews[i] {
    }
  }

  /** `course.save()` of a course that passes the schema. */
  method SaveCourse(db: Database, courseId: Id, course: Course)
    requires db.Valid() && courseId in db.courses && CourseValid(course)
    modifies db
    ensures db.Valid()
    ensures db.courses == old(db.courses)[courseId := course]
    ensures db.enrollments == old(db.enrollments) && db.exercises == old(db.exercises) && db.profiles == old(db.profiles)
    ensures db.profileOf == old(db.profileOf) && db.submissions == old(db.submissions) && db.nextId == old(db.nextId)
  {
    db.courses := db.courses[courseId := course];
  }

  /** `comment && comment.trim()`: a comment that is present and not blank is sent for analysis. */
  predicate Analysable(comment: Option<string>) {
    comment.Some? && !IsBlank(comment.value)
  }

  /** The review a student adds: a missing or empty comment is stored as `""`, and the sentiment
      annotation is present only when the comment was analysed and the service answered. */
  function NewReview(student: Id, rating: int, comment: Option<string>, reply: Option<JsonValue>): (r: Review)
    ensures r.student == student && r.rating == rating
    ensures r.comment == (if comment.Some? then comment.value else "")
    ensures r.sentimentAnalysis.Some? <==> Analysable(comment) && reply.Some? && !reply.value.JNull?
  {
    var review := Review(student, rating, if comment.Some? then comment.value else "", None);
    if Analysable(comment) then review.(sentimentAnalysis := Annotation(reply)) else review
  }

  /** `!rating || rating < 1 || rating > 5`. */
  predicate RatingRejected(rating: Option<int>) {
    rating.None? || rating.value == 0 || rating.value < 1 || rating.value > 5
  }

  /** `addReview`. `reply` is the sentiment service's answer (`None` when the request fails);
      `analysed` tells whether the request was made. */
  method AddReview(db: Database, user: Id, courseId: Id, rating: Option<int>, comment: Option<string>,
                   reply: Option<JsonValue>)
    returns (r: Outcome<Course>, analysed: bool)
    requires db.Valid()
    modifies db
    ensures db.Valid()
    ensures !r.Done? ==> unchanged(db)
    ensures RatingRejected(rating) ==> r == Refused(400, "Rating must be between 1 and 5") && !analysed
    ensures !RatingRejected(rating) && courseId !in old(db.courses) ==> r == Refused(404, "Course not found") && !analysed
    ensures !RatingRejected(rating) && courseId in old(db.courses) && HasReviewBy(old(db.courses)[courseId].reviews, user) ==>
              r == Refused(400, "You have already reviewed this course") && !analysed
    ensures !RatingRejected(rating) && courseId in old(db.courses) && !HasReviewBy(old(db.courses)[courseId].reviews, user) ==>
      var review := NewReview(user, rating.value, comment, reply);
      var course := old(db.courses)[courseId].(reviews := old(db.courses)[courseId].reviews + [review]);
      && (analysed <==> Analysable(comment))
      && (r.Invalid? <==> |review.comment| > 1000)
      && (|review.comment| <= 1000 ==> r.Done?)
      && (r.Done? ==> r == Done(201, course) && db.courses == old(db.courses)[courseId := course])
    ensures r.Done? ==> HasReviewBy(r.value.reviews, user)
    ensures r.Done? && courseId in old(db.courses) && ReviewersUnique(old(db.courses)[courseId].reviews) ==>
              ReviewersUnique(r.value.reviews)
    ensures db.enrollments == old(db.enrollments) && db.exercises == old(db.exercises) && db.profiles == old(db.profiles)
    ensures db.profileOf == old(db.profileOf) && db.submissions == old(db.submissions) && db.nextId == old(db.nextId)
  {
    analysed := false;
    if rating.None? || rating.value == 0 || rating.value < 1 || rating.value > 5 {
      return Refused(400, "Rating must be between 1 and 5"), analysed;
    }
    if courseId !in db.courses {
      return Refused(404, "Course not found"), analysed;
    }
    var course := db.courses[courseId];
    if HasReviewBy(course.reviews, user) {
      return Refused(400, "You have already reviewed this course"), analysed;
    }
    var review := Review(user, rating.value, if comment.Some? then comment.value else "", None);
    if comment.Some? && !IsBlank(comment.value) {
      analysed := true;
      if reply.Some? && !reply.value.JNull? {
        review := review.(sentimentAnalysis := Some(SentimentOf(reply.value)));
      }
    }
    assert review == NewReview(user, rating.value, comment, reply);
    r := PushReview(db, courseId, course, review);
  }

  /** `course.reviews.push(review); await course.save()`: the schema rejects a comment over
      1000 characters and nothing is stored; otherwise the course with the new review is saved. */
  method PushReview(db: Database, courseId: Id, course: Course, review: Review) returns (r: Outcome<Course>)
    requires db.Valid() && courseId in db.courses && db.courses[courseId] == course
    requires 1 <= review.rating <= 5 && !HasReviewBy(course.reviews, review.student)
    modifies db
    ensures db.Valid()
    ensures !r.Done? ==> unchanged(db)
    ensures r.Done? || r.Invalid?
    ensures r.Invalid? <==> |review.comment| > 1000
    ensures r.Done? ==> r == Done(201, course.(reviews := course.reviews + [review])) &&
                        db.courses == old(db.courses)[courseId := r.value]
    ensures r.Done? ==> HasReviewBy(r.value.reviews, review.student)
    ensures r.Done? && ReviewersUnique(course.reviews) ==> ReviewersUnique(r.value.reviews)
    ensures db.enrollments == old(db.enrollments) && db.exercises == old(db.exercises) && db.profiles == old(db.profiles)
    ensures db.profileOf == old(db.profileOf) && db.submissions == old(db.submissions) && db.nextId == old(db.nextId)
  {
    AppendedCourseValid(course, review);
    if ReviewersUnique(course.reviews) {
      AppendNewReviewer(course.reviews, review);
    }
    var updated := course.(reviews := course.reviews + [review]);
    assert updated.reviews[|updated.reviews| - 1].student == review.student;
    if |review.comment| > 1000 {
      return Invalid;
    }
    SaveCourse(db, courseId, updated);
    return Done(201, updated);
  }
}
