/**
 * The stored records of the learning platform and the in-memory database the
 * controllers work on. Each collection is a map from record id to record; ids are
 * handed out by one counter, so a new record never reuses an id.
 *
 * The schema validators become validity predicates: a controller that would save a
 * record breaking one of them answers with a validation error and changes nothing.
 */
module Records {
  import opened Wrappers
  import opened Json
  import opened Seqs

  type Id = nat

  // ---------------------------------------------------------------------------
  // Enrollments
  // ---------------------------------------------------------------------------

  datatype Progress = Progress(completedExercises: int, totalExercises: int, percentage: int)

  datatype Enrollment = Enrollment(student: Id, course: Id, progress: Progress, status: string)

  const EnrollmentStatuses: set<string> := {"active", "completed", "dropped", "pending"}

  /** The bounds of the enrollment schema. */
  predicate ProgressValid(p: Progress) {
    p.completedExercises >= 0 && p.totalExercises >= 0 && 0 <= p.percentage <= 100
  }

  predicate EnrollmentValid(e: Enrollment) {
    ProgressValid(e.progress) && e.status in EnrollmentStatuses
  }

  /** The unique compound index on (student, course). */
  predicate PairsUnique(enrollments: map<Id, Enrollment>) {
    forall a, b :: a in enrollments && b in enrollments && a != b ==>
      enrollments[a].student != enrollments[b].student || enrollments[a].course != enrollments[b].course
  }

  // ---------------------------------------------------------------------------
  // Courses, reviews and exercises
  // ---------------------------------------------------------------------------

  datatype Review = Review(student: Id, rating: int, comment: string, sentimentAnalysis: Option<JsonValue>)

  datatype Course = Course(title: string, professor: Id, students: seq<Id>, reviews: seq<Review>, isPublished: bool)

  /** The bounds of the review sub-schema. */
  predicate ReviewValid(r: Review) {
    1 <= r.rating <= 5 && |r.comment| <= 1000
  }

  /** Every review is within the review sub-schema's bounds. */
  predicate CourseValid(c: Course) {
    forall i :: 0 <= i < |c.reviews| ==> ReviewValid(c.reviews[i])
  }

  /** No student has two reviews: not a schema rule, but the rule `addReview` checks before
      appending, so it keeps it. */
  predicate ReviewersUnique(reviews: seq<Review>) {
    forall i, j :: 0 <= i < j < |reviews| ==> reviews[i].student != reviews[j].student
  }

  datatype Exercise = Exercise(course: Id, title: string)

  // ---------------------------------------------------------------------------
  // Profiles
  // ---------------------------------------------------------------------------

  /** A user profile: the plain fields that are set, and the learning preferences. */
  datatype Profile = Profile(user: Id, fields: map<string, JsonValue>, preferences: map<string, JsonValue>)

  /** The fields of a profile that an update assigns one by one. */
  const ProfileFields: set<string> :=
    {"firstName", "lastName", "bio", "avatar", "phone", "address", "department", "specialization"}

  /** The schema defaults of the preferences. */
  const DefaultPreferences: map<string, JsonValue> :=
    map["language" := JStr("fr"),
        "difficulty" := JStr("medium"),
        "notifications" := JObj(map["email" := JBool(true), "push" := JBool(true)])]

  /** The enums of the preferences schema. */
  predicate PreferencesValid(p: map<string, JsonValue>) {
    && ("language" in p ==> p["language"] in {JStr("fr"), JStr("en"), JStr("ar")})
    && ("difficulty" in p ==> p["difficulty"] in {JStr("easy"), JStr("medium"), JStr("hard")})
  }

  /** The `maxlength` of the string fields of the profile schema. */
  const MaxLengths: map<string, nat> :=
    map["firstName" := 100, "lastName" := 100, "bio" := 1000, "phone" := 20,
        "department" := 200, "specialization" := 200]

  /** The string fields whose schema trims the value on assignment. */
  const TrimmedFields: set<string> := {"firstName", "lastName", "phone", "department", "specialization"}

  /** The bounds and enums of the profile schema. */
  predicate ProfileValid(p: Profile) {
    && PreferencesValid(p.preferences)
    && (forall k :: k in p.fields && k in MaxLengths && p.fields[k].JStr? ==> |p.fields[k].s| <= MaxLengths[k])
  }

  /** Each user has at most one profile. */
  predicate OneProfilePerUser(profiles: map<Id, Profile>) {
    forall a, b :: a in profiles && b in profiles && a != b ==> profiles[a].user != profiles[b].user
  }

  // ---------------------------------------------------------------------------
  // Submissions
  // ---------------------------------------------------------------------------

  datatype Submission = Submission(
    exercise: Id,
    student: Id,
    submittedAnswer: JsonValue,
    isCorrect: Option<bool>,
    score: Option<int>,
    feedback: Option<string>,
    sentimentAnalysis: Option<JsonValue>,
    status: string)

  const SubmissionStatuses: set<string> := {"pending", "graded", "reviewed"}

  /** The bounds and enums of the submission schema. */
  predicate SubmissionValid(s: Submission) {
    && (s.score.Some? ==> 0 <= s.score.value <= 100)
    && (s.feedback.Some? ==> |s.feedback.value| <= 5000)
    && s.status in SubmissionStatuses
    && (s.sentimentAnalysis.Some? ==> SentimentValid(s.sentimentAnalysis.value))
  }

  /** The sentiment label of a stored analysis is one of the three the schema allows. */
  predicate SentimentValid(analysis: JsonValue) {
    var tag := Get(analysis, "sentiment");
    tag.None? || tag.value in {JStr("positive"), JStr("negative"), JStr("neutral")}
  }

  /** `{ sentiment, label, confidence }` taken from a sentiment-service reply. */
  function SentimentOf(data: JsonValue): JsonValue {
    JObj(With(With(With(map[], "sentiment", Get(data, "sentiment")), "label", Get(data, "label")),
              "confidence", Get(data, "confidence")))
  }

  /** The annotation stored from the sentiment service's reply, when there is one. A `null` reply
      makes reading its fields throw, which the controllers swallow like a failed request. */
  function Annotation(reply: Option<JsonValue>): (a: Option<JsonValue>)
    ensures a.Some? <==> reply.Some? && !reply.value.JNull?
    ensures a.Some? ==> a.value == SentimentOf(reply.value)
  {
    if reply.Some? && !reply.value.JNull? then Some(SentimentOf(reply.value)) else None
  }

  // ---------------------------------------------------------------------------
  // Controller answers
  // ---------------------------------------------------------------------------

  /** What a controller answers: a status and a value, a refusal with the status it set,
      or a validation error handed to the error middleware. */
  datatype Outcome<T> = Done(status: int, value: T) | Refused(status: int, message: string) | Invalid

  // ---------------------------------------------------------------------------
  // Array updates on course.students
  // ---------------------------------------------------------------------------

  /** `$addToSet`: append unless already present. */
  function AddToSet(s: seq<Id>, x: Id): (r: seq<Id>)
    ensures x in r
    ensures forall y :: y in s ==> y in r
    ensures forall y :: y in r ==> y in s || y == x
    ensures x in s ==> r == s
  {
    if x in s then s else s + [x]
  }

  /** `$pull`: remove every occurrence. */
  function Pull(s: seq<Id>, x: Id): (r: seq<Id>)
    ensures x !in r
    ensures forall y :: y in r <==> y in s && y != x
    ensures x !in s ==> r == s
  {
    FilterMembershipAll(s, x);
    if x !in s then
      FilterKeepsAll(s, y => y != x);
      Filter(s, y => y != x)
    else Filter(s, y => y != x)
  }

  lemma FilterMembershipAll(s: seq<Id>, x: Id)
    ensures forall y :: y in Filter(s, z => z != x) <==> y in s && y != x
  {
    forall y ensures y in Filter(s, z => z != x) <==> y in s && y != x {
      FilterMembership(s, z => z != x, y);
    }
  }

  predicate NoDuplicates(s: seq<Id>) {
    forall i, j :: 0 <= i < j < |s| ==> s[i] != s[j]
  }

  /** `$addToSet` never introduces a duplicate. */
  lemma AddToSetKeepsNoDuplicates(s: seq<Id>, x: Id)
    requires NoDuplicates(s)
    ensures NoDuplicates(AddToSet(s, x))
  {
    if x !in s {
      var r := s + [x];
      forall i, j | 0 <= i < j < |r| ensures r[i] != r[j] {
        if j == |s| {
          assert r[i] == s[i];
        }
      }
    }
  }

  /** Enrolling then unenrolling a student who was not in the list restores it. */
  lemma PullUndoesAddToSet(s: seq<Id>, x: Id)
    requires x !in s
    ensures Pull(AddToSet(s, x), x) == s
  {
    var added := s + [x];
    assert added[..|s|] == s;
    FilterKeepsAll(s, y => y != x);
    FilterAppendDropped(s, x);
  }

  lemma {:induction false} FilterAppendDropped(s: seq<Id>, x: Id)
    ensures Filter(s + [x], y => y != x) == Filter(s, y => y != x)
    decreases |s|
  {
    if s == [] {
      assert [x][1..] == [];
    } else {
      assert (s + [x])[1..] == s[1..] + [x];
      FilterAppendDropped(s[1..], x);
    }
  }

  // ---------------------------------------------------------------------------
  // The database
  // ---------------------------------------------------------------------------

  /** A user's `profile` reference points at that user's profile, and every profile is referenced
      by its user. */
  predicate ProfileLinks(profiles: map<Id, Profile>, profileOf: map<Id, Id>) {
    && (forall u :: u in profileOf ==> profileOf[u] in profiles && profiles[profileOf[u]].user == u)
    && (forall id :: id in profiles ==> profiles[id].user in profileOf && profileOf[profiles[id].user] == id)
  }

  /** Every course id comes from the counter and every course satisfies its schema. */
  predicate CoursesValid(courses: map<Id, Course>, nextId: nat) {
    forall id :: id in courses ==> id < nextId && CourseValid(courses[id])
  }

  predicate ExercisesValid(exercises: map<Id, Exercise>, nextId: nat) {
    forall id :: id in exercises ==> id < nextId
  }

  /** Enrollment ids come from the counter, each enrollment satisfies its schema, and no two share a pair. */
  predicate EnrollmentsValid(enrollments: map<Id, Enrollment>, nextId: nat) {
    && (forall id :: id in enrollments ==> id < nextId && EnrollmentValid(enrollments[id]))
    && PairsUnique(enrollments)
  }

  /** Profile ids come from the counter, each profile satisfies its schema, each user has at most
      one, and the users' references agree with the profiles. */
  predicate ProfilesValid(profiles: map<Id, Profile>, profileOf: map<Id, Id>, nextId: nat) {
    && (forall id :: id in profiles ==> id < nextId && ProfileValid(profiles[id]))
    && OneProfilePerUser(profiles)
    && ProfileLinks(profiles, profileOf)
  }

  predicate SubmissionsValid(submissions: map<Id, Submission>, nextId: nat) {
    forall id :: id in submissions ==> id < nextId && SubmissionValid(submissions[id])
  }

  class Database {
    var courses: map<Id, Course>
    var exercises: map<Id, Exercise>
    var enrollments: map<Id, Enrollment>
    var profiles: map<Id, Profile>
    /** The `profile` reference of each user that has one. */
    var profileOf: map<Id, Id>
    var submissions: map<Id, Submission>
    var nextId: nat

    /** Ids come from the counter, and every stored record satisfies its schema. */
    predicate Valid()
      reads this
    {
      && CoursesValid(courses, nextId)
      && ExercisesValid(exercises, nextId)
      && EnrollmentsValid(enrollments, nextId)
      && ProfilesValid(profiles, profileOf, nextId)
      && SubmissionsValid(submissions, nextId)
    }

    constructor ()
      ensures Valid()
      ensures courses == map[] && exercises == map[] && enrollments == map[]
      ensures profiles == map[] && profileOf == map[] && submissions == map[]
    {
      courses, exercises, enrollments := map[], map[], map[];
      profiles, profileOf, submissions := map[], map[], map[];
      nextId := 0;
    }

    /** A new id, used by no record. */
    method NewId() returns (id: Id)
      requires Valid()
      modifies this
      ensures Valid()
      ensures id == old(nextId) && nextId == id + 1
      ensures id !in courses && id !in exercises && id !in enrollments && id !in profiles && id !in submissions
      ensures courses == old(courses) && exercises == old(exercises) && enrollments == old(enrollments)
      ensures profiles == old(profiles) && profileOf == old(profileOf) && submissions == old(submissions)
    {
      id := nextId;
      nextId := nextId + 1;
    }
  }
}
