# SmartLearn core, modelled in Dafny

SmartLearn is a MERN learning platform. An Express backend stores courses, exercises,
enrollments, submissions and user profiles in MongoDB. It reaches three Python AI services
(exercise generation, chat, sentiment) through one gateway client. React pages let students
chat, generate and check exercises, review their submissions and edit their profile.
Professors manage their courses on their own page.

This project models the parts of SmartLearn that make decisions:

- `AIServiceClient` is the gateway (`utils/aiServiceClient.js`).
  - The retry loop `callAIService` is a method proved equal to a recursive specification `CallSpec`.
  - The transport is a function from attempt number to outcome.
  - The backoff delays are a recorded list.
  - It also models error normalisation, the timeout table and the three-service health report.
- `AIRoutes` holds the decision logic of `routes/aiRoutes.js`:
  - the question-count clamp;
  - the generation fallback to the legacy endpoint;
  - the three-tier answer check and its trimmed, lower-cased comparison;
  - the default-subject fallback, the 400s on missing input, `handleAIError` and the health status.
- `Records` is an in-memory database class (one map per collection). It carries the schema
  bounds and enums as its invariant. `EnrollmentController`, `UserProfileController`,
  `CourseController` and `SubmissionController` are methods that update it in place.
- `Chatbot`, `ExerciseGenerator`, `StudentSubmissions`, `ProfessorCourses` and `ProfilePage`
  model the state logic of the React pages:
  - pages whose handlers call state setters are classes;
  - the chat reducer and the pure list helpers are functions.
- Shared modules:
  - `Wrappers`: `Option`.
  - `Json`: JSON values with JavaScript's truthiness, `||`, `??`, `?.` and spread.
  - `Text`: `trim` and `toLowerCase` on ASCII.
  - `Seqs`: order-preserving `Filter` and its lemmas.
  - `ApiCalls`: the outcome of one HTTP call made by a page.

Requests to other services and to the database are not performed. Each reply is a
parameter of the operation that receives it, for example `reply: CallOutcome` or
`transport: nat -> Outcome`. Calls the model needs to report come back as out-parameters,
such as `request`, `analysed` and `calls`.

## Model

| member | source | states |
|---|---|---|
| AIServiceClient.ConfigFromEnv | SmartLearn/backend/utils/aiServiceClient.js:6-19 | a set, non-empty URL variable is used as the service URL, and an unset or empty one falls back to localhost:5001/5002/5003; chat and exercise timeouts default to 300000 and 120000 ms; the configuration registers exactly the three services |
| AIServiceClient.RegisteredNames | SmartLearn/backend/utils/aiServiceClient.js:6-10 | a service is registered iff its name is exercise, chat or sentiment |
| AIServiceClient.DefaultTimeout | SmartLearn/backend/utils/aiServiceClient.js:13-36 | a call never gets a zero timeout; health gets 5000 ms and sentiment 30000 ms; chat and exercise get their configured timeout unless it is 0, which falls back to 60000 ms; any other name gets 60000 ms |
| AIServiceClient.NormalizeTable | SmartLearn/backend/utils/aiServiceClient.js:143-186 | ECONNREFUSED → SERVICE_UNAVAILABLE/503, ECONNABORTED/ETIMEDOUT → TIMEOUT/504, ENOTFOUND/EAI_AGAIN → NETWORK_ERROR/503, a response → SERVICE_ERROR with its status, else UNKNOWN/500 |
| AIServiceClient.NormalizeIdempotent | SmartLearn/backend/utils/aiServiceClient.js:144-146 | an AIServiceError passes through unchanged, so normalising twice equals normalising once |
| AIServiceClient.Pow2 | SmartLearn/backend/utils/aiServiceClient.js:52 | the backoff factor 2^n is at least 1 |
| AIServiceClient.Run | SmartLearn/backend/utils/aiServiceClient.js:48-88 | from attempt k, between 1 and retries−k+1 attempts are made, and one delay precedes each attempt after the first |
| AIServiceClient.CallAIService | SmartLearn/backend/utils/aiServiceClient.js:32-91 | the imperative loop returns the result, attempt count and delays of the specification `CallSpec` |
| AIServiceClient.LastAttempt | SmartLearn/backend/utils/aiServiceClient.js:48 | the deciding attempt lies between k and retries |
| AIServiceClient.RunRetriesOnlyTransient | SmartLearn/backend/utils/aiServiceClient.js:74-87 | every attempt before the deciding one failed with a retryable (non-4xx) error |
| AIServiceClient.RunEndsAtStop | SmartLearn/backend/utils/aiServiceClient.js:74-90 | the call ends at the first success or 4xx error, or after the last attempt, and returns that attempt's result |
| AIServiceClient.RunDelaysDouble | SmartLearn/backend/utils/aiServiceClient.js:50-54 | each recorded delay is 1000·2^(k−1) for the attempt k it precedes |
| AIServiceClient.UnknownServiceFailsFast | SmartLearn/backend/utils/aiServiceClient.js:40-43 | an unknown service fails with INVALID_SERVICE/500, makes no attempt and waits no delay |
| AIServiceClient.CallBounds | SmartLearn/backend/utils/aiServiceClient.js:37-54 | a registered call makes 1..retries+1 attempts, and the delays run 1000, 2000, 4000, … |
| AIServiceClient.SingleAttemptWithoutRetries | SmartLearn/backend/utils/aiServiceClient.js:48 | with retries 0 there is exactly one attempt and no delay |
| AIServiceClient.FirstStopDecides | SmartLearn/backend/utils/aiServiceClient.js:74-81 | the first attempt that succeeds or fails with a 4xx decides the result, after exactly j+1 attempts |
| AIServiceClient.AllAttemptsFail | SmartLearn/backend/utils/aiServiceClient.js:83-90 | when every attempt fails transiently, retries+1 attempts are made and the last attempt's normalised error is thrown |
| AIServiceClient.ClientErrorsAreNotRetried | SmartLearn/backend/utils/aiServiceClient.js:66-81 | a 4xx error, whether from a response or a normalised failure, ends the call with no further attempt |
| AIServiceClient.AttemptNeverInvalid | SmartLearn/backend/utils/aiServiceClient.js:56-87 | an attempt never yields INVALID_SERVICE |
| AIServiceClient.RegisteredNeverInvalid | SmartLearn/backend/utils/aiServiceClient.js:40-90 | a registered service never fails with INVALID_SERVICE |
| AIServiceClient.ConnectionRefusedScenario | SmartLearn/backend/utils/aiServiceClient.js:149-155 | a refused chat call with one retry makes 2 attempts, waits 1000 ms and fails with 503 |
| AIServiceClient.NotFoundScenario | SmartLearn/backend/utils/aiServiceClient.js:66-72 | a 404 reply fails at once with SERVICE_ERROR/404 and the body's message |
| AIServiceClient.TimeoutScenario | SmartLearn/backend/utils/aiServiceClient.js:158-164 | a timing-out call with two retries makes 3 attempts, waits 1000 then 2000 ms and fails with 504 |
| AIServiceClient.ConvenienceOperationsBounded | SmartLearn/backend/utils/aiServiceClient.js:196-245 | every `aiClient` operation uses its service and default retries, so it makes at most 2 attempts |
| AIServiceClient.FormatResult | SmartLearn/backend/utils/aiServiceClient.js:106-114 | corrected (see Findings): an entry's status is "healthy" iff the probe fulfilled |
| AIServiceClient.HealthOverall | SmartLearn/backend/utils/aiServiceClient.js:97-128 | corrected (see Findings): overall is healthy iff all three probes fulfilled; a failed probe is "down"; each probe makes one attempt |
| AIServiceClient.FormatResultAsWritten | SmartLearn/backend/utils/aiServiceClient.js:106-114 | as written: a rejected probe is "down"; a fulfilled probe is "healthy" unless its body carries its own `status`, which then replaces it; "healthy" implies the probe fulfilled |
| AIServiceClient.HealthAsWritten | SmartLearn/backend/utils/aiServiceClient.js:97-128 | as written: a healthy report means all three probes fulfilled; a failed probe is "down"; when no reply body carries its own `status`, healthy iff all three probes fulfilled |
| AIServiceClient.WithUrlKeepsStatus | SmartLearn/backend/utils/aiServiceClient.js:116-120 | adding the url to an entry keeps its status |
| AIServiceClient.HealthAsWrittenMisreports | SmartLearn/backend/utils/aiServiceClient.js:106-108 | as written, three fulfilled probes whose bodies say status "ok" are reported degraded |
| AIRoutes.HandleAIError | SmartLearn/backend/routes/aiRoutes.js:389-395 | an AIServiceError answers with its own status, message and code; any other error answers 500 with no code |
| AIRoutes.GatewayFailureStatus | SmartLearn/backend/routes/aiRoutes.js:389-395 | a refused, timed-out or unreachable service surfaces as 503, 504 or 503 |
| AIRoutes.QuestionCount | SmartLearn/backend/routes/aiRoutes.js:74 | the count is always in [1, 10]; missing or below 1 gives 1, above 10 gives 10, otherwise it is kept |
| AIRoutes.GeneratePayload | SmartLearn/backend/routes/aiRoutes.js:70-84 | the payload carries a clamped count, the subject (falling back to the topic) and the difficulty, defaulting to "medium" |
| AIRoutes.ExerciseGenerate | SmartLearn/backend/routes/aiRoutes.js:66-118 | 400 without subject or topic; the primary reply on success; otherwise the legacy reply; if both fail, the original error |
| AIRoutes.GeneratedReply | SmartLearn/backend/routes/aiRoutes.js:86-93 | the success reply has status 200; its `exercises` is the service's list, or a one-element list of its single exercise, and `total` defaults to 1 |
| AIRoutes.LegacyReply | SmartLearn/backend/routes/aiRoutes.js:107-113 | the fallback reply has status 200; its `exercises` holds the legacy exercise when one came back and is empty otherwise; `total` is always 1 |
| AIRoutes.GenerateExerciseRoute | SmartLearn/backend/routes/aiRoutes.js:16-44 | no subject answers 400 and calls nothing; otherwise one generation call, with its error mapped by handleAIError |
| AIRoutes.ExerciseSubjectsRoute | SmartLearn/backend/routes/aiRoutes.js:125-141 | always 200 with an array; the six default subjects (fromCache) on error or on a reply that is not an array |
| AIRoutes.SubjectsRoute | SmartLearn/backend/routes/aiRoutes.js:51-59 | 200 with the service's subjects iff the call succeeded, otherwise 500 with an empty list |
| AIRoutes.StudentAnswer | SmartLearn/backend/routes/aiRoutes.js:153 | `student` takes precedence over `userAnswer` |
| AIRoutes.ExpectedAnswer | SmartLearn/backend/routes/aiRoutes.js:154 | `expected` before `correctAnswer` before `exercise.answer` |
| AIRoutes.ComparisonSymmetric | SmartLearn/backend/routes/aiRoutes.js:225-226 | for any two string answers, empty ones included, the final comparison is the case- and padding-insensitive match, and it is symmetric |
| AIRoutes.ComparisonIgnoresPadding | SmartLearn/backend/routes/aiRoutes.js:225-226 | surrounding white space on the student's answer does not change the verdict |
| AIRoutes.ComparisonIgnoresCase | SmartLearn/backend/routes/aiRoutes.js:225-226 | a lower-cased answer matches its original |
| AIRoutes.ComparisonWithoutExpected | SmartLearn/backend/routes/aiRoutes.js:225-226 | with no expected answer the comparison is against `''`, so an answer is judged correct iff it is all white space |
| AIRoutes.PythonReply | SmartLearn/backend/routes/aiRoutes.js:163-178 | the Python tier answers 200 with the service's `correct`, `expected` and `student`; the feedback is 'Correct! 🎉' iff `correct` is truthy, else 'Not quite right.' |
| AIRoutes.AIReply | SmartLearn/backend/routes/aiRoutes.js:211-218 | the AI tier answers 200 with the parsed verdict; steps fall back to the exercise's solution steps, then to [] |
| AIRoutes.ComparisonReply | SmartLearn/backend/routes/aiRoutes.js:225-235 | the last tier answers 200 with the comparison's verdict and the matching feedback |
| AIRoutes.CheckAnswer | SmartLearn/backend/routes/aiRoutes.js:148-240 | 400 without an answer; otherwise the first tier that succeeds answers: Python, then AI (only when an object was parsed), then comparison |
| AIRoutes.ChatRoute | SmartLearn/backend/routes/aiRoutes.js:251-274 | no message answers 400 with no call; a string message makes one chat call, whose errors go through handleAIError |
| AIRoutes.SearchRoute | SmartLearn/backend/routes/aiRoutes.js:281-300 | no query answers 400; otherwise one search call with k defaulting to 5; failure answers 500 |
| AIRoutes.AnalyzeSentimentRoute | SmartLearn/backend/routes/aiRoutes.js:311-335 | 400 without text or reviews; text takes precedence over reviews; errors go through handleAIError |
| AIRoutes.BatchSentimentRoute | SmartLearn/backend/routes/aiRoutes.js:342-361 | 400 unless reviews is an array; otherwise one batch call |
| AIRoutes.ServicesHealthRoute | SmartLearn/backend/routes/aiRoutes.js:372-383 | 200 iff the report, built as written, is healthy, otherwise 503, with that report as body; 200 implies every probe fulfilled, a failed probe gives 503, and when no reply body carries its own `status`, 200 iff all three probes fulfilled |
| Records.AddToSet | SmartLearn/backend/controllers/enrollmentController.js:39-41 | `$addToSet` adds the id, keeps every element, adds nothing else and is a no-op when the id is present |
| Records.Pull | SmartLearn/backend/controllers/enrollmentController.js:142-144 | `$pull` removes every occurrence of the id and nothing else |
| Records.AddToSetKeepsNoDuplicates | SmartLearn/backend/controllers/enrollmentController.js:39-41 | adding to a duplicate-free list keeps it duplicate-free |
| Records.PullUndoesAddToSet | SmartLearn/backend/controllers/enrollmentController.js:39-41 | pulling a fresh id after adding it restores the list |
| Records.Database.constructor | SmartLearn/backend/models/Enrollment.js:81 | an empty database satisfies every schema invariant, including the unique (student, course) index |
| EnrollmentController.NewEnrollment | SmartLearn/backend/models/Enrollment.js:32-60 | a new enrollment has zero progress and status "active", within the schema bounds |
| EnrollmentController.EnrollInCourse | SmartLearn/backend/controllers/enrollmentController.js:10-47 | unknown course → 404, duplicate pair → 400, both with no change; otherwise one enrollment is inserted and the student is added to the course once |
| EnrollmentController.EnrollKeepsEnrollmentsValid | SmartLearn/backend/controllers/enrollmentController.js:21-36 | a new enrollment for a pair that has none keeps every enrollment within its schema and the pairs unique |
| EnrollmentController.AddStudentKeepsCoursesValid | SmartLearn/backend/controllers/enrollmentController.js:39-41 | adding a student to a course's list keeps every course within its schema |
| EnrollmentController.UpdateEnrollmentProgress | SmartLearn/backend/controllers/enrollmentController.js:90-124 | 404 and 403 change nothing; only the given progress fields change; a percentage ≥ 100 sets "completed", otherwise status is kept; out-of-bounds values are rejected |
| EnrollmentController.WithoutPair | SmartLearn/backend/controllers/enrollmentController.js:131-139 | removes exactly the enrollments of the pair and keeps every other one |
| EnrollmentController.PullStudent | SmartLearn/backend/controllers/enrollmentController.js:142-144 | only the course's student list changes, and course validity is kept |
| EnrollmentController.UnenrollFromCourse | SmartLearn/backend/controllers/enrollmentController.js:127-150 | no enrollment → 404 with no change; otherwise the enrollment is deleted and the student pulled from the course |
| EnrollmentController.UnenrollKeepsValid | SmartLearn/backend/controllers/enrollmentController.js:131-144 | deleting the pair's enrollment and pulling the student keep both tables within their schemas |
| EnrollmentController.GetEnrollmentStatus | SmartLearn/backend/controllers/enrollmentController.js:153-169 | isEnrolled is true iff an enrollment exists for (user, course), and it is the one returned |
| EnrollmentController.WithoutPairRemovesOne | SmartLearn/backend/models/Enrollment.js:81 | with the unique index, unenrolling removes exactly one record |
| UserProfileController.HasProfileIffLinked | SmartLearn/backend/controllers/userProfileController.js:12-19 | a user has a profile iff the user record links to it |
| UserProfileController.DefaultProfile | SmartLearn/backend/models/UserProfile.js:19-77 | a created profile holds only the schema defaults: empty avatar, "fr", "medium" and all notifications on |
| UserProfileController.InsertProfile | SmartLearn/backend/controllers/userProfileController.js:16-18 | the new profile is stored under a fresh id and linked to its user |
| UserProfileController.InsertKeepsProfilesValid | SmartLearn/backend/controllers/userProfileController.js:15-19 | a new profile linked to a user without one keeps one profile per user and the user references consistent |
| UserProfileController.ReplaceProfile | SmartLearn/backend/controllers/userProfileController.js:78 | saving replaces the user's profile and nothing else |
| UserProfileController.ReplaceKeepsProfilesValid | SmartLearn/backend/controllers/userProfileController.js:66-78 | saving a profile over its user's profile keeps one profile per user and the user references consistent |
| UserProfileController.GetMyProfile | SmartLearn/backend/controllers/userProfileController.js:10-25 | an existing profile is returned unchanged; otherwise a default one is created and linked, so a second call returns the same profile |
| UserProfileController.GetProfileByUserId | SmartLearn/backend/controllers/userProfileController.js:28-41 | 404 iff the user has no profile; otherwise that profile |
| UserProfileController.Provided | SmartLearn/backend/controllers/userProfileController.js:46 | the supplied fields are exactly the body's profile fields, stored as the schema trims them |
| UserProfileController.AssignStep | SmartLearn/backend/controllers/userProfileController.js:68-76 | each `if (x !== undefined)` assignment adds one supplied field to the merge |
| UserProfileController.MergeOverwritesProvided | SmartLearn/backend/controllers/userProfileController.js:68-76 | a merge overwrites the supplied fields and keeps all others |
| UserProfileController.OverwritesProvidedIsMerge | SmartLearn/backend/controllers/userProfileController.js:68-76 | any such update equals the shallow merge `{...before, ...given}` |
| UserProfileController.MergedPreferences | SmartLearn/backend/controllers/userProfileController.js:74 | without preferences nothing changes; otherwise supplied keys override and the others keep their values |
| UserProfileController.CreatedProfile | SmartLearn/backend/controllers/userProfileController.js:52-63 | a created profile holds the supplied fields over the defaults |
| UserProfileController.UpdatedProfile | SmartLearn/backend/controllers/userProfileController.js:66-77 | the field-by-field update overwrites exactly the supplied fields and merges preferences |
| UserProfileController.UpdateMyProfile | SmartLearn/backend/controllers/userProfileController.js:44-85 | creates and links a profile when missing, otherwise updates it in place; an invalid result changes nothing |
| UserProfileController.DeleteMyProfile | SmartLearn/backend/controllers/userProfileController.js:88-104 | no profile → 404 with no change; otherwise the profile and the user's link to it are removed |
| UserProfileController.DeleteKeepsProfilesValid | SmartLearn/backend/controllers/userProfileController.js:90-98 | deleting a profile with its user's reference keeps one profile per user and the references consistent |
| CourseController.AppendNewReviewer | SmartLearn/backend/controllers/courseController.js:90-97 | appending a review by a new reviewer keeps one review per student |
| CourseController.AppendedCourseValid | SmartLearn/backend/models/Course.js:45-72 | with a rating in 1..5, the course stays valid after the append iff the comment fits in 1000 characters |
| CourseController.SaveCourse | SmartLearn/backend/controllers/courseController.js:126 | saving replaces only that course |
| Records.Annotation | SmartLearn/backend/controllers/courseController.js:106-123 | an analysis is stored iff the sentiment call answered with something other than null (reviews and submissions alike) |
| CourseController.NewReview | SmartLearn/backend/controllers/courseController.js:99-123 | the review holds the student and rating; a missing comment becomes ""; sentiment is attached only for a non-blank comment and a successful call |
| CourseController.AddReview | SmartLearn/backend/controllers/courseController.js:72-132 | bad rating → 400, unknown course → 404, repeat reviewer → 400, all with no change; otherwise exactly one review is appended: 201 with the saved course when the comment fits in 1000 characters, whether or not the sentiment call answered, Invalid with no change otherwise; and a course with one review per student keeps one review per student |
| CourseController.PushReview | SmartLearn/backend/controllers/courseController.js:125-126 | the append either succeeds or is Invalid; it is Invalid with no change iff the comment exceeds 1000 characters; otherwise the course with the review appended is saved and returned, and one review per student is kept |
| SubmissionController.CreateThenUpdate | SmartLearn/backend/controllers/submissionController.js:7-38 | creating a submission from one body and updating it with a second gives the submission created from the two bodies merged, the second winning field by field (unless the update nulls the answer) |
| SubmissionController.CreateSubmission | SmartLearn/backend/controllers/submissionController.js:7-38 | invalid iff a required field is missing or a bound is broken; otherwise one submission is inserted, whether or not the sentiment call succeeded |
| SubmissionController.GetSubmissions | SmartLearn/backend/controllers/submissionController.js:41-53 | the filter has exactly the present query keys, and the result is exactly the matching submissions |
| SubmissionController.GetSubmissionById | SmartLearn/backend/controllers/submissionController.js:56-67 | 404 iff the id is unknown; otherwise the stored submission |
| SubmissionController.PatchesCompose | SmartLearn/backend/controllers/submissionController.js:91-94 | two updates in a row equal one update with the merged body: the later patch wins field by field, and fields neither names are kept |
| SubmissionController.PatchIdempotent | SmartLearn/backend/controllers/submissionController.js:91-94 | sending the same update twice is sending it once |
| SubmissionController.EmptyPatchKeeps | SmartLearn/backend/controllers/submissionController.js:70-103 | an empty body leaves the submission unchanged |
| SubmissionController.UpdateSubmission | SmartLearn/backend/controllers/submissionController.js:70-103 | unknown id → 404 with no change; sentiment runs iff feedback text is given; for a known id the update either succeeds or is Invalid, Invalid with no change iff the patched submission breaks the schema; otherwise the stored submission becomes the patched one, whether or not the sentiment call answered |
| SubmissionController.DeleteSubmission | SmartLearn/backend/controllers/submissionController.js:106-117 | unknown id → 404 with no change; otherwise only that submission is removed |
| SubmissionController.CourseName | SmartLearn/backend/controllers/submissionController.js:141-149 | the course title, or "Unknown Course" when missing |
| SubmissionController.ProfessorSubmissions | SmartLearn/backend/controllers/submissionController.js:120-155 | exactly the submissions whose exercise belongs to a course of the professor, each annotated with its course once |
| SubmissionController.NoCoursesNoSubmissions | SmartLearn/backend/controllers/submissionController.js:127-138 | a professor without courses sees no submissions |
| SubmissionController.ProfessorsSeeDisjointSubmissions | SmartLearn/backend/controllers/submissionController.js:127-138 | two professors never see the same submission |
| Chatbot.WithFeedback | SmartLearn/Frontend/src/pages/Chatbot.jsx:31-38 | attaching feedback keeps the list length |
| Chatbot.AddMessageAppends | SmartLearn/Frontend/src/pages/Chatbot.jsx:25-26 | ADD_MESSAGE appends exactly one message at the end and clears `sending` |
| Chatbot.FeedbackChangesOnlyIndex | SmartLearn/Frontend/src/pages/Chatbot.jsx:31-38 | UPDATE_MESSAGE_FEEDBACK changes only the message at the index and clears `feedbackSubmitting` |
| Chatbot.FeedbackOutsideListKeeps | SmartLearn/Frontend/src/pages/Chatbot.jsx:31-38 | an index outside the list changes no message |
| Chatbot.FeedbackLastWins | SmartLearn/Frontend/src/pages/Chatbot.jsx:31-38 | two feedback updates of one message leave the second |
| Chatbot.SetCurrentSessionShowsItsMessages | SmartLearn/Frontend/src/pages/Chatbot.jsx:19-20 | the messages become the session's, or [] for a null session |
| Chatbot.UnknownAndStartSending | SmartLearn/Frontend/src/pages/Chatbot.jsx:23-24 | an unknown action changes nothing; START_SENDING changes only `sending` |
| Chatbot.History | SmartLearn/Frontend/src/pages/Chatbot.jsx:104-107 | the history is the prior messages projected to (role, content), in order |
| Chatbot.ErrorMessage | SmartLearn/Frontend/src/pages/Chatbot.jsx:131-138 | the error reply is an assistant message, with a default text when the error has no message |
| Chatbot.ReplyMessage | SmartLearn/Frontend/src/pages/Chatbot.jsx:110-138 | the reply is the AI answer when chat (and saving, with a session) succeed, otherwise the error message |
| Chatbot.FinalFeedback | SmartLearn/Frontend/src/pages/Chatbot.jsx:146-181 | feedback is cleared to null iff the analysis failed or saving it failed |
| Chatbot.ChatPage.constructor | SmartLearn/Frontend/src/pages/Chatbot.jsx:5-13 | the page starts in the initial state |
| Chatbot.ChatPage.Dispatch | SmartLearn/Frontend/src/pages/Chatbot.jsx:15-42 | dispatch applies the reducer |
| Chatbot.ChatPage.HandleSendMessage | SmartLearn/Frontend/src/pages/Chatbot.jsx:84-140 | ignored when blank or already sending; otherwise the messages become prior + user message + reply, and the request carries the history |
| Chatbot.ChatPage.ShowUserMessage | SmartLearn/Frontend/src/pages/Chatbot.jsx:94-97 | the user's message is appended, the input cleared and the page marked as sending; nothing else changes |
| Chatbot.ChatPage.Reply | SmartLearn/Frontend/src/pages/Chatbot.jsx:99-139 | the messages become the prior ones, the user's message and the reply or the failing call's error; the session is saved only with a session after a usable reply |
| Chatbot.ChatPage.HandleFeedback | SmartLearn/Frontend/src/pages/Chatbot.jsx:146-181 | the message at the index gets the analysed feedback, or null on failure; the session is saved only after a successful analysis |
| ExerciseGenerator.ResultOf | SmartLearn/Frontend/src/pages/ExerciseGenerator.jsx:104-110 | the result carries the verdict, with praise iff it is truthy |
| ExerciseGenerator.Verdict | SmartLearn/Frontend/src/pages/ExerciseGenerator.jsx:99-118 | the service's verdict when it answers, otherwise the local trimmed, case-insensitive match |
| ExerciseGenerator.Revealed | SmartLearn/Frontend/src/pages/ExerciseGenerator.jsx:112-129 | an incorrect verdict shows that exercise's solution; no other entry changes |
| ExerciseGenerator.CompletionStats | SmartLearn/Frontend/src/pages/ExerciseGenerator.jsx:157-162 | total and answered are the counts; correct ≤ answered, with equality iff every result is correct |
| ExerciseGenerator.SubsetCardinality | SmartLearn/Frontend/src/pages/ExerciseGenerator.jsx:157-162 | the correct results are a subset of the answered ones, so they are no more, and as many only when equal |
| ExerciseGenerator.Toggled | SmartLearn/Frontend/src/pages/ExerciseGenerator.jsx:133-138 | toggling flips only the given id |
| ExerciseGenerator.ToggleTwice | SmartLearn/Frontend/src/pages/ExerciseGenerator.jsx:133-138 | toggling twice restores what is shown |
| ExerciseGenerator.GeneratorPage.constructor | SmartLearn/Frontend/src/pages/ExerciseGenerator.jsx:10-22 | the page's initial state |
| ExerciseGenerator.GeneratorPage.GenerateExercises | SmartLearn/Frontend/src/pages/ExerciseGenerator.jsx:45-80 | no subject makes no request and only sets the error; otherwise index, answers, results and solutions are reset, loading ends, and the exercises and error are those of `Generation` |
| ExerciseGenerator.Generation | SmartLearn/Frontend/src/pages/ExerciseGenerator.jsx:59-76 | a non-empty list is shown with no error; otherwise a legacy single `exercise` is shown alone with no error; otherwise the "No exercises were generated" error; a failed call shows the route's `error` or the generic message; exercises are shown exactly when no error is |
| ExerciseGenerator.GeneratorPage.HandleAnswerChange | SmartLearn/Frontend/src/pages/ExerciseGenerator.jsx:82-87 | sets only that exercise's answer |
| ExerciseGenerator.GeneratorPage.CheckAnswer | SmartLearn/Frontend/src/pages/ExerciseGenerator.jsx:89-131 | a blank answer sets an error and makes no request; otherwise the trimmed answer is sent and the verdict recorded |
| ExerciseGenerator.GeneratorPage.Record | SmartLearn/Frontend/src/pages/ExerciseGenerator.jsx:104-129 | records one result and reveals the solution on an incorrect verdict |
| ExerciseGenerator.GeneratorPage.ToggleSolution | SmartLearn/Frontend/src/pages/ExerciseGenerator.jsx:133-138 | only the solutions map changes |
| ExerciseGenerator.GeneratorPage.NavigateExercise | SmartLearn/Frontend/src/pages/ExerciseGenerator.jsx:140-146 | the index moves by one within [0, len−1]; prev at 0 and next at the end change nothing |
| ExerciseGenerator.GeneratorPage.ResetAll | SmartLearn/Frontend/src/pages/ExerciseGenerator.jsx:148-155 | exercises and maps are emptied, the index is 0 and the stats are all zero |
| StudentSubmissions.Filtered | SmartLearn/Frontend/src/pages/StudentSubmissions.jsx:41-53 | every kept row matches the chosen status and course |
| StudentSubmissions.FilteredIsSubsequence | SmartLearn/Frontend/src/pages/StudentSubmissions.jsx:41-53 | the filtered list is an order-preserving subsequence |
| StudentSubmissions.FilteredMembership | SmartLearn/Frontend/src/pages/StudentSubmissions.jsx:44-52 | a row is kept iff it matches both filters |
| StudentSubmissions.FilteredAllIsAll | SmartLearn/Frontend/src/pages/StudentSubmissions.jsx:44-52 | with both filters "all" the list is unchanged |
| StudentSubmissions.LastName | SmartLearn/Frontend/src/pages/StudentSubmissions.jsx:30-33 | a course id has a name iff some row carries it |
| StudentSubmissions.UniqueCourses | SmartLearn/Frontend/src/pages/StudentSubmissions.jsx:30-33 | the course list has unique ids, covers every row's course and names each with the last name seen |
| StudentSubmissions.ScoreOf | SmartLearn/Frontend/src/pages/StudentSubmissions.jsx:87 | a missing score counts as 0 |
| StudentSubmissions.ScoreSumWithin | SmartLearn/Frontend/src/pages/StudentSubmissions.jsx:86-88 | with scores in [0, hi] the sum lies in [0, hi·n] |
| StudentSubmissions.JsRound | SmartLearn/Frontend/src/pages/StudentSubmissions.jsx:86-88 | `Math.round` of num/den, rounding halves up |
| StudentSubmissions.RoundWithin | SmartLearn/Frontend/src/pages/StudentSubmissions.jsx:86-88 | rounding an average within [0, hi] stays within [0, hi] |
| StudentSubmissions.SummaryStats | SmartLearn/Frontend/src/pages/StudentSubmissions.jsx:82-89 | total is the row count, pending + graded ≤ total, the average is 0 with no rows and lies in 0..100 when scores do |
| StudentSubmissions.FormFor | SmartLearn/Frontend/src/pages/StudentSubmissions.jsx:74-80 | feedback defaults to "" and score to 0 |
| StudentSubmissions.SubmissionsPage.constructor | SmartLearn/Frontend/src/pages/StudentSubmissions.jsx:7-14 | the page's initial state |
| StudentSubmissions.SubmissionsPage.ApplyFilters | SmartLearn/Frontend/src/pages/StudentSubmissions.jsx:41-53 | the two-step filtering yields the filtered list and changes nothing else |
| StudentSubmissions.SubmissionsPage.LoadSubmissions | SmartLearn/Frontend/src/pages/StudentSubmissions.jsx:24-39 | a reply replaces the rows and the de-duplicated courses; a failure keeps them; loading ends |
| StudentSubmissions.SubmissionsPage.SetFilterStatus | SmartLearn/Frontend/src/pages/StudentSubmissions.jsx:20-22 | a new status filter re-filters the list |
| StudentSubmissions.SubmissionsPage.SetFilterCourse | SmartLearn/Frontend/src/pages/StudentSubmissions.jsx:20-22 | a new course filter re-filters the list |
| StudentSubmissions.SubmissionsPage.OpenFeedbackModal | SmartLearn/Frontend/src/pages/StudentSubmissions.jsx:74-80 | selects the row and fills the form with its defaults |
| StudentSubmissions.SubmissionsPage.HandleGiveFeedback | SmartLearn/Frontend/src/pages/StudentSubmissions.jsx:55-72 | without a selection nothing happens; otherwise the patch marks it graded; on success the modal closes and the rows reload |
| ProfessorCourses.MyCourses | SmartLearn/Frontend/src/pages/ProfessorCourses.jsx:50 | every shown course is taught by the current user |
| ProfessorCourses.MyCoursesExactly | SmartLearn/Frontend/src/pages/ProfessorCourses.jsx:50 | a course is shown iff it was received and the current user teaches it |
| ProfessorCourses.MyExercises | SmartLearn/Frontend/src/pages/ProfessorCourses.jsx:53-54 | every shown exercise belongs to a shown course |
| ProfessorCourses.MyExercisesExactly | SmartLearn/Frontend/src/pages/ProfessorCourses.jsx:53-54 | an exercise is shown iff it was received and its course is taught by the user |
| ProfessorCourses.LoadData | SmartLearn/Frontend/src/pages/ProfessorCourses.jsx:42-63 | a failed load keeps the data; otherwise the owned courses, their exercises and all submissions |
| ProfessorCourses.ExercisesForCourse | SmartLearn/Frontend/src/pages/ProfessorCourses.jsx:143-145 | exactly the exercises of that course |
| ProfessorCourses.SubmissionsForCourse | SmartLearn/Frontend/src/pages/ProfessorCourses.jsx:147-150 | never more submissions than received |
| ProfessorCourses.SubmissionsForCourseExactly | SmartLearn/Frontend/src/pages/ProfessorCourses.jsx:147-150 | a submission is listed iff its exercise is an exercise of that course |
| ProfessorCourses.UnknownExerciseBelongsNowhere | SmartLearn/Frontend/src/pages/ProfessorCourses.jsx:147-150 | a submission with a missing or unlisted exercise belongs to no course |
| ProfessorCourses.PendingCount | SmartLearn/Frontend/src/pages/ProfessorCourses.jsx:152-154 | the pending count never exceeds the course's submissions |
| ProfessorCourses.NonBlankOptions | SmartLearn/Frontend/src/pages/ProfessorCourses.jsx:90-92 | kept options are an ordered subsequence, and an option is kept iff it is not all white space |
| ProfessorCourses.ExerciseOptions | SmartLearn/Frontend/src/pages/ProfessorCourses.jsx:90-92 | multiple-choice options drop blank entries and keep order; other types keep the options |
| ProfessorCourses.PublishPatch | SmartLearn/Frontend/src/pages/ProfessorCourses.jsx:134-141 | the patch negates the current flag |
| ProfessorCourses.TogglePublish | SmartLearn/Frontend/src/pages/ProfessorCourses.jsx:134-141 | the patch sent negates the course's flag; a failed patch keeps the page data; a successful one reloads it, and a course of the user's that the server lists with the new flag is shown with it |
| ProfilePage.SplitOn | SmartLearn/Frontend/src/pages/Profile.jsx:91 | `split` yields at least one piece and no piece holds the separator |
| ProfilePage.JoinSplit | SmartLearn/Frontend/src/pages/Profile.jsx:91 | joining the pieces gives back the name |
| ProfilePage.SplitAfterPiece | SmartLearn/Frontend/src/pages/Profile.jsx:91 | splitting after a separator-free piece yields that piece first |
| ProfilePage.SplitNoSeparator | SmartLearn/Frontend/src/pages/Profile.jsx:91 | a name without the separator splits into itself |
| ProfilePage.PartsOfTwo | SmartLearn/Frontend/src/pages/Profile.jsx:90-95 | "a.f" yields f as piece 1 and "undefined" as piece 2 |
| ProfilePage.PartsOfThree | SmartLearn/Frontend/src/pages/Profile.jsx:98-109 | "a.f.g" yields f and g |
| ProfilePage.Changed | SmartLearn/Frontend/src/pages/Profile.jsx:87-119 | no key is lost; the update throws iff it targets notifications while preferences is missing or null |
| ProfilePage.AddressChange | SmartLearn/Frontend/src/pages/Profile.jsx:90-95 | "address.f" sets only address.f |
| ProfilePage.NotificationChange | SmartLearn/Frontend/src/pages/Profile.jsx:98-109 | "preferences.notifications.f" sets only notifications.f to the checkbox value |
| ProfilePage.NotificationChangeThrows | SmartLearn/Frontend/src/pages/Profile.jsx:98-109 | with no preferences object that update throws |
| ProfilePage.PreferenceChange | SmartLearn/Frontend/src/pages/Profile.jsx:110-115 | "preferences.f", f other than notifications, sets only preferences.f |
| ProfilePage.TopLevelChange | SmartLearn/Frontend/src/pages/Profile.jsx:116-118 | a plain name sets only that top-level field |
| ProfilePage.OrText | SmartLearn/Frontend/src/pages/Profile.jsx:45-51 | a truthy field is kept, otherwise the default |
| ProfilePage.NullishKeepsFalsy | SmartLearn/Frontend/src/pages/Profile.jsx:62-63 | `??` agrees with `||` except on a defined falsy value, which it keeps: a received `false` flag stays `false` |
| ProfilePage.AddressOf | SmartLearn/Frontend/src/pages/Profile.jsx:52-57 | the loaded address has exactly the four address fields, each truthy or ""; a profile without an address loads all four as "" |
| ProfilePage.AddressReloads | SmartLearn/Frontend/src/pages/Profile.jsx:52-57 | reading the address of a loaded form again gives the same address |
| ProfilePage.NotificationsOf | SmartLearn/Frontend/src/pages/Profile.jsx:61-64 | every notification flag, defaulting to true |
| ProfilePage.PreferencesOf | SmartLearn/Frontend/src/pages/Profile.jsx:58-65 | language defaults to "fr", difficulty to "medium", plus the notification flags |
| ProfilePage.LoadedForm | SmartLearn/Frontend/src/pages/Profile.jsx:44-66 | the loaded form has exactly the form's fields, each text field defaulting to "" |
| ProfilePage.LoadEmpty | SmartLearn/Frontend/src/pages/Profile.jsx:12-34 | loading an empty profile gives the initial form |
| ProfilePage.LoadIdempotent | SmartLearn/Frontend/src/pages/Profile.jsx:44-66 | loading a loaded form again changes nothing |
| ProfilePage.ProfilePageState.constructor | SmartLearn/Frontend/src/pages/Profile.jsx:12-34 | the page starts with the initial form |
| ProfilePage.ProfilePageState.LoadProfile | SmartLearn/Frontend/src/pages/Profile.jsx:40-72 | a reply replaces the profile and fills the form with defaults; a failure keeps both |
| ProfilePage.ProfilePageState.HandleSave | SmartLearn/Frontend/src/pages/Profile.jsx:74-85 | the form is sent as is; success stores the reply and leaves editing |
| ProfilePage.ProfilePageState.HandleChange | SmartLearn/Frontend/src/pages/Profile.jsx:87-119 | the form becomes the changed form, or stays when the update throws |
| ProfilePage.ProfilePageState.HandleAvatarChange | SmartLearn/Frontend/src/pages/Profile.jsx:121-135 | a file over 500000 bytes is rejected with the form unchanged; otherwise only the avatar changes |
| Text.LowerTrimCommute | SmartLearn/backend/routes/aiRoutes.js:225-226 | lower-casing and trimming commute |
| Text.TrimIdempotent | SmartLearn/backend/routes/aiRoutes.js:225-226 | trimming twice equals trimming once |
| Text.BlankIffAllSpace | SmartLearn/Frontend/src/pages/ExerciseGenerator.jsx:91 | `!s.trim()` holds iff every character is white space |
| Text.AnswersMatchIgnoresPadding | SmartLearn/Frontend/src/pages/ExerciseGenerator.jsx:117 | padding an answer with white space does not change the match |

## Left out

- The HTTP transport (axios), the `sleep` timer and `Promise.allSettled` are left out. Replies are parameters, delays are a recorded list, and the three probes are independent outcomes.
- Time limits are left out: request timeouts are configuration values only.
- MongoDB is replaced by maps. Sorting, `populate`, ObjectId casting (CastError) and the `errorHandler` middleware are left out. A failing schema validation is the outcome `Invalid`, without the status code the middleware would choose.
- Authentication, the `protect` middleware, Express wiring, logging and alerts are left out.
- Floating point, dates and timestamps are left out.
- The LLM prompt and its regex JSON extraction in the AI answer tier are reduced to "an object was parsed, or not".
- The outer catch-all 500 of `/exercise/check` is left out.
- AIServiceClient.CallAIService: `retries` is a natural number; a negative value would make the JavaScript loop throw `null`.
- AIServiceClient.UnknownServiceFailsFast: `AI_SERVICES[service]` is a lookup on a plain JavaScript object, so a name inherited from `Object.prototype` (such as "toString" or "constructor") is found, is attempted with a URL built from a function's text, and fails as UNKNOWN/500 after its retries instead of INVALID_SERVICE. The model's registry holds only the three configured keys; no route passes such a name.
- AIRoutes.ServicesHealthRoute: requires the configuration built by `ConfigFromEnv`, which registers the three services. It answers from the report as written, so it keeps the misreport of the Findings row.
- AIServiceClient.ConfigFromEnv: the timeouts are given as already parsed integers; a value `parseInt` turns into `NaN` is left out.
- Text.Lower: lower-cases ASCII letters only.
- Json.Spread: spreading a value that is not an object yields no keys; the string and array cases of JavaScript's spread are left out.
- SubmissionController.GetSubmissions: returns the set of matching ids; the `createdAt` ordering is left out.
- SubmissionController.ProfessorSubmissions: returns a set, so the order of the list is left out. The body fields are typed as the schema declares them.
- EnrollmentController.UpdateEnrollmentProgress: the progress fields are integers; the schema's numbers may be fractional.
- ExerciseGenerator.GeneratorPage.CheckAnswer: exercise ids and expected answers are strings; an exercise without `answer` would make `toLowerCase` throw.
- ExerciseGenerator.Toggled: toggling an id that has no entry treats it as hidden.
- StudentSubmissions.UniqueCourses: does not state that courses appear in order of first occurrence.
- StudentSubmissions.SubmissionsPage.LoadSubmissions: rows are typed. A reply that is not an array, which the page stores before its `map` throws, is left out.
- ProfessorCourses.LoadData: a reply list that is not an array is left out.
- ProfilePage.ProfilePageState.HandleAvatarChange: the `FileReader` is asynchronous, and its callback spreads a stale `formData`; the model applies the result at once to the current form.
- UserProfileController.UpdateMyProfile: Mongoose's casting of request values to the schema's String paths is left out. A number or boolean is stored as given, where Mongoose stores its string form. An object or array is stored too, where Mongoose rejects it with a CastError. `ProfileValid` checks the bounds of string values only.
- CourseController.AddReview: the rating is typed as an integer. A non-numeric rating such as "abc" passes the range check at courseController.js:78 and then fails Mongoose's Number cast on save; that path is left out.
- UserProfileController.CreatedProfile: supplied preferences are merged shallowly over the defaults. Mongoose also fills defaults inside a supplied nested object, such as a missing `notifications.push`; that deeper filling is left out.

## Findings

| source | as written | input that shows it | evidently intended | confidence | as-written member | corrected member |
|---|---|---|---|---|---|---|
| SmartLearn/backend/utils/aiServiceClient.js:106-108 | `formatResult` builds `{ status: "healthy", ...result.value }`, so a `status` field in the probe's reply body replaces "healthy" | all three services answer their health probe with 200 and body `{"status": "ok"}`: each entry's status is "ok", so `overall` is "degraded" | a fulfilled probe is reported healthy, and `overall` is "healthy" iff all three probes fulfilled | not executed | AIServiceClient.HealthAsWrittenMisreports | AIServiceClient.HealthOverall |
