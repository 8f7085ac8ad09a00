/** The core domain records and enumerations of the mentorship application
    (src/core/domain/models.py).  Every record is a frozen value: a change is
    a new value built with Dafny's update syntax, `card.(state := s)`, which
    differs from the original in the named field only. */
module Models {
  import opened Wrappers

  /** UUIDs are opaque identifiers; only their equality matters. */
  type Uuid = nat

  /** A UTC instant; `datetime.now(timezone.utc)` becomes a parameter. */
  type Timestamp = int

  // ---------------------------------------------------------------------
  // Enumerations

  datatype Role = Trainee | Mentor | Admin {
    function Value(): string {
      match this
      case Trainee => "trainee"
      case Mentor => "mentor"
      case Admin => "admin"
    }
  }

  /** The current state of one trainee's progress on one technology. */
  datatype LearningState =
    | Planned
    | InProgress
    | ReadyForReview
    | ReviewScheduled
    | Approved
    | Cancelled
  {
    /** The enum's string value, which is what error messages carry. */
    function Value(): string {
      match this
      case Planned => "planned"
      case InProgress => "in_progress"
      case ReadyForReview => "ready_for_review"
      case ReviewScheduled => "review_scheduled"
      case Approved => "approved"
      case Cancelled => "cancelled"
    }
  }

  const AllLearningStates: seq<LearningState> :=
    [Planned, InProgress, ReadyForReview, ReviewScheduled, LearningState.Approved, Cancelled]

  /** The overall outcome of one review. */
  datatype ReviewState = Approved | Rejected {
    function Value(): string {
      match this
      case Approved => "approved"
      case Rejected => "rejected"
    }
  }

  const AllReviewStates: seq<ReviewState> := [ReviewState.Approved, Rejected]

  /** The rating of a single question during a check. */
  datatype QuestionRating = Correct | Partial | Incorrect {
    function Value(): string {
      match this
      case Correct => "correct"
      case Partial => "partial"
      case Incorrect => "incorrect"
    }
  }

  const AllQuestionRatings: seq<QuestionRating> := [Correct, Partial, Incorrect]

  /** No string value contains a space; error messages rely on this to keep
      the states they mention apart. */
  predicate NoSpace(s: string) {
    forall i :: 0 <= i < |s| ==> s[i] != ' '
  }

  /** `LearningState` has exactly six members, each listed once, and their
      string values are pairwise distinct and free of spaces. */
  lemma LearningStatesEnumerated()
    ensures |AllLearningStates| == 6
    ensures forall s: LearningState :: s in AllLearningStates
    ensures forall i, j :: 0 <= i < j < 6 ==> AllLearningStates[i] != AllLearningStates[j]
    ensures forall s: LearningState :: NoSpace(s.Value())
  {
    forall s: LearningState ensures s in AllLearningStates {
      match s
      case Planned => assert AllLearningStates[0] == s;
      case InProgress => assert AllLearningStates[1] == s;
      case ReadyForReview => assert AllLearningStates[2] == s;
      case ReviewScheduled => assert AllLearningStates[3] == s;
      case Approved => assert AllLearningStates[4] == s;
      case Cancelled => assert AllLearningStates[5] == s;
    }
  }

  /** Two learning states with the same string value are the same state. */
  lemma LearningStateValueInjective(a: LearningState, b: LearningState)
    ensures a.Value() == b.Value() ==> a == b
  {
  }

  /** `ReviewState` has exactly two members and `QuestionRating` three. */
  lemma ReviewEnumsEnumerated()
    ensures |AllReviewStates| == 2 && AllReviewStates[0] != AllReviewStates[1]
    ensures forall r: ReviewState :: r in AllReviewStates
    ensures |AllQuestionRatings| == 3
    ensures forall i, j :: 0 <= i < j < 3 ==> AllQuestionRatings[i] != AllQuestionRatings[j]
    ensures forall q: QuestionRating :: q in AllQuestionRatings
  {
    forall r: ReviewState ensures r in AllReviewStates {
      if r == Rejected { assert AllReviewStates[1] == r; } else { assert AllReviewStates[0] == r; }
    }
    forall q: QuestionRating ensures q in AllQuestionRatings {
      match q
      case Correct => assert AllQuestionRatings[0] == q;
      case Partial => assert AllQuestionRatings[1] == q;
      case Incorrect => assert AllQuestionRatings[2] == q;
    }
  }

  // ---------------------------------------------------------------------
  // Records

  /** A user; `mentorId` links a trainee to their mentor. */
  datatype User = User(
    id: Uuid,
    email: string,
    fullName: string,
    avatarUrl: Option<string>,
    role: Role,
    isActive: bool,
    createdAt: Timestamp,
    mentorId: Option<Uuid>)

  /** Builds a user from its required fields, the optional ones taking their
      declared defaults. */
  function NewUser(id: Uuid, email: string, fullName: string, role: Role, createdAt: Timestamp): (u: User)
    ensures u.isActive && u.mentorId == None && u.avatarUrl == None
    ensures u.id == id && u.email == email && u.fullName == fullName
    ensures u.role == role && u.createdAt == createdAt
  {
    User(id, email, fullName, None, role, true, createdAt, None)
  }

  /** A canonical technology tag. */
  datatype LearnedTechnology = LearnedTechnology(id: Uuid, name: string)

  /** The "task card": the current state of one trainee learning one
      technology under one mentor. */
  datatype TraineeTechnologyState = TraineeTechnologyState(
    id: Uuid,
    traineeId: Uuid,
    technologyId: Uuid,
    mentorId: Uuid,
    state: LearningState,
    addedAt: Timestamp,
    scheduledReviewAt: Option<Timestamp>)

  /** Builds a task card with no review scheduled, the declared default. */
  function NewTraineeTechnologyState(
    id: Uuid, traineeId: Uuid, technologyId: Uuid, mentorId: Uuid,
    state: LearningState, addedAt: Timestamp): (c: TraineeTechnologyState)
    ensures c.scheduledReviewAt == None
    ensures c.id == id && c.traineeId == traineeId && c.technologyId == technologyId
    ensures c.mentorId == mentorId && c.state == state && c.addedAt == addedAt
  {
    TraineeTechnologyState(id, traineeId, technologyId, mentorId, state, addedAt, None)
  }

  /** One continuous period of work on a task card; open while `endTime`
      is absent. */
  datatype LearningSessionLog = LearningSessionLog(
    id: Uuid,
    traineeTechnologyStateId: Uuid,
    startTime: Timestamp,
    endTime: Option<Timestamp>)
  {
    predicate IsActive() {
      endTime == None
    }
  }

  /** Closing a session sets its end time and keeps every other field. */
  lemma ClosedSessionIsInactive(log: LearningSessionLog, t: Timestamp)
    ensures !log.(endTime := Some(t)).IsActive()
    ensures log.(endTime := Some(t)).id == log.id
    ensures log.(endTime := Some(t)).traineeTechnologyStateId == log.traineeTechnologyStateId
    ensures log.(endTime := Some(t)).startTime == log.startTime
  {
  }

  /** One review attempt (a "check"): the header of its question results. */
  datatype TechnologyReview = TechnologyReview(
    id: Uuid,
    traineeTechnologyStateId: Uuid,
    mentorId: Uuid,
    reviewState: ReviewState,
    feedback: string,
    createdAt: Timestamp)

  /** A question of the question bank, tied to one technology. */
  datatype CheckQuestion = CheckQuestion(
    id: Uuid,
    technologyId: Uuid,
    questionText: string,
    isActive: bool,
    createdAt: Timestamp,
    createdByMentorId: Uuid)

  /** Builds an active question, the declared default. */
  function NewCheckQuestion(
    id: Uuid, technologyId: Uuid, questionText: string,
    createdAt: Timestamp, createdByMentorId: Uuid): (q: CheckQuestion)
    ensures q.isActive
    ensures q.id == id && q.technologyId == technologyId && q.questionText == questionText
    ensures q.createdAt == createdAt && q.createdByMentorId == createdByMentorId
  {
    CheckQuestion(id, technologyId, questionText, true, createdAt, createdByMentorId)
  }

  /** The rating of one question within one review, with an optional note. */
  datatype CheckQuestionResult = CheckQuestionResult(
    id: Uuid,
    technologyReviewId: Uuid,
    checkQuestionId: Uuid,
    rating: QuestionRating,
    mentorComment: Option<string>)

  /** Builds a question result without a comment, the declared default. */
  function NewCheckQuestionResult(
    id: Uuid, technologyReviewId: Uuid, checkQuestionId: Uuid,
    rating: QuestionRating): (r: CheckQuestionResult)
    ensures r.mentorComment == None
    ensures r.id == id && r.technologyReviewId == technologyReviewId
    ensures r.checkQuestionId == checkQuestionId && r.rating == rating
  {
    CheckQuestionResult(id, technologyReviewId, checkQuestionId, rating, None)
  }
}
