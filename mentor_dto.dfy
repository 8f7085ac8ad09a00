/** Input shapes of the mentor's actions (src/application/dto/mentor_dto.py)
    and the validation of a submitted review: the per-field bounds, checked
    first and reported together, then the model-level check that no more
    questions were answered correctly than were asked. */
module MentorDto {
  import opened Wrappers
  import opened Models

  /** A mentor schedules a review of a task card at a future instant. */
  datatype MentorScheduleReviewDto = MentorScheduleReviewDto(
    traineeTechnologyStateId: Uuid,
    scheduledAt: Timestamp)

  /** A mentor submits the result of a review; both counts are optional. */
  datatype MentorSubmitReviewDto = MentorSubmitReviewDto(
    traineeTechnologyStateId: Uuid,
    reviewState: ReviewState,
    feedback: string,
    questionsAsked: Option<int>,
    questionsCorrect: Option<int>)

  /** The shortest accepted overall feedback, in characters. */
  const FeedbackMinLength: nat := 10

  datatype ValidationIssue =
    | FeedbackTooShort
    | QuestionsAskedNegative
    | QuestionsCorrectNegative
    | CorrectExceedsAsked

  /** An optional count is acceptable when absent or non-negative. */
  predicate CountInRange(count: Option<int>) {
    count.None? || count.value >= 0
  }

  /** The per-field constraints, one issue per violated field, in field
      declaration order. */
  function FieldIssues(dto: MentorSubmitReviewDto): (issues: seq<ValidationIssue>)
    ensures FeedbackTooShort in issues <==> |dto.feedback| < FeedbackMinLength
    ensures QuestionsAskedNegative in issues <==> !CountInRange(dto.questionsAsked)
    ensures QuestionsCorrectNegative in issues <==> !CountInRange(dto.questionsCorrect)
    ensures CorrectExceedsAsked !in issues
    ensures |issues| <= 3
  {
    (if |dto.feedback| < FeedbackMinLength then [FeedbackTooShort] else [])
    + (if !CountInRange(dto.questionsAsked) then [QuestionsAskedNegative] else [])
    + (if !CountInRange(dto.questionsCorrect) then [QuestionsCorrectNegative] else [])
  }

  /** The model validator `validate_questions`: the counts are compared only
      when both are given; on success the input is returned unchanged. */
  function ValidateQuestions(dto: MentorSubmitReviewDto): (r: Result<MentorSubmitReviewDto, ValidationIssue>)
    ensures r.Failure? <==>
      dto.questionsAsked.Some? && dto.questionsCorrect.Some? &&
      dto.questionsCorrect.value > dto.questionsAsked.value
    ensures r.Failure? ==> r.error == CorrectExceedsAsked
    ensures r.Success? ==> r.value == dto
  {
    if dto.questionsAsked.Some? && dto.questionsCorrect.Some? then
      if dto.questionsCorrect.value > dto.questionsAsked.value then Failure(CorrectExceedsAsked)
      else Success(dto)
    else
      Success(dto)
  }

  /** Full validation of a submitted review: the field constraints, and, when
      they all hold, the model validator. */
  function Validate(dto: MentorSubmitReviewDto): (r: Result<MentorSubmitReviewDto, seq<ValidationIssue>>)
    ensures r.Success? <==>
      && |dto.feedback| >= FeedbackMinLength
      && CountInRange(dto.questionsAsked)
      && CountInRange(dto.questionsCorrect)
      && !(dto.questionsAsked.Some? && dto.questionsCorrect.Some? &&
           dto.questionsCorrect.value > dto.questionsAsked.value)
    ensures r.Success? ==> r.value == dto
    ensures r.Failure? ==> r.error != []
  {
    var issues := FieldIssues(dto);
    if issues != [] then Failure(issues)
    else match ValidateQuestions(dto)
      case Success(v) => Success(v)
      case Failure(issue) => Failure([issue])
  }

  /** When either count is missing the count comparison never fails, so the
      outcome depends on the field bounds alone. */
  lemma {:induction false} MissingCountNeverExceeds(dto: MentorSubmitReviewDto)
    requires dto.questionsAsked.None? || dto.questionsCorrect.None?
    ensures ValidateQuestions(dto) == Success(dto)
    ensures Validate(dto).Success? <==> FieldIssues(dto) == []
  {
  }
}
