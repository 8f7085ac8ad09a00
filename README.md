# Trainee learning progress — a Dafny model

This project models the core of *trainee-hub*, a mentorship application in
which a trainee works through technologies. Each (trainee, technology) pair
has a **task card** (`TraineeTechnologyState`) whose `LearningState` moves
through a workflow. Timed work on a card is recorded in an append-only
**session log** (`LearningSessionLog`). A log with no end time is an open
session, and a trainee may have at most one open session at a time.

The model has seven modules, one per source file plus a small helper:

| file | module | models |
|---|---|---|
| `wrappers.dfy` | `Wrappers` | `Option` (Python's `X \| None`) and `Result` (a return value or a raised domain error) |
| `models.dfy` | `Models` | the enums and frozen records of `src/core/domain/models.py`; a change to a record is a copy made with Dafny's update syntax |
| `exceptions.dfy` | `Exceptions` | the error hierarchy as one datatype, the two families, and the invalid-transition message |
| `mentor_dto.dfy` | `MentorDto` | the review-submission input, its field bounds and its `validate_questions` check |
| `state_repository.dfy` | `StateRepository` | the task-card store: pure lookups and listings, and a class whose `Add`/`Update` change the stored list |
| `session_log_repository.dfy` | `SessionLogRepository` | the session-log store, in the same way, plus the single-open-session rule |
| `trainee_service.dfy` | `TraineeServices` | `Start`/`Stop` as functions from the stores before a call to the outcome and the stores after it, the lemmas about them, and the class `TraineeService` that performs the calls on the two repository objects and is proved to agree with `Start`/`Stop` |

The repository ports are abstract in the source. Here each one is made
concrete as an in-memory list in insertion order, and its `Valid()` keeps the
ids distinct (so the list is keyed by id). The card store also keeps the
business key (trainee, technology) unique. A log stores only its card's id.
So the trainee-level query `FindActiveSessionByTraineeId` takes the stored
cards as an argument, which plays the part of the database join.

The headline invariant is `TraineeServices.Consistent`. It holds when both
stores' uniqueness rules hold, every log refers to a stored card, and no two
open logs belong to the same trainee (`SessionLogRepository.SingleOpenSession`).
`StartKeepsConsistent` and `StopClosesTheSession` prove that start and stop
preserve it. `TraineeService.Valid()` is this invariant over the two
repository objects.

Three points about the source that the model keeps as written:

- `NoActiveLearningSessionError` derives from `BusinessRuleError`
  (src/core/exceptions/exceptions.py:85-91), so "no active session" is a
  business-rule error, not a not-found error (`Exceptions.FamiliesPartition`).
- Stop takes the log's end time from the clock and never compares it with
  the start time (src/application/services/trainee_service.py:170-172). The
  model therefore proves "the stopped log ends no earlier than it started"
  only for a `now` that is at least the start time (`StopSucceeds`).
- No code in the modelled files applies a review outcome to a card, so the
  model has no transition from a review to a card state.

## Model

| member | source | states |
|---|---|---|
| `Models.LearningStatesEnumerated` | src/core/domain/models.py:43-54 | `LearningState` has exactly six members, listed once each; no string value contains a space |
| `Models.LearningStateValueInjective` | src/core/domain/models.py:43-54 | different learning states have different string values |
| `Models.ReviewEnumsEnumerated` | src/core/domain/models.py:57-74 | `ReviewState` has exactly two distinct members and `QuestionRating` exactly three |
| `Models.NewUser` | src/core/domain/models.py:80-103 | a new user is active, has no mentor and no avatar by default (the declared defaults), and keeps the given fields |
| `Models.NewTraineeTechnologyState` | src/core/domain/models.py:120-141 | a new task card has no scheduled review, and keeps the given fields |
| `Models.ClosedSessionIsInactive` | src/core/domain/models.py:144-159 | a log with an end time is not active; closing a log keeps its id, card and start time |
| `Models.NewCheckQuestion` | src/core/domain/models.py:192-212 | a new question is active, and keeps the given fields |
| `Models.NewCheckQuestionResult` | src/core/domain/models.py:215-234 | a question result links one review to one question with one rating, and has no comment by default (the declared defaults) |
| `Exceptions.Family` | src/core/exceptions/exceptions.py:11-100 | an error is in the not-found family exactly when it is the user, technology, task-card or status-update error; the full partition is `FamiliesPartition` |
| `Exceptions.FamiliesPartition` | src/core/exceptions/exceptions.py:11-100 | the not-found family is exactly the user, technology, task-card and status-update errors; the business-rule family is exactly the other four; each error is in exactly one family |
| `Exceptions.TransitionMessage` | src/core/exceptions/exceptions.py:69-73 | the message starts with "Cannot transition from ", ends with ".", and its length is fixed by the two state strings |
| `Exceptions.TransitionMessageDeterminesStates` | src/core/exceptions/exceptions.py:69-73 | for state strings without spaces, two equal messages name the same from-state and the same to-state |
| `Exceptions.TransitionMessageDeterminesLearningStates` | src/core/exceptions/exceptions.py:63-73 | the message of an invalid transition between learning states determines both states |
| `MentorDto.FieldIssues` | src/application/dto/mentor_dto.py:29-31 | reports a short feedback (under 10 characters), a negative asked count and a negative correct count, each exactly when it occurs |
| `MentorDto.ValidateQuestions` | src/application/dto/mentor_dto.py:33-43 | fails exactly when both counts are given and the correct count exceeds the asked count; on success it returns the input unchanged |
| `MentorDto.Validate` | src/application/dto/mentor_dto.py:22-43 | accepts exactly the inputs that meet every field bound and the count check; on success it returns the input unchanged; a rejection names at least one issue |
| `MentorDto.MissingCountNeverExceeds` | src/application/dto/mentor_dto.py:38-40 | if either count is missing, the count check passes and only the field bounds decide |
| `StateRepository.GetById` | src/application/repositories/i_trainee_technology_state_repository.py:20-29 | returns a stored card with the id, or fails with the not-found error exactly when no card has it |
| `StateRepository.GetByIdFindsUnique` | src/application/repositories/i_trainee_technology_state_repository.py:20-29 | when ids are distinct, the card returned is the one stored card with that id |
| `StateRepository.FindByTraineeAndTechnology` | src/application/repositories/i_trainee_technology_state_repository.py:31-43 | returns a stored card for the (trainee, technology) pair, or None (not an error) exactly when there is none |
| `StateRepository.FindByBusinessKeyUnique` | src/application/repositories/i_trainee_technology_state_repository.py:31-43 | when business keys are unique, the lookup returns the one card of the pair |
| `StateRepository.ReplaceCard` | src/application/repositories/i_trainee_technology_state_repository.py:54-64 | the store after an update: the card with the given id is replaced, every other card is kept in place, and the length is unchanged |
| `StateRepository.ReplaceKeepsValid` | src/application/repositories/i_trainee_technology_state_repository.py:54-64 | an update that keeps the card's id and business key keeps ids and business keys unique |
| `StateRepository.ReplaceKeepsOwner` | src/application/repositories/i_trainee_technology_state_repository.py:54-64 | such an update does not change which trainee any card id belongs to |
| `StateRepository.ReplaceKeepsOwners` | src/application/repositories/i_trainee_technology_state_repository.py:54-64 | the same, for every card id at once |
| `StateRepository.ListByTraineeId` | src/application/repositories/i_trainee_technology_state_repository.py:66-76 | returns exactly the stored cards of the trainee: each such card as often as it is stored, and no other card |
| `StateRepository.ListByMentorIdAndStates` | src/application/repositories/i_trainee_technology_state_repository.py:78-92 | returns exactly the stored cards of the mentor whose state is one of those given: each such card as often as it is stored, and no other card |
| `StateRepository.TraineeTechnologyStateRepository.Add` | src/application/repositories/i_trainee_technology_state_repository.py:45-52 | appends a new card whose id and business key are unused; the store stays valid and the card can be found by id |
| `StateRepository.TraineeTechnologyStateRepository.Update` | src/application/repositories/i_trainee_technology_state_repository.py:54-64 | given a card that keeps the id and business key of the card it replaces, the stored list becomes `ReplaceCard` of the old list (that card replaced in place, the others unchanged) and the store stays valid |
| `SessionLogRepository.FindActiveSessionByTraineeId` | src/application/repositories/i_learning_session_log_repository.py:31-46 | returns a stored open log on one of the trainee's cards, or None (not an error) exactly when there is none |
| `SessionLogRepository.FindActiveIsTheOpenSession` | src/application/repositories/i_learning_session_log_repository.py:36-40 | under the single-open-session rule, the log returned is the trainee's one open log |
| `SessionLogRepository.ReplaceLog` | src/application/repositories/i_learning_session_log_repository.py:48-58 | the store after an update: the log with the given id is replaced and every other log is kept in place |
| `SessionLogRepository.ListForState` | src/application/repositories/i_learning_session_log_repository.py:60-69 | returns exactly the logs of the card, open or closed: each such log as often as it is stored, and no other log |
| `SessionLogRepository.LearningSessionLogRepository.Add` | src/application/repositories/i_learning_session_log_repository.py:22-29 | appends a log with an unused id; afterwards the log is stored and ids stay distinct |
| `SessionLogRepository.LearningSessionLogRepository.Update` | src/application/repositories/i_learning_session_log_repository.py:48-58 | the stored list becomes `ReplaceLog` of the old list (that log replaced in place, the others unchanged) and log ids stay distinct |
| `TraineeServices.Start` | src/application/services/trainee_service.py:45-114 | a failed start leaves both stores unchanged; a successful one returns the pair's card in state IN_PROGRESS, keeps the number of cards, and appends exactly one open log for that card starting at `now`; the outcome of each case is stated by the `Start…` lemmas below |
| `TraineeServices.Stop` | src/application/services/trainee_service.py:116-183 | a failed stop leaves both stores unchanged; a successful one returns the pair's card in state READY_FOR_REVIEW and keeps the number of cards and of logs; the outcome of each case is stated by the `Stop…` lemmas below |
| `TraineeServices.StateChangeKeepsIdentity` | src/application/services/trainee_service.py:97-100 | a copy of a stored card with only its state changed keeps that card's id and business key |
| `TraineeServices.StartRefusedWhileSessionOpen` | src/application/services/trainee_service.py:67-77 | if the trainee has any open session, start fails with "already in progress" and changes nothing, whatever the card |
| `TraineeServices.StartRefusedWithoutCard` | src/application/services/trainee_service.py:79-87 | with no open session and no card for the pair, start fails with "not found" and changes nothing |
| `TraineeServices.StartRefusedFromState` | src/application/services/trainee_service.py:89-95 | with no open session, a card not PLANNED or READY_FOR_REVIEW makes start fail with an invalid transition from the card's state to IN_PROGRESS, and changes nothing |
| `TraineeServices.StartSucceeds` | src/application/services/trainee_service.py:97-114 | otherwise start returns and stores the card with only its state changed to IN_PROGRESS, appends exactly one open log for that card, changes nothing else, and that log becomes the trainee's open session |
| `TraineeServices.StartKeepsConsistent` | src/application/services/trainee_service.py:45-114 | start keeps both stores consistent, so a trainee never gets a second open session |
| `TraineeServices.StartFailureChangesNothing` | src/application/services/trainee_service.py:67-95 | a failed start leaves both stores as they were |
| `TraineeServices.StopRefusedWithoutCard` | src/application/services/trainee_service.py:134-142 | with no card for the pair, stop fails with "not found" |
| `TraineeServices.StopRefusedFromState` | src/application/services/trainee_service.py:144-149 | a card not IN_PROGRESS makes stop fail with an invalid transition from its state to READY_FOR_REVIEW, whatever the sessions |
| `TraineeServices.StopRefusedWithoutSession` | src/application/services/trainee_service.py:151-160 | an IN_PROGRESS card with no open session of the trainee makes stop fail with "no active session" |
| `TraineeServices.StopRefusedForOtherCard` | src/application/services/trainee_service.py:162-167 | if the trainee's open session belongs to another card, stop fails with "already in progress" |
| `TraineeServices.StopSucceeds` | src/application/services/trainee_service.py:169-183 | otherwise stop gives the open log the end time `now` and keeps its other fields; the card's only change is its state, READY_FOR_REVIEW; nothing else changes; the trainee has no open session left; if `now` is not before the start, the end is not before the start |
| `TraineeServices.ClosingKeepsLogInvariants` | src/application/services/trainee_service.py:169-180 | closing one stored log keeps log ids distinct, every log linked to a card, and at most one open session per trainee |
| `TraineeServices.ClosingLeavesNoOpenSession` | src/application/services/trainee_service.py:169-180 | closing the trainee's open log leaves the trainee with no open session |
| `TraineeServices.StopClosesTheSession` | src/application/services/trainee_service.py:116-183 | stop keeps both stores consistent, and a successful stop leaves the trainee with no open session |
| `TraineeServices.StopFailureChangesNothing` | src/application/services/trainee_service.py:134-167 | a failed stop leaves both stores as they were |
| `TraineeServices.OneOpenSessionPerCard` | src/application/repositories/i_learning_session_log_repository.py:36-40 | in consistent stores, two open logs never belong to the same card |
| `TraineeServices.ScenarioStartConflictStop` | src/application/services/trainee_service.py:45-183 | start on a planned card succeeds; a second start on another card of the same trainee fails with "already in progress"; stop on the first card makes it READY_FOR_REVIEW and closes its only log after its start |
| `TraineeServices.TraineeService.StartLearningTechnology` | src/application/services/trainee_service.py:45-114 | performs `Start` on the two repositories: the result and the new store contents equal `Start` of the old contents; the invariant is kept; a failure leaves both stores unchanged |
| `TraineeServices.TraineeService.StopLearningTechnology` | src/application/services/trainee_service.py:116-183 | performs `Stop` on the two repositories in the same way |
| `TraineeServices.TraineeService.GetTraineeDashboard` | src/application/services/trainee_service.py:185-194 | returns exactly the trainee's cards, each as often as it is stored, and modifies nothing |

## Left out

- Async execution and concurrency are not modelled. Each service call is one atomic step. Preventing two concurrent starts for one trainee is left to the persistence layer.
- The two writes of a start or stop (log, then card) are applied together. The model has no crash between them.
- `datetime.now(timezone.utc)` becomes the parameter `now`, and `uuid4()` becomes the parameter `newLogId`, which must not be used by any stored log. UUIDs are natural numbers and timestamps are integers.
- Error message text is modelled only for the invalid-transition error, whose text is fixed. The other messages embed formatted UUIDs.
- `StateRepository.TraineeTechnologyStateRepository.Add`: requires an unused id and an unused business key. The repository interface does not say what happens otherwise.
- `SessionLogRepository.LearningSessionLogRepository.Add`: requires an unused id, for the same reason.
- `StateRepository.TraineeTechnologyStateRepository.Update`: requires a valid store and a card that keeps the id and business key of the stored card with its id. The repository interface does not say what an update that changes a card's trainee or technology does to the business-key rule. The service only ever changes a card's state.
- `SessionLogRepository.LearningSessionLogRepository.Update`: requires the log ids to be distinct before the call, so that they stay distinct.
- `TraineeServices.TraineeService.StartLearningTechnology`: requires the stores to be consistent before the call, because the single-open-session guarantee depends on it.
- `TraineeServices.TraineeService.StopLearningTechnology`: requires the stores to be consistent before the call, for the same reason.
- `StateRepository.ListByTraineeId`: proved to return the matching cards with their multiplicities; that the store order is kept is not stated as a contract.
- `StateRepository.ListByMentorIdAndStates`: proved to return the matching cards with their multiplicities; that the store order is kept is not stated as a contract.
- `SessionLogRepository.ListForState`: proved to return the matching logs with their multiplicities; that the store order is kept is not stated as a contract.
- `TraineeServices.TraineeService.GetTraineeDashboard`: the same as `ListByTraineeId`, which it returns.
- Pydantic's error format and its type coercion are not modelled, nor are `EmailStr`, `HttpUrl` and `orm_mode`. The validator returns the list of issues found.
- `StatusUpdate` and `StatusFeedback` (with their LLM summary fields), the user, technology, status, review and check-question repositories, and the user, status, technology, check and trainee DTOs are not part of this model. They are plumbing that the learning workflow does not use.
- `total_learning_time_hours` and `review_history_ids` (src/application/dto/trainee_dto.py:49-51) are not modelled. No code in the source computes them, and the hours value is a float.
- Review submission and review scheduling are not modelled beyond the input shapes. No code applies a review outcome to a card, raises `TechnologyAlreadyApprovedError` or sets `scheduled_review_at`.
- The source has three defects in files outside this model, and none is modelled. `CheckQuestionNotFoundError` is imported (src/application/repositories/i_check_question_repository.py:9) but never defined. `UUID` is used without an import in src/application/repositories/i_status_feedback_repository.py. `QuestionRating` is not re-exported from src/core/domain/__init__.py, yet src/application/dto/check_dto.py imports it from there.
