/** The trainee learning-progress state machine
    (src/application/services/trainee_service.py).  A trainee starts and
    stops timed learning sessions on a task card; a card moves PLANNED or
    READY_FOR_REVIEW -> IN_PROGRESS on start and IN_PROGRESS ->
    READY_FOR_REVIEW on stop, and every session opened is logged.

    `Start` and `Stop` state each service call as a function from the two
    stores before the call to its outcome and the stores after it; the
    lemmas below prove the service's promises about them, and the class
    `TraineeService` at the end performs the calls on the two repository
    objects and is proved to agree with them. */
module TraineeServices {
  import opened Wrappers
  import opened Models
  import opened Exceptions
  import opened StateRepository
  import opened SessionLogRepository

  /** The contents of the card store and of the log store. */
  datatype Stores = Stores(cards: seq<TraineeTechnologyState>, logs: seq<LearningSessionLog>)

  /** What a service call returns (or raises) and the stores it leaves. */
  datatype Step = Step(result: Result<TraineeTechnologyState, DomainError>, after: Stores)

  /** Every log belongs to a stored task card. */
  ghost predicate LogsReferenceCards(st: Stores) {
    forall i | 0 <= i < |st.logs| :: TraineeOf(st.cards, st.logs[i].traineeTechnologyStateId).Some?
  }

  /** The invariant of the two stores together: the stores' own uniqueness
      rules, logs that refer to stored cards, and at most one open session
      per trainee. */
  ghost predicate Consistent(st: Stores) {
    && ValidCards(st.cards)
    && UniqueLogIds(st.logs)
    && LogsReferenceCards(st)
    && SingleOpenSession(st.cards, st.logs)
  }

  /** The states from which a session may be started. */
  predicate CanStart(s: LearningState) {
    s == Planned || s == ReadyForReview
  }

  /** `start_learning_technology`, with `now` for the clock and `newLogId`
      for the freshly generated log id. */
  function Start(st: Stores, traineeId: Uuid, technologyId: Uuid, newLogId: Uuid, now: Timestamp): (step: Step)
    ensures step.result.Failure? ==> step.after == st
    ensures step.result.Success? ==>
      && step.result.value.traineeId == traineeId && step.result.value.technologyId == technologyId
      && step.result.value.state == InProgress
      && |step.after.cards| == |st.cards|
      && step.after.logs == st.logs + [LearningSessionLog(newLogId, step.result.value.id, now, None)]
  {
    if FindActiveSessionByTraineeId(st.cards, st.logs, traineeId).Some? then
      Step(Failure(LearningSessionAlreadyInProgress), st)
    else match FindByTraineeAndTechnology(st.cards, traineeId, technologyId)
      case None => Step(Failure(TraineeTechnologyStateNotFound), st)
      case Some(techState) =>
        if !CanStart(techState.state) then
          Step(Failure(InvalidLearningStateTransition(techState.state.Value(), InProgress.Value())), st)
        else
          var updated := techState.(state := InProgress);
          var newLog := LearningSessionLog(newLogId, techState.id, now, None);
          Step(Success(updated), Stores(ReplaceCard(st.cards, updated), st.logs + [newLog]))
  }

  /** `stop_learning_technology`, with `now` for the clock. */
  function Stop(st: Stores, traineeId: Uuid, technologyId: Uuid, now: Timestamp): (step: Step)
    ensures step.result.Failure? ==> step.after == st
    ensures step.result.Success? ==>
      && step.result.value.traineeId == traineeId && step.result.value.technologyId == technologyId
      && step.result.value.state == ReadyForReview
      && |step.after.cards| == |st.cards| && |step.after.logs| == |st.logs|
  {
    match FindByTraineeAndTechnology(st.cards, traineeId, technologyId)
    case None => Step(Failure(TraineeTechnologyStateNotFound), st)
    case Some(techState) =>
      if techState.state != InProgress then
        Step(Failure(InvalidLearningStateTransition(techState.state.Value(), ReadyForReview.Value())), st)
      else match FindActiveSessionByTraineeId(st.cards, st.logs, traineeId)
        case None => Step(Failure(NoActiveLearningSession), st)
        case Some(session) =>
          if session.traineeTechnologyStateId != techState.id then
            Step(Failure(LearningSessionAlreadyInProgress), st)
          else
            var closed := session.(endTime := Some(now));
            var updated := techState.(state := ReadyForReview);
            Step(Success(updated), Stores(ReplaceCard(st.cards, updated), ReplaceLog(st.logs, closed)))
  }

  // -----------------------------------------------------------------------
  // Helpers

  /** In a store with distinct ids, a card with a stored card's id is that
      card, so changing only its state keeps its identity. */
  lemma StateChangeKeepsIdentity(cards: seq<TraineeTechnologyState>, c: TraineeTechnologyState, s: LearningState)
    requires UniqueIds(cards) && c in cards
    ensures KeepsIdentity(cards, c.(state := s))
  {
    forall d | d in cards && d.id == c.id ensures d == c {
      GetByIdFindsUnique(cards, d);
      GetByIdFindsUnique(cards, c);
    }
  }

  /** In a store with distinct ids, the only position holding a log with a
      stored log's id is that log's own position. */
  lemma LogAtItsId(logs: seq<LearningSessionLog>, k: nat)
    requires UniqueLogIds(logs) && k < |logs|
    ensures forall i :: 0 <= i < |logs| && logs[i].id == logs[k].id ==> i == k
  {
  }

  // -----------------------------------------------------------------------
  // Start

  /** An open session of the trainee wins over every other check: whatever
      the card, start fails with "already in progress" and changes nothing. */
  lemma StartRefusedWhileSessionOpen(
    st: Stores, traineeId: Uuid, technologyId: Uuid, newLogId: Uuid, now: Timestamp, open: LearningSessionLog)
    requires open in st.logs && IsOpenFor(st.cards, open, traineeId)
    ensures Start(st, traineeId, technologyId, newLogId, now) == Step(Failure(LearningSessionAlreadyInProgress), st)
  {
  }

  /** With no open session and no card for the pair, start fails with
      "not found" and changes nothing. */
  lemma StartRefusedWithoutCard(st: Stores, traineeId: Uuid, technologyId: Uuid, newLogId: Uuid, now: Timestamp)
    requires forall l :: l in st.logs ==> !IsOpenFor(st.cards, l, traineeId)
    requires forall c :: c in st.cards ==> c.traineeId != traineeId || c.technologyId != technologyId
    ensures Start(st, traineeId, technologyId, newLogId, now) == Step(Failure(TraineeTechnologyStateNotFound), st)
  {
  }

  /** With no open session, a card in any state but PLANNED or
      READY_FOR_REVIEW makes start fail with an invalid transition from the
      card's state to IN_PROGRESS, changing nothing. */
  lemma StartRefusedFromState(
    st: Stores, traineeId: Uuid, technologyId: Uuid, newLogId: Uuid, now: Timestamp, card: TraineeTechnologyState)
    requires ValidCards(st.cards)
    requires forall l :: l in st.logs ==> !IsOpenFor(st.cards, l, traineeId)
    requires card in st.cards && card.traineeId == traineeId && card.technologyId == technologyId
    requires !CanStart(card.state)
    ensures Start(st, traineeId, technologyId, newLogId, now)
      == Step(Failure(InvalidLearningStateTransition(card.state.Value(), InProgress.Value())), st)
  {
    FindByBusinessKeyUnique(st.cards, card);
  }

  /** Start succeeds exactly when the trainee has no open session and the
      pair's card is PLANNED or READY_FOR_REVIEW; it returns and stores the
      card with only its state changed to IN_PROGRESS, appends one open log
      for that card starting at `now`, and touches nothing else.  Afterwards
      that log is the trainee's open session. */
  lemma StartSucceeds(
    st: Stores, traineeId: Uuid, technologyId: Uuid, newLogId: Uuid, now: Timestamp, card: TraineeTechnologyState)
    requires Consistent(st) && LogIdUnused(st.logs, newLogId)
    requires forall l :: l in st.logs ==> !IsOpenFor(st.cards, l, traineeId)
    requires card in st.cards && card.traineeId == traineeId && card.technologyId == technologyId
    requires CanStart(card.state)
    ensures var step := Start(st, traineeId, technologyId, newLogId, now);
      var updated := card.(state := InProgress);
      var newLog := LearningSessionLog(newLogId, card.id, now, None);
      && step.result == Success(updated)
      && step.after.cards == ReplaceCard(st.cards, updated)
      && step.after.logs == st.logs + [newLog]
      && GetById(step.after.cards, card.id) == Success(updated)
      && FindActiveSessionByTraineeId(step.after.cards, step.after.logs, traineeId) == Some(newLog)
  {
    FindByBusinessKeyUnique(st.cards, card);
    StartKeepsConsistent(st, traineeId, technologyId, newLogId, now);
    var step := Start(st, traineeId, technologyId, newLogId, now);
    var updated := card.(state := InProgress);
    StateChangeKeepsIdentity(st.cards, card, InProgress);
    ReplaceKeepsValid(st.cards, updated);
    assert updated in step.after.cards by {
      GetByIdFindsUnique(st.cards, card);
      var k :| 0 <= k < |st.cards| && st.cards[k] == card;
      assert step.after.cards[k] == updated;
    }
    GetByIdFindsUnique(step.after.cards, updated);
    var newLog := LearningSessionLog(newLogId, card.id, now, None);
    ReplaceKeepsOwners(st.cards, updated);
    GetByIdFindsUnique(st.cards, card);
    assert IsOpenFor(step.after.cards, newLog, traineeId);
    FindActiveIsTheOpenSession(step.after.cards, step.after.logs, traineeId, newLog);
  }

  /** Start keeps the stores consistent; in particular a trainee never gets
      a second open session. */
  lemma StartKeepsConsistent(st: Stores, traineeId: Uuid, technologyId: Uuid, newLogId: Uuid, now: Timestamp)
    requires Consistent(st) && LogIdUnused(st.logs, newLogId)
    ensures Consistent(Start(st, traineeId, technologyId, newLogId, now).after)
  {
    var step := Start(st, traineeId, technologyId, newLogId, now);
    if step.result.Success? {
      var card := FindByTraineeAndTechnology(st.cards, traineeId, technologyId).value;
      var updated := card.(state := InProgress);
      var newLog := LearningSessionLog(newLogId, card.id, now, None);
      var cards', logs' := step.after.cards, step.after.logs;
      assert cards' == ReplaceCard(st.cards, updated) && logs' == st.logs + [newLog];
      StateChangeKeepsIdentity(st.cards, card, InProgress);
      ReplaceKeepsValid(st.cards, updated);
      ReplaceKeepsOwners(st.cards, updated);
      GetByIdFindsUnique(st.cards, card);
      assert TraineeOf(cards', newLog.traineeTechnologyStateId) == Some(traineeId);
      forall i, j | 0 <= i < j < |logs'|
        ensures !(logs'[i].IsActive() && logs'[j].IsActive()
          && TraineeOf(cards', logs'[i].traineeTechnologyStateId).Some?
          && TraineeOf(cards', logs'[i].traineeTechnologyStateId) == TraineeOf(cards', logs'[j].traineeTechnologyStateId))
      {
        if j == |st.logs| {
          assert logs'[i] == st.logs[i] && st.logs[i] in st.logs;
          assert !IsOpenFor(st.cards, st.logs[i], traineeId);
        }
      }
    }
  }

  /** A failed start changes neither store. */
  lemma StartFailureChangesNothing(st: Stores, traineeId: Uuid, technologyId: Uuid, newLogId: Uuid, now: Timestamp)
    ensures Start(st, traineeId, technologyId, newLogId, now).result.Failure? ==>
      Start(st, traineeId, technologyId, newLogId, now).after == st
  {
  }

  // -----------------------------------------------------------------------
  // Stop

  /** Without a card for the pair, stop fails with "not found". */
  lemma StopRefusedWithoutCard(st: Stores, traineeId: Uuid, technologyId: Uuid, now: Timestamp)
    requires forall c :: c in st.cards ==> c.traineeId != traineeId || c.technologyId != technologyId
    ensures Stop(st, traineeId, technologyId, now) == Step(Failure(TraineeTechnologyStateNotFound), st)
  {
  }

  /** A card that is not IN_PROGRESS makes stop fail with an invalid
      transition from the card's state to READY_FOR_REVIEW, whatever the
      sessions. */
  lemma StopRefusedFromState(st: Stores, traineeId: Uuid, technologyId: Uuid, now: Timestamp, card: TraineeTechnologyState)
    requires ValidCards(st.cards)
    requires card in st.cards && card.traineeId == traineeId && card.technologyId == technologyId
    requires card.state != InProgress
    ensures Stop(st, traineeId, technologyId, now)
      == Step(Failure(InvalidLearningStateTransition(card.state.Value(), ReadyForReview.Value())), st)
  {
    FindByBusinessKeyUnique(st.cards, card);
  }

  /** An IN_PROGRESS card without any open session of the trainee makes stop
      fail with "no active session". */
  lemma StopRefusedWithoutSession(st: Stores, traineeId: Uuid, technologyId: Uuid, now: Timestamp, card: TraineeTechnologyState)
    requires ValidCards(st.cards)
    requires card in st.cards && card.traineeId == traineeId && card.technologyId == technologyId
    requires card.state == InProgress
    requires forall l :: l in st.logs ==> !IsOpenFor(st.cards, l, traineeId)
    ensures Stop(st, traineeId, technologyId, now) == Step(Failure(NoActiveLearningSession), st)
  {
    FindByBusinessKeyUnique(st.cards, card);
  }

  /** If the trainee's open session is on another card, stop fails with
      "already in progress". */
  lemma StopRefusedForOtherCard(
    st: Stores, traineeId: Uuid, technologyId: Uuid, now: Timestamp, card: TraineeTechnologyState, open: LearningSessionLog)
    requires Consistent(st)
    requires card in st.cards && card.traineeId == traineeId && card.technologyId == technologyId
    requires card.state == InProgress
    requires open in st.logs && IsOpenFor(st.cards, open, traineeId)
    requires open.traineeTechnologyStateId != card.id
    ensures Stop(st, traineeId, technologyId, now) == Step(Failure(LearningSessionAlreadyInProgress), st)
  {
    FindByBusinessKeyUnique(st.cards, card);
    FindActiveIsTheOpenSession(st.cards, st.logs, traineeId, open);
  }

  /** Stop of an IN_PROGRESS card whose open session is the trainee's open
      session succeeds: the log gets `now` as end time and keeps its other
      fields, the card's only change is its state, READY_FOR_REVIEW, nothing
      else is touched, and afterwards the trainee has no open session. */
  lemma StopSucceeds(
    st: Stores, traineeId: Uuid, technologyId: Uuid, now: Timestamp, card: TraineeTechnologyState, open: LearningSessionLog)
    requires Consistent(st)
    requires card in st.cards && card.traineeId == traineeId && card.technologyId == technologyId
    requires card.state == InProgress
    requires open in st.logs && IsOpenFor(st.cards, open, traineeId)
    requires open.traineeTechnologyStateId == card.id
    ensures var step := Stop(st, traineeId, technologyId, now);
      var updated := card.(state := ReadyForReview);
      && step.result == Success(updated)
      && step.after.cards == ReplaceCard(st.cards, updated)
      && step.after.logs == ReplaceLog(st.logs, open.(endTime := Some(now)))
      && FindActiveSessionByTraineeId(step.after.cards, step.after.logs, traineeId) == None
    ensures now >= open.startTime ==>
      forall l :: l in Stop(st, traineeId, technologyId, now).after.logs && l.id == open.id ==>
        l.endTime == Some(now) && now >= l.startTime
  {
    FindByBusinessKeyUnique(st.cards, card);
    FindActiveIsTheOpenSession(st.cards, st.logs, traineeId, open);
    StopClosesTheSession(st, traineeId, technologyId, now);
    var logs' := Stop(st, traineeId, technologyId, now).after.logs;
    var closed := open.(endTime := Some(now));
    forall l | l in logs' && l.id == open.id ensures l == closed {
      var i :| 0 <= i < |logs'| && logs'[i] == l;
    }
  }

  /** Closing the log at position `k` (same id, same card, now inactive),
      while no card changes trainee, keeps the log-side invariants. */
  lemma ClosingKeepsLogInvariants(
    cards: seq<TraineeTechnologyState>, cards': seq<TraineeTechnologyState>,
    logs: seq<LearningSessionLog>, k: nat, closed: LearningSessionLog)
    requires Consistent(Stores(cards, logs)) && k < |logs|
    requires closed.id == logs[k].id && closed.traineeTechnologyStateId == logs[k].traineeTechnologyStateId
    requires !closed.IsActive()
    requires forall id :: TraineeOf(cards', id) == TraineeOf(cards, id)
    ensures var logs' := ReplaceLog(logs, closed);
      UniqueLogIds(logs') && LogsReferenceCards(Stores(cards', logs')) && SingleOpenSession(cards', logs')
  {
    var logs' := ReplaceLog(logs, closed);
    LogAtItsId(logs, k);
    assert forall i :: 0 <= i < |logs'| && i != k ==> logs'[i] == logs[i];
    assert logs'[k] == closed;
  }

  /** If the closed log was the trainee's open session, the trainee has no
      open session left. */
  lemma ClosingLeavesNoOpenSession(
    cards: seq<TraineeTechnologyState>, cards': seq<TraineeTechnologyState>,
    logs: seq<LearningSessionLog>, k: nat, closed: LearningSessionLog, traineeId: Uuid)
    requires Consistent(Stores(cards, logs)) && k < |logs|
    requires IsOpenFor(cards, logs[k], traineeId)
    requires closed.id == logs[k].id && !closed.IsActive()
    requires forall id :: TraineeOf(cards', id) == TraineeOf(cards, id)
    ensures FindActiveSessionByTraineeId(cards', ReplaceLog(logs, closed), traineeId) == None
  {
    var logs' := ReplaceLog(logs, closed);
    LogAtItsId(logs, k);
    forall l | l in logs' ensures !IsOpenFor(cards', l, traineeId) {
      var i :| 0 <= i < |logs'| && logs'[i] == l;
      if i != k {
        assert logs'[i] == logs[i];
        // The single-open-session rule, at the pair of positions {i, k}.
        var lo, hi := if i < k then i else k, if i < k then k else i;
        assert !(logs[lo].IsActive() && logs[hi].IsActive()
          && TraineeOf(cards, logs[lo].traineeTechnologyStateId) == Some(traineeId)
          && TraineeOf(cards, logs[hi].traineeTechnologyStateId) == Some(traineeId));
      }
    }
  }

  /** Stop keeps the stores consistent, and a successful stop leaves the
      trainee without an open session. */
  lemma StopClosesTheSession(st: Stores, traineeId: Uuid, technologyId: Uuid, now: Timestamp)
    requires Consistent(st)
    ensures Consistent(Stop(st, traineeId, technologyId, now).after)
    ensures Stop(st, traineeId, technologyId, now).result.Success? ==>
      var after := Stop(st, traineeId, technologyId, now).after;
      FindActiveSessionByTraineeId(after.cards, after.logs, traineeId) == None
  {
    var step := Stop(st, traineeId, technologyId, now);
    if step.result.Success? {
      var card := FindByTraineeAndTechnology(st.cards, traineeId, technologyId).value;
      var session := FindActiveSessionByTraineeId(st.cards, st.logs, traineeId).value;
      var updated := card.(state := ReadyForReview);
      var closed := session.(endTime := Some(now));
      assert step.after == Stores(ReplaceCard(st.cards, updated), ReplaceLog(st.logs, closed));
      StateChangeKeepsIdentity(st.cards, card, ReadyForReview);
      ReplaceKeepsValid(st.cards, updated);
      ReplaceKeepsOwners(st.cards, updated);
      var k :| 0 <= k < |st.logs| && st.logs[k] == session;
      ClosingKeepsLogInvariants(st.cards, step.after.cards, st.logs, k, closed);
      ClosingLeavesNoOpenSession(st.cards, step.after.cards, st.logs, k, closed, traineeId);
    }
  }

  /** A failed stop changes neither store. */
  lemma StopFailureChangesNothing(st: Stores, traineeId: Uuid, technologyId: Uuid, now: Timestamp)
    ensures Stop(st, traineeId, technologyId, now).result.Failure? ==>
      Stop(st, traineeId, technologyId, now).after == st
  {
  }

  /** Consistency also gives at most one open session per task card. */
  lemma OneOpenSessionPerCard(st: Stores, i: nat, j: nat)
    requires Consistent(st) && i < j < |st.logs|
    requires st.logs[i].IsActive() && st.logs[j].IsActive()
    ensures st.logs[i].traineeTechnologyStateId != st.logs[j].traineeTechnologyStateId
  {
  }

  /** A trainee with two planned cards starts the first, cannot start the
      second while the first session runs, and stops the first: the card is
      then READY_FOR_REVIEW and its single log is closed, ending after it
      started. */
  lemma ScenarioStartConflictStop()
    ensures
      var python := NewTraineeTechnologyState(1, 10, 20, 30, Planned, 0);
      var other := NewTraineeTechnologyState(2, 10, 21, 30, Planned, 0);
      var s1 := Start(Stores([python, other], []), 10, 20, 100, 5);
      var s2 := Start(s1.after, 10, 21, 101, 6);
      var s3 := Stop(s2.after, 10, 20, 9);
      && s1.result == Success(python.(state := InProgress))
      && s2.result == Failure(LearningSessionAlreadyInProgress)
      && s3.result == Success(python.(state := ReadyForReview))
      && s3.after.logs == [LearningSessionLog(100, 1, 5, Some(9))]
  {
    var python := NewTraineeTechnologyState(1, 10, 20, 30, Planned, 0);
    var other := NewTraineeTechnologyState(2, 10, 21, 30, Planned, 0);
    var st0 := Stores([python, other], []);
    assert Consistent(st0);
    StartSucceeds(st0, 10, 20, 100, 5, python);
    var s1 := Start(st0, 10, 20, 100, 5);
    var log := LearningSessionLog(100, 1, 5, None);
    StartKeepsConsistent(st0, 10, 20, 100, 5);
    StartRefusedWhileSessionOpen(s1.after, 10, 21, 101, 6, log);
    var s2 := Start(s1.after, 10, 21, 101, 6);
    var running := python.(state := InProgress);
    assert s2.after.cards == [running, other];
    GetByIdFindsUnique(s2.after.cards, running);
    StopSucceeds(s2.after, 10, 20, 9, running, log);
  }

  // -----------------------------------------------------------------------
  // The service object

  /** The service: the two repositories it was given, and the operations. */
  class TraineeService {
    const cardRepo: TraineeTechnologyStateRepository
    const logRepo: LearningSessionLogRepository

    ghost function Current(): Stores
      reads cardRepo, logRepo
    {
      Stores(cardRepo.cards, logRepo.logs)
    }

    ghost predicate Valid()
      reads this, cardRepo, logRepo
    {
      Consistent(Current())
    }

    constructor (cardRepo: TraineeTechnologyStateRepository, logRepo: LearningSessionLogRepository)
      requires Consistent(Stores(cardRepo.cards, logRepo.logs))
      ensures this.cardRepo == cardRepo && this.logRepo == logRepo
      ensures Valid()
    {
      this.cardRepo := cardRepo;
      this.logRepo := logRepo;
    }

    /** `start_learning_technology`; `newLogId` stands for the generated
        UUID and `now` for the clock. */
    method StartLearningTechnology(traineeId: Uuid, technologyId: Uuid, newLogId: Uuid, now: Timestamp)
      returns (r: Result<TraineeTechnologyState, DomainError>)
      requires Valid() && LogIdUnused(logRepo.logs, newLogId)
      modifies cardRepo, logRepo
      ensures Valid()
      ensures Step(r, Current()) == Start(old(Current()), traineeId, technologyId, newLogId, now)
      ensures r.Failure? ==> cardRepo.cards == old(cardRepo.cards) && logRepo.logs == old(logRepo.logs)
    {
      ghost var before := Current();
      StartKeepsConsistent(before, traineeId, technologyId, newLogId, now);
      // 1. Any other active session?
      var activeSession := FindActiveSessionByTraineeId(cardRepo.cards, logRepo.logs, traineeId);
      if activeSession.Some? {
        return Failure(LearningSessionAlreadyInProgress);
      }
      // 2. The target card.
      var techState := FindByTraineeAndTechnology(cardRepo.cards, traineeId, technologyId);
      if techState.None? {
        return Failure(TraineeTechnologyStateNotFound);
      }
      var card := techState.value;
      // 3. The transition.
      if !CanStart(card.state) {
        return Failure(InvalidLearningStateTransition(card.state.Value(), InProgress.Value()));
      }
      var updated := card.(state := InProgress);
      var newLog := LearningSessionLog(newLogId, card.id, now, None);
      logRepo.Add(newLog);
      StateChangeKeepsIdentity(cardRepo.cards, card, InProgress);
      cardRepo.Update(updated);
      r := Success(updated);
    }

    /** `stop_learning_technology`; `now` stands for the clock. */
    method StopLearningTechnology(traineeId: Uuid, technologyId: Uuid, now: Timestamp)
      returns (r: Result<TraineeTechnologyState, DomainError>)
      requires Valid()
      modifies cardRepo, logRepo
      ensures Valid()
      ensures Step(r, Current()) == Stop(old(Current()), traineeId, technologyId, now)
      ensures r.Failure? ==> cardRepo.cards == old(cardRepo.cards) && logRepo.logs == old(logRepo.logs)
    {
      ghost var before := Current();
      StopClosesTheSession(before, traineeId, technologyId, now);
      // 1. The target card.
      var techState := FindByTraineeAndTechnology(cardRepo.cards, traineeId, technologyId);
      if techState.None? {
        return Failure(TraineeTechnologyStateNotFound);
      }
      var card := techState.value;
      // 2. The transition.
      if card.state != InProgress {
        return Failure(InvalidLearningStateTransition(card.state.Value(), ReadyForReview.Value()));
      }
      // 3. The active session.
      var activeSession := FindActiveSessionByTraineeId(cardRepo.cards, logRepo.logs, traineeId);
      if activeSession.None? {
        return Failure(NoActiveLearningSession);
      }
      var session := activeSession.value;
      // 4. It must be this card's session.
      if session.traineeTechnologyStateId != card.id {
        return Failure(LearningSessionAlreadyInProgress);
      }
      logRepo.Update(session.(endTime := Some(now)));
      StateChangeKeepsIdentity(cardRepo.cards, card, ReadyForReview);
      cardRepo.Update(card.(state := ReadyForReview));
      r := Success(card.(state := ReadyForReview));
    }

    /** `get_trainee_dashboard`: the trainee's cards; changes nothing. */
    method GetTraineeDashboard(traineeId: Uuid) returns (cards: seq<TraineeTechnologyState>)
      ensures cards == ListByTraineeId(cardRepo.cards, traineeId)
      ensures forall c :: c in cards <==> c in cardRepo.cards && c.traineeId == traineeId
      ensures forall c ::
        multiset(cards)[c] == if c.traineeId == traineeId then multiset(cardRepo.cards)[c] else 0
    {
      cards := ListByTraineeId(cardRepo.cards, traineeId);
    }
  }
}
