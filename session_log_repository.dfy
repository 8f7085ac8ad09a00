/** The session-log store (src/application/repositories/
    i_learning_session_log_repository.py) made concrete in memory: the logs
    in insertion order, with distinct ids.  A log records only its task
    card; which trainee it belongs to is read from the card store, so the
    trainee-level query takes the stored cards as a parameter (the join a
    database would perform). */
module SessionLogRepository {
  import opened Wrappers
  import opened Models
  import opened StateRepository

  ghost predicate UniqueLogIds(logs: seq<LearningSessionLog>) {
    forall i, j | 0 <= i < j < |logs| :: logs[i].id != logs[j].id
  }

  /** No stored log has the id `id`. */
  predicate LogIdUnused(logs: seq<LearningSessionLog>, id: Uuid) {
    forall l :: l in logs ==> l.id != id
  }

  /** `log` is an open session on one of `traineeId`'s task cards. */
  predicate IsOpenFor(cards: seq<TraineeTechnologyState>, log: LearningSessionLog, traineeId: Uuid) {
    log.IsActive() && TraineeOf(cards, log.traineeTechnologyStateId) == Some(traineeId)
  }

  /** The business rule the store backs: no two open sessions belong to the
      same trainee. */
  ghost predicate SingleOpenSession(cards: seq<TraineeTechnologyState>, logs: seq<LearningSessionLog>) {
    forall i, j | 0 <= i < j < |logs| ::
      !(logs[i].IsActive() && logs[j].IsActive()
        && TraineeOf(cards, logs[i].traineeTechnologyStateId).Some?
        && TraineeOf(cards, logs[i].traineeTechnologyStateId) == TraineeOf(cards, logs[j].traineeTechnologyStateId))
  }

  /** `find_active_session_by_trainee_id`: an open session of the trainee,
      or None (absence is not an error). */
  function FindActiveSessionByTraineeId(cards: seq<TraineeTechnologyState>, logs: seq<LearningSessionLog>, traineeId: Uuid)
    : (r: Option<LearningSessionLog>)
    ensures r.Some? ==> r.value in logs && IsOpenFor(cards, r.value, traineeId)
    ensures r.None? <==> forall l :: l in logs ==> !IsOpenFor(cards, l, traineeId)
  {
    if logs == [] then None
    else if IsOpenFor(cards, logs[0], traineeId) then Some(logs[0])
    else FindActiveSessionByTraineeId(cards, logs[1..], traineeId)
  }

  /** Under the single-open-session rule the session found is THE open
      session of the trainee. */
  lemma {:induction false} FindActiveIsTheOpenSession(
    cards: seq<TraineeTechnologyState>, logs: seq<LearningSessionLog>, traineeId: Uuid, l: LearningSessionLog)
    requires SingleOpenSession(cards, logs)
    requires l in logs && IsOpenFor(cards, l, traineeId)
    ensures FindActiveSessionByTraineeId(cards, logs, traineeId) == Some(l)
  {
    var k :| 0 <= k < |logs| && logs[k] == l;
    if k > 0 {
      assert !IsOpenFor(cards, logs[0], traineeId);
      assert logs[1..][k - 1] == l;
      assert SingleOpenSession(cards, logs[1..]) by {
        forall i, j | 0 <= i < j < |logs| - 1
          ensures logs[1..][i] == logs[i + 1] && logs[1..][j] == logs[j + 1]
        {
        }
      }
      FindActiveIsTheOpenSession(cards, logs[1..], traineeId, l);
    }
  }

  /** The store after `update(log)`: every log stored under `log`'s id is
      replaced by `log`, the others stay where and as they were. */
  function ReplaceLog(logs: seq<LearningSessionLog>, log: LearningSessionLog): (r: seq<LearningSessionLog>)
    ensures |r| == |logs|
    ensures forall i :: 0 <= i < |logs| && logs[i].id == log.id ==> r[i] == log
    ensures forall i :: 0 <= i < |logs| && logs[i].id != log.id ==> r[i] == logs[i]
  {
    if logs == [] then []
    else [if logs[0].id == log.id then log else logs[0]] + ReplaceLog(logs[1..], log)
  }

  /** `list_for_state`: every log of the task card, open or closed, and no
      other, in store order. */
  function ListForState(logs: seq<LearningSessionLog>, stateId: Uuid): (r: seq<LearningSessionLog>)
    ensures forall l :: l in r <==> l in logs && l.traineeTechnologyStateId == stateId
    ensures forall l :: multiset(r)[l] == if l.traineeTechnologyStateId == stateId then multiset(logs)[l] else 0
    ensures |r| <= |logs|
  {
    if logs == [] then []
    else
      assert logs == [logs[0]] + logs[1..];
      (if logs[0].traineeTechnologyStateId == stateId then [logs[0]] else [])
      + ListForState(logs[1..], stateId)
  }

  /** The in-memory store itself. */
  class LearningSessionLogRepository {
    var logs: seq<LearningSessionLog>

    ghost predicate Valid()
      reads this
    {
      UniqueLogIds(logs)
    }

    constructor ()
      ensures Valid() && logs == []
    {
      logs := [];
    }

    /** `add`: stores a new log, whose id is unused. */
    method Add(log: LearningSessionLog)
      requires Valid()
      requires LogIdUnused(logs, log.id)
      modifies this
      ensures Valid()
      ensures logs == old(logs) + [log]
      ensures log in logs
    {
      logs := logs + [log];
    }

    /** `update`: replaces the stored log that has `log`'s id. */
    method Update(log: LearningSessionLog)
      requires Valid()
      modifies this
      ensures Valid()
      ensures logs == ReplaceLog(old(logs), log)
    {
      logs := ReplaceLog(logs, log);
    }
  }
}
