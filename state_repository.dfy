/** The task-card store (src/application/repositories/
    i_trainee_technology_state_repository.py) made concrete in memory: the
    cards in insertion order, with distinct ids and at most one card per
    business key (trainee, technology).  The lookups and listings are pure
    functions of the stored cards; `add` and `update` change the store. */
module StateRepository {
  import opened Wrappers
  import opened Models
  import opened Exceptions

  ghost predicate UniqueIds(cards: seq<TraineeTechnologyState>) {
    forall i, j | 0 <= i < j < |cards| :: cards[i].id != cards[j].id
  }

  /** (trainee, technology) is a business key. */
  ghost predicate UniqueBusinessKeys(cards: seq<TraineeTechnologyState>) {
    forall i, j | 0 <= i < j < |cards| ::
      cards[i].traineeId != cards[j].traineeId || cards[i].technologyId != cards[j].technologyId
  }

  ghost predicate ValidCards(cards: seq<TraineeTechnologyState>) {
    UniqueIds(cards) && UniqueBusinessKeys(cards)
  }

  /** `get_by_id`: the card with that id, or the not-found error. */
  function GetById(cards: seq<TraineeTechnologyState>, stateId: Uuid): (r: Result<TraineeTechnologyState, DomainError>)
    ensures r.Success? ==> r.value in cards && r.value.id == stateId
    ensures r.Failure? ==>
      r.error == TraineeTechnologyStateNotFound && forall c :: c in cards ==> c.id != stateId
  {
    if cards == [] then Failure(TraineeTechnologyStateNotFound)
    else if cards[0].id == stateId then Success(cards[0])
    else GetById(cards[1..], stateId)
  }

  /** With distinct ids, `get_by_id` finds the one card that has the id. */
  lemma {:induction false} GetByIdFindsUnique(cards: seq<TraineeTechnologyState>, c: TraineeTechnologyState)
    requires UniqueIds(cards) && c in cards
    ensures GetById(cards, c.id) == Success(c)
  {
    if cards[0] != c {
      var k :| 0 <= k < |cards| && cards[k] == c;
      assert cards[1..][k - 1] == c;
      GetByIdFindsUnique(cards[1..], c);
    }
  }

  /** The trainee a task card belongs to, if the card is stored. */
  function TraineeOf(cards: seq<TraineeTechnologyState>, stateId: Uuid): Option<Uuid> {
    match GetById(cards, stateId)
    case Success(c) => Some(c.traineeId)
    case Failure(_) => None
  }

  /** `find_by_trainee_and_technology`: the card for the business key, or
      None, which is a normal outcome and not an error. */
  function FindByTraineeAndTechnology(cards: seq<TraineeTechnologyState>, traineeId: Uuid, technologyId: Uuid)
    : (r: Option<TraineeTechnologyState>)
    ensures r.Some? ==>
      r.value in cards && r.value.traineeId == traineeId && r.value.technologyId == technologyId
    ensures r.None? ==>
      forall c :: c in cards ==> c.traineeId != traineeId || c.technologyId != technologyId
  {
    if cards == [] then None
    else if cards[0].traineeId == traineeId && cards[0].technologyId == technologyId then Some(cards[0])
    else FindByTraineeAndTechnology(cards[1..], traineeId, technologyId)
  }

  /** With unique business keys the lookup finds the one card of the pair. */
  lemma {:induction false} FindByBusinessKeyUnique(cards: seq<TraineeTechnologyState>, c: TraineeTechnologyState)
    requires UniqueBusinessKeys(cards) && c in cards
    ensures FindByTraineeAndTechnology(cards, c.traineeId, c.technologyId) == Some(c)
  {
    if cards[0] != c {
      var k :| 0 <= k < |cards| && cards[k] == c;
      assert cards[1..][k - 1] == c;
      FindByBusinessKeyUnique(cards[1..], c);
    }
  }

  /** The store after `update(c)`: every card stored under `c`'s id is
      replaced by `c`, every other card stays where and as it was. */
  function ReplaceCard(cards: seq<TraineeTechnologyState>, c: TraineeTechnologyState): (r: seq<TraineeTechnologyState>)
    ensures |r| == |cards|
    ensures forall i :: 0 <= i < |cards| && cards[i].id == c.id ==> r[i] == c
    ensures forall i :: 0 <= i < |cards| && cards[i].id != c.id ==> r[i] == cards[i]
  {
    if cards == [] then []
    else [if cards[0].id == c.id then c else cards[0]] + ReplaceCard(cards[1..], c)
  }

  /** `c` keeps the identity (id and business key) of the stored card it
      replaces. */
  predicate KeepsIdentity(cards: seq<TraineeTechnologyState>, c: TraineeTechnologyState) {
    forall d :: d in cards && d.id == c.id ==> d.traineeId == c.traineeId && d.technologyId == c.technologyId
  }

  /** An update that keeps the identity of the card keeps the store valid. */
  lemma ReplaceKeepsValid(cards: seq<TraineeTechnologyState>, c: TraineeTechnologyState)
    requires KeepsIdentity(cards, c) && ValidCards(cards)
    ensures ValidCards(ReplaceCard(cards, c))
  {
    var r := ReplaceCard(cards, c);
    forall i | 0 <= i < |cards|
      ensures r[i].id == cards[i].id
      ensures r[i].traineeId == cards[i].traineeId && r[i].technologyId == cards[i].technologyId
    {
      assert cards[i] in cards;
    }
  }

  /** An update that keeps the identity of the card moves no card to another
      trainee. */
  lemma {:induction false} ReplaceKeepsOwner(cards: seq<TraineeTechnologyState>, c: TraineeTechnologyState, stateId: Uuid)
    requires KeepsIdentity(cards, c)
    ensures TraineeOf(ReplaceCard(cards, c), stateId) == TraineeOf(cards, stateId)
  {
    if cards != [] {
      assert cards[0] in cards;
      assert KeepsIdentity(cards[1..], c) by {
        forall d | d in cards[1..] ensures d in cards { }
      }
      ReplaceKeepsOwner(cards[1..], c, stateId);
      assert ReplaceCard(cards, c)[1..] == ReplaceCard(cards[1..], c);
    }
  }

  lemma ReplaceKeepsOwners(cards: seq<TraineeTechnologyState>, c: TraineeTechnologyState)
    requires KeepsIdentity(cards, c)
    ensures forall stateId :: TraineeOf(ReplaceCard(cards, c), stateId) == TraineeOf(cards, stateId)
  {
    forall stateId ensures TraineeOf(ReplaceCard(cards, c), stateId) == TraineeOf(cards, stateId) {
      ReplaceKeepsOwner(cards, c, stateId);
    }
  }

  /** `list_by_trainee_id`: exactly the trainee's cards, in store order. */
  function ListByTraineeId(cards: seq<TraineeTechnologyState>, traineeId: Uuid): (r: seq<TraineeTechnologyState>)
    ensures forall c :: c in r <==> c in cards && c.traineeId == traineeId
    ensures forall c :: multiset(r)[c] == if c.traineeId == traineeId then multiset(cards)[c] else 0
    ensures |r| <= |cards|
  {
    if cards == [] then []
    else
      assert cards == [cards[0]] + cards[1..];
      (if cards[0].traineeId == traineeId then [cards[0]] else [])
      + ListByTraineeId(cards[1..], traineeId)
  }

  /** `list_by_mentor_id_and_states`: exactly the mentor's cards whose state
      is one of `states`, in store order. */
  function ListByMentorIdAndStates(cards: seq<TraineeTechnologyState>, mentorId: Uuid, states: seq<LearningState>)
    : (r: seq<TraineeTechnologyState>)
    ensures forall c :: c in r <==> c in cards && c.mentorId == mentorId && c.state in states
    ensures forall c ::
      multiset(r)[c] == if c.mentorId == mentorId && c.state in states then multiset(cards)[c] else 0
    ensures |r| <= |cards|
  {
    if cards == [] then []
    else
      assert cards == [cards[0]] + cards[1..];
      (if cards[0].mentorId == mentorId && cards[0].state in states then [cards[0]] else [])
      + ListByMentorIdAndStates(cards[1..], mentorId, states)
  }

  /** The in-memory store itself. */
  class TraineeTechnologyStateRepository {
    var cards: seq<TraineeTechnologyState>

    ghost predicate Valid()
      reads this
    {
      ValidCards(cards)
    }

    constructor ()
      ensures Valid() && cards == []
    {
      cards := [];
    }

    /** `add`: stores a new card, whose id and business key are unused. */
    method Add(c: TraineeTechnologyState)
      requires Valid()
      requires forall d :: d in cards ==> d.id != c.id
      requires FindByTraineeAndTechnology(cards, c.traineeId, c.technologyId) == None
      modifies this
      ensures Valid()
      ensures cards == old(cards) + [c]
      ensures GetById(cards, c.id) == Success(c)
    {
      cards := cards + [c];
      GetByIdFindsUnique(cards, c);
    }

    /** `update`: replaces the stored card that has `c`'s id; `c` keeps
        the id and business key of the card it replaces. */
    method Update(c: TraineeTechnologyState)
      requires Valid() && KeepsIdentity(cards, c)
      modifies this
      ensures Valid()
      ensures cards == ReplaceCard(old(cards), c)
    {
      ReplaceKeepsValid(cards, c);
      cards := ReplaceCard(cards, c);
    }
  }
}
