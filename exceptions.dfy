/** The domain error hierarchy (src/core/exceptions/exceptions.py) as one
    datatype: every error belongs to one of two families, "not found" and
    "business rule".  Only `InvalidLearningStateTransition` carries
    structured context, the string values of the two states involved. */
module Exceptions {
  import opened Models

  datatype DomainError =
    // "Not found" family
    | UserNotFound
    | TechnologyNotFound
    | TraineeTechnologyStateNotFound
    | StatusUpdateNotFound
    // "Business rule" family
    | InvalidLearningStateTransition(fromState: string, toState: string)
    | TechnologyAlreadyApproved
    | NoActiveLearningSession
    | LearningSessionAlreadyInProgress

  datatype ErrorFamily = NotFound | BusinessRule

  /** The base class an error derives from. */
  function Family(e: DomainError): (f: ErrorFamily)
    ensures f == NotFound <==>
      e.UserNotFound? || e.TechnologyNotFound? || e.TraineeTechnologyStateNotFound? || e.StatusUpdateNotFound?
  {
    match e
    case UserNotFound => NotFound
    case TechnologyNotFound => NotFound
    case TraineeTechnologyStateNotFound => NotFound
    case StatusUpdateNotFound => NotFound
    case InvalidLearningStateTransition(_, _) => BusinessRule
    case TechnologyAlreadyApproved => BusinessRule
    case NoActiveLearningSession => BusinessRule
    case LearningSessionAlreadyInProgress => BusinessRule
  }

  /** The "not found" family is exactly the four lookup failures, the
      "business rule" family exactly the other four, and no error is in both. */
  lemma FamiliesPartition(e: DomainError)
    ensures Family(e) == NotFound <==>
      e.UserNotFound? || e.TechnologyNotFound? || e.TraineeTechnologyStateNotFound? || e.StatusUpdateNotFound?
    ensures Family(e) == BusinessRule <==>
      e.InvalidLearningStateTransition? || e.TechnologyAlreadyApproved? ||
      e.NoActiveLearningSession? || e.LearningSessionAlreadyInProgress?
    ensures Family(e) != NotFound <==> Family(e) == BusinessRule
  {
  }

  const TransitionPrefix: string := "Cannot transition from "

  /** The message of an invalid-transition error. */
  function TransitionMessage(fromState: string, toState: string): (m: string)
    ensures |m| == |TransitionPrefix| + |fromState| + 4 + |toState| + 1
    ensures m[..|TransitionPrefix|] == TransitionPrefix && m[|m| - 1] == '.'
  {
    TransitionPrefix + fromState + " to " + toState + "."
  }

  /** The index of the first space in `s`, or `|s|` if there is none. */
  function FirstSpace(s: string): (k: nat)
    ensures k <= |s|
  {
    if s == [] then 0 else if s[0] == ' ' then 0 else 1 + FirstSpace(s[1..])
  }

  lemma {:induction false} FirstSpaceEndsWord(w: string, rest: string)
    requires NoSpace(w) && |rest| > 0 && rest[0] == ' '
    ensures FirstSpace(w + rest) == |w|
  {
    if w != [] {
      assert (w + rest)[1..] == w[1..] + rest;
      FirstSpaceEndsWord(w[1..], rest);
    }
  }

  /** The message names its two states unambiguously: as long as neither
      state string contains a space (true of every `LearningState` value),
      the message determines both. */
  lemma TransitionMessageDeterminesStates(a: string, b: string, c: string, d: string)
    requires NoSpace(a) && NoSpace(c)
    ensures TransitionMessage(a, b) == TransitionMessage(c, d) ==> a == c && b == d
  {
    if TransitionMessage(a, b) == TransitionMessage(c, d) {
      var k := |TransitionPrefix|;
      var x := a + " to " + b + ".";
      var y := c + " to " + d + ".";
      assert TransitionMessage(a, b)[k..] == x;
      assert TransitionMessage(c, d)[k..] == y;
      assert x == y;
      FirstSpaceEndsWord(a, " to " + b + ".");
      FirstSpaceEndsWord(c, " to " + d + ".");
      assert a + (" to " + b + ".") == x && c + (" to " + d + ".") == y;
      assert a == x[..|a|] && c == y[..|c|];
      assert b == x[|a| + 4..|x| - 1] && d == y[|c| + 4..|y| - 1];
    }
  }

  /** Hence an invalid-transition error raised for two learning states can be
      traced back to exactly those states from its message alone. */
  lemma TransitionMessageDeterminesLearningStates(s1: LearningState, t1: LearningState, s2: LearningState, t2: LearningState)
    ensures TransitionMessage(s1.Value(), t1.Value()) == TransitionMessage(s2.Value(), t2.Value())
      ==> s1 == s2 && t1 == t2
  {
    LearningStatesEnumerated();
    TransitionMessageDeterminesStates(s1.Value(), t1.Value(), s2.Value(), t2.Value());
    LearningStateValueInjective(s1, s2);
    LearningStateValueInjective(t1, t2);
  }
}
