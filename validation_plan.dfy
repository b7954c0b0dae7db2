/** A reference semantics for the validators: each one is an ordered list of
    checks, and the result is the message of the first check that fails, or
    nothing when all of them pass. The lemmas here show that the nested
    branches of each validator compute exactly that, so "the first failing
    check wins, in a fixed order" holds of every validator. */
module ValidationPlan {
  import opened ArgumentValidators

  /** The collaborators a check may consult. */
  datatype Env = Env(expedite: seq<string>, toNumber: Arg -> Numeric)

  /** One check of a validator. The positional checks fail when their
      position is beyond the end of the list. */
  datatype Check =
    | ArgCount(lo: nat, hi: nat, err: ErrorMessage)   // lo <= |args| <= hi
    | Direction(at: nat)                              // a valid direction string
    | Number(at: nat)                                 // converts to a number
    | Boolean(at: nat)                                // a genuine boolean
    | Expedite(at: nat)                               // an expedite keyword

  predicate Passes(c: Check, env: Env, args: seq<Arg>) {
    match c
    case ArgCount(lo, hi, _) => lo <= |args| <= hi
    case Direction(i) => i < |args| && IsValidDirectionString(args[i])
    case Number(i) => i < |args| && ConvertsToNumber(env.toNumber, args[i])
    case Boolean(i) => i < |args| && args[i].Bool?
    case Expedite(i) => i < |args| && IsExpediteKeyword(env.expedite, args[i])
  }

  /** The message a failing check reports. */
  function Failure(c: Check): (e: ErrorMessage) {
    match c
    case ArgCount(_, _, err) => err
    case Direction(_) => InvalidDirectionString
    case Number(_) => HeadingMustBeNumber
    case Boolean(_) => HeadingAcceptsBooleanAsThirdArg
    case Expedite(_) => AltitudeExpediteArg
  }

  /** Run the checks in order and stop at the first failure. */
  function FirstFailure(plan: seq<Check>, env: Env, args: seq<Arg>): (r: Option<ErrorMessage>) {
    if plan == [] then None
    else if !Passes(plan[0], env, args) then Some(Failure(plan[0]))
    else FirstFailure(plan[1..], env, args)
  }

  /** The first k checks of the plan pass. */
  predicate PassesUpTo(plan: seq<Check>, env: Env, args: seq<Arg>, k: int)
    requires 0 <= k <= |plan|
  {
    forall j :: 0 <= j < k ==> Passes(plan[j], env, args)
  }

  /** Check k is the first one of the plan to fail. */
  predicate FailsFirstAt(plan: seq<Check>, env: Env, args: seq<Arg>, k: int) {
    0 <= k < |plan| && PassesUpTo(plan, env, args, k) && !Passes(plan[k], env, args)
  }

  /** Running the plan yields nothing exactly when every check passes, and
      otherwise the message of the first failing check. */
  lemma {:induction false} FirstFailureSpec(plan: seq<Check>, env: Env, args: seq<Arg>)
    ensures FirstFailure(plan, env, args).None? <==> PassesUpTo(plan, env, args, |plan|)
    ensures forall k :: FailsFirstAt(plan, env, args, k) ==>
              FirstFailure(plan, env, args) == Some(Failure(plan[k]))
    ensures FirstFailure(plan, env, args).Some? ==>
              exists k :: FailsFirstAt(plan, env, args, k) &&
                          FirstFailure(plan, env, args) == Some(Failure(plan[k]))
  {
    if plan == [] {
    } else if !Passes(plan[0], env, args) {
      assert FailsFirstAt(plan, env, args, 0);
      forall k | FailsFirstAt(plan, env, args, k)
        ensures FirstFailure(plan, env, args) == Some(Failure(plan[k]))
      {
        assert k == 0;
      }
    } else {
      var rest := plan[1..];
      FirstFailureSpec(rest, env, args);
      assert forall j :: 0 <= j < |rest| ==> rest[j] == plan[j + 1];
      if PassesUpTo(rest, env, args, |rest|) {
        assert PassesUpTo(plan, env, args, |plan|);
      }
      forall k | FailsFirstAt(plan, env, args, k)
        ensures FirstFailure(plan, env, args) == Some(Failure(plan[k]))
      {
        assert k > 0 && FailsFirstAt(rest, env, args, k - 1);
      }
      if FirstFailure(plan, env, args).Some? {
        var k :| FailsFirstAt(rest, env, args, k) &&
                 FirstFailure(rest, env, args) == Some(Failure(rest[k]));
        assert FailsFirstAt(plan, env, args, k + 1);
      }
    }
  }

  /** One step of running a plan. */
  lemma FirstFailureStep(c: Check, rest: seq<Check>, env: Env, args: seq<Arg>)
    ensures FirstFailure([c] + rest, env, args) ==
            if !Passes(c, env, args) then Some(Failure(c)) else FirstFailure(rest, env, args)
  {
    assert ([c] + rest)[1..] == rest;
  }

  /** The order of checks each validator performs. */
  function AltitudePlan(n: nat): (plan: seq<Check>) {
    [ArgCount(1, 2, OneOrTwoArgLength)] + (if n == 2 then [Expedite(1)] else [])
  }

  function HeadingPlan(n: nat): (plan: seq<Check>) {
    [ArgCount(1, 3, OneToThreeArgLength)] +
    (if n == 1 then [Number(0)]
     else if n == 2 then [Direction(0), Number(1)]
     else if n == 3 then [Direction(0), Number(1), Boolean(2)]
     else [])
  }

  /** Each arity validator is the single check that the count lies in its range. */
  lemma ArityValidatorsAreRangeChecks(env: Env, args: seq<Arg>)
    ensures ZeroArgumentsValidator(args) == FirstFailure([ArgCount(0, 0, ZeroArgLength)], env, args)
    ensures SingleArgumentValidator(args) == FirstFailure([ArgCount(1, 1, SingleArgLength)], env, args)
    ensures ZeroOrOneArgumentValidator(args) == FirstFailure([ArgCount(0, 1, ZeroOrOneArgLength)], env, args)
    ensures OneOrTwoArgumentValidator(args) == FirstFailure([ArgCount(1, 2, OneOrTwoArgLength)], env, args)
    ensures OneToThreeArgumentsValidator(args) ==
            FirstFailure([ArgCount(1, 3, OneToThreeArgLength)], env, args)
  {
  }

  /** The altitude validator runs the arity check, then the expedite check. */
  lemma AltitudeFollowsPlan(env: Env, args: seq<Arg>)
    ensures AltitudeValidator(env.expedite, args) == FirstFailure(AltitudePlan(|args|), env, args)
  {
    var tail := if |args| == 2 then [Expedite(1)] else [];
    FirstFailureStep(ArgCount(1, 2, OneOrTwoArgLength), tail, env, args);
    if |args| == 2 {
      FirstFailureStep(Expedite(1), [], env, args);
    }
  }

  /** The heading validator runs arity, direction, number, boolean, in that
      order, with the checks chosen by the argument count. */
  lemma HeadingFollowsPlan(env: Env, args: seq<Arg>)
    ensures HeadingValidator(env.toNumber, args) == FirstFailure(HeadingPlan(|args|), env, args)
  {
    var n := |args|;
    var head := ArgCount(1, 3, OneToThreeArgLength);
    var tail := HeadingPlan(n)[1..];
    assert HeadingPlan(n) == [head] + tail;
    FirstFailureStep(head, tail, env, args);
    if n == 1 {
      FirstFailureStep(Number(0), [], env, args);
    } else if n == 2 {
      HeadingTwoArguments(env, args);
    } else if n == 3 {
      HeadingThreeArguments(env, args);
    }
  }

  lemma HeadingTwoArguments(env: Env, args: seq<Arg>)
    requires |args| == 2
    ensures HeadingValidator(env.toNumber, args) ==
            FirstFailure([Direction(0), Number(1)], env, args)
  {
    FirstFailureStep(Direction(0), [Number(1)], env, args);
    FirstFailureStep(Number(1), [], env, args);
  }

  lemma HeadingThreeArguments(env: Env, args: seq<Arg>)
    requires |args| == 3
    ensures HeadingValidator(env.toNumber, args) ==
            FirstFailure([Direction(0), Number(1), Boolean(2)], env, args)
  {
    FirstFailureStep(Direction(0), [Number(1), Boolean(2)], env, args);
    FirstFailureStep(Number(1), [Boolean(2)], env, args);
    FirstFailureStep(Boolean(2), [], env, args);
  }

  /** First failure wins, stated on the heading validator itself: it passes
      exactly when every check of its plan passes, and otherwise reports the
      message of the first check that fails. */
  lemma HeadingFirstFailureWins(env: Env, args: seq<Arg>)
    ensures HeadingValidator(env.toNumber, args).None? <==>
            PassesUpTo(HeadingPlan(|args|), env, args, |HeadingPlan(|args|)|)
    ensures forall k :: FailsFirstAt(HeadingPlan(|args|), env, args, k) ==>
              HeadingValidator(env.toNumber, args) == Some(Failure(HeadingPlan(|args|)[k]))
  {
    HeadingFollowsPlan(env, args);
    FirstFailureSpec(HeadingPlan(|args|), env, args);
  }

  /** The same for the altitude validator. */
  lemma AltitudeFirstFailureWins(env: Env, args: seq<Arg>)
    ensures AltitudeValidator(env.expedite, args).None? <==>
            PassesUpTo(AltitudePlan(|args|), env, args, |AltitudePlan(|args|)|)
    ensures forall k :: FailsFirstAt(AltitudePlan(|args|), env, args, k) ==>
              AltitudeValidator(env.expedite, args) == Some(Failure(AltitudePlan(|args|)[k]))
  {
    AltitudeFollowsPlan(env, args);
    FirstFailureSpec(AltitudePlan(|args|), env, args);
  }
}
