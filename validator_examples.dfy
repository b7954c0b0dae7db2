/** The argument lists and expected results of the validators' test suite,
    as lemmas. The number converter and the expedite list are parameters, so
    each lemma requires only what the tests rely on: "042" and "42" convert to
    numbers, "threeve" does not; "expedite" is a keyword and "" is not. */
module ValidatorExamples {
  import opened ArgumentValidators

  predicate TestConverter(toNumber: Arg -> Numeric) {
    && toNumber(Str("042")).Num?
    && toNumber(Str("42")).Num?
    && toNumber(Str("threeve")).NaN?
  }

  predicate TestKeywords(expedite: seq<string>) {
    "expedite" in expedite && "" !in expedite
  }

  lemma ZeroArgumentsExamples()
    ensures Render(ZeroArgumentsValidator([])) == None
    ensures Render(ZeroArgumentsValidator([Str(""), Str("")])) ==
            Some("Invalid argument length. Expected exactly zero arguments")
  {
  }

  lemma SingleArgumentExamples()
    ensures Render(SingleArgumentValidator([Str("")])) == None
    ensures Render(SingleArgumentValidator([Str(""), Str("")])) ==
            Some("Invalid argument length. Expected exactly one argument")
    ensures Render(SingleArgumentValidator([])) ==
            Some("Invalid argument length. Expected exactly one argument")
  {
  }

  lemma ZeroOrOneArgumentExamples()
    ensures Render(ZeroOrOneArgumentValidator([])) == None
    ensures Render(ZeroOrOneArgumentValidator([Str("")])) == None
    ensures Render(ZeroOrOneArgumentValidator([Str(""), Str("")])) ==
            Some("Invalid argument length. Expected zero or one argument")
  {
  }

  lemma OneOrTwoArgumentExamples()
    ensures Render(OneOrTwoArgumentValidator([Str("")])) == None
    ensures Render(OneOrTwoArgumentValidator([Str(""), Str("")])) == None
    ensures Render(OneOrTwoArgumentValidator([])) ==
            Some("Invalid argument length. Expected one or two arguments")
    ensures Render(OneOrTwoArgumentValidator([Str(""), Str(""), Str("")])) ==
            Some("Invalid argument length. Expected one or two arguments")
  {
  }

  lemma AltitudeExamples(expedite: seq<string>)
    requires TestKeywords(expedite)
    ensures Render(AltitudeValidator(expedite, [Str("")])) == None
    ensures Render(AltitudeValidator(expedite, [Str(""), Str("expedite")])) == None
    ensures Render(AltitudeValidator(expedite, [])) ==
            Some("Invalid argument length. Expected one or two arguments")
    ensures Render(AltitudeValidator(expedite, [Str(""), Str(""), Str("")])) ==
            Some("Invalid argument length. Expected one or two arguments")
    ensures Render(AltitudeValidator(expedite, [Str(""), Str("")])) ==
            Some("Invalid argument. Altitude accepts only \"expedite\" or \"x\" as a second argument")
  {
  }

  lemma HeadingArityExamples(toNumber: Arg -> Numeric)
    requires TestConverter(toNumber)
    ensures Render(HeadingValidator(toNumber, [Str("042")])) == None
    ensures Render(HeadingValidator(toNumber, [Str("l"), Str("42")])) == None
    ensures Render(HeadingValidator(toNumber, [Str("l"), Str("42"), Bool(true)])) == None
    ensures Render(HeadingValidator(toNumber, [])) ==
            Some("Invalid argument length. Expected one, two, or three arguments")
    ensures Render(HeadingValidator(toNumber, [Str(""), Str(""), Str(""), Str("")])) ==
            Some("Invalid argument length. Expected one, two, or three arguments")
  {
  }

  lemma HeadingNumberExamples(toNumber: Arg -> Numeric)
    requires TestConverter(toNumber)
    ensures Render(HeadingValidator(toNumber, [Str("threeve")])) ==
            Some("Invalid argument. Heading must be a number")
    ensures Render(HeadingValidator(toNumber, [Str("l"), Str("threeve")])) ==
            Some("Invalid argument. Heading must be a number")
    ensures Render(HeadingValidator(toNumber, [Str("l"), Str("threeve"), Bool(true)])) ==
            Some("Invalid argument. Heading must be a number")
  {
  }

  lemma DirectionText()
    ensures Render(Some(InvalidDirectionString)) ==
            Some("Invalid argument. Expected one of 'left / l / right / r' as the first argument when passed three arguments")
  {
  }

  /** The direction is checked before the number, so these hold whatever
      the converter does. */
  lemma HeadingDirectionExample(toNumber: Arg -> Numeric)
    ensures Render(HeadingValidator(toNumber, [Str("42"), Str("42")])) ==
            Some("Invalid argument. Expected one of 'left / l / right / r' as the first argument when passed three arguments")
  {
    assert HeadingValidator(toNumber, [Str("42"), Str("42")]) == Some(InvalidDirectionString);
    DirectionText();
  }

  lemma HeadingDirectionThreeArgumentsExample(toNumber: Arg -> Numeric)
    ensures Render(HeadingValidator(toNumber, [Str("42"), Str("42"), Bool(true)])) ==
            Some("Invalid argument. Expected one of 'left / l / right / r' as the first argument when passed three arguments")
  {
    assert HeadingValidator(toNumber, [Str("42"), Str("42"), Bool(true)]) == Some(InvalidDirectionString);
    DirectionText();
  }

  lemma HeadingBooleanExample(toNumber: Arg -> Numeric)
    requires TestConverter(toNumber)
    ensures Render(HeadingValidator(toNumber, [Str("l"), Str("42"), Str("threeve")])) ==
            Some("Invalid argument. Heading accepts a boolean for the third argument when passed three arguments")
  {
  }

  lemma HeadingAcceptExamples(toNumber: Arg -> Numeric)
    requires TestConverter(toNumber)
    ensures Render(HeadingValidator(toNumber, [Str("042")])) == None
    ensures Render(HeadingValidator(toNumber, [Str("l"), Str("042")])) == None
    ensures Render(HeadingValidator(toNumber, [Str("l"), Str("042"), Bool(true)])) == None
  {
  }
}
