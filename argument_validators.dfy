/** Model of the command-argument validators of the openscope command parser.

    Every validator takes the ordered argument list of one typed ATC instruction
    and returns either nothing (the list is acceptable) or exactly one error
    message from a fixed table. The validators are pure; the two collaborators
    they consult (the string-to-number helper and the expedite keyword list)
    are passed in as parameters.
 */
module ArgumentValidators {

  datatype Option<T> = None | Some(value: T)

  /** One token of an argument list: the tokenizer produces strings; the
      third argument of a heading instruction may be a genuine boolean. */
  datatype Arg = Str(s: string) | Bool(b: bool)

  /** What the external string-to-number helper yields: a number or NaN. */
  datatype Numeric = Num(value: real) | NaN

  /** The keys of the error-message table. */
  datatype ErrorMessage =
    | ZeroArgLength
    | SingleArgLength
    | ZeroOrOneArgLength
    | OneOrTwoArgLength
    | OneToThreeArgLength
    | AltitudeExpediteArg
    | HeadingMustBeNumber
    | InvalidDirectionString
    | HeadingAcceptsBooleanAsThirdArg

  /** The text of each message, as the dispatcher shows it to the user. The
      source builds them from the shared leads "Invalid argument" and
      "Invalid argument length"; here they are written out in full. */
  function MessageText(e: ErrorMessage): string
  {
    match e
    case ZeroArgLength => "Invalid argument length. Expected exactly zero arguments"
    case SingleArgLength => "Invalid argument length. Expected exactly one argument"
    case ZeroOrOneArgLength => "Invalid argument length. Expected zero or one argument"
    case OneOrTwoArgLength => "Invalid argument length. Expected one or two arguments"
    case OneToThreeArgLength => "Invalid argument length. Expected one, two, or three arguments"
    case AltitudeExpediteArg =>
      "Invalid argument. Altitude accepts only \"expedite\" or \"x\" as a second argument"
    case HeadingMustBeNumber => "Invalid argument. Heading must be a number"
    case InvalidDirectionString =>
      "Invalid argument. Expected one of 'left / l / right / r' as the first argument when passed three arguments"
    case HeadingAcceptsBooleanAsThirdArg =>
      "Invalid argument. Heading accepts a boolean for the third argument when passed three arguments"
  }

  /** Distinct keys have distinct texts, so the text alone tells the user
      which condition failed. */
  lemma MessageTextInjective(a: ErrorMessage, b: ErrorMessage)
    ensures MessageText(a) == MessageText(b) ==> a == b
  {
    // Lengths tell all keys apart except the three 54-character arity
    // texts, which differ at index 34.
    ArityTextLengths();
    ShortTextLengths();
    DirectionTextLength();
    BooleanTextLength();
  }

  lemma ArityTextLengths()
    ensures |MessageText(ZeroArgLength)| == 56
    ensures |MessageText(SingleArgLength)| == 54
    ensures |MessageText(ZeroOrOneArgLength)| == 54
    ensures |MessageText(OneOrTwoArgLength)| == 54
    ensures |MessageText(OneToThreeArgLength)| == 62
    ensures MessageText(SingleArgLength)[34] == 'e'
    ensures MessageText(ZeroOrOneArgLength)[34] == 'z'
    ensures MessageText(OneOrTwoArgLength)[34] == 'o'
  {
  }

  lemma ShortTextLengths()
    ensures |MessageText(AltitudeExpediteArg)| == 78
    ensures |MessageText(HeadingMustBeNumber)| == 42
  {
  }

  lemma DirectionTextLength()
    ensures |MessageText(InvalidDirectionString)| == 106
  {
  }

  lemma BooleanTextLength()
    ensures |MessageText(HeadingAcceptsBooleanAsThirdArg)| == 94
  {
  }

  /** What a validator hands back to the dispatcher: undefined (None) or the
      message text. */
  function Render(r: Option<ErrorMessage>): (out: Option<string>)
  {
    match r
    case None => None
    case Some(e) => Some(MessageText(e))
  }

  function ZeroArgumentsValidator(args: seq<Arg>): (r: Option<ErrorMessage>)
    ensures r.None? <==> |args| == 0
    ensures r.Some? ==> MessageText(r.value) == "Invalid argument length. Expected exactly zero arguments"
  {
    if |args| != 0 then Some(ZeroArgLength) else None
  }

  function SingleArgumentValidator(args: seq<Arg>): (r: Option<ErrorMessage>)
    ensures r.None? <==> |args| == 1
    ensures r.Some? ==> MessageText(r.value) == "Invalid argument length. Expected exactly one argument"
  {
    if |args| != 1 then Some(SingleArgLength) else None
  }

  function ZeroOrOneArgumentValidator(args: seq<Arg>): (r: Option<ErrorMessage>)
    ensures r.None? <==> |args| <= 1
    ensures r.Some? ==> MessageText(r.value) == "Invalid argument length. Expected zero or one argument"
  {
    if |args| > 1 then Some(ZeroOrOneArgLength) else None
  }

  function OneOrTwoArgumentValidator(args: seq<Arg>): (r: Option<ErrorMessage>)
    ensures r.None? <==> 1 <= |args| <= 2
    ensures r.Some? ==> MessageText(r.value) == "Invalid argument length. Expected one or two arguments"
  {
    if |args| < 1 || |args| > 2 then Some(OneOrTwoArgLength) else None
  }

  function OneToThreeArgumentsValidator(args: seq<Arg>): (r: Option<ErrorMessage>)
    ensures r.None? <==> 1 <= |args| <= 3
    ensures r.Some? ==> MessageText(r.value) == "Invalid argument length. Expected one, two, or three arguments"
  {
    if |args| == 0 || |args| > 3 then Some(OneToThreeArgLength) else None
  }

  /** Exact-match membership in the expedite keyword list; a boolean is never
      a member, since the list holds strings and the lookup is strict. */
  predicate IsExpediteKeyword(expedite: seq<string>, a: Arg) {
    a.Str? && a.s in expedite
  }

  /** Arity first (its message passes through unchanged), then the expedite
      keyword when a second argument is present. A lone argument is never
      inspected. */
  function AltitudeValidator(expedite: seq<string>, args: seq<Arg>): (r: Option<ErrorMessage>)
    ensures OneOrTwoArgumentValidator(args).Some? ==> r == OneOrTwoArgumentValidator(args)
    ensures |args| == 1 ==> r.None?
    ensures |args| == 2 ==> (r.None? <==> IsExpediteKeyword(expedite, args[1]))
    ensures |args| == 2 && r.Some? ==> r.value == AltitudeExpediteArg
    ensures r.Some? ==> r.value in {OneOrTwoArgLength, AltitudeExpediteArg}
  {
    var hasError := OneOrTwoArgumentValidator(args);
    if hasError.Some? then hasError
    else if |args| == 2 && !IsExpediteKeyword(expedite, args[1]) then Some(AltitudeExpediteArg)
    else None
  }

  /** True exactly for the four case-sensitive strings "left", "l", "right"
      and "r"; false for every other string and for booleans. */
  predicate IsValidDirectionString(a: Arg) {
    a == Str("left") || a == Str("l") || a == Str("right") || a == Str("r")
  }

  /** The direction check is an exact, case-sensitive match on four strings. */
  lemma DirectionStrings(a: Arg)
    ensures IsValidDirectionString(a) <==> a.Str? && a.s in {"left", "l", "right", "r"}
    ensures !IsValidDirectionString(Str("L")) && !IsValidDirectionString(Str("Left"))
    ensures !IsValidDirectionString(Bool(true)) && !IsValidDirectionString(Bool(false))
  {
  }

  /** Whether the string-to-number helper gives a number (not NaN). */
  predicate ConvertsToNumber(toNumber: Arg -> Numeric, a: Arg) {
    toNumber(a).Num?
  }

  /** Arity first (its message passes through unchanged), then, by count:
      one argument: a number; two: direction, then number; three: direction,
      then number, then a boolean. The first failing check decides. */
  function HeadingValidator(toNumber: Arg -> Numeric, args: seq<Arg>): (r: Option<ErrorMessage>)
    ensures OneToThreeArgumentsValidator(args).Some? ==> r == OneToThreeArgumentsValidator(args)
    ensures r.Some? ==> r.value in {OneToThreeArgLength, HeadingMustBeNumber,
                                    InvalidDirectionString, HeadingAcceptsBooleanAsThirdArg}
    ensures |args| == 1 ==> (r.None? <==> ConvertsToNumber(toNumber, args[0]))
    ensures |args| == 1 && r.Some? ==> r.value == HeadingMustBeNumber
  {
    var hasError := OneToThreeArgumentsValidator(args);
    if hasError.Some? then hasError
    else if |args| == 1 then
      if !ConvertsToNumber(toNumber, args[0]) then Some(HeadingMustBeNumber) else None
    else if |args| == 2 then
      if !IsValidDirectionString(args[0]) then Some(InvalidDirectionString)
      else if !ConvertsToNumber(toNumber, args[1]) then Some(HeadingMustBeNumber)
      else None
    else if |args| == 3 then
      if !IsValidDirectionString(args[0]) then Some(InvalidDirectionString)
      else if !ConvertsToNumber(toNumber, args[1]) then Some(HeadingMustBeNumber)
      else if !args[2].Bool? then Some(HeadingAcceptsBooleanAsThirdArg)
      else None
    else None
  }

  /** The argument lists a heading instruction accepts, stated shape by shape. */
  predicate HeadingAccepted(toNumber: Arg -> Numeric, args: seq<Arg>) {
    && 1 <= |args| <= 3
    && (|args| == 1 ==> ConvertsToNumber(toNumber, args[0]))
    && (|args| >= 2 ==> IsValidDirectionString(args[0]) && ConvertsToNumber(toNumber, args[1]))
    && (|args| == 3 ==> args[2].Bool?)
  }

  /** The heading validator passes exactly the accepted shapes. */
  lemma HeadingAcceptsExactly(toNumber: Arg -> Numeric, args: seq<Arg>)
    ensures HeadingValidator(toNumber, args).None? <==> HeadingAccepted(toNumber, args)
  {
  }

  /** With two or three arguments, a bad direction is reported before
      anything else, with the same message for both counts. */
  lemma HeadingDirectionCheckedFirst(toNumber: Arg -> Numeric, args: seq<Arg>)
    requires 2 <= |args| <= 3
    ensures !IsValidDirectionString(args[0]) <==>
            HeadingValidator(toNumber, args) == Some(InvalidDirectionString)
  {
  }

  /** With two or three arguments and a valid direction, a second argument
      that is not a number is reported next. */
  lemma HeadingNumberCheckedSecond(toNumber: Arg -> Numeric, args: seq<Arg>)
    requires 2 <= |args| <= 3
    ensures HeadingValidator(toNumber, args) == Some(HeadingMustBeNumber) <==>
            IsValidDirectionString(args[0]) && !ConvertsToNumber(toNumber, args[1])
  {
  }

  /** With three arguments, the boolean check is reached only after the
      direction and the number have passed. */
  lemma HeadingBooleanCheckedLast(toNumber: Arg -> Numeric, args: seq<Arg>)
    requires |args| == 3
    ensures HeadingValidator(toNumber, args) == Some(HeadingAcceptsBooleanAsThirdArg) <==>
            IsValidDirectionString(args[0]) && ConvertsToNumber(toNumber, args[1]) && !args[2].Bool?
  {
  }
}
