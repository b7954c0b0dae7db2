# openscope command-argument validators, modelled in Dafny

openscope is a browser air-traffic-control game. When the user types an
instruction, the command parser gets a list of tokens and picks a validator for
the instruction's type. The validator returns nothing if the list is acceptable,
or one error message that is shown to the user as it is. This project models
those validators (`src/assets/scripts/commandParser/argumentValidators.js`) and
proves what each one accepts and which message it reports.

Files:

- `argument_validators.dfy` (module `ArgumentValidators`) covers the data and
  the validators:
  - `Arg` is one token: a string, or the genuine boolean a heading instruction
    may take as its third argument.
  - `ErrorMessage` holds the nine keys of the message table. `MessageText` gives
    their exact texts. `Render` gives what the JavaScript function returns:
    `undefined` (`None`) or the text.
  - The five arity validators, `AltitudeValidator`, `IsValidDirectionString`
    and `HeadingValidator` follow the source's branches in the source's order.
- `validation_plan.dfy` (module `ValidationPlan`) is an independent reference
  semantics. Each validator is written as an ordered list of checks
  (argument count, direction, number, boolean, expedite keyword). Running the
  list returns the message of the first check that fails. Lemmas prove that
  each validator computes exactly this. So "the first failing check wins, in a
  fixed order" holds of every validator.
- `validator_examples.dfy` (module `ValidatorExamples`) states the argument
  lists and expected texts of `test/commandParser/argumentValidator.spec.js`
  as lemmas.

Collaborators are parameters:

- The string-to-number helper is `toNumber: Arg -> Numeric`. Its result is a
  number or `NaN`, and only the NaN outcome is observed.
- The expedite keyword list is `expedite: seq<string>`. Lookup is an exact
  match, like `indexOf`, so a boolean is never a member.

A JavaScript call that omits the argument list uses the default `[]`. In the
model the caller passes `[]` (see `ZeroOrOneArgumentExamples` and
`OneOrTwoArgumentExamples`). `headingValidator` has no
default, so its model simply takes a sequence.

Observed behaviour kept as it is:

- With two arguments, the heading validator's direction message still says
  "when passed three arguments". The source reuses one message for both
  counts.
- In the two- and three-argument heading branches, the source converts the
  second argument before it checks the direction. The model assumes the
  helper is pure and never throws (`toNumber` is a total function), so it
  converts only once the direction has passed, with the same result.

## Model

| member | source | states |
|---|---|---|
| `ArgumentValidators.MessageText` | src/assets/scripts/commandParser/argumentValidators.js:25-35 | Gives the nine exact message texts of the table, with the shared leads "Invalid argument" and "Invalid argument length" written out. |
| `ArgumentValidators.MessageTextInjective` | src/assets/scripts/commandParser/argumentValidators.js:25-35 | The nine texts are pairwise distinct: equal texts mean equal keys, so each failure condition has its own message. |
| `ArgumentValidators.ZeroArgumentsValidator` | src/assets/scripts/commandParser/argumentValidators.js:44-48 | Passes iff the list is empty. Otherwise the text is exactly "Invalid argument length. Expected exactly zero arguments". |
| `ArgumentValidators.SingleArgumentValidator` | src/assets/scripts/commandParser/argumentValidators.js:57-61 | Passes iff the list has exactly one element. Otherwise it gives the exact "Expected exactly one argument" text. |
| `ArgumentValidators.ZeroOrOneArgumentValidator` | src/assets/scripts/commandParser/argumentValidators.js:70-74 | Passes iff the list has at most one element. Otherwise it gives the exact "Expected zero or one argument" text. |
| `ArgumentValidators.OneOrTwoArgumentValidator` | src/assets/scripts/commandParser/argumentValidators.js:83-87 | Passes iff 1 <= length <= 2. Otherwise it gives the exact "Expected one or two arguments" text. |
| `ArgumentValidators.OneToThreeArgumentsValidator` | src/assets/scripts/commandParser/argumentValidators.js:96-100 | Passes iff 1 <= length <= 3. Otherwise it gives the exact "Expected one, two, or three arguments" text. |
| `ArgumentValidators.AltitudeValidator` | src/assets/scripts/commandParser/argumentValidators.js:109-119 | An arity failure is passed on unchanged. Any one-argument list passes with no numeric check. A two-argument list passes iff the second argument is an expedite keyword (`IsExpediteKeyword`: an exact string match in the keyword list, as `indexOf` with strict equality at line 116), and otherwise fails with ALTITUDE_EXPEDITE_ARG. No other message is possible. |
| `ArgumentValidators.DirectionStrings` | src/assets/scripts/commandParser/argumentValidators.js:128-133 | The direction check holds exactly for the strings "left", "l", "right" and "r". It is case-sensitive and false for booleans. |
| `ArgumentValidators.HeadingValidator` | src/assets/scripts/commandParser/argumentValidators.js:142-159 | An arity failure is passed on unchanged. A one-argument list passes iff it converts to a number, and otherwise fails with HEADING_MUST_BE_NUMBER. Only the three heading messages and the arity message are possible. |
| `ArgumentValidators.HeadingAcceptsExactly` | src/assets/scripts/commandParser/argumentValidators.js:142-191 | The heading validator passes exactly these lists: 1 to 3 arguments; a number when there is one; a direction then a number when there are two or three; and a boolean third argument when there are three. |
| `ArgumentValidators.HeadingDirectionCheckedFirst` | src/assets/scripts/commandParser/argumentValidators.js:160-177 | With two or three arguments, an invalid direction gives INVALID_DIRECTION_STRING, and only an invalid direction does. The message is the same for both counts. |
| `ArgumentValidators.HeadingNumberCheckedSecond` | src/assets/scripts/commandParser/argumentValidators.js:160-181 | With two or three arguments, HEADING_MUST_BE_NUMBER is reported iff the direction is valid and the second argument does not convert. |
| `ArgumentValidators.HeadingBooleanCheckedLast` | src/assets/scripts/commandParser/argumentValidators.js:172-187 | With three arguments, the boolean message is reported iff the direction and number checks pass and the third argument is not a boolean. |
| `ValidationPlan.FirstFailureSpec` | src/assets/scripts/commandParser/argumentValidators.js:142-191 | An ordered run of checks returns nothing iff every check passes. Otherwise it returns the message of the first failing check, and such a check exists. |
| `ValidationPlan.ArityValidatorsAreRangeChecks` | src/assets/scripts/commandParser/argumentValidators.js:44-100 | Each of the five arity validators, whatever its comparison, equals the single check that the count lies in its range: [0,0], [1,1], [0,1], [1,2] and [1,3]. |
| `ValidationPlan.AltitudeFollowsPlan` | src/assets/scripts/commandParser/argumentValidators.js:109-119 | The altitude validator equals the ordered run: count in [1,2], then, for two arguments, the expedite keyword. |
| `ValidationPlan.HeadingFollowsPlan` | src/assets/scripts/commandParser/argumentValidators.js:142-191 | The heading validator equals the ordered run: count in [1,3], then number (1 argument); direction, number (2); direction, number, boolean (3). |
| `ValidationPlan.HeadingFirstFailureWins` | src/assets/scripts/commandParser/argumentValidators.js:142-191 | The heading validator passes iff every check of its plan passes. Otherwise it reports exactly the message of the first failing check. |
| `ValidationPlan.AltitudeFirstFailureWins` | src/assets/scripts/commandParser/argumentValidators.js:109-119 | The altitude validator passes iff every check of its plan passes. Otherwise it reports exactly the message of the first failing check. |
| `ValidatorExamples.ZeroArgumentsExamples` | test/commandParser/argumentValidator.spec.js:13-19 | The empty list passes. Two arguments give the zero-arguments text. |
| `ValidatorExamples.SingleArgumentExamples` | test/commandParser/argumentValidator.spec.js:21-30 | One argument passes. Two arguments or none give the exactly-one text. |
| `ValidatorExamples.ZeroOrOneArgumentExamples` | test/commandParser/argumentValidator.spec.js:32-41 | No argument (the default) and one argument pass. Two arguments give the zero-or-one text. |
| `ValidatorExamples.OneOrTwoArgumentExamples` | test/commandParser/argumentValidator.spec.js:43-55 | One or two arguments pass. No argument (the default) or three arguments give the one-or-two text. |
| `ValidatorExamples.AltitudeExamples` | test/commandParser/argumentValidator.spec.js:57-77 | Given "expedite" in the keyword list and "" not in it, the altitude lists of the tests give the tested results. |
| `ValidatorExamples.HeadingArityExamples` | test/commandParser/argumentValidator.spec.js:79-94 | The accepted shapes pass. An empty list or four arguments give the one-to-three text. |
| `ValidatorExamples.HeadingNumberExamples` | test/commandParser/argumentValidator.spec.js:97-101 | A non-numeric heading ("threeve") gives the must-be-a-number text with one, two and three arguments. |
| `ValidatorExamples.HeadingDirectionExample` | test/commandParser/argumentValidator.spec.js:98 | ["42", "42"] gives the direction text, whatever the converter does. |
| `ValidatorExamples.HeadingDirectionThreeArgumentsExample` | test/commandParser/argumentValidator.spec.js:100 | ["42", "42", true] gives the same direction text. |
| `ValidatorExamples.HeadingBooleanExample` | test/commandParser/argumentValidator.spec.js:102 | A string third argument gives the boolean text. |
| `ValidatorExamples.HeadingAcceptExamples` | test/commandParser/argumentValidator.spec.js:105-118 | ["042"], ["l", "042"] and ["l", "042", true] pass. |

## Left out

- `src/assets/scripts/client/canvas/CanvasController.js` is not part of this model. It draws the radar scope on a 2D canvas every frame and contains no validation logic.
- `convertStringToNumber` is assumed pure and non-throwing. If it threw, the source would throw in the two- and three-argument heading branches even when the direction is invalid, where the model returns INVALID_DIRECTION_STRING.
- How `convertStringToNumber` parses a string is not part of this model. It is the parameter `toNumber`, and only "number or NaN" is observed. Its numeric value, infinities and its result for a boolean are not modelled.
- The source tests NaN with lodash `isNaN` in the one-argument heading branch and with the global `isNaN` in the others. These differ only for a non-number result, which the helper's type here rules out.
- The contents of `EXPEDITE` are not part of this model, because its file is not part of this model. It is the parameter `expedite`; the examples require only "expedite" in it and "" not in it.
- `Arg` has only strings and booleans. Other JavaScript values that could sit in an argument list (`undefined`, numbers, objects) are not modelled. lodash `isBoolean` is the `Bool` tag.
- Calling a validator twice on the same input gives the same result. This holds because Dafny functions are deterministic, so no lemma states it.
