# Input resolver of the .NET all-in-one action

This project models `getInputs`, the function the action uses to resolve its
configuration, and proves properties of the model. `getInputs` reads the
workflow inputs by name and builds one record of 49 typed fields. Three rules
cover the optional inputs:

- **string with default** (`getInputOrDefault`): a non-empty raw value is
  returned unchanged; an absent or empty one gives the default;
- **boolean with default** (`getInputOrDefaultBoolean`): a non-empty raw value
  is `true` exactly when its lower-case form is `"true"`; an absent or empty
  one gives the default;
- **integer** (`csprojDepth` only): the string rule with default `"1"`, then
  `parseInt(…, 10)` as in section 19.2.5 of ECMA-262.

Five required booleans are read with `core.getBooleanInput`, which has no
default. If any of them is not a YAML boolean, the whole call fails.

The model is pure, like the JavaScript it follows:

- `wrappers.dfy`: a `Result` type whose failures propagate through `:-`. This
  plays the part of the exception thrown out of the object literal.
- `ascii_case.dfy`: the lower-casing used by the boolean rule, with
  `IsTrueIgnoringCase` as an independent reference for "equals `true` in any
  mix of cases".
- `parse_int.dfy`: `parseInt` with radix 10. It trims leading white space,
  takes one optional sign and reads the longest run of decimal digits;
  without any digit the result is NaN. Decimal rendering (`DecimalString`) is
  used to state the round trip.
- `inputs.dfy`:
  - the input source and the three rules;
  - the required-boolean rule;
  - the `ActionInputs` record;
  - `GetInputs`, which takes the five required booleans in the order the
    object literal evaluates them. `Assemble` builds the literal itself;
  - `DefaultRecord`, the key/default table written out;
  - the lemmas.

The inputs are a `Source`, a map from input name to raw string, with a
missing name read as `""`, as `core.getInput` does. `GetInputs` is a function
of the source alone. Every field of a successful result is present with its
declared type, because `ActionInputs` is a datatype with those field types.

Three points of the code that the model keeps as written:

- **The error.** `core.getBooleanInput` throws a `TypeError` naming the input
  whose value is not a YAML boolean. The model's only error is
  `NotYamlBoolean(name)`.
- **Case in the required rule.** The required-boolean literal set is
  case-sensitive, unlike the optional rule: it accepts only `true`, `True`
  and `TRUE`, and `false`, `False` and `FALSE`. The two rules agree wherever
  the required one succeeds (`RequiredAgreesWithOptional`). But a mixed-case
  `tRUE` is `true` for the optional rule and an error for the required one
  (`RequiredRejectsMixedCase`).
- **The integer default.** `csproj_depth` defaults to the string `"1"`, which
  `parseInt` turns into 1 (`ParseIntOfOne`).

## Model

| member | source | states |
|---|---|---|
| Inputs.GetInputOrDefault | dist/utils/inputs.js:20-22 | a non-empty raw value is returned unchanged; an absent or empty one gives exactly the default |
| Inputs.GetInputOrDefaultBoolean | dist/utils/inputs.js:40-43 | a non-empty raw value gives `true` iff it spells "true" in some mix of cases; an absent or empty one gives exactly the default |
| Inputs.GetBooleanInput | dist/utils/inputs.js:114-118 | succeeds iff the raw value is one of the six YAML 1.2 core-schema boolean literals; the value is `true` iff it is a true literal; otherwise fails naming the input |
| Inputs.EmptyIsAbsent | dist/utils/inputs.js:20-43 | for each rule, an input set to "" and an input removed give the same result: the default, or for the required rule the error |
| Inputs.OtherInputsIgnored | dist/utils/inputs.js:20-43 | each rule depends only on its own input: setting any other name leaves its result unchanged |
| Inputs.OptionalBooleanTrueSpellings | dist/utils/inputs.js:37-43 | "True", "TRUE" and "tRuE" all give `true`, whatever the default |
| Inputs.OptionalBooleanFalseSpellings | dist/utils/inputs.js:40-43 | "false", "yes" and "1" give `false` even with the default `true` |
| Inputs.RequiredAgreesWithOptional | dist/utils/inputs.js:114-118 | whenever the required rule accepts a value, that value is provided and the optional rule gives the same boolean, for either default |
| Inputs.RequiredRejectsMixedCase | dist/utils/inputs.js:114-118 | "tRUE" is `true` for the optional rule and an error for the required one |
| Inputs.GetInputs | dist/utils/inputs.js:60-120 | `getInputs` returns a record iff all five required inputs hold YAML booleans; which error and which record are stated by GetInputsReportsFirstInvalid and GetInputsValue |
| Inputs.Assemble | dist/utils/inputs.js:61-119 | the object literal; its contract is stated by AssembleOfEmptySource (every optional field equals its table default on an empty source) and GetInputsAgree (it reads only the 49 names) |
| Inputs.GetInputsReportsFirstInvalid | dist/utils/inputs.js:114-118 | when required inputs 0..i-1 are valid and input i is not, the failure names input i, the first one in evaluation order |
| Inputs.GetInputsFailsOnInvalidRequired | dist/utils/inputs.js:48 | any single missing, empty or unrecognised required input makes `getInputs` fail |
| Inputs.GetInputsAgree | dist/utils/inputs.js:60-120 | `getInputs` reads its source only through `core.getInput` of its 49 names: two sources that read the same for each of them give the same outcome, record or error |
| Inputs.EmptyIsAbsentRecord | dist/utils/inputs.js:60-120 | setting any input to "" and removing it give the same `getInputs` outcome, record or error |
| Inputs.OtherInputsIgnoredRecord | dist/utils/inputs.js:60-120 | setting a name that is none of the 49 inputs to any value leaves the `getInputs` outcome unchanged |
| Inputs.EmptySourceFails | dist/utils/inputs.js:60-120 | with no inputs at all, `getInputs` fails naming `include_dotnet_binaries` |
| Inputs.GetInputsValue | dist/utils/inputs.js:60-120 | when all five required inputs hold YAML booleans, `getInputs` returns the object literal, each required field `true` iff its raw value is a true literal |
| Inputs.AssembleOfEmptySource | dist/utils/inputs.js:61-113 | with an empty source, every optional field of the object literal equals its table default |
| Inputs.DefaultsWhenOnlyRequiredGiven | dist/utils/inputs.js:61-118 | when only required inputs are given and all hold YAML booleans, `getInputs` returns the default record; only `run_tests_migrations`, `push_with_version` and `push_with_latest` default to `true` |
| Inputs.ParseIntOfOne | dist/utils/inputs.js:84 | the string default "1" of `csproj_depth` parses to the integer 1 |
| Inputs.CsprojDepthDefault | dist/utils/inputs.js:84 | with valid required inputs, an absent or empty `csproj_depth` gives 1 |
| Inputs.CsprojDepthNumeric | dist/utils/inputs.js:84 | with valid required inputs, a `csproj_depth` of white space, an optional sign and digits, followed by anything that does not start with a digit, gives the signed value of the digits |
| Inputs.CsprojDepthNotNumeric | dist/utils/inputs.js:84 | with valid required inputs, a provided `csproj_depth` whose number position holds no digit gives NaN, not the default 1 |
| Inputs.PushFlags | dist/utils/inputs.js:98-99 | with valid required inputs, `pushWithVersion` and `pushWithLatest` are `true` iff their input is absent, empty, or spells "true" in some mix of cases |
| AsciiCase.ToLower | dist/utils/inputs.js:42 | length is kept and every character is lower-cased on its own |
| AsciiCase.ToLowerIsTrueIff | dist/utils/inputs.js:42 | the lower-case form is exactly "true" iff the string spells "true" in some mix of cases |
| JsParseInt.TrimStartSpec | dist/utils/inputs.js:84 | trimming removes a white-space prefix, the longest one, and keeps the rest |
| JsParseInt.DigitPrefixSpec | dist/utils/inputs.js:84 | the digit run read is a prefix, made of digits, and the longest such prefix |
| JsParseInt.ParseInt | dist/utils/inputs.js:84 | `parseInt(…, 10)` gives a number iff, after the leading white space, the text starts with a digit or a sign and a digit; white space alone gives NaN; ParseIntOfNumeral and ParseIntOfNonNumeral give the value on every string |
| JsParseInt.ParseSigned | dist/utils/inputs.js:84 | after trimming, there is a number iff the text starts with a digit or a sign and a digit, and it is negative only after a minus sign |
| JsParseInt.ParseIntOfNumeral | dist/utils/inputs.js:84 | white space, an optional sign, digits and any tail not starting with a digit give the signed value of the digits |
| JsParseInt.ParseIntOfNonNumeral | dist/utils/inputs.js:84 | white space and an optional sign followed by no digit give NaN |
| JsParseInt.ParseIntOfDecimalString | dist/utils/inputs.js:84 | round trip: parsing the decimal rendering of any integer, followed by a tail not starting with a digit, gives that integer back |

## Left out

- `core.getInput` internals are outside the model: how it reads the
  `INPUT_<NAME>` environment variables, how it upper-cases names and trims
  values, and its `required` option. The source is the already-read map of
  trimmed raw values.
- The literal set of `core.getBooleanInput` comes from `@actions/core`, which
  is not part of this model. The model takes the YAML 1.2 core-schema
  booleans, section 10.3.2 of YAML 1.2. It is an assumption that the empty
  string, an absent input among them, is rejected rather than read as
  `false`.
- AsciiCase.ToLower: full Unicode `toLowerCase` is left out; only `A`–`Z` are folded. This is
  exact for the comparison with `"true"`. The only characters outside ASCII
  that lower-case to ASCII letters are U+0130 (to `i` plus a combining dot)
  and the Kelvin sign U+212A (to `k`). Neither letter occurs in `true`.
- JsParseInt.ParseInt: NaN is a constructor, and the JavaScript `-0` (from
  `"-0"`) becomes the integer 0. Values above 2^53 are exact integers rather
  than rounded doubles. A digit run of 2^1024 − 2^970 or more (just over
  Number.MAX_VALUE), which JavaScript rounds to `Infinity` at the last step
  of `parseInt`, stays an exact integer too.
- The `@actions/core` import at `dist/utils/inputs.js:1` is not modelled, nor
  are the documentation examples that call `console.log`. The consumers of the
  record (migrations, tests, Docker, release, changelog) are I/O and external
  tools, and are not part of this model.
