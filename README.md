# JSON input validator

A Dafny model of `JsonValidator` from `src/utils/JsonValidator.ts` in the
json-diff-ui repository. `validateJson` checks raw text and
returns a `JsonValidationResult` record `{ isValid, data?, error? }`:

1. blank text (empty, or nothing but whitespace after `trim()`) is rejected
   with `"<fieldName> cannot be empty"`;
2. otherwise the text goes to `JSON.parse`; a thrown `SyntaxError` is caught
   and reported as `"<fieldName> is invalid."`;
3. a parsed value whose `typeof` is not `"object"` (a string, number or
   boolean) is rejected with `"<fieldName> must be a valid JSON object"`;
4. anything else is accepted, and the parsed value is returned as `data`.

Because `typeof null` is `"object"` in JavaScript, the text `null` is accepted
with `data = null`, and arrays are accepted as well. The model keeps this
behaviour. The comment at src/utils/JsonValidator.ts:31 announces a check
for primitive data, and `null` is a JavaScript primitive, yet the `typeof`
test at line 32 lets it through; the model follows the code.

Files:

- `wrappers.dfy` — `Option`, used for the optional `data` and `error` properties.
- `json_value.dfy` — `Json`, the six kinds of JSON value of section 3 of
  RFC 8259, and `TypeOf`, JavaScript's `typeof` on them.
- `js_string.dfy` — `String.prototype.trim`: the ECMAScript WhiteSpace and
  LineTerminator code points, `TrimStart`, `TrimEnd`, `Trim`, and an
  independent characterisation `IsTrimOf` proved to fit `Trim` and to be unique.
- `json_validator.dfy` — `ValidateJson`, `IsValidJson` and the lemmas about them.
- `json_validator_examples.dfy` — the repository's `validateJson` test cases.

`JSON.parse` is not written out. `ValidateJson` and `IsValidJson` take it as
a parameter `parse: string -> Option<Json>`. `Some(v)` means the call returns
`v`, and `None` means it throws. Every property is proved for every such
parser. The test-case lemmas, all but `EmptyString`, take the value the real
`JSON.parse` gives for their text as a premise; `EmptyString` needs none.

## Data and constants

These declarations carry no contract of their own; what they mean is stated
by the members of the table below that use them.

- `JsonValidator.JsonValidationResult` (src/utils/JsonValidator.ts:1-5): the
  result record; an absent `data` or `error` is `None`. Its shape on every
  return path is `JsonValidator.WellShaped`, promised by `ValidateJson`.
- `JsonValidator.DefaultFieldName` (src/utils/JsonValidator.ts:19): the default
  field name "JSON", the default value of `ValidateJson`'s `fieldName`
  parameter, which `IsValidJson` leaves out as line 52 does.
- `JsonValidator.EmptyError`, `JsonValidator.SyntaxError`,
  `JsonValidator.PrimitiveError` (src/utils/JsonValidator.ts:24, 46, 35): the
  three message templates; `ErrorsDistinct` proves them pairwise different and
  `ErrorDeterminesFieldName` proves the field name recoverable from them.
- `JsonValidator.IsEmptyInput` (src/utils/JsonValidator.ts:21): the emptiness
  guard as written; `EmptyInputIffBlank` proves it equivalent to blankness.
- `JsString.IsWhitespace` (src/utils/JsonValidator.ts:21): the code points
  `trim()` removes, the ECMAScript WhiteSpace and LineTerminator sets;
  `Trim`, `TrimOfUnique` and `TrimEmptyIffBlank` are stated over it.

## Model

| member | source | states |
|---|---|---|
| `JsonValue.TypeOf` | src/utils/JsonValidator.ts:32 | `typeof` of a parsed value is one of "object", "boolean", "number", "string", and it is "object" exactly for null, arrays and objects |
| `JsString.TrimStart` | src/utils/JsonValidator.ts:21 | the result is a suffix of the input, everything dropped is whitespace, and the result does not start with whitespace |
| `JsString.TrimEnd` | src/utils/JsonValidator.ts:21 | the result is a prefix of the input, everything dropped is whitespace, and the result does not end with whitespace |
| `JsString.Trim` | src/utils/JsonValidator.ts:21 | `trim()` removes a blank prefix and a blank suffix and leaves a part that neither starts nor ends with whitespace (`IsTrimOf`) |
| `JsString.TrimOfUnique` | src/utils/JsonValidator.ts:21 | a string has only one trim in that sense, so the characterisation fixes the result of `trim()` |
| `JsString.TrimEmptyIffBlank` | src/utils/JsonValidator.ts:21 | `s.trim()` is `''` if and only if every character of `s` is whitespace |
| `JsonValidator.EmptyInputIffBlank` | src/utils/JsonValidator.ts:21 | the three-part emptiness guard (falsy, trim equal to `''`, trim of length 0) holds exactly for blank text |
| `JsonValidator.ValidateJson` | src/utils/JsonValidator.ts:19-49 | every result is well shaped (valid iff no error, data present iff valid); any error text starts with the field name; blank text gives "cannot be empty"; non-blank text the parser rejects gives "is invalid."; a parsed string, number or boolean gives "must be a valid JSON object"; a parsed object, array or null is accepted with exactly that value as data |
| `JsonValidator.IsValidJson` | src/utils/JsonValidator.ts:51-53 | true exactly when the text is not blank, parses, and parses to an object, an array or null |
| `JsonValidator.BlankNeverParsed` | src/utils/JsonValidator.ts:21-29 | on blank text the result is invalid and is the same whatever `JSON.parse` would do, because the parser is never reached |
| `JsonValidator.NullAccepted` | src/utils/JsonValidator.ts:31-42 | non-blank text that parses to null is accepted with data null and no error |
| `JsonValidator.FieldNameOnlyInError` | src/utils/JsonValidator.ts:19-48 | two field names on the same input give the same `isValid` and the same `data` |
| `JsonValidator.IsValidJsonAgrees` | src/utils/JsonValidator.ts:51-53 | `isValidJson(s)` equals the `isValid` of `validateJson(s, fieldName)` for every field name, the default "JSON" included |
| `JsonValidator.ErrorsDistinct` | src/utils/JsonValidator.ts:21-47 | for one field name the three error messages are pairwise different, so the message tells which check failed |
| `JsonValidator.ErrorDeterminesFieldName` | src/utils/JsonValidator.ts:19-48 | on the same input, equal error texts come from equal field names |
| `JsonValidatorExamples.ValidObject` | src/__tests__/utils/JsonValidator.test.ts:6-13 | `{"name": "John", "age": 30}` under "Test JSON" is valid, with the parsed object as data and no error |
| `JsonValidatorExamples.ValidArray` | src/__tests__/utils/JsonValidator.test.ts:15-22 | `[1, 2, 3, "test"]` under "Test Array" is valid, with the parsed array as data and no error |
| `JsonValidatorExamples.ValidNestedObject` | src/__tests__/utils/JsonValidator.test.ts:24-35 | the nested user object is valid and its data is the nested parsed value |
| `JsonValidatorExamples.InvalidSyntax` | src/__tests__/utils/JsonValidator.test.ts:37-44 | text that does not parse, under "Invalid JSON", is invalid, has no data, and its error is "Invalid JSON is invalid." |
| `JsonValidatorExamples.EmptyString` | src/__tests__/utils/JsonValidator.test.ts:46-52 | the empty string under "Empty Input" is invalid with error "Empty Input cannot be empty", with no assumption about the parser |

## Left out

- The internals of `JSON.parse`: it is a parameter, because its implementation is part of the JavaScript runtime and not of the repository. Properties hold for every parser.
- Number precision: `JNumber` holds a `real`. The IEEE 754 doubles JavaScript uses, and the rounding `JSON.parse` applies, are not modelled.
- The Unicode version behind the whitespace set: `IsWhitespace` lists the space separators of current Unicode (U+0020, U+00A0, U+1680, U+2000-U+200A, U+202F, U+205F, U+3000) together with TAB, VT, FF, LF, CR, U+2028, U+2029 and U+FEFF. JavaScript engines that follow older Unicode tables may differ.
- UTF-16 code units: JavaScript strings are sequences of UTF-16 code units; the model uses Unicode scalar values. This does not change blankness, since every whitespace character is in the Basic Multilingual Plane.
- `null` and `undefined` as `jsonString`: the TypeScript signature admits only strings, so the falsy test `!jsonString` is modelled as the empty-string test.
- `src/api/JsonAPI.ts`: HTTP requests to the comparison service (network I/O); its `Diff` type has no logic.
- The JSON tree and diff renderer (`JsonNode.vue`, `JsonTree.vue`) and its component tests: outside the scope of this model, which covers only `src/utils/JsonValidator.ts`.
- `IsValidJson`: calls `ValidateJson` directly; the `this.validateJson` lookup at src/utils/JsonValidator.ts:52, which throws a TypeError when the method is called detached from its class, is not modelled, since no caller detaches it.
- The other Vue component tests (buttons, cards, textareas, inputs, compare actions): user-interface behaviour, outside the scope of this model.
