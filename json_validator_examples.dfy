/**
 * The validateJson test cases of the repository, each with the value
 * JSON.parse gives for its text taken as a premise.
 */
module JsonValidatorExamples {
  import opened Wrappers
  import opened JsonValue
  import opened JsonValidator

  lemma ValidObject(parse: string -> Option<Json>)
    requires parse("{\"name\": \"John\", \"age\": 30}")
      == Some(JObject([("name", JString("John")), ("age", JNumber(30.0))]))
    ensures ValidateJson("{\"name\": \"John\", \"age\": 30}", "Test JSON", parse)
      == JsonValidationResult(true, Some(JObject([("name", JString("John")), ("age", JNumber(30.0))])), None)
  {
  }

  lemma ValidArray(parse: string -> Option<Json>)
    requires parse("[1, 2, 3, \"test\"]")
      == Some(JArray([JNumber(1.0), JNumber(2.0), JNumber(3.0), JString("test")]))
    ensures ValidateJson("[1, 2, 3, \"test\"]", "Test Array", parse)
      == JsonValidationResult(true, Some(JArray([JNumber(1.0), JNumber(2.0), JNumber(3.0), JString("test")])), None)
  {
  }

  /** The text of the nested-object test, in two pieces so that its first
      character is visible to the verifier. */
  const NestedText: string := "{\"user\": {\"name\": \"John\", " + "\"details\": {\"age\": 30}}}"

  lemma ValidNestedObject(parse: string -> Option<Json>)
    requires parse(NestedText)
      == Some(JObject([("user", JObject([("name", JString("John")),
                                         ("details", JObject([("age", JNumber(30.0))]))]))]))
    ensures ValidateJson(NestedText, "Nested JSON", parse).isValid
    ensures ValidateJson(NestedText, "Nested JSON", parse).data
      == Some(JObject([("user", JObject([("name", JString("John")),
                                         ("details", JObject([("age", JNumber(30.0))]))]))]))
  {
  }

  lemma InvalidSyntax(parse: string -> Option<Json>)
    requires parse("{\"name\": \"John\", \"age\":}") == None
    ensures !ValidateJson("{\"name\": \"John\", \"age\":}", "Invalid JSON", parse).isValid
    ensures ValidateJson("{\"name\": \"John\", \"age\":}", "Invalid JSON", parse).data == None
    ensures ValidateJson("{\"name\": \"John\", \"age\":}", "Invalid JSON", parse).error
      == Some("Invalid JSON is invalid.")
  {
    assert SyntaxError("Invalid JSON") == "Invalid JSON is invalid.";
  }

  /** No premise about the parser: empty text never reaches it. */
  lemma EmptyString(parse: string -> Option<Json>)
    ensures ValidateJson("", "Empty Input", parse) == JsonValidationResult(false, None, Some("Empty Input cannot be empty"))
  {
    assert EmptyError("Empty Input") == "Empty Input cannot be empty";
  }
}
