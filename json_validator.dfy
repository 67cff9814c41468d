/**
 * JsonValidator.validateJson and JsonValidator.isValidJson: raw text is
 * checked for blankness, then parsed, then the parsed value's `typeof` is
 * tested; every outcome is a JsonValidationResult, never an exception.
 *
 * JSON.parse is a parameter `parse`: `Some(v)` when it returns `v`,
 * `None` when it throws a SyntaxError.
 */
module JsonValidator {
  import opened Wrappers
  import opened JsonValue
  import opened JsString

  /** `{ isValid, data?, error? }`; an absent property is `None`. */
  datatype JsonValidationResult = JsonValidationResult(isValid: bool, data: Option<Json>, error: Option<string>)

  /** The default of validateJson's `fieldName` parameter. */
  const DefaultFieldName: string := "JSON"

  function EmptyError(fieldName: string): string { fieldName + " cannot be empty" }
  function SyntaxError(fieldName: string): string { fieldName + " is invalid." }
  function PrimitiveError(fieldName: string): string { fieldName + " must be a valid JSON object" }

  function Reject(message: string): JsonValidationResult {
    JsonValidationResult(false, None, Some(message))
  }

  function Accept(data: Json): JsonValidationResult {
    JsonValidationResult(true, Some(data), None)
  }

  /** The shape every return path of validateJson produces: valid exactly
      when there is no error, and data exactly when valid. */
  predicate WellShaped(r: JsonValidationResult) {
    && (r.isValid <==> r.error.None?)
    && (r.isValid <==> r.data.Some?)
  }

  /** The emptiness guard as written: a falsy string, a trim equal to '',
      or a trim of length 0. */
  predicate IsEmptyInput(jsonString: string) {
    jsonString == "" || Trim(jsonString) == "" || |Trim(jsonString)| == 0
  }

  /** The emptiness guard holds exactly for blank text. */
  lemma EmptyInputIffBlank(jsonString: string)
    ensures IsEmptyInput(jsonString) <==> IsBlank(jsonString)
  {
  }

  /** `JsonValidator.validateJson(jsonString, fieldName)` */
  function ValidateJson(jsonString: string, fieldName: string := DefaultFieldName, parse: string -> Option<Json>): (r: JsonValidationResult)
    ensures WellShaped(r)
    ensures r.error.Some? ==> fieldName <= r.error.value
    ensures IsBlank(jsonString) ==> r == Reject(EmptyError(fieldName))
    ensures !IsBlank(jsonString) && parse(jsonString).None? ==> r == Reject(SyntaxError(fieldName))
    ensures !IsBlank(jsonString) && parse(jsonString).Some? ==>
      var v := parse(jsonString).value;
      (v.JBool? || v.JNumber? || v.JString?) ==> r == Reject(PrimitiveError(fieldName))
    ensures !IsBlank(jsonString) && parse(jsonString).Some? ==>
      var v := parse(jsonString).value;
      (v.JObject? || v.JArray? || v.JNull?) ==> r == Accept(v)
  {
    EmptyInputIffBlank(jsonString);
    if IsEmptyInput(jsonString) then
      Reject(EmptyError(fieldName))
    else
      match parse(jsonString)
      case None => Reject(SyntaxError(fieldName))
      case Some(parsedData) =>
        if TypeOf(parsedData) != "object" then Reject(PrimitiveError(fieldName))
        else Accept(parsedData)
  }

  /** `JsonValidator.isValidJson(jsonString)` */
  function IsValidJson(jsonString: string, parse: string -> Option<Json>): (ok: bool)
    ensures ok <==>
      && !IsBlank(jsonString)
      && parse(jsonString).Some?
      && (parse(jsonString).value.JObject? || parse(jsonString).value.JArray? || parse(jsonString).value.JNull?)
  {
    ValidateJson(jsonString, parse := parse).isValid
  }

  /** Blank text is rejected before JSON.parse is reached: the parser
      cannot influence the result. */
  lemma BlankNeverParsed(jsonString: string, fieldName: string, parse1: string -> Option<Json>, parse2: string -> Option<Json>)
    requires IsBlank(jsonString)
    ensures ValidateJson(jsonString, fieldName, parse1) == ValidateJson(jsonString, fieldName, parse2)
    ensures !ValidateJson(jsonString, fieldName, parse1).isValid
  {
  }

  /** Because `typeof null` is "object", the text `null` passes with
      `data` set to null. */
  lemma NullAccepted(jsonString: string, fieldName: string, parse: string -> Option<Json>)
    requires !IsBlank(jsonString) && parse(jsonString) == Some(JNull)
    ensures ValidateJson(jsonString, fieldName, parse) == JsonValidationResult(true, Some(JNull), None)
  {
  }

  /** The field name only shapes the error text. */
  lemma FieldNameOnlyInError(jsonString: string, fieldName1: string, fieldName2: string, parse: string -> Option<Json>)
    ensures ValidateJson(jsonString, fieldName1, parse).isValid == ValidateJson(jsonString, fieldName2, parse).isValid
    ensures ValidateJson(jsonString, fieldName1, parse).data == ValidateJson(jsonString, fieldName2, parse).data
  {
  }

  /** isValidJson agrees with validateJson under any field name, not only
      the default one it passes. */
  lemma IsValidJsonAgrees(jsonString: string, fieldName: string, parse: string -> Option<Json>)
    ensures IsValidJson(jsonString, parse) == ValidateJson(jsonString, fieldName, parse).isValid
  {
  }

  /** For one field name the three messages differ, so the error text
      tells which check failed. */
  lemma ErrorsDistinct(fieldName: string)
    ensures EmptyError(fieldName) != SyntaxError(fieldName)
    ensures EmptyError(fieldName) != PrimitiveError(fieldName)
    ensures SyntaxError(fieldName) != PrimitiveError(fieldName)
  {
  }

  /** On the same input two different field names never give the same
      error text. */
  lemma ErrorDeterminesFieldName(jsonString: string, fieldName1: string, fieldName2: string, parse: string -> Option<Json>)
    requires ValidateJson(jsonString, fieldName1, parse).error.Some?
    requires ValidateJson(jsonString, fieldName1, parse).error == ValidateJson(jsonString, fieldName2, parse).error
    ensures fieldName1 == fieldName2
  {
  }
}
