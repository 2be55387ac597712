/**
 * The generator's type-reference helpers: from the JSON Schema that the
 * generated TypeScript types convert to, they derive the TypeScript
 * expressions naming an operation's response, request body and parameter
 * types, and say whether an operation has required query parameters or a
 * form-data body.
 *
 * A thrown error is a Failure carrying its message. Where the source reads a
 * property of `undefined` the engine throws a TypeError; its message is one
 * of the constants below.
 */
module TypeReferences {
  import opened Wrappers
  import opened Strings
  import opened TitleFormat

  /** A JSON Schema object, reduced to the keywords the helpers read. */
  datatype Schema = Schema(properties: Option<map<string, Schema>>, title: Option<string>, required: Option<seq<string>>)

  /** `(schema.properties || {})[key]`. */
  function Property(s: Schema, key: string): (r: Option<Schema>)
    ensures r.Some? <==> s.properties.Some? && key in s.properties.value
    ensures r.Some? ==> r.value == s.properties.value[key]
  {
    if s.properties.Some? && key in s.properties.value then Some(s.properties.value[key]) else None
  }

  const JsonKey := "\"application/json\""
  const FormDataKey := "\"multipart/form-data\""
  const RequestBodySuffix := "['content']['application/json']"
  const NoJsonContent := "No \"application/json: content found"
  const NoComponentReference := "No component reference found"

  /** TypeErrors raised by reading through `undefined`. */
  const KeysOfUndefined := "Cannot convert undefined or null to object"
  const ContentOfUndefined := "Cannot read properties of undefined (reading 'content')"
  const PropertiesOfUndefined := "Cannot read properties of undefined (reading 'properties')"
  const InOnUndefined := "Cannot use 'in' operator to search for '\"multipart/form-data\"' in undefined"

  function NoResponses(id: string): string {
    "No responses were defined for operation ID \"" + id + "\"."
  }

  function NoSuccessResponses(id: string): string {
    "No success responses were defined for operation ID \"" + id + "\"."
  }

  function MultipleSuccessResponses(id: string): string {
    "Multiple success responses were defined for operation ID \"" + id + "\"."
  }

  function InvalidSuccessSchema(id: string, message: string): string {
    "Invalid success responses schema was defined for operation ID \"" + id + "\": " + message + "."
  }

  function InvalidRequestBodySchema(id: string, message: string): string {
    "Invalid request body schema was defined for operation ID \"" + id + "\": " + message + "."
  }

  /**
   * A reference into a request body is marked non-nullable: the first
   * occurrence of the body suffix is removed, the rest wrapped in
   * `NonNullable<…>` and the suffix put back after it.
   */
  function NonNullableBody(typeRef: string): (r: string)
    ensures !Contains(typeRef, RequestBodySuffix) ==> r == typeRef
    ensures Contains(typeRef, RequestBodySuffix) ==>
      EndsWith(r, RequestBodySuffix) && r[..12] == "NonNullable<" && |r| == |typeRef| + 13
  {
    if Contains(typeRef, RequestBodySuffix) then
      "NonNullable<" + ReplaceFirst(typeRef, RequestBodySuffix, "") + ">" + RequestBodySuffix
    else typeRef
  }

  /** `getTypeReferenceFromJson(content)`. */
  function GetTypeReferenceFromJson(content: Option<Schema>): (r: Result<string, string>)
    ensures content.None? || content.value.properties.None? ==> r == Success("undefined")
    ensures content.Some? && content.value.properties.Some? ==>
      var props := content.value.properties.value;
      && (JsonKey !in props ==> r == Failure(NoJsonContent))
      && (JsonKey in props && !Truthy(props[JsonKey].title) ==> r == Failure(NoComponentReference))
      && (JsonKey in props && Truthy(props[JsonKey].title) ==>
            r == Success(NonNullableBody(FormatTitle(props[JsonKey].title.value))))
  {
    if content.None? || content.value.properties.None? then Success("undefined")
    else
      var props := content.value.properties.value;
      if JsonKey !in props then Failure(NoJsonContent)
      else
        var title := props[JsonKey].title;
        if !Truthy(title) then Failure(NoComponentReference)
        else Success(NonNullableBody(FormatTitle(title.value)))
  }

  /** The keys of `responses.properties` that start with '2'. */
  function SuccessCodes(responses: map<string, Schema>): (r: set<string>)
    ensures forall k :: k in r <==> k in responses && |k| > 0 && k[0] == '2'
  {
    set k | k in responses && |k| > 0 && k[0] == '2'
  }

  /** The one element of a singleton set. */
  function Sole(s: set<string>): (e: string)
    requires |s| == 1
    ensures s == {e}
  {
    var e :| e in s;
    assert s == {e} by {
      assert |s - {e}| == 0;
    }
    e
  }

  /** `getFunctionResponseType(operationId, operationSchema)`. */
  function GetFunctionResponseType(id: string, operation: Schema): (r: Result<string, string>)
    ensures Property(operation, "responses").None? ==> r == Failure(NoResponses(id))
    // `Object.keys` of a `responses` without properties throws, unwrapped
    ensures Property(operation, "responses").Some? && Property(operation, "responses").value.properties.None? ==>
      r == Failure(KeysOfUndefined)
    ensures r.Success? ==>
      var responses := Property(operation, "responses");
      responses.Some? && responses.value.properties.Some? && |SuccessCodes(responses.value.properties.value)| == 1
    ensures Property(operation, "responses").Some? && Property(operation, "responses").value.properties.Some? ==>
      var codes := SuccessCodes(Property(operation, "responses").value.properties.value);
      && (|codes| == 0 ==> r == Failure(NoSuccessResponses(id)))
      && (|codes| > 1 ==> r == Failure(MultipleSuccessResponses(id)))
    // the single success response's content gives the reference; its errors are wrapped
    ensures Property(operation, "responses").Some? && Property(operation, "responses").value.properties.Some? ==>
      var responses := Property(operation, "responses").value.properties.value;
      var codes := SuccessCodes(responses);
      |codes| == 1 ==>
        var content := Property(responses[Sole(codes)], "content");
        match GetTypeReferenceFromJson(content)
        case Success(t) => r == Success(t)
        case Failure(m) => r == Failure(InvalidSuccessSchema(id, m))
  {
    var responses := Property(operation, "responses");
    if responses.None? then Failure(NoResponses(id))
    else if responses.value.properties.None? then Failure(KeysOfUndefined)
    else
      var codes := SuccessCodes(responses.value.properties.value);
      if |codes| == 0 then Failure(NoSuccessResponses(id))
      else if |codes| > 1 then Failure(MultipleSuccessResponses(id))
      else
        var content := Property(responses.value.properties.value[Sole(codes)], "content");
        match GetTypeReferenceFromJson(content)
        case Success(t) => Success(t)
        case Failure(m) => Failure(InvalidSuccessSchema(id, m))
  }

  /** `getDataType(operationId, operationSchema)`: None stands for `null`. */
  function GetDataType(id: string, operation: Schema): (r: Result<Option<string>, string>)
    ensures Property(operation, "requestBody").None? ==> r == Success(None)
    ensures Property(operation, "requestBody").Some? ==> r != Success(None)
    ensures Property(operation, "requestBody").Some? && Property(operation, "requestBody").value.properties.None? ==>
      r == Failure(InvalidRequestBodySchema(id, ContentOfUndefined))
    ensures Property(operation, "requestBody").Some? && Property(operation, "requestBody").value.properties.Some? ==>
      match GetTypeReferenceFromJson(Property(Property(operation, "requestBody").value, "content"))
      case Success(t) => r == Success(Some(t))
      case Failure(m) => r == Failure(InvalidRequestBodySchema(id, m))
  {
    var requestBody := Property(operation, "requestBody");
    if requestBody.None? then Success(None)
    else if requestBody.value.properties.None? then Failure(InvalidRequestBodySchema(id, ContentOfUndefined))
    else
      match GetTypeReferenceFromJson(Property(requestBody.value, "content"))
      case Success(t) => Success(Some(t))
      case Failure(m) => Failure(InvalidRequestBodySchema(id, m))
  }

  /** `((parameters || {}).properties || {})[subType]`. */
  function ParametersSchema(operation: Schema, subType: string): Option<Schema> {
    match Property(operation, "parameters")
    case None => None
    case Some(parameters) => Property(parameters, subType)
  }

  /** `getParametersType(operationId, operationSchema, subType)`: None stands for `null`. */
  function GetParametersType(id: string, operation: Schema, subType: string): (r: Option<string>)
    ensures r.Some? <==> ParametersSchema(operation, subType).Some?
    ensures r.Some? ==> r.value == "operations['" + id + "']['parameters']['" + subType + "']"
  {
    if ParametersSchema(operation, subType).None? then None
    else Some("operations['" + id + "']['parameters']['" + subType + "']")
  }

  /** `hasRequiredParametersType(operationSchema, subType)`. */
  function HasRequiredParametersType(operation: Schema, subType: string): (b: bool)
    ensures b <==> ParametersSchema(operation, subType).Some?
                   && ParametersSchema(operation, subType).value.required.Some?
                   && |ParametersSchema(operation, subType).value.required.value| > 0
  {
    match ParametersSchema(operation, subType)
    case None => false
    case Some(p) => |p.required.GetOr([])| > 0
  }

  /** `isFormDataOperation(operationSchema)`; a Failure is the TypeError the property reads throw. */
  function IsFormDataOperation(operation: Schema): (r: Result<bool, string>)
    ensures Property(operation, "requestBody").None? ==> r == Success(false)
    ensures r == Success(true) <==>
      && Property(operation, "requestBody").Some?
      && Property(Property(operation, "requestBody").value, "content").Some?
      && Property(Property(Property(operation, "requestBody").value, "content").value, FormDataKey).Some?
    ensures r.Failure? <==>
      && Property(operation, "requestBody").Some?
      && (|| Property(Property(operation, "requestBody").value, "content").None?
          || Property(Property(operation, "requestBody").value, "content").value.properties.None?)
  {
    match Property(operation, "requestBody")
    case None => Success(false)
    case Some(requestBody) =>
      match Property(requestBody, "content")
      case None => Failure(PropertiesOfUndefined)
      case Some(content) =>
        if content.properties.None? then Failure(InOnUndefined)
        else Success(FormDataKey in content.properties.value)
  }

  /**
   * A reference whose only occurrence of the body suffix is at its end
   * becomes `NonNullable<prefix>` followed by the suffix.
   */
  lemma NonNullableOfBodyReference(prefix: string)
    requires IndexOf(prefix + RequestBodySuffix, RequestBodySuffix) == Some(|prefix|)
    ensures NonNullableBody(prefix + RequestBodySuffix) == "NonNullable<" + prefix + ">" + RequestBodySuffix
  {
    var t := prefix + RequestBodySuffix;
    assert OccursAt(t, RequestBodySuffix, |prefix|);
    assert t[..|prefix|] == prefix;
    assert t[|prefix| + |RequestBodySuffix|..] == [];
  }

  /** A reference that does not point into a request body is left as it is. */
  lemma PlainReferenceUnchanged(title: string)
    requires !Contains(FormatTitle(title), RequestBodySuffix)
    ensures GetTypeReferenceFromJson(Some(Schema(Some(map[JsonKey := Schema(None, Some(title), None)]), None, None)))
      == (if title == "" then Failure(NoComponentReference) else Success(FormatTitle(title)))
  {
  }

  /** A content schema without the JSON key is an error even when other media types are present. */
  lemma OtherMediaTypesRejected(props: map<string, Schema>)
    requires JsonKey !in props && FormDataKey in props
    ensures GetTypeReferenceFromJson(Some(Schema(Some(props), None, None))) == Failure(NoJsonContent)
  {
  }
}
