/** The response helpers of the device-factory and device-command Lambdas (the
    two Lambdas carry identical copies): the API Gateway responses they return
    and the check they apply to SDK responses. */
module LambdaResponses {
  import opened Json

  /** The `{'statusCode': …, 'body': json.dumps(…)}` dict; the body is kept as
      the document before encoding. */
  datatype Response = Response(statusCode: int, body: Json)

  /** `generate_response(params)`. */
  function GenerateResponse(params: Json): (r: Response)
    ensures r.statusCode == 200 && r.body == params
  {
    Response(200, params)
  }

  /** `generate_error_response(op)`: the operand travels under "error-message". */
  function GenerateErrorResponse(op: Json): (r: Response)
    ensures r.statusCode == 500
    ensures r.body.JObj? && r.body.fields.Keys == {"error-message"}
    ensures r.body.fields["error-message"] == op
  {
    Response(500, JObj(map["error-message" := op]))
  }

  /** A success and an error response can never be confused, and an error
      response gives back the operand it was built from. */
  lemma {:induction false} ResponsesAreDistinguishable(params: Json, op: Json, op': Json)
    ensures GenerateResponse(params) != GenerateErrorResponse(op)
    ensures GenerateErrorResponse(op) == GenerateErrorResponse(op') <==> op == op'
  {
    if GenerateErrorResponse(op) == GenerateErrorResponse(op') {
      assert GenerateErrorResponse(op).body.fields["error-message"] == op;
    }
  }

  /** The `http_code` that `check_error_response` compares with 200: the value
      of `response["ResponseMetadata"]["HTTPStatusCode"]` when both `in` tests
      hold, 0 when one of them fails, None when an `in` test or a subscript
      raises. */
  function HttpCode(response: Json): (r: Option<Json>)
    ensures response.JObj? && "ResponseMetadata" !in response.fields ==> r == Some(JInt(0))
  {
    match In("ResponseMetadata", response)
    case None => None
    case Some(false) => Some(JInt(0))
    case Some(true) =>
      match Index(response, "ResponseMetadata")
      case None => None
      case Some(meta) =>
        match In("HTTPStatusCode", meta)
        case None => None
        case Some(false) => Some(JInt(0))
        case Some(true) => Index(meta, "HTTPStatusCode")
  }

  /** `check_error_response` returns normally (true) or raises (false): the
      response's metadata must hold the status code 200. */
  predicate CheckErrorResponse(response: Json) {
    && response.JObj? && "ResponseMetadata" in response.fields
    && var meta := response.fields["ResponseMetadata"];
       meta.JObj? && "HTTPStatusCode" in meta.fields && meta.fields["HTTPStatusCode"] == JInt(200)
  }

  /** The check passes exactly when the `http_code` it reads is 200; a
      subscript or `in` test that raises, or a missing key, fails it. */
  lemma {:induction false} CheckReadsHttpCode(response: Json)
    ensures CheckErrorResponse(response) <==> HttpCode(response) == Some(JInt(200))
  {
  }

  /** A response without metadata, or whose metadata has no status code, is
      treated as code 0 and therefore raises. */
  lemma {:induction false} MissingMetadataRaises(response: Doc)
    requires "ResponseMetadata" !in response
      || (response["ResponseMetadata"].JObj? && "HTTPStatusCode" !in response["ResponseMetadata"].fields)
    ensures HttpCode(JObj(response)) == Some(JInt(0))
    ensures !CheckErrorResponse(JObj(response))
  {
  }
}
