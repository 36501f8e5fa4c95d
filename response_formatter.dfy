/** The JSON envelopes the library hands back to its HTTP layer, each a body and an HTTP
    status, with texts taken from the business-code table. */
module MuseWalletResponseFormatter {
  import opened Wrappers
  import opened KeyOrder
  import opened PhpValue
  import Codes = MuseWalletErrorCodes

  datatype JsonResponse = JsonResponse(body: Array, status: int)

  /** `$apiResponse['code'] ?? '500'`, as the raw value the body echoes. */
  function RawCode(apiResponse: Array): Value {
    Isset(apiResponse, "code").UnwrapOr(Str(Codes.SystemError))
  }

  /** `MuseWalletResponseFormatter::success($data, $message)`. */
  function Success(data: Value := Null, message: string := "Success"): (r: JsonResponse)
    ensures r.status == 200
    ensures DistinctKeys(r.body)
    ensures Get(r.body, "success") == Some(Bool(true))
    ensures Get(r.body, "code") == Some(Str(Codes.Success))
    ensures Get(r.body, "message") == Some(Str(message))
    ensures Get(r.body, "data") == Some(data)
  {
    var body := [("success", Bool(true)), ("code", Str(Codes.Success)), ("message", Str(message)),
                 ("data", data)];
    GetDistinct(body, "success", body[0].1);
    GetDistinct(body, "code", body[1].1);
    GetDistinct(body, "message", body[2].1);
    GetDistinct(body, "data", body[3].1);
    JsonResponse(body, 200)
  }

  /** The seven entries of a `fromApiResponse` body, in order. */
  function ApiResponseEntries(success: bool, code: Value, message: string, description: string,
                              suggestion: string, data: Value, originalMessage: Value): (body: Array)
    ensures DistinctKeys(body)
    ensures Get(body, "success") == Some(Bool(success))
    ensures Get(body, "code") == Some(code)
    ensures Get(body, "message") == Some(Str(message))
    ensures Get(body, "description") == Some(Str(description))
    ensures Get(body, "suggestion") == Some(Str(suggestion))
    ensures Get(body, "data") == Some(data)
    ensures Get(body, "original_message") == Some(originalMessage)
  {
    var body := [("success", Bool(success)), ("code", code), ("message", Str(message)),
                 ("description", Str(description)), ("suggestion", Str(suggestion)),
                 ("data", data), ("original_message", originalMessage)];
    GetAt(body, 0);
    GetAt(body, 1);
    GetAt(body, 2);
    GetAt(body, 3);
    GetAt(body, 4);
    GetAt(body, 5);
    GetAt(body, 6);
    body
  }

  /** The body `fromApiResponse` builds once the code has been converted to a string. */
  function ApiResponseBody(apiResponse: Array, raw: Value, code: string): (body: Array)
    ensures DistinctKeys(body)
    ensures Get(body, "success") == Some(Bool(Codes.IsSuccess(code)))
    ensures Get(body, "code") == Some(raw)
    ensures Get(body, "message") == Some(Str(Codes.Message(code)))
    ensures Get(body, "description") == Some(Str(Codes.Description(code)))
    ensures Get(body, "suggestion") == Some(Str(Codes.Suggestion(code)))
    ensures Get(body, "data") == Some(Isset(apiResponse, "data").UnwrapOr(Null))
    ensures Get(body, "original_message") == Some(Isset(apiResponse, "message").UnwrapOr(Null))
  {
    ApiResponseEntries(Codes.IsSuccess(code), raw, Codes.Message(code), Codes.Description(code),
                       Codes.Suggestion(code), Isset(apiResponse, "data").UnwrapOr(Null),
                       Isset(apiResponse, "message").UnwrapOr(Null))
  }

  /** `MuseWalletResponseFormatter::fromApiResponse($apiResponse)`. The code is passed on to
      the code table as a `string` parameter, so an array code raises a type error; the
      HTTP status is 200 exactly for a success code and 400 otherwise. */
  function FromApiResponse(apiResponse: Array): (r: Result<JsonResponse, string>)
    ensures r.Err? <==> RawCode(apiResponse).Arr?
    ensures r.Ok? ==> r.value.body == ApiResponseBody(apiResponse, RawCode(apiResponse), ToPhpString(RawCode(apiResponse)))
    ensures r.Ok? ==> (r.value.status == 200 <==> Codes.IsSuccess(ToPhpString(RawCode(apiResponse))))
    ensures r.Ok? ==> r.value.status == 200 || r.value.status == 400
  {
    var raw := RawCode(apiResponse);
    match CoerceString(raw)
    case Err(e) => Err(e)
    case Ok(code) =>
      Ok(JsonResponse(ApiResponseBody(apiResponse, raw, code), if Codes.IsSuccess(code) then 200 else 400))
  }

  /** A body without a code is treated as a system error. */
  lemma FromApiResponseMissingCode(apiResponse: Array)
    requires Isset(apiResponse, "code").None?
    ensures FromApiResponse(apiResponse).Ok?
    ensures FromApiResponse(apiResponse).value.status == 400
    ensures Get(FromApiResponse(apiResponse).value.body, "code") == Some(Str("500"))
    ensures Get(FromApiResponse(apiResponse).value.body, "message") == Some(Str("System Error"))
  {
    Codes.SystemErrorMessage();
  }

  /** `MuseWalletResponseFormatter::error($code, $additionalInfo, $httpCode)`. */
  function Error(code: string, additionalInfo: Option<string> := None, httpCode: int := 400): (r: JsonResponse)
    ensures r.status == httpCode
    ensures DistinctKeys(r.body)
    ensures Get(r.body, "success") == Some(Bool(false))
    ensures Get(r.body, "code") == Some(Str(code))
    ensures Get(r.body, "message") == Some(Str(Codes.Message(code)))
    ensures Get(r.body, "description") == Some(Str(Codes.Description(code)))
    ensures Get(r.body, "suggestion") == Some(Str(Codes.Suggestion(code)))
    ensures Get(r.body, "additional_info") ==
              Some(if additionalInfo.Some? then Str(additionalInfo.value) else Null)
  {
    JsonResponse(ErrorEntries(code, Codes.Message(code), Codes.Description(code), Codes.Suggestion(code),
                              if additionalInfo.Some? then Str(additionalInfo.value) else Null), httpCode)
  }

  /** The six entries of an `error` response, in order. */
  function ErrorEntries(code: string, message: string, description: string, suggestion: string,
                        additionalInfo: Value): (b: Array)
    ensures DistinctKeys(b)
    ensures Get(b, "success") == Some(Bool(false))
    ensures Get(b, "code") == Some(Str(code))
    ensures Get(b, "message") == Some(Str(message))
    ensures Get(b, "description") == Some(Str(description))
    ensures Get(b, "suggestion") == Some(Str(suggestion))
    ensures Get(b, "additional_info") == Some(additionalInfo)
  {
    var b := [("success", Bool(false)), ("code", Str(code)), ("message", Str(message)),
              ("description", Str(description)), ("suggestion", Str(suggestion)),
              ("additional_info", additionalInfo)];
    GetAt(b, 0);
    GetAt(b, 1);
    GetAt(b, 2);
    GetAt(b, 3);
    GetAt(b, 4);
    GetAt(b, 5);
    b
  }

  /** `MuseWalletResponseFormatter::validationError($errors)`. */
  function ValidationError(errors: Array): (r: JsonResponse)
    ensures r.status == 422
    ensures DistinctKeys(r.body)
    ensures Get(r.body, "success") == Some(Bool(false))
    ensures Get(r.body, "code") == Some(Str(Codes.BadRequest))
    ensures Get(r.body, "message") == Some(Str("Validation Failed"))
    ensures Get(r.body, "description") == Some(Str("The provided data failed validation"))
    ensures Get(r.body, "errors") == Some(Arr(errors))
  {
    var body := [("success", Bool(false)), ("code", Str(Codes.BadRequest)), ("message", Str("Validation Failed")),
                 ("description", Str("The provided data failed validation")), ("errors", Arr(errors))];
    GetDistinct(body, "success", body[0].1);
    GetDistinct(body, "code", body[1].1);
    GetDistinct(body, "message", body[2].1);
    GetDistinct(body, "description", body[3].1);
    GetDistinct(body, "errors", body[4].1);
    JsonResponse(body, 422)
  }

  /** The four entries every `exception` body starts with. */
  function ExceptionEnvelope(description: string): (b: Array)
    ensures DistinctKeys(b)
    ensures Get(b, "success") == Some(Bool(false))
    ensures Get(b, "code") == Some(Str(Codes.SystemError))
    ensures Get(b, "message") == Some(Str("An error occurred"))
    ensures Get(b, "description") == Some(Str(description))
    ensures Get(b, "trace") == None
  {
    var b := [("success", Bool(false)), ("code", Str(Codes.SystemError)), ("message", Str("An error occurred")),
              ("description", Str(description))];
    GetAt(b, 0);
    GetAt(b, 1);
    GetAt(b, 2);
    GetAt(b, 3);
    GetAbsent(b, "trace");
    b
  }

  /** `MuseWalletResponseFormatter::exception($exception, $debug)`, given the exception's
      message and its trace as text. */
  function Exception(message: string, trace: string, debug: bool := false): (r: JsonResponse)
    ensures r.status == 500
    ensures DistinctKeys(r.body)
    ensures Get(r.body, "success") == Some(Bool(false))
    ensures Get(r.body, "code") == Some(Str(Codes.SystemError))
    ensures Get(r.body, "message") == Some(Str("An error occurred"))
    ensures Get(r.body, "description") == Some(Str(if debug then message else "Internal server error"))
    ensures Get(r.body, "trace") == if debug then Some(Str(trace)) else None
  {
    var response := ExceptionEnvelope(if debug then message else "Internal server error");
    if debug then
      PutDistinct(response, "trace", Str(trace));
      JsonResponse(Put(response, "trace", Str(trace)), 500)
    else
      JsonResponse(response, 500)
  }

  /** The six entries of an `error_details` array, in order. */
  function ErrorDetailsEntries(code: Value, message: string, description: string, suggestion: string,
                               isRetryable: bool, requiresUserAction: bool): (d: Array)
    ensures DistinctKeys(d)
    ensures Get(d, "code") == Some(code)
    ensures Get(d, "message") == Some(Str(message))
    ensures Get(d, "description") == Some(Str(description))
    ensures Get(d, "suggestion") == Some(Str(suggestion))
    ensures Get(d, "is_retryable") == Some(Bool(isRetryable))
    ensures Get(d, "requires_user_action") == Some(Bool(requiresUserAction))
  {
    var d := [("code", code), ("message", Str(message)), ("description", Str(description)),
              ("suggestion", Str(suggestion)), ("is_retryable", Bool(isRetryable)),
              ("requires_user_action", Bool(requiresUserAction))];
    GetAt(d, 0);
    GetAt(d, 1);
    GetAt(d, 2);
    GetAt(d, 3);
    GetAt(d, 4);
    GetAt(d, 5);
    d
  }

  /** The `error_details` entry `enhanceResponse` adds, for a code already passed to the
      code table as a string. */
  function ErrorDetails(raw: Value, code: string): (d: Array)
    ensures DistinctKeys(d)
    ensures Get(d, "code") == Some(raw)
    ensures Get(d, "message") == Some(Str(Codes.Message(code)))
    ensures Get(d, "description") == Some(Str(Codes.Description(code)))
    ensures Get(d, "suggestion") == Some(Str(Codes.Suggestion(code)))
    ensures Get(d, "is_retryable") == Some(Bool(Codes.IsRetryable(code)))
    ensures Get(d, "requires_user_action") == Some(Bool(Codes.RequiresUserAction(code)))
  {
    ErrorDetailsEntries(raw, Codes.Message(code), Codes.Description(code), Codes.Suggestion(code),
                        Codes.IsRetryable(code), Codes.RequiresUserAction(code))
  }

  /** `MuseWalletResponseFormatter::enhanceResponse($apiResponse)`: every original entry is
      kept, and `error_details` is added or overwritten. */
  function EnhanceResponse(apiResponse: Array): (r: Result<Array, string>)
    ensures r.Err? <==> RawCode(apiResponse).Arr?
    ensures r.Ok? ==>
      (forall k :: k != "error_details" ==> Get(r.value, k) == Get(apiResponse, k)) &&
      Get(r.value, "error_details") ==
        Some(Arr(ErrorDetails(RawCode(apiResponse), ToPhpString(RawCode(apiResponse)))))
    ensures r.Ok? && DistinctKeys(apiResponse) ==> DistinctKeys(r.value)
  {
    var raw := RawCode(apiResponse);
    match CoerceString(raw)
    case Err(e) => Err(e)
    case Ok(code) =>
      var details := Arr(ErrorDetails(raw, code));
      MergeSingle(apiResponse, "error_details", details);
      assert DistinctKeys(apiResponse) ==> DistinctKeys(Put(apiResponse, "error_details", details)) by {
        if DistinctKeys(apiResponse) { PutDistinct(apiResponse, "error_details", details); }
      }
      Ok(Merge(apiResponse, [("error_details", details)]))
  }
}
