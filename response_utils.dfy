/** The helpers the HTTP routes use to turn a service's result dictionary into a response
    or an HTTP error. */
module ResponseUtils {
  import opened Wrappers
  import opened PyValues
  import opened Connector

  /** The HTTPException raised for a failed service result. */
  datatype HttpError = HttpError(status: int, detail: string)

  const DefaultStatus: int := 500

  /** `handle_service_result`: a result whose `success` is missing or falsy raises with
      `"<errorMessage>: <error>"`; any other result is returned untouched. */
  function HandleServiceResult(result: map<string, Value>, errorMessage: string, statusCode: int := DefaultStatus)
    : (r: Result<map<string, Value>, HttpError>)
    ensures r.Ok? <==> "success" in result && Truthy(result["success"])
    ensures r.Ok? ==> r.value == result
    ensures r.Err? ==> r.error.status == statusCode
    ensures r.Err? && "error" in result ==> r.error.detail == errorMessage + ": " + Show(result["error"])
    ensures r.Err? && "error" !in result ==> r.error.detail == errorMessage + ": Unknown error"
  {
    if !Truthy(Get(result, "success", Bool(false))) then
      Err(HttpError(statusCode, errorMessage + ": " + Show(Get(result, "error", Str("Unknown error")))))
    else Ok(result)
  }

  /** The dictionary a service returns for an outcome: `success` and `message` on success,
      `success` and `error` on failure. */
  function OutcomeDict(o: Outcome): (d: map<string, Value>)
    ensures "success" in d && d["success"] == Bool(o.Succeeded?)
    ensures o.Succeeded? ==> d.Keys == {"success", "message"} && d["message"] == Str(o.message)
    ensures o.Failed? ==> d.Keys == {"success", "error"} && d["error"] == Str(o.error)
  {
    match o
    case Succeeded(m) => map["success" := Bool(true), "message" := Str(m)]
    case Failed(e) => map["success" := Bool(false), "error" := Str(e)]
  }

  /** For a send result dictionary, a success passes through unchanged and a failure
      becomes an HTTP error whose detail carries the service's own error text after the
      route's message. */
  lemma OutcomeThroughHandler(o: Outcome, errorMessage: string, statusCode: int)
    ensures o.Succeeded? ==> HandleServiceResult(OutcomeDict(o), errorMessage, statusCode) == Ok(OutcomeDict(o))
    ensures o.Failed? ==> HandleServiceResult(OutcomeDict(o), errorMessage, statusCode)
                          == Err(HttpError(statusCode, errorMessage + ": " + o.error))
  {
  }

  /** The dictionary a setup function returns: `success` and `message` always, and
      `redirect_url` only when authentication must continue in a browser. It has no `error`
      key, even on failure. */
  function SetupDict(r: SetupResult): (d: map<string, Value>)
    ensures d.Keys == {"success", "message"} + (if r.redirectUrl.Some? then {"redirect_url"} else {})
    ensures d["success"] == Bool(r.success) && d["message"] == Str(r.message)
    ensures r.redirectUrl.Some? ==> d["redirect_url"] == r.redirectUrl.value
  {
    var base := map["success" := Bool(r.success), "message" := Str(r.message)];
    if r.redirectUrl.Some? then base["redirect_url" := r.redirectUrl.value] else base
  }

  /** The setup routes hand a setup dictionary to the handler: a successful setup passes
      unchanged, and a failed one raises with "Unknown error", so the setup's own message
      never reaches the HTTP error. */
  lemma {:induction false} SetupThroughHandler(r: SetupResult, errorMessage: string, statusCode: int)
    ensures r.success ==> HandleServiceResult(SetupDict(r), errorMessage, statusCode) == Ok(SetupDict(r))
    ensures !r.success ==> HandleServiceResult(SetupDict(r), errorMessage, statusCode)
                           == Err(HttpError(statusCode, errorMessage + ": Unknown error"))
  {
  }

  /** `create_response`: `success` and `message` always; `data` only when not None, `error`
      only when given; nothing else. */
  method CreateResponse(success: bool, message: string, data: Value, error: Option<string>)
    returns (response: map<string, Value>)
    ensures response.Keys == {"success", "message"} + (if data != Null then {"data"} else {})
                             + (if error.Some? then {"error"} else {})
    ensures response["success"] == Bool(success) && response["message"] == Str(message)
    ensures data != Null ==> response["data"] == data
    ensures error.Some? ==> response["error"] == Str(error.value)
    ensures HandleServiceResult(response, "").Ok? <==> success
    ensures !success && error.Some? ==>
              forall m: string :: HandleServiceResult(response, m) == Err(HttpError(DefaultStatus, m + ": " + error.value))
  {
    response := map["success" := Bool(success), "message" := Str(message)];
    if data != Null {
      response := response["data" := data];
    }
    if error.Some? {
      response := response["error" := Str(error.value)];
    }
  }
}
