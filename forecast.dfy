/** The forecast request path of the backend: the route's body validator,
    the controller that maps the AI service's result to an HTTP response, and
    the AI service client that maps the HTTP call's outcome to a forecast or
    an error message. */
module ForecastRoutes {
  import opened JsValues

  datatype Check = Next | Reject(status: int, message: string)

  /** `validateForecastRequest`: the first failing check wins. */
  function ValidateForecastRequest(symbol: JsValue): (r: Check)
    ensures !Truthy(symbol) ==> r == Reject(400, "Symbol is required in request body")
    ensures Truthy(symbol) && !symbol.Str? ==> r == Reject(400, "Symbol must be a string")
    ensures Truthy(symbol) && symbol.Str? && |symbol.s| > 10 ==> r == Reject(400, "Symbol must be 10 characters or less")
  {
    if !Truthy(symbol) then Reject(400, "Symbol is required in request body")
    else if !symbol.Str? then Reject(400, "Symbol must be a string")
    else if |symbol.s| > 10 then Reject(400, "Symbol must be 10 characters or less")
    else Next
  }

  /** The request reaches the controller exactly when the symbol is a string
      of 1 to 10 characters. */
  lemma ValidateNextIff(symbol: JsValue)
    ensures ValidateForecastRequest(symbol) == Next <==> symbol.Str? && 1 <= |symbol.s| <= 10
  {
  }
}

module AiService {
  import opened Wrappers

  /** The JSON body of a successful `/predict` call, as far as it is read. */
  datatype PredictBody = PredictBody(symbol: string, predictedClose: real)

  /** What the HTTP call ended with: a response body, or an error with its
      `code` and, when the server answered, the `detail` of its body. */
  datatype HttpOutcome =
    | Answered(body: PredictBody)
    | Failed(code: Option<string>, response: Option<Option<string>>)

  datatype Prediction = Prediction(nextClose: real, generatedAt: string)

  datatype Forecast = Forecast(symbol: string, prediction: Prediction)

  const TimedOut := "AI service request timed out"

  /** The error message thrown for a failed call, in the order of the
      checks: a timeout first, then a server answer, then anything else. */
  function ErrorMessage(code: Option<string>, response: Option<Option<string>>): (m: string)
    ensures code == Some("ECONNABORTED") ==> m == "AI service request timed out"
    ensures code != Some("ECONNABORTED") && response.Some? ==>
      m == (if response.value.Some? && response.value.value != "" then response.value.value else "AI service error")
    ensures code != Some("ECONNABORTED") && response.None? ==> m == "Unable to reach AI service"
  {
    if code == Some("ECONNABORTED") then TimedOut
    else if response.Some? then
      (if response.value.Some? && response.value.value != "" then response.value.value else "AI service error")
    else "Unable to reach AI service"
  }

  /** `getForecast`. `baseUrl` is the `AI_SERVICE_URL` setting, `call` what
      the POST to `/predict` would end with and `now` the ISO time stamp of
      the moment the response is mapped. */
  function GetForecast(baseUrl: Option<string>, call: HttpOutcome, now: string): (r: Result<Forecast>)
    ensures baseUrl.None? || baseUrl.value == "" ==> r == Err("AI_SERVICE_URL is not configured")
    ensures baseUrl.Some? && baseUrl.value != "" && call.Answered? ==>
      r == Ok(Forecast(call.body.symbol, Prediction(call.body.predictedClose, now)))
    ensures baseUrl.Some? && baseUrl.value != "" && call.Failed? ==>
      r == Err(ErrorMessage(call.code, call.response))
  {
    if baseUrl.None? || baseUrl.value == "" then Err("AI_SERVICE_URL is not configured")
    else
      match call
      case Answered(body) => Ok(Forecast(body.symbol, Prediction(body.predictedClose, now)))
      case Failed(code, response) => Err(ErrorMessage(code, response))
  }

  /** Without a base URL no call is made: the result does not depend on what
      the call would have returned. */
  lemma UnconfiguredMakesNoCall(baseUrl: Option<string>, c1: HttpOutcome, c2: HttpOutcome, now: string)
    requires baseUrl.None? || baseUrl.value == ""
    ensures GetForecast(baseUrl, c1, now) == GetForecast(baseUrl, c2, now)
  {
  }

  /** A timeout is reported as a timeout even when the error also carries a
      server response. */
  lemma TimeoutWins(response: Option<Option<string>>)
    ensures ErrorMessage(Some("ECONNABORTED"), response) == TimedOut
  {
  }

  /** The timeout message is produced by a timeout, or by a server whose
      error detail is that very text. */
  lemma TimedOutMessageIff(code: Option<string>, response: Option<Option<string>>)
    ensures ErrorMessage(code, response) == TimedOut <==>
      code == Some("ECONNABORTED") || (response == Some(Some(TimedOut)))
  {
  }
}

module ForecastController {
  import opened Wrappers
  import opened JsValues
  import AiService

  /** `{ success: true, data }` or `{ success: false, message }` with the
      status. */
  datatype Response = Sent(status: int, success: bool, data: Option<AiService.Forecast>, message: Option<string>)

  /** `getForecast`. `service` is what `aiService.getForecast` returns for
      the symbol. */
  function GetForecast(symbol: JsValue, service: Result<AiService.Forecast>): (r: Response)
    ensures !Truthy(symbol) ==> r == Sent(400, false, None, Some("Symbol is required"))
    ensures Truthy(symbol) && service.Ok? ==> r == Sent(200, true, Some(service.value), None)
    ensures Truthy(symbol) && service.Err? ==>
      && r.status == (if service.message == "AI service request timed out" then 504 else 502)
      && !r.success && r.message == Some(service.message) && r.data == None
  {
    if !Truthy(symbol) then Sent(400, false, None, Some("Symbol is required"))
    else
      match service
      case Ok(forecast) => Sent(200, true, Some(forecast), None)
      case Err(message) =>
        var status := if message == "AI service request timed out" then 504 else 502;
        Sent(status, false, None, Some(message))
  }

  /** A falsy symbol never reaches the AI service: the response is the same
      whatever the service would have returned. */
  lemma FalsySymbolSkipsService(symbol: JsValue, s1: Result<AiService.Forecast>, s2: Result<AiService.Forecast>)
    requires !Truthy(symbol)
    ensures GetForecast(symbol, s1) == GetForecast(symbol, s2)
  {
  }

  /** Through the client: with a base URL configured, the controller answers
      504 for a timed-out call and 502 for a call the client could not
      complete, and passes a server's error detail through verbatim. */
  lemma ControllerOverClient(symbol: JsValue, baseUrl: string, call: AiService.HttpOutcome, now: string)
    requires Truthy(symbol) && baseUrl != "" && call.Failed?
    ensures var r := GetForecast(symbol, AiService.GetForecast(Some(baseUrl), call, now));
      && (call.code == Some("ECONNABORTED") ==> r.status == 504 && r.message == Some("AI service request timed out"))
      && (call.code != Some("ECONNABORTED") && call.response.None? ==>
            r.status == 502 && r.message == Some("Unable to reach AI service"))
      && (call.code != Some("ECONNABORTED") && call.response.Some? && call.response.value.Some?
          && call.response.value.value != "" ==>
            r.message == Some(call.response.value.value))
  {
  }
}
