/** The weight prediction service (app.py): the three Flask handlers `home`,
    `predict` and `page_not_found`, folded into one pure function from the
    model slot, the route Flask resolved and the request to the response. */
module Service {

  /** The process-wide model slot, set once when the module is loaded and
      never changed afterwards. A fitted regressor is an opaque function from
      kilograms to a predicted weight. */
  datatype ModelState = Ready(model: real -> real) | Degraded

  /** The startup choice made by `joblib.load`: the fitted model when the
      artifact file exists, no model when it is missing. */
  function Load(artifactFound: bool, fitted: real -> real): (s: ModelState)
    ensures s.Ready? <==> artifactFound
    ensures s.Ready? ==> forall x :: s.model(x) == fitted(x)
  {
    if artifactFound then Ready(fitted) else Degraded
  }

  /** A value of the JSON object the client posted. A JSON number that a
      double can hold (true and false count as 1 and 0) and a string that
      Python's `float` accepts both carry the number `float` returns. A JSON
      integer literal too large for a double, a string `float` rejects and
      any other JSON value (null, an array, an object) are kept apart because
      `float` fails on each of them differently. */
  datatype JsonValue =
    | Number(n: real)
    | HugeInteger(digits: string)
    | NumericString(n: real)
    | NonNumericString(text: string)
    | Other

  /** A request as the handler sees it: `request.is_json` looks only at the
      Content-Type header, so a request whose content type is not JSON is
      rejected whatever its body holds. */
  datatype Request = NonJson | Json(fields: map<string, JsonValue>)

  /** The route Flask dispatched the request to. */
  datatype Route = Home | Predict | Unmatched

  /** The body of a response: the informational page, `{"error": ...}`,
      `{"predicted_weight": ...}`, or the framework's own page for an
      exception the handler does not catch. */
  datatype Body =
    | HtmlPage(html: string)
    | JsonError(error: string)
    | JsonPrediction(predictedWeight: real)
    | ServerErrorPage

  datatype Response = Response(status: int, body: Body)

  datatype Conversion = Converted(x: real) | ValueError | TypeError | OverflowError

  const PoundsKey: string := "weight_in_pounds"

  /** Kilograms per pound. */
  const KgPerPound: real := 0.453592

  const HomePageHtml: string :=
    "\n    <html>\n        <head><title>Weight Prediction API</title></head>\n        <body>\n"
    + "            <h1>Welcome to the Weight Prediction API</h1>\n"
    + "            <p>Use the <strong>/predict</strong> endpoint with a POST request to make predictions.</p>\n"
    + "        </body>\n    </html>\n    "

  const ModelNotFoundMessage: string := "Model not found. Please train and save the model first."
  const InvalidInputMessage: string := "Invalid input. Please send a JSON payload."
  const MissingKeyMessage: string := "Missing 'weight_in_pounds' key in JSON payload."
  const InvalidWeightMessage: string := "Invalid weight value. Please provide a numeric value."
  const NotFoundMessage: string := "The requested resource was not found. Please check the URL and try again."

  /** Python's `float(value)` on a JSON value. */
  function ToFloat(v: JsonValue): Conversion
  {
    match v
    case Number(n) => Converted(n)
    case HugeInteger(_) => OverflowError
    case NumericString(n) => Converted(n)
    case NonNumericString(_) => ValueError
    case Other => TypeError
  }

  /** Pounds to kilograms; dividing by the factor gives the pounds back. */
  function PoundsToKg(lbs: real): (kg: real)
    ensures kg / KgPerPound == lbs
    ensures lbs >= 0.0 ==> 0.0 <= kg <= lbs
  {
    lbs * KgPerPound
  }

  /** `predict`: model slot, content type, key, conversion, in that order;
      each failed guard returns its own fixed status and message. */
  function PredictResponse(state: ModelState, req: Request): Response
  {
    if state.Degraded? then Response(500, JsonError(ModelNotFoundMessage))
    else if req.NonJson? then Response(400, JsonError(InvalidInputMessage))
    else if PoundsKey !in req.fields then Response(400, JsonError(MissingKeyMessage))
    else
      match ToFloat(req.fields[PoundsKey])
      case Converted(lbs) => Response(200, JsonPrediction(state.model(PoundsToKg(lbs))))
      case ValueError => Response(400, JsonError(InvalidWeightMessage))
      // the TypeError escapes the handler and Flask answers 500 itself
      case TypeError => Response(500, ServerErrorPage)
      // so does the OverflowError, which `except ValueError` does not catch
      case OverflowError => Response(500, ServerErrorPage)
  }

  /** The whole service: `home`, `predict` and the 404 handler. */
  function Handle(state: ModelState, route: Route, req: Request): (r: Response)
    ensures r.status in {200, 400, 404, 500}
    ensures r.status == 200 ==> r.body.HtmlPage? || r.body.JsonPrediction?
    ensures r.status != 200 ==> r.body.JsonError? || r.body.ServerErrorPage?
    ensures r.body.ServerErrorPage? ==> r.status == 500
  {
    match route
    case Home => Response(200, HtmlPage(HomePageHtml))
    case Predict => PredictResponse(state, req)
    case Unmatched => Response(404, JsonError(NotFoundMessage))
  }

  /** Without a model every predict request gets 500, before any other check. */
  lemma DegradedPredictIs500(req: Request)
    ensures Handle(Degraded, Predict, req) == Response(500, JsonError(ModelNotFoundMessage))
  {
  }

  /** With a model, a request whose content type is not JSON gets 400. */
  lemma NonJsonIs400(state: ModelState)
    requires state.Ready?
    ensures Handle(state, Predict, NonJson) == Response(400, JsonError(InvalidInputMessage))
  {
  }

  /** A JSON object without the pounds key gets 400, whatever else it holds. */
  lemma MissingKeyIs400(state: ModelState, fields: map<string, JsonValue>)
    requires state.Ready? && PoundsKey !in fields
    ensures Handle(state, Predict, Json(fields)) == Response(400, JsonError(MissingKeyMessage))
  {
  }

  /** A pounds value `float` rejects with ValueError gets 400. */
  lemma InvalidWeightIs400(state: ModelState, fields: map<string, JsonValue>)
    requires state.Ready? && PoundsKey in fields && fields[PoundsKey].NonNumericString?
    ensures Handle(state, Predict, Json(fields)) == Response(400, JsonError(InvalidWeightMessage))
  {
  }

  /** A JSON integer too large for a double makes `float` raise
      OverflowError; the handler does not catch it, so Flask answers 500 and
      the model is never called. */
  lemma HugeIntegerIs500(state: ModelState, fields: map<string, JsonValue>)
    requires state.Ready? && PoundsKey in fields && fields[PoundsKey].HugeInteger?
    ensures Handle(state, Predict, Json(fields)) == Response(500, ServerErrorPage)
    ensures !ToFloat(fields[PoundsKey]).Converted? && !ToFloat(fields[PoundsKey]).ValueError?
  {
  }

  /** On success the model sees exactly the pounds times 0.453592 and its
      output is returned unchanged with status 200. */
  lemma PredictionUsesKilograms(f: real -> real, fields: map<string, JsonValue>, lbs: real)
    requires PoundsKey in fields && ToFloat(fields[PoundsKey]) == Converted(lbs)
    ensures Handle(Ready(f), Predict, Json(fields)) == Response(200, JsonPrediction(f(lbs * 0.453592)))
  {
  }

  /** The five fixed messages are pairwise distinct, so a client can tell a
      missing key from a non-JSON payload from a bad value. */
  lemma MessagesDistinct()
    ensures InvalidInputMessage != MissingKeyMessage
    ensures InvalidInputMessage != InvalidWeightMessage
    ensures MissingKeyMessage != InvalidWeightMessage
    ensures ModelNotFoundMessage !in {InvalidInputMessage, MissingKeyMessage, InvalidWeightMessage}
    ensures NotFoundMessage !in {ModelNotFoundMessage, InvalidInputMessage, MissingKeyMessage, InvalidWeightMessage}
  {
  }

  /** `GET /` is 200 with the fixed page whether or not a model is loaded. */
  lemma HomeAlwaysOk(state: ModelState, req: Request)
    ensures Handle(state, Home, req) == Response(200, HtmlPage(HomePageHtml))
  {
  }

  /** Unmatched routes are 404 with the fixed JSON error, in either state. */
  lemma UnmatchedIs404(state: ModelState, req: Request)
    ensures Handle(state, Unmatched, req) == Response(404, JsonError(NotFoundMessage))
  {
  }

  /** Exactly these requests are answered 200, and a 200 from predict always
      carries a prediction. */
  lemma OkExactly(state: ModelState, route: Route, req: Request)
    ensures Handle(state, route, req).status == 200 <==>
      || route == Home
      || (&& route == Predict && state.Ready? && req.Json?
          && PoundsKey in req.fields && ToFloat(req.fields[PoundsKey]).Converted?)
    ensures route == Predict && Handle(state, route, req).status == 200 ==>
      Handle(state, route, req).body.JsonPrediction?
  {
  }

  /** Validation failures are 4xx with an error message, never dropped. */
  lemma ClientErrorsCarryMessage(state: ModelState, route: Route, req: Request)
    ensures 400 <= Handle(state, route, req).status < 500 ==> Handle(state, route, req).body.JsonError?
    ensures Handle(state, route, req).status == 400 <==>
      && route == Predict && state.Ready?
      && (|| req.NonJson?
          || PoundsKey !in req.fields
          || ToFloat(req.fields[PoundsKey]).ValueError?)
  {
  }
}
