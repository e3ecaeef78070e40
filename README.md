# Weight prediction service and camera client — a Dafny model

This project models the decision logic of a small weight prediction system,
split across two programs:

- **The prediction service** (`app.py`). A Flask app loads a fitted
  regression model once at startup. It serves `GET /` (an informational
  page), `POST /predict` and a custom 404 handler. `predict` runs a fixed
  chain of guards: is a model loaded, is the request JSON, is
  `weight_in_pounds` present, does the value convert to a number. Each
  failed guard returns its own fixed status and message. Otherwise the
  service converts pounds to kilograms (× 0.453592), calls the model, and
  returns `{"predicted_weight": …}` with status 200. The same file holds a
  self-test, `test_post_request`. It posts one synthetic request up to
  five times and stops at the first 200. It sleeps after every
  connection error, the last one included; a non-200 reply uses up an
  attempt with no sleep.
- **The camera client** (`CameraOpen.py`). A capture loop reads webcam
  frames. For each frame with a detected pose it derives a naive estimate
  (shoulder-to-ankle distance × 100) and posts it to the service.
  `send_post_request` branches on 200, non-200 and connection error. On a
  200 it sorts the predicted weight into one of four bands.

The model consists of four modules:

- `Service` (`service.dfy`): the model slot (`Ready(model)` or
  `Degraded`), requests, responses, and `Handle(state, route, request)`,
  one pure function covering the three handlers.
- `Transport` (`transport.dfy`): what a client sees of one call. That is
  `Ok(predicted)`, `Status(code)` or `ConnErr`, plus `Observe`, which maps
  a service response to that view.
- `SelfTest` (`selftest.dfy`): the retry loop as a method over a given
  sequence of attempt outcomes. It is proved equal to `Expected`, a
  reference definition written without the loop, and the retry policy is
  proved about `Expected`.
- `Camera` (`camera.dfy`): the classification chain, the reply handling of
  `send_post_request`, and the capture loop as a `while true` method over a
  given sequence of frame events. The loop is proved equal to a recursive
  reference session `Run`.

The model also proves one fact that spans both programs. The camera posts
the key `weight_in_kg`, but the service requires `weight_in_pounds`. So a
loaded service answers every camera request with the missing-key 400, and
the camera never prints a classification.

Behaviours of the code the model keeps:

- The "is JSON" guard checks the Content-Type header, not whether the body
  parses.
- The Underweight band has no lower bound, so negative values are
  Underweight.
- Values in [24.9, 25) fall through to Obese.

## Model

| member | source | states |
|---|---|---|
| Service.Load | app.py:15-21 | the model slot is Ready exactly when the artifact was found, and then holds the fitted model |
| Service.PoundsToKg | app.py:62-63 | the kilogram value divided by 0.453592 gives back the pounds; a non-negative weight in pounds becomes a smaller non-negative weight in kilograms |
| Service.DegradedPredictIs500 | app.py:44-45 | with no model, every predict request gets 500 "Model not found…", before any JSON, key or value check |
| Service.NonJsonIs400 | app.py:49-51 | with a model, a request whose content type is not JSON gets 400 "Invalid input…" |
| Service.MissingKeyIs400 | app.py:57-58 | with a model, a JSON object without `weight_in_pounds` gets 400 "Missing 'weight_in_pounds'…", whatever other keys it has |
| Service.InvalidWeightIs400 | app.py:60-67 | with a model, a pounds value that `float` rejects with ValueError gets 400 "Invalid weight value…" |
| Service.HugeIntegerIs500 | app.py:60-67 | with a model, a pounds value that is a JSON integer too large for a double makes `float` raise OverflowError, which `except ValueError` does not catch, so the reply is the framework's 500 page; it neither converts nor counts as a ValueError |
| Service.PredictionUsesKilograms | app.py:60-65 | when the value converts to `lbs`, the response is 200 carrying exactly the model's output on `lbs * 0.453592` |
| Service.MessagesDistinct | app.py:45-74 | the five fixed error messages are pairwise distinct; in particular the missing-key and invalid-input messages differ |
| Service.HomeAlwaysOk | app.py:24-37 | `GET /` returns 200 with the fixed page, with or without a model |
| Service.UnmatchedIs404 | app.py:69-74 | an unmatched route returns 404 with the fixed JSON error, with or without a model |
| Service.OkExactly | app.py:39-67 | a response is 200 if and only if the route is home, or the route is predict with a model loaded, a JSON request, the key present and a value that converts; a 200 from predict always carries a prediction |
| Service.PredictResponse | app.py:39-67 | no contract of its own: the guard chain of `predict`; its properties are stated through `Handle` by `DegradedPredictIs500`, `NonJsonIs400`, `MissingKeyIs400`, `InvalidWeightIs400`, `PredictionUsesKilograms`, `OkExactly` and `ClientErrorsCarryMessage` |
| Service.ToFloat | app.py:62 | no contract of its own: Python's `float` on a JSON value, with ValueError for a non-numeric string, TypeError for null, arrays and objects, and OverflowError for a JSON integer too large for a double; used by `InvalidWeightIs400`, `PredictionUsesKilograms` and `OkExactly` |
| Service.Handle | app.py:24-74 | the status is one of 200, 400, 404 and 500; a 200 carries the page or a prediction; any other status carries a JSON error, or the framework's 500 page for the uncaught TypeError; for the exact replies see `HomeAlwaysOk`, `UnmatchedIs404`, `OkExactly` and `ClientErrorsCarryMessage` |
| Service.ClientErrorsCarryMessage | app.py:44-67 | every 4xx carries an error message; a 400 happens if and only if a model is loaded and the request is non-JSON, lacks the key, or has a non-numeric value |
| Transport.Observe | app.py:105-114 | a delivered reply is never a connection error; the client sees a prediction if and only if the reply is a 200 carrying one, and then it sees that prediction; otherwise it sees the reply's own status code |
| Transport.ObservePredict | app.py:62-65 | a client sees a service reply to predict as a prediction exactly when it is a 200, with the service's predicted weight; otherwise it sees the non-200 status |
| SelfTest.SelfTestRequest | app.py:90-93 | the self-test request is JSON, has `weight_in_pounds`, and its value converts to the payload |
| SelfTest.FirstOk | app.py:100-111 | the index it returns is the first 200 among the outcomes: no earlier outcome is a 200, and the outcome there is one unless no 200 exists |
| SelfTest.Made | app.py:99-111 | the attempts made are a non-empty prefix of the outcomes, at most five long; none before the last is a 200, and the last is a 200 unless all five were made |
| SelfTest.RunSelfTest | app.py:98-120 | the loop's success flag, attempt count, sleep count and log equal the reference `Expected`; at most five attempts; success exactly when an attempt made got a 200 |
| SelfTest.LinesNeverGiveUp | app.py:112-117 | the lines printed inside the loop never include the final failure line |
| SelfTest.ConnErrorsBound | app.py:115-117 | there are at most as many sleeps as attempts, none when no attempt hit a connection error, and one per attempt when every attempt did |
| SelfTest.Expected | app.py:99-120 | no contract of its own: the reference outcome of the self-test written without the loop; `ExpectedProperties`, `NeverReachable`, `AgainstReadyService` and `AgainstDegradedService` state its properties, and `RunSelfTest` is proved equal to it |
| SelfTest.ExpectedProperties | app.py:99-120 | the test makes one to five attempts; it succeeds if and only if one of them got a 200, and then the last attempt made is that 200 and no earlier one is; a failed test made all five; sleeps equal the connection errors among the attempts made; the failure line is printed if and only if the test did not succeed |
| SelfTest.NeverReachable | app.py:115-120 | if every attempt hits a connection error, the test makes five attempts and five sleeps, prints five retry lines and the failure line, and fails |
| SelfTest.AgainstReadyService | app.py:99-111 | against a loaded model, the test succeeds if and only if one of the five attempts reaches the service; it then prints the model's output on the payload × 0.453592 |
| SelfTest.AgainstDegradedService | app.py:99-120 | against a service with no model, every delivered attempt is a 500; the test makes all five attempts and fails |
| Camera.Classify | CameraOpen.py:40-47 | no contract of its own: the if/elif/else chain; `ClassifyBands` and `GapIsObese` state which values fall in each band |
| Camera.Label | CameraOpen.py:41-47 | no contract of its own: the text printed after "Classification: "; `LabelsDistinct` shows distinct bands print distinct text |
| Camera.ClassifyBands | CameraOpen.py:40-47 | Underweight if and only if w < 18.5 (no lower bound); Healthy Weight if and only if 18.5 ≤ w < 24.9; Overweight if and only if 25 ≤ w < 29.9; Obese if and only if 24.9 ≤ w < 25 or w ≥ 29.9 |
| Camera.GapIsObese | CameraOpen.py:42-47 | 24.95 is Obese while 24.8 is Healthy Weight and 25 is Overweight, so the classification is not monotone; a negative value is Underweight |
| Camera.LabelsDistinct | CameraOpen.py:40-47 | two bands print the same label if and only if they are the same band |
| Camera.Payload | CameraOpen.py:22-25 | the camera request is JSON with exactly one key, `weight_in_kg`, holding the estimate |
| Camera.SendLines | CameraOpen.py:27-52 | prints exactly two lines, the payload first; the second is a classified success exactly when the reply is a 200; `ClassifiedOnlyOnOk` gives each branch's lines |
| Camera.ClassifiedOnlyOnOk | CameraOpen.py:31-52 | a classification is printed if and only if the reply is a 200, and it prints the label of the predicted weight's band; a non-200 prints its status; a connection error prints one line, with no retry and nothing raised |
| Camera.CameraRequestRejected | CameraOpen.py:23-25 | against a loaded service, every camera request gets 400 "Missing 'weight_in_pounds'…", which the client sees as status 400 |
| Camera.CameraNeverClassifies | CameraOpen.py:35-47 | whatever the model state, the reply to a camera request never leads to a printed classification |
| Camera.Estimate | CameraOpen.py:80 | no contract of its own: the distance times 100; `SentArePoseFrames` shows these are the values sent |
| Camera.Stops | CameraOpen.py:65-67 | no contract of its own: a frame ends the loop on a failed read or the `q` key (also CameraOpen.py:95-96); used by `StopAt`, `Processed` and `LaterFramesIgnored` |
| Camera.FrameLines | CameraOpen.py:61-96 | no contract of its own: what one frame prints (the read error, nothing for a frame without a pose, `send_post_request`'s lines for a pose); `ClassifiedOnlyOnOk` and `CameraSessionNeverClassifies` state its properties |
| Camera.Run | CameraOpen.py:61-96 | no contract of its own: the reference session, frame by frame; `CaptureLoop` is proved equal to it, and `SentArePoseFrames`, `LaterFramesIgnored` and `CameraSessionNeverClassifies` state its properties |
| Camera.KeyCode | CameraOpen.py:92-95 | the key code is the low eight bits of what `waitKey` returned: in [0, 256), and congruent to it modulo 256 |
| Camera.CaptureLoop | CameraOpen.py:54-96 | if the webcam did not open, nothing is sent and only the error is printed; otherwise the requests sent and the lines printed equal those of the reference session `Run` |
| Camera.StopAt | CameraOpen.py:61-96 | the index of the first frame that ends the loop, either a failed read or `q`: no earlier frame ends it |
| Camera.Processed | CameraOpen.py:61-96 | the frames handled form a prefix of the stream; none before the last one ends the loop, and the last one does unless the stream ran out |
| Camera.RequestsPerPose | CameraOpen.py:74-86 | each pose frame contributes exactly one request and other frames none; with no pose frames nothing is sent |
| Camera.SentArePoseFrames | CameraOpen.py:61-96 | the requests a session sends are the estimates of the pose frames handled before the loop stops, in order, one per pose frame |
| Camera.LaterFramesIgnored | CameraOpen.py:65-96 | frames after a failed read or a `q` have no effect on what is sent or printed |
| Camera.CameraSessionNeverClassifies | CameraOpen.py:61-96 | if every reply comes from the service or is a connection error, no classification is printed in a whole session |

## Left out

- Flask's URL and method dispatch: `Handle` takes the already-resolved route (home, predict, unmatched). A wrong method on a known path, which Flask answers 405, is not modelled.
- JSON parsing and Flask's own error handling: a request with a JSON content type is taken to carry a JSON object. Four other cases are not modelled. A malformed body gets Flask's own 400. A JSON array or string body turns the key check at app.py:57 into a membership or substring test: without the key text it gets the missing-key 400, and with it `data["weight_in_pounds"]` raises TypeError at app.py:62, which Flask answers with 500. A `null`, number or boolean body raises TypeError at app.py:57, also answered with 500.
- Python's `float` on strings is abstracted: a string it accepts is `NumericString` carrying the number, and any other string is `NonNumericString`. A value that makes `float` raise TypeError (null, array or object) is `Other`, and a JSON integer literal too large for a double, on which `float` raises OverflowError, is `HugeInteger`. Neither error is caught by `predict`, and the model answers both with Flask's generic 500 (`ServerErrorPage`). Where exactly an integer literal stops fitting a double is not modelled: the caller chooses `Number` or `HugeInteger`.
- The service's prints are not modelled: the startup notice that the model file was not found (app.py:21) and the debug lines "Request received" and "Received data".
- The fitted model is a total function `real -> real`. A ValueError raised inside `model.predict` would also be answered "Invalid weight value…"; this is not modelled.
- `joblib.load` is reduced to the choice between a found and a missing artifact. Any other failure at load time would crash at import and is not modelled.
- Floating point is modelled as exact `real` arithmetic. This includes the binary value of the literals 24.9 and 29.9, and NaN (for which every comparison fails, so a NaN would be Obese).
- The threads, the 5-second startup wait, the 1-second sleep duration and the final `os.kill` (app.py:122-137) are process control. Sleeps are counted, not timed.
- `random.uniform(100, 200)` appears only as the payload parameter of the self-test.
- The response text printed beside a non-200 status is not modelled; the log records the status code only.
- A 200 reply without `predicted_weight` would raise KeyError in either client. The service never sends one (`Service.OkExactly`), and `Transport.Observe` sees such a reply as its status, never as a prediction.
- `SelfTest.RunSelfTest` needs an outcome for each of the five attempts it may make, supplied as input.
- OpenCV capture, colour conversion, `imshow`, `putText`, `release` and MediaPipe pose detection are not modelled. Each frame is an event: a failed read, a frame without a pose, or a frame with a pose. Both kinds of read frame carry the `waitKey` code that followed them. A pose frame also carries the shoulder-to-ankle distance and the reply to its request. A stream that runs out of frames behaves like a failed read.
- The Euclidean norm is not modelled: the distance is an input, and the estimate is the distance × 100.
- Outbound requests have no timeout, so a hung service stalls the loop; this is timing and is not modelled.
- weight_detector.py (data loading, fitting, evaluation, plotting) is not part of this model. Its pound-to-kilogram factor is the one `Service.PoundsToKg` uses.
