/** The camera client of CameraOpen.py: the four-band classification of a
    predicted weight, the reply handling of `send_post_request`, and the
    capture loop, with each frame reduced to what the loop branches on. */
module Camera {
  import opened Service
  import opened Transport

  datatype Band = Underweight | HealthyWeight | Overweight | Obese

  /** The if/elif/else chain on `predicted_weight`. There is no lower bound,
      and [24.9, 25) belongs to none of the first three bands. */
  function Classify(w: real): Band
  {
    if w < 18.5 then Underweight
    else if 18.5 <= w < 24.9 then HealthyWeight
    else if 25.0 <= w < 29.9 then Overweight
    else Obese
  }

  /** The text printed after "Classification: ". */
  function Label(b: Band): string
  {
    match b
    case Underweight => "Underweight"
    case HealthyWeight => "Healthy Weight"
    case Overweight => "Overweight"
    case Obese => "Obese"
  }

  /** Each band is exactly the set of values the chain sends to it. */
  lemma ClassifyBands(w: real)
    ensures Classify(w) == Underweight <==> w < 18.5
    ensures Classify(w) == HealthyWeight <==> 18.5 <= w < 24.9
    ensures Classify(w) == Overweight <==> 25.0 <= w < 29.9
    ensures Classify(w) == Obese <==> (24.9 <= w < 25.0 || 29.9 <= w)
  {
  }

  /** The gap: a value between 24.9 and 25 is Obese, so the classification
      is not monotone in the weight. */
  lemma GapIsObese()
    ensures Classify(24.95) == Obese && Classify(25.0) == Overweight && Classify(24.8) == HealthyWeight
    ensures Classify(-1.0) == Underweight
  {
  }

  /** One label per value, and distinct bands print distinct labels. */
  lemma LabelsDistinct(a: Band, b: Band)
    ensures Label(a) == Label(b) <==> a == b
  {
  }

  const KgKey: string := "weight_in_kg"

  /** The JSON payload `send_post_request` posts: one key, in kilograms. */
  function Payload(kg: real): (req: Request)
    ensures req.Json? && req.fields.Keys == {KgKey} && req.fields[KgKey] == Number(kg)
  {
    Json(map[KgKey := Number(kg)])
  }

  /** The lines the camera client prints. */
  datatype Event =
    | Sending(kg: real)                     // the payload, before the call
    | Success(predicted: real, classification: string)  // "Status: Success", the weight, its label
    | ErrorReply(status: int)               // a non-200 reply
    | Unreachable                           // the connection error, caught
    | CaptureFailed                         // a frame could not be read
    | CameraUnavailable                     // the webcam did not open

  /** `send_post_request`: one call, no retry, nothing propagated. */
  function SendLines(kg: real, reply: Attempt): (lines: seq<Event>)
    ensures |lines| == 2 && lines[0] == Sending(kg)
    ensures lines[1].Success? <==> reply.Ok?
  {
    [Sending(kg)] +
    match reply
    case Ok(v) => [Success(v, Label(Classify(v)))]
    case Status(code) => [ErrorReply(code)]
    case ConnErr => [Unreachable]
  }

  /** A classification is printed exactly on a 200 reply, and it is the
      classification of the predicted weight; a non-200 prints its status; a
      connection error prints one line and nothing else happens. */
  lemma ClassifiedOnlyOnOk(kg: real, reply: Attempt)
    ensures (exists e :: e in SendLines(kg, reply) && e.Success?) <==> reply.Ok?
    ensures reply.Ok? ==> SendLines(kg, reply) == [Sending(kg), Success(reply.predicted, Label(Classify(reply.predicted)))]
    ensures reply.Status? ==> SendLines(kg, reply) == [Sending(kg), ErrorReply(reply.code)]
    ensures reply.ConnErr? ==> SendLines(kg, reply) == [Sending(kg), Unreachable]
  {
  }

  /** The camera posts `weight_in_kg` and the service wants
      `weight_in_pounds`: a loaded service rejects every camera request. */
  lemma CameraRequestRejected(f: real -> real, kg: real)
    ensures Handle(Ready(f), Predict, Payload(kg)) == Response(400, JsonError(MissingKeyMessage))
    ensures Observe(Handle(Ready(f), Predict, Payload(kg))) == Status(400)
  {
  }

  /** Whatever the model state, a camera request never gets classified. */
  lemma CameraNeverClassifies(state: ModelState, kg: real)
    ensures forall e :: e in SendLines(kg, Observe(Handle(state, Predict, Payload(kg)))) ==> !e.Success?
  {
  }

  /** One turn of the capture loop, as the loop sees it: the read failed, or
      a frame came with no pose, or with a pose whose shoulder-to-ankle
      distance is given, together with the reply to the request it causes;
      `rawKey` is what `cv2.waitKey(1)` returned after the frame was shown. */
  datatype Frame =
    | ReadFailed
    | NoPose(rawKey: int)
    | Pose(distance: real, reply: Attempt, rawKey: int)

  /** `ord('q')`. */
  const QuitKey: int := 113

  /** `key & 0xFF`: the low eight bits, also of a negative key code. */
  function KeyCode(raw: int): (k: int)
    ensures 0 <= k < 256 && (raw - k) % 256 == 0
  {
    raw % 256
  }

  /** The naive estimate sent for a pose: the distance times 100. */
  function Estimate(distance: real): real
  {
    distance * 100.0
  }

  /** A frame ends the loop when it cannot be read or `q` is pressed. */
  predicate Stops(f: Frame)
  {
    f.ReadFailed? || KeyCode(f.rawKey) == QuitKey
  }

  function FrameRequests(f: Frame): seq<real>
  {
    if f.Pose? then [Estimate(f.distance)] else []
  }

  function FrameLines(f: Frame): seq<Event>
  {
    match f
    case ReadFailed => [CaptureFailed]
    case NoPose(_) => []
    case Pose(d, reply, _) => SendLines(Estimate(d), reply)
  }

  /** What a capture session sends and prints. */
  datatype Session = Session(sent: seq<real>, log: seq<Event>)

  /** The reference session, frame by frame from the front; a stream that
      runs out of frames behaves like a failed read. */
  function Run(frames: seq<Frame>): Session
  {
    if frames == [] || frames[0].ReadFailed? then Session([], [CaptureFailed])
    else if Stops(frames[0]) then Session(FrameRequests(frames[0]), FrameLines(frames[0]))
    else
      var rest := Run(frames[1..]);
      Session(FrameRequests(frames[0]) + rest.sent, FrameLines(frames[0]) + rest.log)
  }

  /** `Run` on the frames from `i` on, one step unfolded. */
  lemma RunFrom(frames: seq<Frame>, i: nat)
    requires i <= |frames|
    ensures (i == |frames| || frames[i].ReadFailed?) ==> Run(frames[i..]) == Session([], [CaptureFailed])
    ensures i < |frames| && !frames[i].ReadFailed? && Stops(frames[i]) ==>
      Run(frames[i..]) == Session(FrameRequests(frames[i]), FrameLines(frames[i]))
    ensures i < |frames| && !Stops(frames[i]) ==>
      Run(frames[i..]) ==
        Session(FrameRequests(frames[i]) + Run(frames[i + 1..]).sent, FrameLines(frames[i]) + Run(frames[i + 1..]).log)
  {
  }

  lemma AppendAssoc<T>(a: seq<T>, b: seq<T>, c: seq<T>)
    ensures a + (b + c) == (a + b) + c
  {
  }

  /** The script: open the webcam, then `while True` until a read fails or
      `q` is pressed. */
  method CaptureLoop(cameraOpen: bool, frames: seq<Frame>) returns (sent: seq<real>, log: seq<Event>)
    ensures !cameraOpen ==> sent == [] && log == [CameraUnavailable]
    ensures cameraOpen ==> Session(sent, log) == Run(frames)
  {
    if !cameraOpen {
      return [], [CameraUnavailable];
    }
    sent, log := [], [];
    var i := 0;
    assert frames[i..] == frames;
    while true
      invariant i <= |frames|
      invariant sent + Run(frames[i..]).sent == Run(frames).sent
      invariant log + Run(frames[i..]).log == Run(frames).log
      decreases |frames| - i
    {
      // cap.read() fails on a bad frame and once the stream is exhausted
      var ret := i < |frames| && !frames[i].ReadFailed?;
      if !ret {
        RunFrom(frames, i);
        log := log + [CaptureFailed];
        break;
      }
      ghost var sentBefore, logBefore := sent, log;
      var f := frames[i];
      RunFrom(frames, i);
      if f.Pose? {
        var kg := Estimate(f.distance);
        sent := sent + [kg];
        log := log + SendLines(kg, f.reply);
      }
      assert sent == sentBefore + FrameRequests(f) && log == logBefore + FrameLines(f);
      if !Stops(f) {
        AppendAssoc(sentBefore, FrameRequests(f), Run(frames[i + 1..]).sent);
        AppendAssoc(logBefore, FrameLines(f), Run(frames[i + 1..]).log);
      }
      i := i + 1;
      if KeyCode(f.rawKey) == QuitKey {
        break;
      }
    }
  }

  /** The index of the frame that ends the loop, or the length of the
      stream when none does. */
  function StopAt(frames: seq<Frame>): (k: nat)
    ensures k <= |frames|
    ensures forall j :: 0 <= j < k ==> !Stops(frames[j])
    ensures k < |frames| ==> Stops(frames[k])
  {
    if frames == [] || Stops(frames[0]) then 0 else 1 + StopAt(frames[1..])
  }

  /** The frames the loop reads successfully or fails on: those before the
      stopping frame, and the stopping frame itself. */
  function Processed(frames: seq<Frame>): (p: seq<Frame>)
    ensures |p| <= |frames| && p == frames[..|p|]
    ensures forall j :: 0 <= j < |p| - 1 ==> !Stops(p[j])
    ensures |p| < |frames| ==> 0 < |p| && Stops(p[|p| - 1])
  {
    var k := StopAt(frames);
    if k < |frames| then frames[..k + 1] else frames
  }

  /** The estimates of the frames that show a pose, in order. */
  function Requests(s: seq<Frame>): seq<real>
  {
    if s == [] then [] else FrameRequests(s[0]) + Requests(s[1..])
  }

  /** The number of frames that show a pose. */
  function PoseFrames(s: seq<Frame>): nat
  {
    if s == [] then 0 else (if s[0].Pose? then 1 else 0) + PoseFrames(s[1..])
  }

  lemma {:induction false} RequestsPerPose(s: seq<Frame>)
    ensures |Requests(s)| == PoseFrames(s)
    ensures (forall j :: 0 <= j < |s| ==> !s[j].Pose?) ==> Requests(s) == []
  {
    if s != [] {
      RequestsPerPose(s[1..]);
    }
  }

  /** The loop sends exactly one request per pose frame it processes before
      it stops, carrying that frame's estimate, and none for other frames. */
  lemma {:induction false} SentArePoseFrames(frames: seq<Frame>)
    ensures Run(frames).sent == Requests(Processed(frames))
    ensures |Run(frames).sent| == PoseFrames(Processed(frames))
  {
    RequestsPerPose(Processed(frames));
    if frames != [] && !Stops(frames[0]) {
      SentArePoseFrames(frames[1..]);
      assert Processed(frames)[1..] == Processed(frames[1..]);
    } else if frames != [] {
      assert Processed(frames) == [frames[0]];
    }
  }

  /** Frames after the one that ends the loop have no effect. */
  lemma {:induction false} LaterFramesIgnored(frames: seq<Frame>, rest: seq<Frame>)
    requires StopAt(frames) < |frames|
    ensures Run(frames + rest) == Run(frames)
  {
    assert (frames + rest)[0] == frames[0];
    if !Stops(frames[0]) {
      assert (frames + rest)[1..] == frames[1..] + rest;
      LaterFramesIgnored(frames[1..], rest);
    }
  }

  /** Against the service, whatever its model state, the camera never prints
      a classification: every reply that arrives is the missing-key 400 or
      the no-model 500. */
  lemma {:induction false} CameraSessionNeverClassifies(state: ModelState, frames: seq<Frame>)
    requires forall j :: 0 <= j < |frames| && frames[j].Pose? ==>
      || frames[j].reply == ConnErr
      || frames[j].reply == Observe(Handle(state, Predict, Payload(Estimate(frames[j].distance))))
    ensures forall e :: e in Run(frames).log ==> !e.Success?
  {
    if frames != [] && !frames[0].ReadFailed? {
      if frames[0].Pose? {
        CameraNeverClassifies(state, Estimate(frames[0].distance));
      }
      if !Stops(frames[0]) {
        CameraSessionNeverClassifies(state, frames[1..]);
      }
    }
  }
}
