/** The self-test `test_post_request` of app.py: post one synthetic request
    to the service, at most five times, stopping at the first 200; a
    connection error is followed by a one-second sleep, a non-200 reply just
    uses up the attempt. The outcome of each attempt is given as input. */
module SelfTest {
  import opened Service
  import opened Transport

  const MaxAttempts: nat := 5

  /** The lines the self-test prints, one constructor per `print`. */
  datatype Event =
    | Sending(payload: real)       // the request and its payload
    | Succeeded(predicted: real)   // "Status: Success" and the predicted weight
    | ErrorReply(status: int)      // a non-200 reply
    | Retrying                     // a connection error; a sleep follows
    | GaveUp                       // the failure line after the loop

  datatype Report = Report(success: bool, attempts: nat, sleeps: nat, log: seq<Event>)

  /** The request the self-test sends for a payload of `lbs` pounds. */
  function SelfTestRequest(lbs: real): (req: Request)
    ensures req.Json? && PoundsKey in req.fields && ToFloat(req.fields[PoundsKey]) == Converted(lbs)
  {
    Json(map[PoundsKey := Number(lbs)])
  }

  /** The index of the first 200 among the outcomes, or their length. */
  function FirstOk(s: seq<Attempt>): (k: nat)
    ensures k <= |s|
    ensures forall j :: 0 <= j < k ==> !s[j].Ok?
    ensures k < |s| ==> s[k].Ok?
  {
    if s == [] then 0 else if s[0].Ok? then 0 else 1 + FirstOk(s[1..])
  }

  /** The number of connection errors among the attempts. */
  function ConnErrors(s: seq<Attempt>): nat
  {
    if s == [] then 0 else ConnErrors(s[..|s| - 1]) + (if s[|s| - 1].ConnErr? then 1 else 0)
  }

  function AttemptLines(a: Attempt): seq<Event>
  {
    match a
    case Ok(v) => [Succeeded(v)]
    case Status(code) => [ErrorReply(code)]
    case ConnErr => [Retrying]
  }

  /** What the attempts print, in order. */
  function Lines(s: seq<Attempt>): seq<Event>
  {
    if s == [] then [] else Lines(s[..|s| - 1]) + AttemptLines(s[|s| - 1])
  }

  /** The attempts actually made: up to and including the first 200 among
      the first five, or all five when none of them is a 200. */
  function Made(outcomes: seq<Attempt>): (made: seq<Attempt>)
    requires |outcomes| >= MaxAttempts
    ensures 0 < |made| <= MaxAttempts && made == outcomes[..|made|]
    ensures forall j :: 0 <= j < |made| - 1 ==> !made[j].Ok?
    ensures made[|made| - 1].Ok? || |made| == MaxAttempts
  {
    var k := FirstOk(outcomes[..MaxAttempts]);
    if k < MaxAttempts then outcomes[..k + 1] else outcomes[..MaxAttempts]
  }

  /** The reference outcome of the self-test, stated without the loop. */
  function Expected(payload: real, outcomes: seq<Attempt>): Report
    requires |outcomes| >= MaxAttempts
  {
    var made := Made(outcomes);
    var success := FirstOk(outcomes[..MaxAttempts]) < MaxAttempts;
    Report(success, |made|, ConnErrors(made),
           [Sending(payload)] + Lines(made) + (if success then [] else [GaveUp]))
  }

  /** The retry loop as written: `for _ in range(5)` with a `break` on 200. */
  method RunSelfTest(payload: real, outcomes: seq<Attempt>)
    returns (success: bool, attempts: nat, sleeps: nat, log: seq<Event>)
    requires |outcomes| >= MaxAttempts
    ensures Report(success, attempts, sleeps, log) == Expected(payload, outcomes)
    ensures attempts <= MaxAttempts
    ensures success <==> exists j :: 0 <= j < attempts && outcomes[j].Ok?
  {
    success, attempts, sleeps := false, 0, 0;
    log := [Sending(payload)];
    for i := 0 to MaxAttempts
      invariant !success && attempts == i
      invariant forall j :: 0 <= j < i ==> !outcomes[j].Ok?
      invariant sleeps == ConnErrors(outcomes[..i])
      invariant log == [Sending(payload)] + Lines(outcomes[..i])
    {
      assert outcomes[..i + 1][..i] == outcomes[..i];
      attempts := attempts + 1;
      match outcomes[i]
      case Ok(v) =>
        log := log + [Succeeded(v)];
        success := true;
        assert FirstOk(outcomes[..MaxAttempts]) == i;
        break;
      case Status(code) =>
        log := log + [ErrorReply(code)];
      case ConnErr =>
        log := log + [Retrying];
        sleeps := sleeps + 1;
    }
    if !success {
      assert outcomes[..MaxAttempts] == outcomes[..attempts];
      log := log + [GaveUp];
    }
  }

  lemma {:induction false} LinesNeverGiveUp(s: seq<Attempt>)
    ensures GaveUp !in Lines(s)
  {
    if s != [] {
      LinesNeverGiveUp(s[..|s| - 1]);
    }
  }

  lemma {:induction false} ConnErrorsBound(s: seq<Attempt>)
    ensures ConnErrors(s) <= |s|
    ensures (forall j :: 0 <= j < |s| ==> !s[j].ConnErr?) ==> ConnErrors(s) == 0
    ensures (forall j :: 0 <= j < |s| ==> s[j].ConnErr?) ==> ConnErrors(s) == |s|
  {
    if s != [] {
      ConnErrorsBound(s[..|s| - 1]);
    }
  }

  /** The retry policy: at most five attempts, ending at the first 200;
      success exactly when some attempt made got a 200; every sleep is
      owed to a connection error; the failure line is printed exactly when
      the test did not succeed. */
  lemma ExpectedProperties(payload: real, outcomes: seq<Attempt>)
    requires |outcomes| >= MaxAttempts
    ensures var r := Expected(payload, outcomes);
      && 1 <= r.attempts <= MaxAttempts
      && (r.success <==> exists j :: 0 <= j < r.attempts && outcomes[j].Ok?)
      && (r.success ==> outcomes[r.attempts - 1].Ok?)
      && (forall j :: 0 <= j < r.attempts - 1 ==> !outcomes[j].Ok?)
      && (!r.success ==> r.attempts == MaxAttempts)
      && r.sleeps == ConnErrors(outcomes[..r.attempts]) <= r.attempts
      && (GaveUp in r.log <==> !r.success)
      && r.log[0] == Sending(payload)
  {
    var r := Expected(payload, outcomes);
    var made := Made(outcomes);
    ConnErrorsBound(made);
    LinesNeverGiveUp(made);
    assert GaveUp !in [Sending(payload)] + Lines(made);
    if r.success {
      assert Lines(made) == Lines(made[..|made| - 1]) + [Succeeded(made[|made| - 1].predicted)];
    } else {
      assert forall j :: 0 <= j < r.attempts ==> outcomes[j] == outcomes[..MaxAttempts][j];
    }
  }

  /** A service that is never reachable: five attempts, five sleeps, failure. */
  lemma NeverReachable(payload: real, outcomes: seq<Attempt>)
    requires |outcomes| >= MaxAttempts
    requires forall j :: 0 <= j < MaxAttempts ==> outcomes[j] == ConnErr
    ensures Expected(payload, outcomes) ==
      Report(false, 5, 5, [Sending(payload), Retrying, Retrying, Retrying, Retrying, Retrying, GaveUp])
  {
    var w := outcomes[..MaxAttempts];
    assert w == [ConnErr, ConnErr, ConnErr, ConnErr, ConnErr];
    assert w[..4] == [ConnErr, ConnErr, ConnErr, ConnErr];
    assert w[..3] == [ConnErr, ConnErr, ConnErr];
    assert w[..2] == [ConnErr, ConnErr];
    assert w[..1] == [ConnErr];
    assert Lines(w[..1]) == [Retrying] by { assert w[..1][..0] == []; }
    assert Lines(w[..2]) == [Retrying, Retrying] by { assert w[..2][..1] == w[..1]; }
    assert Lines(w[..3]) == [Retrying, Retrying, Retrying] by { assert w[..3][..2] == w[..2]; }
    assert Lines(w[..4]) == [Retrying, Retrying, Retrying, Retrying] by { assert w[..4][..3] == w[..3]; }
    assert Lines(w) == [Retrying, Retrying, Retrying, Retrying, Retrying] by { assert w[..4] == w[..|w| - 1]; }
    ConnErrorsBound(w);
  }

  /** Against a loaded model, the self-test succeeds exactly when one of its
      five attempts gets through, and then reports the model's output on the
      payload converted to kilograms. */
  lemma AgainstReadyService(f: real -> real, lbs: real, outcomes: seq<Attempt>)
    requires |outcomes| >= MaxAttempts
    requires forall j :: 0 <= j < MaxAttempts ==>
      outcomes[j] == ConnErr || outcomes[j] == Observe(Handle(Ready(f), Predict, SelfTestRequest(lbs)))
    ensures Expected(lbs, outcomes).success <==> exists j :: 0 <= j < MaxAttempts && !outcomes[j].ConnErr?
    ensures Expected(lbs, outcomes).success ==> Succeeded(f(lbs * 0.453592)) in Expected(lbs, outcomes).log
  {
  }

  /** Without a model every delivered attempt is a 500, so the self-test
      makes all five attempts and fails. */
  lemma AgainstDegradedService(lbs: real, outcomes: seq<Attempt>)
    requires |outcomes| >= MaxAttempts
    requires forall j :: 0 <= j < MaxAttempts ==>
      outcomes[j] == ConnErr || outcomes[j] == Observe(Handle(Degraded, Predict, SelfTestRequest(lbs)))
    ensures !Expected(lbs, outcomes).success
    ensures Expected(lbs, outcomes).attempts == MaxAttempts
  {
  }
}
