/** What a client that calls `requests.post` on the prediction endpoint sees
    of one call: a 200 reply and its `predicted_weight`, another status
    code, or a `ConnectionError`. Both clients (the self-test in app.py and
    `send_post_request` in CameraOpen.py) branch on exactly these three. */
module Transport {
  import opened Service

  datatype Attempt = Ok(predicted: real) | Status(code: int) | ConnErr

  /** The client's view of a reply that did arrive. */
  function Observe(r: Response): (a: Attempt)
    ensures !a.ConnErr?
    ensures a.Ok? <==> r.status == 200 && r.body.JsonPrediction?
    ensures r.status == 200 && r.body.JsonPrediction? ==> a == Ok(r.body.predictedWeight)
    ensures a.Status? ==> a.code == r.status
  {
    if r.status == 200 && r.body.JsonPrediction? then Ok(r.body.predictedWeight) else Status(r.status)
  }

  /** Every reply the service makes to a predict request is seen either as
      a prediction (exactly on 200) or as its non-200 status. */
  lemma ObservePredict(state: ModelState, req: Request)
    ensures Observe(Handle(state, Predict, req)).Ok? <==> Handle(state, Predict, req).status == 200
    ensures Observe(Handle(state, Predict, req)).Ok? ==>
      Observe(Handle(state, Predict, req)).predicted == Handle(state, Predict, req).body.predictedWeight
    ensures Observe(Handle(state, Predict, req)).Status? ==>
      Observe(Handle(state, Predict, req)).code == Handle(state, Predict, req).status != 200
  {
  }
}
