/**
 * What a caller of the model server's `/predict` endpoint gets back. The
 * auto-improver's fallback scorer and the HR agent's sentiment lookup both
 * post text there; the network call itself is outside the model, so its
 * outcome is an input.
 */
module ModelServer {
  import opened Wrappers

  datatype PredictReply =
    /** A JSON body came back; `prediction` is its "prediction" entry, `None` when the key is missing. */
    | Prediction(prediction: Option<string>)
    /** Timeout, connection error, non-2xx status or a body that is not JSON. */
    | PredictFailed
}
