/** What the page makes of the replies the upload endpoint actually sends.
    The endpoint answers with a single member (`error`, `message` or `game`)
    and never with `success`, so the page takes every one of its replies for a
    failure. */
module Interplay {
  import opened Wrappers
  import Registry
  import ClusteringUi

  /** A status the Fetch API reports as `ok`. */
  predicate IsOk(status: int)
  {
    200 <= status <= 299
  }

  /** The reply of the upload endpoint as the page parses it. A JSON body
      parses to its single member; the plain-text error page does not parse. */
  function Received(resp: Registry.Response): (outcome: ClusteringUi.HttpOutcome)
    ensures outcome.Reply? && outcome.ok == IsOk(resp.status)
    ensures outcome.json.None? <==> resp.body.PlainTextBody?
    ensures outcome.json.Some? ==> !outcome.json.value.success
  {
    var none := ClusteringUi.ReplyData(false, None, None, None, None, None, None);
    match resp.body
    case ErrorBody(e) => ClusteringUi.Reply(IsOk(resp.status), Some(none.(error := Some(e))))
    case MessageBody(m) => ClusteringUi.Reply(IsOk(resp.status), Some(none.(message := Some(m))))
    case GameBody(g) => ClusteringUi.Reply(IsOk(resp.status), Some(none.(game := Some(g))))
    case PlainTextBody(_) => ClusteringUi.Reply(IsOk(resp.status), None)
  }

  /** Every reply of the upload endpoint is shown as a failure: an error is
      shown as itself, a message (also the confirmation of a labelled upload)
      as itself, a detected game as the generic failure text, and the
      framework's error page as the server-error text. */
  lemma EveryServerReplyFails(resp: Registry.Response)
    ensures ClusteringUi.VerdictOf(Received(resp)).Failed?
    ensures resp.body.ErrorBody? && resp.body.error != "" ==>
      ClusteringUi.VerdictOf(Received(resp)).message == resp.body.error
    ensures resp.body.MessageBody? && resp.body.message != "" ==>
      ClusteringUi.VerdictOf(Received(resp)).message == resp.body.message
    ensures resp.body.GameBody? ==>
      ClusteringUi.VerdictOf(Received(resp)).message == ClusteringUi.DEFAULT_FAILURE
    ensures resp.body.PlainTextBody? ==>
      ClusteringUi.VerdictOf(Received(resp)).message == ClusteringUi.SERVER_ERROR
  {
  }
}
