/**
 * The endpoint Stripe posts events to. A fixed chain of guards, each ending
 * the request with its own status code: a body that does not decode (400), no
 * webhook secret on file for the payable's account (500), a payload or
 * signature that the event constructor rejects (400), an authenticated event
 * that was not acted upon (202); otherwise 200.
 */
module Webhook {

  /**
   * What `json_decode` gives for the body, as far as the guard can tell:
   * failure, one of the values PHP compares equal to null, or anything else.
   */
  datatype Decoded =
    | DecodeFailed
    | JsonNull
    | JsonFalse
    | JsonZero
    | JsonEmptyString
    | JsonEmptyArray
    | JsonOther

  /** The body's decoded value compares loosely equal to null (`$jsonpayload == null`). */
  predicate LooselyNull(decoded: Decoded)
  {
    !decoded.JsonOther?
  }

  /** The result of constructing the event from the payload, its signature header and the secret. */
  datatype Construction = Authentic | InvalidPayload | InvalidSignature

  /** The result of processing an authenticated event. */
  datatype Processing = Acted | NotActed | ProcessingRaisedUnexpectedValue

  /** The HTTP status code, and whether the event was handed to processing. */
  datatype Response = Response(code: int, processed: bool)

  /**
   * The status the endpoint answers with, from the outcomes of the steps it
   * takes. An outcome of a step the request never reaches has no effect.
   */
  function Respond(decoded: Decoded, webhookFound: bool, construction: Construction, processing: Processing)
    : (r: Response)
    ensures r.code == 200 || r.code == 202 || r.code == 400 || r.code == 500
    ensures r.processed <==> !LooselyNull(decoded) && webhookFound && construction == Authentic
    ensures LooselyNull(decoded) ==> r.code == 400
    ensures !LooselyNull(decoded) && !webhookFound ==> r.code == 500
    ensures r.code == 200 <==> r.processed && processing.Acted?
    ensures r.code == 202 <==> r.processed && processing.NotActed?
    ensures r.code == 500 <==> !LooselyNull(decoded) && !webhookFound
  {
    if LooselyNull(decoded) then Response(400, false)
    else if !webhookFound then Response(500, false)
    else if construction != Authentic then Response(400, false)
    else
      match processing
      case NotActed => Response(202, true)
      case ProcessingRaisedUnexpectedValue => Response(400, true)
      case Acted => Response(200, true)
  }

  /**
   * A body that does not decode to a usable value is refused with 400 before
   * anything else is looked at: the other outcomes make no difference.
   */
  lemma UndecodableBodyDecidesAlone(decoded: Decoded, found: bool, c: Construction, p: Processing,
                                    found': bool, c': Construction, p': Processing)
    requires LooselyNull(decoded)
    ensures Respond(decoded, found, c, p) == Respond(decoded, found', c', p') == Response(400, false)
  {
  }

  /** With no webhook secret on file the answer is 500, whatever the signature would have said. */
  lemma MissingSecretPrecedesSignature(decoded: Decoded, c: Construction, p: Processing, c': Construction, p': Processing)
    requires !LooselyNull(decoded)
    ensures Respond(decoded, false, c, p) == Respond(decoded, false, c', p') == Response(500, false)
  {
  }

  /** A payload or signature the constructor rejects gets 400 and is never processed. */
  lemma RejectedEventNeverProcessed(decoded: Decoded, found: bool, c: Construction, p: Processing)
    requires c != Authentic
    ensures !Respond(decoded, found, c, p).processed
    ensures Respond(decoded, found, c, p).code == 400 || Respond(decoded, found, c, p).code == 500
  {
  }
}
