/**
 * The steps both handlers share before and after their backend call:
 * reading `message` and `conversationHistory` from the decoded body,
 * copying the history list, and unpacking a backend's answer.
 */
module Request {
  import opened Wrappers
  import opened JsonValues
  import opened Errors

  /** The inbound request as the handlers read it. `history` is still raw JSON. */
  datatype Request = Request(message: Json, history: Json)

  /**
   * `body = json.loads(event['body'])`, `body['message']`,
   * `body.get('conversationHistory', [])`. The body must decode to a dict
   * holding `message` (whose value may be any JSON, null included); an
   * absent history defaults to the empty list.
   */
  function ParseRequest(body: Decoded): (r: Result<Request, Error>)
    ensures r.Success? <==> body.Decoded? && body.value.JObj? && "message" in body.value.fields
    ensures r.Success? ==> r.value.message == body.value.fields["message"]
    ensures r.Success? && "conversationHistory" !in body.value.fields ==> r.value.history == JArr([])
    ensures r.Success? && "conversationHistory" in body.value.fields ==>
              r.value.history == body.value.fields["conversationHistory"]
  {
    match body
    case Garbled => Failure(MalformedRequest("body is not valid JSON"))
    case Decoded(value) =>
      if !value.JObj? then Failure(MalformedRequest("body is not an object"))
      else if "message" !in value.fields then Failure(MalformedRequest("message is missing"))
      else
        var history := if "conversationHistory" in value.fields then value.fields["conversationHistory"] else JArr([]);
        Success(Request(value.fields["message"], history))
  }

  /**
   * `history.copy()` followed by `.append(...)`: only a list survives both
   * (a dict copies but cannot append; anything else cannot copy).
   */
  function HistoryItems(history: Json): (r: Result<seq<Json>, Error>)
    ensures r.Success? <==> history.JArr?
    ensures r.Success? ==> r.value == history.items
  {
    if history.JArr? then Success(history.items)
    else Failure(MalformedRequest("conversationHistory is not a list"))
  }

  /** What a backend call produced: a body to decode, or a raised error. */
  datatype CallResult = Answered(body: Decoded) | CallFailed(reason: string)

  /** The decoded answer of a backend call, failing when the call raised or the body is not JSON. */
  function Answer(call: CallResult): (r: Result<Json, Error>)
    ensures r.Success? <==> call.Answered? && call.body.Decoded?
    ensures r.Success? ==> r.value == call.body.value
  {
    match call
    case CallFailed(reason) => Failure(UpstreamFailure(reason))
    case Answered(Garbled) => Failure(InvalidUpstreamResponse("reply is not valid JSON"))
    case Answered(Decoded(value)) => Success(value)
  }
}
