/**
 * The response envelope shared by both handlers: 200 with the reply, or 500
 * with an error message, always under the same CORS headers.
 */
module Envelope {
  import opened Wrappers
  import opened JsonValues
  import opened Errors

  /** The headers of every response, success or failure. */
  const CorsHeaders: map<string, string> := map[
    "Content-Type" := "application/json",
    "Access-Control-Allow-Origin" := "*",
    "Access-Control-Allow-Headers" := "Content-Type,X-Amz-Date,Authorization,X-Api-Key,X-Amz-Security-Token",
    "Access-Control-Allow-Methods" := "OPTIONS,POST"
  ]

  /**
   * A generated reply: its text, the backend's timing when it reports one,
   * and the conversation history to hand back.
   */
  datatype Reply = Reply(text: Json, responseTime: Option<Json>, history: seq<Json>)

  /** The handler's return value; `body` is the object that gets JSON-encoded. */
  datatype Response = Response(statusCode: int, headers: map<string, string>, body: Json)

  function SuccessFields(reply: Reply): map<string, Json> {
    var fields := map[
      "success" := JBool(true),
      "response" := reply.text,
      "conversationHistory" := JArr(reply.history)
    ];
    match reply.responseTime
    case Some(t) => fields["response_time" := t]
    case None => fields
  }

  /**
   * What a caller reads back from a response: the reply on a 200 whose body
   * says success, the error text on a 500 whose body says failure, nothing
   * otherwise.
   */
  function ReadBack(r: Response): Option<Result<Reply, string>> {
    if !r.body.JObj? || "success" !in r.body.fields then None
    else
      var f := r.body.fields;
      if r.statusCode == 200 && f["success"] == JBool(true)
         && "response" in f && "conversationHistory" in f && f["conversationHistory"].JArr?
      then
        var time := if "response_time" in f then Some(f["response_time"]) else None;
        Some(Success(Reply(f["response"], time, f["conversationHistory"].items)))
      else if r.statusCode == 500 && f["success"] == JBool(false) && "error" in f && f["error"].JStr? then
        Some(Failure(f["error"].s))
      else None
  }

  /**
   * The envelope: the status code is 200 exactly on success and 500
   * otherwise, the headers never vary, and the body carries the reply (or a
   * non-empty error message) so that a caller reads back exactly it.
   */
  function Respond(outcome: Result<Reply, Error>): (r: Response)
    ensures r.headers == CorsHeaders
    ensures r.statusCode == (if outcome.Success? then 200 else 500)
    ensures ReadBack(r) == Some(outcome.MapFailure(Describe))
    ensures outcome.Failure? ==> |ReadBack(r).value.error| > 0
  {
    match outcome
    case Success(reply) =>
      Response(200, CorsHeaders, JObj(SuccessFields(reply)))
    case Failure(e) =>
      Response(500, CorsHeaders, JObj(map["success" := JBool(false), "error" := JStr(Describe(e))]))
  }
}
