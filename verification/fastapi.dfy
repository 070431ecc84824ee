/**
 * `lambda_fastapi_handler`: the self-hosted HTTP path. Only the new message
 * is sent, as a flat generation request to `<base>/generate`; the reply must
 * carry `generated_text` and `response_time`, and only the assistant turn is
 * appended to the caller's history.
 */
module FastApi {
  import opened Wrappers
  import opened JsonValues
  import opened Errors
  import opened Conversation
  import opened Request
  import opened Envelope
  import opened Url
  import Bedrock

  /** The POSTed payload and its target. Sampling values are the source's decimal literals. */
  datatype GenerateRequest = GenerateRequest(
    url: string,
    prompt: Json,
    maxNewTokens: nat,
    doSample: bool,
    temperature: real,
    topP: real)

  /** The request for a message: the history plays no part in it. */
  function BuildRequest(baseUrl: string, message: Json): (g: GenerateRequest)
    ensures g.prompt == message
    ensures g.url == GenerateUrl(baseUrl)
    ensures g.maxNewTokens == 512 && g.doSample
  {
    GenerateRequest(GenerateUrl(baseUrl), message, 512, true, 0.7, 0.9)
  }

  /**
   * `generated_text` and `response_time` of the reply. A dict lacking
   * either raises "Unexpected response"; any other value raises too, from
   * the `in` test or from the subscription that follows it.
   */
  function ReplyFields(resp: Json): (r: Result<(Json, Json), Error>)
    ensures r.Success? <==> resp.JObj? && "generated_text" in resp.fields && "response_time" in resp.fields
    ensures r.Success? ==> r.value.0 == resp.fields["generated_text"] && r.value.1 == resp.fields["response_time"]
  {
    if !resp.JObj? then
      Failure(InvalidUpstreamResponse("reply is not an object"))
    else if "generated_text" !in resp.fields || "response_time" !in resp.fields then
      Failure(InvalidUpstreamResponse("Unexpected response from FastAPI"))
    else
      Success((resp.fields["generated_text"], resp.fields["response_time"]))
  }

  /**
   * The handler's pipeline with the HTTP POST as a parameter. The history
   * is copied only after the backend has answered.
   */
  function Pipeline(body: Decoded, baseUrl: string, post: GenerateRequest -> CallResult): (r: Result<Reply, Error>)
  {
    var request :- ParseRequest(body);
    var decoded :- Answer(post(BuildRequest(baseUrl, request.message)));
    var fields :- ReplyFields(decoded);
    var history :- HistoryItems(request.history);
    Success(Reply(fields.0, Some(fields.1), AppendTurn(history, Turn(Assistant, fields.0))))
  }

  /**
   * `lambda_fastapi_handler`: a 200 exactly when the pipeline succeeds, a
   * 500 otherwise, always under the CORS headers.
   */
  function Handle(body: Decoded, baseUrl: string, post: GenerateRequest -> CallResult): (r: Response)
    ensures r.headers == CorsHeaders
    ensures r.statusCode == 200 || r.statusCode == 500
    ensures r.statusCode == 200 <==> Pipeline(body, baseUrl, post).Success?
    ensures ReadBack(r) == Some(Pipeline(body, baseUrl, post).MapFailure(Describe))
  {
    Respond(Pipeline(body, baseUrl, post))
  }

  /**
   * The pipeline succeeds exactly when the body holds a message, the POST
   * of that message answers with a dict holding both reply fields, and the
   * history is a list.
   */
  lemma PipelineSucceedsExactly(body: Decoded, baseUrl: string, post: GenerateRequest -> CallResult)
    ensures Pipeline(body, baseUrl, post).Success? <==>
              && ParseRequest(body).Success?
              && var call := post(BuildRequest(baseUrl, ParseRequest(body).value.message));
              && call.Answered? && call.body.Decoded?
              && call.body.value.JObj?
              && "generated_text" in call.body.value.fields
              && "response_time" in call.body.value.fields
              && ParseRequest(body).value.history.JArr?
  {
  }

  /**
   * On success the response is `generated_text`, the timing is
   * `response_time`, and the history handed back is the caller's history
   * followed by the assistant turn alone: one turn longer, no user turn.
   */
  lemma SuccessReturnsAssistantTurnOnly(body: Decoded, baseUrl: string, post: GenerateRequest -> CallResult)
    requires Pipeline(body, baseUrl, post).Success?
    ensures ParseRequest(body).Success? && ParseRequest(body).value.history.JArr?
    ensures var request := ParseRequest(body).value;
            var answer := post(BuildRequest(baseUrl, request.message)).body.value;
            var reply := Pipeline(body, baseUrl, post).value;
            && answer.JObj? && "generated_text" in answer.fields && "response_time" in answer.fields
            && reply.text == answer.fields["generated_text"]
            && reply.responseTime == Some(answer.fields["response_time"])
            && reply.history == request.history.items + [ToJson(Turn(Assistant, reply.text))]
            && |reply.history| == |request.history.items| + 1
  {
  }

  /**
   * The two paths grow the history differently: for the same request, a
   * hosted success hands back one turn more than a self-hosted success.
   */
  lemma HistoryGrowthDiffersBetweenPaths(
    body: Decoded, modelId: string, invoke: Bedrock.InvokeRequest -> CallResult,
    baseUrl: string, post: GenerateRequest -> CallResult)
    requires Bedrock.Pipeline(body, modelId, invoke).Success?
    requires Pipeline(body, baseUrl, post).Success?
    ensures |Bedrock.Pipeline(body, modelId, invoke).value.history| == |Pipeline(body, baseUrl, post).value.history| + 1
  {
    Bedrock.SuccessReturnsBothTurns(body, modelId, invoke);
    SuccessReturnsAssistantTurnOnly(body, baseUrl, post);
  }

  /** A body that is not JSON gives a 500 whose body says failure. */
  lemma GarbledBodyFails(baseUrl: string, post: GenerateRequest -> CallResult)
    ensures Handle(Garbled, baseUrl, post).statusCode == 500
    ensures Handle(Garbled, baseUrl, post).body.fields["success"] == JBool(false)
  {
  }

  /**
   * "ping" answered by `{"generated_text": "pong", "response_time": 0.42}`
   * gives a 200 carrying both values and a history holding only the
   * assistant turn.
   */
  lemma PingPong(post: GenerateRequest -> CallResult)
    requires forall g :: post(g)
               == Answered(Decoded(JObj(map["generated_text" := JStr("pong"), "response_time" := JNum(0.42)])))
    ensures var body := Decoded(JObj(map["message" := JStr("ping")]));
            var r := Handle(body, DefaultBaseUrl, post);
            && r.statusCode == 200
            && ReadBack(r) == Some(Success(Reply(JStr("pong"), Some(JNum(0.42)),
                 [ToJson(Turn(Assistant, JStr("pong")))])))
  {
  }
}
