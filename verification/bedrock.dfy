/**
 * `lambda_handler`: the hosted-model path. The history is copied, the user
 * turn appended, the user/assistant turns mapped to the backend's message
 * shape and sent with a fixed inference configuration; the reply's first
 * content text becomes the assistant turn.
 */
module Bedrock {
  import opened Wrappers
  import opened JsonValues
  import opened Errors
  import opened Conversation
  import opened Request
  import opened Envelope

  const DefaultModelId: string := "us.amazon.nova-lite-v1:0"

  /**
   * The fixed `inferenceConfig`. The sampling values are Python floats; they
   * are carried as the decimal literals written in the source.
   */
  datatype InferenceConfig = InferenceConfig(maxTokens: nat, stopSequences: seq<string>, temperature: real, topP: real)

  const Inference: InferenceConfig := InferenceConfig(512, [], 0.7, 0.9)

  /** What `invoke_model` is called with. */
  datatype InvokeRequest = InvokeRequest(modelId: string, messages: seq<Turn>, config: InferenceConfig)

  /** The request payload's `messages` list in the backend's wire shape. */
  function WireMessages(request: InvokeRequest): (wire: seq<Json>)
    ensures |wire| == |request.messages|
  {
    seq(|request.messages|, k requires 0 <= k < |request.messages| => WireMessage(request.messages[k]))
  }

  /**
   * The shape the reply must have: `output.message.content` is a non-empty
   * list whose first element is a dict with a `text` key.
   */
  predicate WellFormedReply(resp: Json) {
    && resp.JObj? && "output" in resp.fields
    && var output := resp.fields["output"];
    && output.JObj? && "message" in output.fields
    && var message := output.fields["message"];
    && message.JObj? && "content" in message.fields
    && var content := message.fields["content"];
    && content.JArr? && |content.items| > 0
    && content.items[0].JObj? && "text" in content.items[0].fields
  }

  /** `output.message.content[0].text` of a well-formed reply. */
  function FirstText(resp: Json): Json
    requires WellFormedReply(resp)
  {
    resp.fields["output"].fields["message"].fields["content"].items[0].fields["text"]
  }

  /**
   * The reply check, written as the source writes it: falsy
   * `output`, `output.message` or `output.message.content` raise "no
   * content"; a truthy value of the wrong type raises when `.get` or the
   * subscription is applied to it. It succeeds exactly on well-formed
   * replies, with their first content text.
   */
  function ReplyText(resp: Json): (r: Result<Json, Error>)
    ensures r.Success? <==> WellFormedReply(resp)
    ensures r.Success? ==> r.value == FirstText(resp)
  {
    var noContent := Failure(InvalidUpstreamResponse("No response content from the model"));
    if !resp.JObj? then Failure(InvalidUpstreamResponse("reply is not an object"))
    else
      var output := Get(resp.fields, "output");
      if !Truthy(output) then noContent
      else if !output.JObj? then Failure(InvalidUpstreamResponse("output is not an object"))
      else
        var message := Get(output.fields, "message");
        if !Truthy(message) then noContent
        else if !message.JObj? then Failure(InvalidUpstreamResponse("output.message is not an object"))
        else
          var content := Get(message.fields, "content");
          if !Truthy(content) then noContent
          else if !content.JArr? then Failure(InvalidUpstreamResponse("content cannot be indexed by 0"))
          else
            var first := content.items[0];
            if first.JObj? && "text" in first.fields then Success(first.fields["text"])
            else Failure(InvalidUpstreamResponse("content[0] has no text"))
  }

  /** The assembled history and the request built from it, before the call. */
  datatype Prepared = Prepared(messages: seq<Json>, request: InvokeRequest)

  /**
   * Everything before `invoke_model`: parse the body, copy the history and
   * append the user turn, map the messages.
   */
  function Prepare(body: Decoded, modelId: string): (r: Result<Prepared, Error>)
  {
    var request :- ParseRequest(body);
    var history :- HistoryItems(request.history);
    var messages := AppendTurn(history, Turn(User, request.message));
    var turns :- MapMessages(messages);
    Success(Prepared(messages, InvokeRequest(modelId, turns, Inference)))
  }

  /** The handler's pipeline with the backend call as a parameter. */
  function Pipeline(body: Decoded, modelId: string, invoke: InvokeRequest -> CallResult): (r: Result<Reply, Error>)
  {
    var prepared :- Prepare(body, modelId);
    var decoded :- Answer(invoke(prepared.request));
    var text :- ReplyText(decoded);
    Success(Reply(text, None, AppendTurn(prepared.messages, Turn(Assistant, text))))
  }

  /**
   * `lambda_handler`: a 200 exactly when the pipeline succeeds, a 500
   * otherwise, always under the CORS headers.
   */
  function Handle(body: Decoded, modelId: string, invoke: InvokeRequest -> CallResult): (r: Response)
    ensures r.headers == CorsHeaders
    ensures r.statusCode == 200 || r.statusCode == 500
    ensures r.statusCode == 200 <==> Pipeline(body, modelId, invoke).Success?
    ensures ReadBack(r) == Some(Pipeline(body, modelId, invoke).MapFailure(Describe))
  {
    Respond(Pipeline(body, modelId, invoke))
  }

  /**
   * The request sent to the backend: it exists exactly when the body holds
   * a message and a readable history list; it carries the configured model,
   * the fixed inference settings and the kept history turns followed by the
   * new user turn.
   */
  lemma PrepareSpec(body: Decoded, modelId: string)
    ensures Prepare(body, modelId).Success? <==>
              && ParseRequest(body).Success?
              && ParseRequest(body).value.history.JArr?
              && AllMappable(ParseRequest(body).value.history.items)
    ensures Prepare(body, modelId).Success? ==>
              var message := ParseRequest(body).value.message;
              var history := ParseRequest(body).value.history.items;
              var p := Prepare(body, modelId).value;
              && p.messages == history + [ToJson(Turn(User, message))]
              && p.request.modelId == modelId
              && p.request.config == Inference
              && |p.request.messages| == |KeptTurns(history)| + 1
              && p.request.messages[|p.request.messages| - 1] == Turn(User, message)
              && forall k :: 0 <= k < |KeptTurns(history)| ==>
                   Describes(p.request.messages[k], KeptTurns(history)[k])
  {
    if ParseRequest(body).Success? && ParseRequest(body).value.history.JArr? {
      var message := ParseRequest(body).value.message;
      var history := ParseRequest(body).value.history.items;
      var user := [ToJson(Turn(User, message))];
      MapMessagesOfOwnTurn(Turn(User, message));
      MapMessagesAppend(history, user);
      assert AllMappable(history + user) <==> AllMappable(history);
      if AllMappable(history) {
        KeptTurnsAppend(history, user);
        assert KeptTurns(user) == [ToJson(Turn(User, message))];
        MapMessagesFollowsKeptTurns(history + user);
      }
    }
  }

  /**
   * Each entry of the payload's `messages` list is
   * `{"role": r, "content": [{"text": c}]}` where `r` and `c` are the role
   * and content of the corresponding kept entry of the assembled history.
   */
  lemma WireMessagesCarryKeptTurns(body: Decoded, modelId: string)
    requires Prepare(body, modelId).Success?
    ensures var p := Prepare(body, modelId).value;
            var wire := WireMessages(p.request);
            var kept := KeptTurns(p.messages);
            && |wire| == |kept|
            && forall k :: 0 <= k < |wire| ==>
                 && wire[k].JObj?
                 && wire[k].fields["role"] == kept[k].fields["role"]
                 && "content" in kept[k].fields
                 && wire[k].fields["content"] == JArr([JObj(map["text" := kept[k].fields["content"]])])
  {
    var p := Prepare(body, modelId).value;
    MapMessagesFollowsKeptTurns(p.messages);
  }

  /**
   * On success the history handed back is the caller's history followed by
   * the user turn and the assistant turn (two turns longer), the response is
   * the reply's first content text, and no timing is reported.
   */
  lemma SuccessReturnsBothTurns(body: Decoded, modelId: string, invoke: InvokeRequest -> CallResult)
    requires Pipeline(body, modelId, invoke).Success?
    ensures ParseRequest(body).Success? && ParseRequest(body).value.history.JArr?
    ensures var message := ParseRequest(body).value.message;
            var history := ParseRequest(body).value.history.items;
            var reply := Pipeline(body, modelId, invoke).value;
            && reply.history == history + [ToJson(Turn(User, message)), ToJson(Turn(Assistant, reply.text))]
            && |reply.history| == |history| + 2
            && reply.responseTime == None
  {
  }

  /**
   * The pipeline succeeds exactly when the request can be prepared, the
   * backend answers with decodable JSON, and that JSON is a well-formed
   * reply; the response is then the reply's first content text.
   */
  lemma PipelineSucceedsExactly(body: Decoded, modelId: string, invoke: InvokeRequest -> CallResult)
    ensures Pipeline(body, modelId, invoke).Success? <==>
              && Prepare(body, modelId).Success?
              && var call := invoke(Prepare(body, modelId).value.request);
              && call.Answered? && call.body.Decoded?
              && WellFormedReply(call.body.value)
    ensures Pipeline(body, modelId, invoke).Success? ==>
              Pipeline(body, modelId, invoke).value.text
                == FirstText(invoke(Prepare(body, modelId).value.request).body.value)
  {
  }

  /** A body that is not JSON gives a 500 whose body says failure. */
  lemma GarbledBodyFails(modelId: string, invoke: InvokeRequest -> CallResult)
    ensures Handle(Garbled, modelId, invoke).statusCode == 500
    ensures Handle(Garbled, modelId, invoke).body.fields["success"] == JBool(false)
  {
  }

  /** A reply whose content list is empty gives a 500 with a non-empty error. */
  lemma EmptyContentFails(body: Decoded, modelId: string, invoke: InvokeRequest -> CallResult)
    requires Prepare(body, modelId).Success?
    requires invoke(Prepare(body, modelId).value.request)
               == Answered(Decoded(JObj(map["output" := JObj(map["message" := JObj(map["content" := JArr([])])])])))
    ensures Handle(body, modelId, invoke).statusCode == 500
    ensures ReadBack(Handle(body, modelId, invoke)).value.Failure?
    ensures |ReadBack(Handle(body, modelId, invoke)).value.error| > 0
  {
  }

  /**
   * The round trip: an empty history and the message "hello", with a backend
   * answering "hi there", give a 200 whose history is the user turn followed
   * by the assistant turn.
   */
  lemma HelloRoundTrip(invoke: InvokeRequest -> CallResult)
    requires forall req :: invoke(req)
               == Answered(Decoded(JObj(map["output" := JObj(map["message" :=
                    JObj(map["content" := JArr([JObj(map["text" := JStr("hi there")])])])])])))
    ensures var body := Decoded(JObj(map["message" := JStr("hello"), "conversationHistory" := JArr([])]));
            var r := Handle(body, DefaultModelId, invoke);
            && r.statusCode == 200
            && ReadBack(r) == Some(Success(Reply(JStr("hi there"), None,
                 [ToJson(Turn(User, JStr("hello"))), ToJson(Turn(Assistant, JStr("hi there")))])))
  {
    var body := Decoded(JObj(map["message" := JStr("hello"), "conversationHistory" := JArr([])]));
    var user := Turn(User, JStr("hello"));
    assert ParseRequest(body) == Success(Request(JStr("hello"), JArr([])));
    assert AppendTurn([], user) == [ToJson(user)];
    MapMessagesOfOwnTurn(user);
    var request := InvokeRequest(DefaultModelId, [user], Inference);
    assert Prepare(body, DefaultModelId) == Success(Prepared([ToJson(user)], request));
    var answer := invoke(request).body.value;
    assert ReplyText(answer) == Success(JStr("hi there"));
    var history := [ToJson(user), ToJson(Turn(Assistant, JStr("hi there")))];
    assert AppendTurn([ToJson(user)], Turn(Assistant, JStr("hi there"))) == history;
    assert Pipeline(body, DefaultModelId, invoke) == Success(Reply(JStr("hi there"), None, history));
  }
}
