# simplechat chat handlers — a Dafny model

This project models the pure core of the simplechat Lambda module
(`lambda/index.py`). The module has two chat entry points:

- `lambda_handler` sends the conversation to a hosted model through Bedrock
  `invoke_model`.
- `lambda_fastapi_handler` sends only the new message to a self-hosted
  FastAPI service at `<base>/generate`.

Both handlers read `message` and `conversationHistory` from the request body.
They call their backend and hand back a 200 envelope with the reply and the
updated history, or a 500 envelope with an error message. Every response
carries the same CORS headers.

Decoded JSON is the datatype `JsonValues.Json`. The outcome of `json.loads` is
`Decoded` (`Garbled` when decoding raises). Each backend call is a total
function parameter from the request the handler builds to a `CallResult`: a
body to decode, or a raised error. With the backend abstracted this way, each
handler is a pure function from the decoded body to the response.

Modules:

- `Wrappers`: `Option`/`Result`; a `Failure` stands for a raised exception.
- `JsonValues`: decoded JSON, Python truthiness and `dict.get`.
- `Errors`: the three failure kinds and the text put in the error envelope.
- `Region`: `extract_region_from_arn` as an explicit leftmost scan. It is
  specified against a declarative reading of the pattern
  `arn:aws:lambda:([^:]+):`.
- `Url`: `rstrip('/') + '/generate'`.
- `Conversation`: turns, copy-then-append, and the role-filtering message
  mapping of the hosted path.
- `Request`: body field extraction, the history copy, and unpacking a backend
  answer.
- `Envelope`: the 200/500 envelope and the CORS headers.
- `Bedrock`: `lambda_handler`.
- `FastApi`: `lambda_fastapi_handler`.

The model follows what the code does, including these cases:

- `message` may be JSON `null`. The code only subscripts `body['message']`.
- History entries are raw JSON and may hold extra keys, which are kept.
- On the hosted path, an entry that is not a dict raises. So does an entry
  without `role`, and a user or assistant entry without `content`. An entry
  with any other role is dropped.
- The self-hosted path copies the history only after the backend has answered.
  A malformed history therefore still produces a POST before the 500.

## Model

| member | source | states |
|---|---|---|
| Region.ExtractRegion | lambda/index.py:10-15 | the result is the group of the leftmost match of `arn:aws:lambda:([^:]+):`, or `us-east-1` when nothing matches; it is never empty and never contains `:` |
| Region.FindMatch | lambda/index.py:12 | scanning from a start position finds a match that no earlier position matches, or proves that no position at or after the start matches |
| Region.LeftmostIsUnique | lambda/index.py:12-14 | `re.search` is deterministic here: at most one (start, closing colon) pair is the leftmost match |
| Region.ExtractsRegionOfFunctionArn | lambda/index.py:10-14 | `arn:aws:lambda:eu-west-1:123456789012:function:foo` yields `eu-west-1` |
| Region.DefaultsWithoutArn | lambda/index.py:13-15 | an ARN of another service yields the default `us-east-1` |
| Url.TrimTrailingSlashes | lambda/index.py:31 | `rstrip('/')` gives a prefix of the input that does not end in `/`, after which the input holds only slashes |
| Url.TrimIsUnique | lambda/index.py:31 | those three properties determine the stripped string |
| Url.GenerateUrl | lambda/index.py:31 | the target ends in `/generate`, never in `//generate`, and its head is a prefix of the base followed only by slashes |
| Url.GenerateUrlIgnoresTrailingSlashes | lambda/index.py:31 | adding any number of trailing slashes to the base does not change the target |
| Url.TrimIsIdempotent | lambda/index.py:31 | stripping an already stripped base changes nothing |
| Url.NormalisesHostWithTrailingSlash | lambda/index.py:31 | `http://host:8000/` gives `http://host:8000/generate` |
| Conversation.AppendTurn | lambda/index.py:131-137 | the copied history grows by exactly one turn; the first entries are the caller's, unchanged, and the last is the new `{role, content}` dict |
| Conversation.Classify | lambda/index.py:142-152 | one loop step raises exactly on an unreadable entry; it yields a turn exactly for user/assistant entries, carrying their role and content, and drops the rest |
| Conversation.ClassifyReadsBackTurn | lambda/index.py:134-147 | a turn the handler appended is read back by the mapping as itself |
| Conversation.KeptTurns | lambda/index.py:141-152 | the reference filter keeps only user/assistant entries and is never longer than its input |
| Conversation.MapMessages | lambda/index.py:141-152 | the mapping succeeds exactly when every entry is readable; its output has as many messages as there are user/assistant entries, at most the input length |
| Conversation.MapMessagesFollowsKeptTurns | lambda/index.py:141-152 | the k-th forwarded message has the role and content of the k-th user/assistant entry, so order is preserved |
| Conversation.KeptTurnsAppend | lambda/index.py:142-152 | filtering a concatenation is concatenating the filtered parts |
| Conversation.MapMessagesAppend | lambda/index.py:142-152 | mapping a concatenation fails exactly when a part fails, and otherwise concatenates the parts' messages |
| Conversation.MapMessagesDropsNothingFromCleanHistory | lambda/index.py:142-152 | a history of user/assistant entries with content is forwarded whole, entry by entry |
| Conversation.KeptTurnsOfKept | lambda/index.py:143-152 | filtering user/assistant entries drops none of them |
| Conversation.KeptTurnsOfDropped | lambda/index.py:142-152 | entries of any other role are all dropped, whatever else they hold |
| Conversation.MapMessagesOfOwnTurn | lambda/index.py:134-147 | the lone user turn the handler appends maps to exactly one user message |
| Request.ParseRequest | lambda/index.py:123-125 | parsing succeeds exactly when the body decodes to a dict holding `message`; a missing `conversationHistory` becomes the empty list |
| Request.HistoryItems | lambda/index.py:131-137 | only a list survives `copy()` followed by `append()`, and its items are kept as they are |
| Request.Answer | lambda/index.py:51-57 | a backend answer is usable exactly when the call did not raise and its body decodes |
| Errors.Describe | lambda/index.py:87-100 | the error text put in a failure envelope is never empty |
| Envelope.Respond | lambda/index.py:71-102 | status 200 exactly on success and 500 otherwise; the headers are the fixed CORS set; a caller reads back exactly the reply, or a non-empty error |
| Bedrock.ReplyText | lambda/index.py:179-183 | the truthiness-based check accepts exactly replies whose `output.message.content` is a non-empty list whose first element has `text`, and returns that text |
| Bedrock.Handle | lambda/index.py:105-222 | the handler answers 200 exactly when its pipeline succeeds and 500 otherwise, always with the CORS headers; the body reads back as the pipeline's reply or its non-empty error |
| Bedrock.PrepareSpec | lambda/index.py:123-163 | a request is sent exactly when the body has a message and a readable history list; it carries the model id, the fixed inference settings, and the kept history turns, in order, followed by the user turn |
| Bedrock.WireMessages | lambda/index.py:141-156 | the payload's `messages` list has one wire message per mapped turn |
| Bedrock.WireMessagesCarryKeptTurns | lambda/index.py:141-156 | each payload message is `{role, content: [{text}]}` holding the role and content of the matching kept history entry |
| Bedrock.PipelineSucceedsExactly | lambda/index.py:168-189 | the handler succeeds exactly when the request can be built, the call answers with JSON, and that JSON is a well-formed reply; the response is its first content text |
| Bedrock.SuccessReturnsBothTurns | lambda/index.py:131-137 | on success the history handed back is the caller's history plus the user turn and the assistant turn, two longer, with no timing |
| Bedrock.GarbledBodyFails | lambda/index.py:123 | a body that is not JSON gives a 500 whose body says `success: false` |
| Bedrock.EmptyContentFails | lambda/index.py:179-180 | a reply with an empty content list gives a 500 with a non-empty error |
| Bedrock.HelloRoundTrip | lambda/index.py:123-205 | `hello` answered by `hi there` gives a 200 whose history is the user turn then the assistant turn |
| FastApi.BuildRequest | lambda/index.py:31-39 | the POST goes to the normalised `/generate` target and carries only the message as its prompt, with 512 new tokens and sampling on |
| FastApi.ReplyFields | lambda/index.py:59-63 | the reply is accepted exactly when it is a dict holding both `generated_text` and `response_time`, and yields those two values |
| FastApi.Handle | lambda/index.py:25-102 | the handler answers 200 exactly when its pipeline succeeds and 500 otherwise, always with the CORS headers; the body reads back as the pipeline's reply or its non-empty error |
| FastApi.PipelineSucceedsExactly | lambda/index.py:27-69 | the handler succeeds exactly when the body has a message, the POST answers with a dict holding both fields, and the history is a list |
| FastApi.SuccessReturnsAssistantTurnOnly | lambda/index.py:62-84 | on success the response is `generated_text`, the timing is `response_time`, and the history is the caller's plus only the assistant turn |
| FastApi.HistoryGrowthDiffersBetweenPaths | lambda/index.py:65-69 | for the same request, a hosted success hands back one turn more than a self-hosted success |
| FastApi.GarbledBodyFails | lambda/index.py:27 | a body that is not JSON gives a 500 whose body says `success: false` |
| FastApi.PingPong | lambda/index.py:25-85 | `ping` answered by `pong` in 0.42 gives a 200 carrying both values and a history holding only the assistant turn |

## Left out

- The boto3 client and its module-global cache (lambda/index.py:18, 108-112) are left out. The SDK is foreign code and the cache is process-global state. The region does not affect the envelope, so `ExtractRegion` is modelled on its own.
- The Cognito claims lookup and all `print` logging (lambda/index.py:114-120, 127-128, 165, 176) are left out. One consequence: an authorizer without `claims` makes the source raise a `KeyError`, and the model does not reproduce that failure.
- The JSON text codec (`json.loads`, `json.dumps`) is not modelled. A decode failure is the abstract `Garbled`. A missing or `None` event body raises before decoding, so it is folded into `Garbled` too. Key order and duplicate keys in encoded output are not represented.
- The HTTP transport is not modelled: the `Content-Type` request header, UTF-8 encoding and `HTTPError` logging (lambda/index.py:40-57). A raised call is `CallFailed`.
- The Bedrock call's transport arguments, `body` serialisation and `contentType` (lambda/index.py:168-172), are not modelled. The backend receives the structured `InvokeRequest` instead.
- Floating point is not modelled. JSON numbers and the sampling values 0.7 and 0.9 are exact decimal reals, not binary doubles.
- The environment reads for `MODEL_ID` and `FASTAPI_URL` (lambda/index.py:21-23) become the `modelId` and `baseUrl` parameters. Their defaults are the constants `Bedrock.DefaultModelId` and `Url.DefaultBaseUrl`.
- The exact wording of `str(error)` is not modelled. The model fixes its own texts and states only that they are non-empty.
- For a self-hosted reply that is not a dict, the source raises from the `in` test or from the later subscription. The model fails at once. The envelope is the same 500 either way.
