/** The five handler methods of `LLMCaller`, without their SDK and HTTP calls. Each
    provider is reached through a function from the request the handler builds to
    the reply the provider gives (or the exception its library raises). Each handler
    returns an `Exchange`: the request it handed to the provider, if any, and its
    result. */
module Adapters {
  import opened AsciiText
  import opened Errors
  import opened Enums

  /** One chat message of the request. */
  datatype Message = Message(role: string, content: string)

  /** What a handler hands to the provider: the model, the messages, and the
      `max_tokens` setting when the handler passes one. */
  datatype ChatRequest = ChatRequest(model: string, messages: seq<Message>, maxTokens: Option<nat>)

  /** The request is a single user turn carrying `prompt`, addressed to `model`. */
  predicate IsUserTurn(req: ChatRequest, model: string, prompt: string) {
    req.model == model && |req.messages| == 1
    && req.messages[0].role == "user" && req.messages[0].content == prompt
  }

  /** A provider's answer, or the exception its library raised: its class name, its
      message, and whether the class derives from `Exception` rather than only from
      `BaseException` (as `KeyboardInterrupt` and `SystemExit` do). */
  datatype Reply<+T> = Replied(body: T) | Raised(kind: string, message: string, isException: bool)

  /** The request a handler handed to its provider, and what the handler returned or raised. */
  datatype Exchange = Exchange(sent: Option<ChatRequest>, result: Result<string>)

  /** The process environment as seen by `os.getenv`. */
  type Environment = map<string, string>

  /** `os.getenv(key)` is truthy: the variable is present and non-empty. */
  predicate IsSet(env: Environment, key: string) {
    key in env && env[key] != ""
  }

  // ---------------------------------------------------------------- OpenAI

  /** One completion choice: the message content, which the SDK types as nullable. */
  datatype OpenAIChoice = OpenAIChoice(content: Option<string>)

  datatype OpenAICompletion = OpenAICompletion(choices: seq<OpenAIChoice>)

  /** A completion with at least one choice, so that `choices[0]` exists. */
  type OpenAIReply = r: OpenAICompletion | |r.choices| > 0 witness OpenAICompletion([OpenAIChoice(None)])

  function OpenAIRequest(model: string, prompt: string): ChatRequest {
    ChatRequest(model, [Message("user", prompt)], None)
  }

  /** The text of the first choice; a null content is an `ApiCallError` naming the model. */
  function OpenAIText(model: string, resp: OpenAIReply): (r: Result<string>)
    ensures r.Ok? <==> resp.choices[0].content.Some?
    ensures r.Ok? ==> r.value == resp.choices[0].content.value
    ensures r.Err? ==> r.error.ApiCallError? && Contains(r.error.message, model)
  {
    match resp.choices[0].content
    case Some(text) => Ok(text)
    case None =>
      ContainsMiddle("The call to the OpenAI's ", model, " model didn't provide any text result");
      Err(ApiCallError("The call to the OpenAI's " + model + " model didn't provide any text result"))
  }

  /** `_call_openai`. */
  function OpenAIAdapter(model: string, prompt: string, env: Environment,
                         send: ChatRequest -> Reply<OpenAIReply>): (x: Exchange)
    ensures x.sent.Some? <==> IsSet(env, "OPENAI_API_KEY")
    ensures x.sent.None? ==> x.result.Err? && x.result.error.ValueError?
    ensures x.sent.Some? ==> IsUserTurn(x.sent.value, model, prompt)
    ensures x.sent.Some? && send(x.sent.value).Raised? ==>
      x.result == Err(ForeignError(send(x.sent.value).kind, send(x.sent.value).message))
    ensures x.sent.Some? && send(x.sent.value).Replied? ==>
      x.result == OpenAIText(model, send(x.sent.value).body)
  {
    if !IsSet(env, "OPENAI_API_KEY") then
      Exchange(None, Err(ValueError("OPENAI_API_KEY environment variable not set.")))
    else
      var req := OpenAIRequest(model, prompt);
      match send(req)
      case Raised(kind, message, _) => Exchange(Some(req), Err(ForeignError(kind, message)))
      case Replied(resp) => Exchange(Some(req), OpenAIText(model, resp))
  }

  // ------------------------------------------------------------- Anthropic

  /** One content block of a message: its `type` tag and, for text blocks, its text. */
  datatype ContentBlock = ContentBlock(blockType: string, text: string)

  predicate IsTextBlock(b: ContentBlock) {
    b.blockType == "text"
  }

  /** Block `i` is the first text block of `blocks`. */
  predicate IsFirstTextBlock(blocks: seq<ContentBlock>, i: int) {
    0 <= i < |blocks| && IsTextBlock(blocks[i]) && forall k :: 0 <= k < i ==> !IsTextBlock(blocks[k])
  }

  /** `[resp for resp in response.content if resp.type == "text"]`: the text blocks
      in their original order, repeats kept. */
  function TextBlocks(blocks: seq<ContentBlock>): (r: seq<ContentBlock>)
    ensures forall b :: b in r <==> b in blocks && IsTextBlock(b)
    ensures |r| > 0 ==> exists i :: IsFirstTextBlock(blocks, i) && blocks[i] == r[0]
    decreases |blocks|
  {
    if |blocks| == 0 then []
    else if IsTextBlock(blocks[0]) then [blocks[0]] + TextBlocks(blocks[1..])
    else
      var rest := TextBlocks(blocks[1..]);
      assert forall k :: 0 <= k < |blocks[1..]| ==> blocks[1..][k] == blocks[k + 1];
      rest
  }

  /** One step of the filter: the head block, if it is a text block, then the
      filter of the rest. */
  lemma TextBlocksStep(blocks: seq<ContentBlock>)
    requires |blocks| > 0
    ensures TextBlocks(blocks) == (if IsTextBlock(blocks[0]) then [blocks[0]] else []) + TextBlocks(blocks[1..])
  {
  }

  /** The filter distributes over concatenation. Together with `TextBlocksSingle`
      this determines the result completely: it is the text blocks of the input in
      order, each occurrence kept. */
  lemma {:induction false} TextBlocksConcat(front: seq<ContentBlock>, back: seq<ContentBlock>)
    ensures TextBlocks(front + back) == TextBlocks(front) + TextBlocks(back)
    decreases |front|
  {
    if |front| == 0 {
      assert front + back == back;
    } else {
      var rest := front[1..];
      var head := if IsTextBlock(front[0]) then [front[0]] else [];
      assert TextBlocks(front + back) == head + TextBlocks(rest + back) by {
        assert (front + back)[0] == front[0] && (front + back)[1..] == rest + back;
        TextBlocksStep(front + back);
      }
      assert TextBlocks(rest + back) == TextBlocks(rest) + TextBlocks(back) by {
        TextBlocksConcat(rest, back);
      }
      assert TextBlocks(front) == head + TextBlocks(rest) by {
        TextBlocksStep(front);
      }
    }
  }

  /** A single block is kept exactly when it is a text block. */
  lemma TextBlocksSingle(b: ContentBlock)
    ensures TextBlocks([b]) == (if IsTextBlock(b) then [b] else [])
  {
  }

  function AnthropicRequest(model: string, prompt: string): ChatRequest {
    ChatRequest(model, [Message("user", prompt)], Some(10000))
  }

  /** The text of the first text block, or an `ApiCallError` naming the model when
      there is none. */
  function AnthropicText(model: string, blocks: seq<ContentBlock>): (r: Result<string>)
    ensures r.Ok? <==> exists i :: 0 <= i < |blocks| && IsTextBlock(blocks[i])
    ensures r.Ok? ==> exists i :: IsFirstTextBlock(blocks, i) && r.value == blocks[i].text
    ensures r.Err? ==> r.error.ApiCallError? && Contains(r.error.message, model)
  {
    var texts := TextBlocks(blocks);
    if |texts| == 0 then
      assert forall i :: 0 <= i < |blocks| ==> !IsTextBlock(blocks[i]) by {
        forall i | 0 <= i < |blocks| ensures !IsTextBlock(blocks[i]) {
          assert blocks[i] in blocks;
        }
      }
      ContainsMiddle("The call to the Anthropic ", model, " model didn't provide any text response");
      Err(ApiCallError("The call to the Anthropic " + model + " model didn't provide any text response"))
    else
      assert texts[0] in texts;
      Ok(texts[0].text)
  }

  /** Blocks that are not text blocks never affect the extracted text. */
  lemma {:induction false} NonTextBlockIgnored(front: seq<ContentBlock>, b: ContentBlock, back: seq<ContentBlock>)
    requires !IsTextBlock(b)
    ensures TextBlocks(front + [b] + back) == TextBlocks(front + back)
    decreases |front|
  {
    if |front| == 0 {
      assert front + [b] + back == [b] + back;
      assert ([b] + back)[1..] == back;
      assert front + back == back;
    } else {
      assert (front + [b] + back)[0] == front[0];
      assert (front + [b] + back)[1..] == front[1..] + [b] + back;
      assert (front + back)[0] == front[0];
      assert (front + back)[1..] == front[1..] + back;
      NonTextBlockIgnored(front[1..], b, back);
    }
  }

  /** Hence the Anthropic result does not change when a non-text block is added anywhere. */
  lemma AnthropicIgnoresNonText(model: string, front: seq<ContentBlock>, b: ContentBlock, back: seq<ContentBlock>)
    requires !IsTextBlock(b)
    ensures AnthropicText(model, front + [b] + back) == AnthropicText(model, front + back)
  {
    NonTextBlockIgnored(front, b, back);
  }

  /** `_call_anthropic`. */
  function AnthropicAdapter(model: string, prompt: string, env: Environment,
                            send: ChatRequest -> Reply<seq<ContentBlock>>): (x: Exchange)
    ensures x.sent.Some? <==> IsSet(env, "ANTHROPIC_API_KEY")
    ensures x.sent.None? ==> x.result.Err? && x.result.error.ValueError?
    ensures x.sent.Some? ==> IsUserTurn(x.sent.value, model, prompt) && x.sent.value.maxTokens == Some(10000)
    ensures x.sent.Some? && send(x.sent.value).Raised? ==>
      x.result == Err(ForeignError(send(x.sent.value).kind, send(x.sent.value).message))
    ensures x.sent.Some? && send(x.sent.value).Replied? ==>
      x.result == AnthropicText(model, send(x.sent.value).body)
  {
    if !IsSet(env, "ANTHROPIC_API_KEY") then
      Exchange(None, Err(ValueError("ANTHROPIC_API_KEY environment variable not set.")))
    else
      var req := AnthropicRequest(model, prompt);
      match send(req)
      case Raised(kind, message, _) => Exchange(Some(req), Err(ForeignError(kind, message)))
      case Replied(blocks) => Exchange(Some(req), AnthropicText(model, blocks))
  }

  // ---------------------------------------------------------------- Google

  /** A generation response: its `text` property, which the SDK types as nullable. */
  datatype GoogleResponse = GoogleResponse(text: Option<string>)

  function GoogleRequest(model: string, prompt: string): ChatRequest {
    ChatRequest(model, [Message("user", prompt)], None)
  }

  /** `response.text or ""`: a null text becomes the empty string (an empty text already is one). */
  function GoogleText(resp: GoogleResponse): (r: string)
    ensures r == "" <==> resp.text.None? || resp.text.value == ""
    ensures resp.text.Some? ==> r == resp.text.value
  {
    match resp.text
    case Some(t) => t
    case None => ""
  }

  /** `_call_google`: the key check stands outside the `try`, so its `ValueError`
      escapes as it is; every `Exception` raised inside becomes an `ApiCallError` that
      carries the original message, while a class deriving only from `BaseException`
      passes `except Exception` and escapes unwrapped. */
  function GoogleAdapter(model: string, prompt: string, env: Environment,
                         send: ChatRequest -> Reply<GoogleResponse>): (x: Exchange)
    ensures x.sent.Some? <==> IsSet(env, "GOOGLE_API_KEY")
    ensures x.sent.None? ==> x.result.Err? && x.result.error.ValueError?
    ensures x.sent.Some? ==> IsUserTurn(x.sent.value, model, prompt)
    ensures x.sent.Some? && send(x.sent.value).Raised? && send(x.sent.value).isException ==>
      x.result.Err? && x.result.error.ApiCallError?
      && Contains(x.result.error.message, send(x.sent.value).message)
    ensures x.sent.Some? && send(x.sent.value).Raised? && !send(x.sent.value).isException ==>
      x.result == Err(ForeignError(send(x.sent.value).kind, send(x.sent.value).message))
    ensures x.sent.Some? && send(x.sent.value).Replied? ==>
      x.result == Ok(GoogleText(send(x.sent.value).body))
  {
    if !IsSet(env, "GOOGLE_API_KEY") then
      Exchange(None, Err(ValueError("GOOGLE_API_KEY environment variable not set.")))
    else
      var req := GoogleRequest(model, prompt);
      match send(req)
      case Raised(kind, message, isException) =>
        if isException then
          ContainsMiddle("Gemini API call failed: ", message, "");
          assert "Gemini API call failed: " + message + "" == "Gemini API call failed: " + message;
          Exchange(Some(req), Err(ApiCallError("Gemini API call failed: " + message)))
        else
          Exchange(Some(req), Err(ForeignError(kind, message)))
      case Replied(resp) => Exchange(Some(req), Ok(GoogleText(resp)))
  }

  // -------------------------------------------------------------- Aristote

  /** The fields of the JSON answer that `_call_aristote` reads. */
  datatype AristoteChoice = AristoteChoice(content: string)

  datatype AristoteCompletion = AristoteCompletion(choices: seq<AristoteChoice>)

  /** A JSON answer with at least one choice, so that `choices[0]` exists. */
  type AristoteReply = r: AristoteCompletion | |r.choices| > 0 witness AristoteCompletion([AristoteChoice("")])

  function AristoteRequest(model: string, prompt: string): ChatRequest {
    ChatRequest(model, [Message("user", prompt)], None)
  }

  /** `_call_aristote`: no key check, no `try`; the answer is the first choice's content. */
  function AristoteAdapter(model: string, prompt: string,
                           send: ChatRequest -> Reply<AristoteReply>): (x: Exchange)
    ensures x.sent.Some?
    ensures IsUserTurn(x.sent.value, model, prompt)
    ensures send(x.sent.value).Raised? ==>
      x.result == Err(ForeignError(send(x.sent.value).kind, send(x.sent.value).message))
    ensures send(x.sent.value).Replied? ==>
      x.result == Ok(send(x.sent.value).body.choices[0].content)
  {
    var req := AristoteRequest(model, prompt);
    match send(req)
    case Raised(kind, message, _) => Exchange(Some(req), Err(ForeignError(kind, message)))
    case Replied(resp) => Exchange(Some(req), Ok(resp.choices[0].content))
  }

  // ------------------------------------------------------------ unsupported

  /** `_call_unsupported`: sends nothing and always raises `NotImplementedError`
      naming the service. */
  function UnsupportedAdapter(service: Service): (x: Exchange)
    ensures x.sent.None?
    ensures x.result.Err? && x.result.error.NotImplementedError?
    ensures Contains(x.result.error.message, ToString(service))
  {
    ContainsMiddle("The service '", ToString(service), "' is recognized but not yet implemented.");
    Exchange(None, Err(NotImplementedError(
      "The service '" + ToString(service) + "' is recognized but not yet implemented.")))
  }
}
