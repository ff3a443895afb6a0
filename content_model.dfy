/**
 * The canonical conversation model (`Content`, `Part`, responses, tool
 * declarations, request configuration) and the OpenAI-style chat-completion
 * shapes the adapters translate it to and from.
 *
 * A `Part` is a tagged union with exactly one variant active. Optional string
 * fields that the source only ever reads through `||` or a truthiness test are
 * plain strings in which "" stands for "absent".
 */
module ContentModel {
  import opened Wrappers
  import opened Json
  import opened Text

  /** `{id, name, args}`; `args` is `None` when the call carries no arguments. */
  datatype FunctionCall = FunctionCall(id: string, name: string, args: Option<Json>)

  datatype FunctionResponse = FunctionResponse(id: string, name: string, response: Json)

  datatype Part =
    | TextPart(text: string)
    | FunctionCallPart(call: FunctionCall)
    | FunctionResponsePart(functionResponse: FunctionResponse)
    | InlineDataPart(mimeType: string, data: string)
    /** Any other part (file data, executable code, ...), kept as its JSON form. */
    | OtherPart(value: Json)

  datatype Content = Content(role: string, parts: seq<Part>)

  datatype Usage = Usage(promptTokens: int, candidatesTokens: int, totalTokens: int)

  datatype Candidate = Candidate(content: Content, finishReason: Option<string>)

  /** `GenerateContentResponse`: candidates, the derived `functionCalls` list and usage. */
  datatype Response = Response(candidates: seq<Candidate>, functionCalls: Option<seq<FunctionCall>>, usage: Option<Usage>)

  /** A response with one `model` candidate. */
  function ModelResponse(parts: seq<Part>, finishReason: Option<string>, calls: Option<seq<FunctionCall>>, usage: Option<Usage>): Response {
    Response([Candidate(Content("model", parts), finishReason)], calls, usage)
  }

  function CallParts(calls: seq<FunctionCall>): (r: seq<Part>)
    ensures |r| == |calls|
    ensures forall i :: 0 <= i < |calls| ==> r[i] == FunctionCallPart(calls[i])
  {
    if calls == [] then [] else [FunctionCallPart(calls[0])] + CallParts(calls[1..])
  }

  /** The JSON form `JSON.stringify` receives for a non-text part. */
  function PartJson(p: Part): Json {
    match p
    case TextPart(t) => JObj([("text", JStr(t))])
    case FunctionCallPart(c) =>
      JObj([("functionCall", JObj([("id", JStr(c.id)), ("name", JStr(c.name))]
        + (if c.args.Some? then [("args", c.args.value)] else [])))])
    case FunctionResponsePart(r) =>
      JObj([("functionResponse", JObj([("id", JStr(r.id)), ("name", JStr(r.name)), ("response", r.response)]))])
    case InlineDataPart(m, d) =>
      JObj([("inlineData", JObj([("mimeType", JStr(m)), ("data", JStr(d))]))])
    case OtherPart(v) => v
  }

  // ---- request side ----

  /** `FunctionDeclaration`; "" name or description means the field is absent. */
  datatype FunctionDeclaration = FunctionDeclaration(name: string, description: string, parameters: Option<Json>)

  /** A tool group; `functionDeclarations` is `None` when it is missing or not an array. */
  datatype Tool = Tool(functionDeclarations: Option<seq<FunctionDeclaration>>)

  /** `config.systemInstruction`: absent, a string, a Content-like object with `parts`, or anything else. */
  datatype SystemInstruction =
    | NoInstruction
    | InstructionText(text: string)
    | InstructionContent(parts: seq<Part>)
    | InstructionOther

  /**
   * The fields of `GenerateContentConfig` the adapters read. `toolMode` is
   * `toolConfig.functionCallingConfig.mode`, "" when absent.
   */
  datatype GenerationConfig = GenerationConfig(
    systemInstruction: SystemInstruction,
    tools: seq<Tool>,
    temperature: Option<real>,
    maxOutputTokens: Option<int>,
    topP: Option<real>,
    toolMode: string)

  // ---- OpenAI-style wire shapes ----

  /** A `tool_calls` entry; its `type` is always `function`. */
  datatype ToolCall = ToolCall(id: string, name: string, arguments: string)

  datatype Segment = TextSegment(text: string) | ImageSegment(url: string)

  datatype MessageContent = PlainText(text: string) | Segments(segments: seq<Segment>)

  datatype Message = Message(role: string, content: MessageContent, toolCalls: Option<seq<ToolCall>>, toolCallId: Option<string>)

  datatype OpenAITool = OpenAITool(name: string, description: string, parameters: Json)

  /** `choices[i].message` of a chat completion; a null `content` is "". */
  datatype ResponseMessage = ResponseMessage(content: string, toolCalls: seq<ToolCall>)

  datatype Choice = Choice(message: ResponseMessage, finishReason: string)

  datatype ChatCompletion = ChatCompletion(choices: seq<Choice>, usage: Usage)

  // ---- time and randomness ----

  /**
   * The values `Date.now()` and `Math.random()` produce on the n-th draw:
   * a millisecond clock and the digits of a random number in some radix.
   */
  datatype Entropy = Entropy(millis: nat -> nat, digits: nat -> string)
}
