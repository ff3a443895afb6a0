/**
 * Non-streaming chat-completion responses back to the canonical model:
 * `parseToolCallArgs` and `convertOpenAIResponseToGemini`.
 */
module ApiResponseConverter {
  import opened Wrappers
  import opened Text
  import opened Json
  import opened ContentModel

  /** The id given to a tool call that arrives without one: `call_<millis>_<random digits>`. */
  function SynthesizedCallId(e: Entropy, n: nat): (r: string)
    ensures StartsWith(r, "call_") && |r| > |"call_"|
  {
    "call_" + NatToString(e.millis(n)) + "_" + e.digits(n)
  }

  /** The argument text handed to `JSON.parse`: the arguments, or `{}` when empty, trimmed. */
  function ArgumentText(arguments: string): string {
    Trim(if arguments == "" then "{}" else arguments)
  }

  /**
   * `parseToolCallArgs`: keeps the name, keeps a non-empty id or synthesises
   * one from draw `n`, and parses the trimmed arguments; arguments that do
   * not parse give the empty object instead of an error.
   */
  function ParseToolCallArgs(tc: ToolCall, codec: JsonCodec, e: Entropy, n: nat): (r: FunctionCall)
    ensures r.name == tc.name
    ensures r.id != ""
    ensures tc.id != "" ==> r.id == tc.id
    ensures tc.id == "" ==> r.id == SynthesizedCallId(e, n)
    ensures r.args.Some?
    ensures codec.parse(ArgumentText(tc.arguments)).Failure? ==> r.args == Some(EmptyObject)
    ensures codec.parse(ArgumentText(tc.arguments)).Success? ==> r.args == Some(codec.parse(ArgumentText(tc.arguments)).value)
  {
    var id := if tc.id != "" then tc.id else SynthesizedCallId(e, n);
    match codec.parse(ArgumentText(tc.arguments))
    case Success(j) => FunctionCall(id, tc.name, Some(j))
    case Failure(_) => FunctionCall(id, tc.name, Some(EmptyObject))
  }

  /** Empty arguments are parsed as the text `{}`. */
  lemma EmptyArgumentsParseAsEmptyObjectText(tc: ToolCall, codec: JsonCodec, e: Entropy, n: nat)
    requires tc.arguments == ""
    ensures ArgumentText(tc.arguments) == "{}"
    ensures ParseToolCallArgs(tc, codec, e, n).args
      == Some(if codec.parse("{}").Success? then codec.parse("{}").value else EmptyObject)
  {
    TrimOfTrimmed("{}");
  }

  /** The tool calls of one message, the i-th drawing its fallback id from draw `n + i`. */
  function ParseToolCalls(tcs: seq<ToolCall>, codec: JsonCodec, e: Entropy, n: nat): (r: seq<FunctionCall>)
    ensures |r| == |tcs|
    ensures forall i :: 0 <= i < |tcs| ==> r[i] == ParseToolCallArgs(tcs[i], codec, e, n + i)
  {
    seq(|tcs|, i requires 0 <= i < |tcs| => ParseToolCallArgs(tcs[i], codec, e, n + i))
  }

  function NoChoicesMessage(apiName: string): string {
    apiName + "响应中没有找到choices字段"
  }

  /**
   * `convertOpenAIResponseToGemini`: the first choice becomes the single
   * `model` candidate whose parts are the text (if any) followed by one
   * function-call part per tool call, in order.
   */
  function ConvertOpenAIResponseToGemini(resp: ChatCompletion, apiName: string, codec: JsonCodec, e: Entropy, n: nat): (r: Result<Response>)
    ensures resp.choices == [] <==> r.Failure?
    ensures r.Failure? ==> r.error == NoChoicesMessage(apiName)
    ensures r.Success? ==>
      var m := resp.choices[0].message;
      var calls := ParseToolCalls(m.toolCalls, codec, e, n);
      && |r.value.candidates| == 1
      && r.value.candidates[0].content.role == "model"
      && r.value.candidates[0].finishReason == Some(resp.choices[0].finishReason)
      && r.value.candidates[0].content.parts == (if m.content != "" then [TextPart(m.content)] else []) + CallParts(calls)
      && (r.value.functionCalls.Some? <==> m.toolCalls != [])
      && (r.value.functionCalls.Some? ==> r.value.functionCalls.value == calls)
      && r.value.usage == Some(resp.usage)
  {
    if resp.choices == [] then Failure(NoChoicesMessage(apiName))
    else
      var choice := resp.choices[0];
      var textParts := if choice.message.content != "" then [TextPart(choice.message.content)] else [];
      if choice.message.toolCalls != [] then
        var calls := ParseToolCalls(choice.message.toolCalls, codec, e, n);
        Success(ModelResponse(textParts + CallParts(calls), Some(choice.finishReason), Some(calls), Some(resp.usage)))
      else
        Success(ModelResponse(textParts, Some(choice.finishReason), None, Some(resp.usage)))
  }

  /** Every call in a converted response has a non-empty id, and a present id is kept. */
  lemma ConvertedCallsKeepIds(resp: ChatCompletion, apiName: string, codec: JsonCodec, e: Entropy, n: nat)
    requires resp.choices != []
    ensures var r := ConvertOpenAIResponseToGemini(resp, apiName, codec, e, n);
      var tcs := resp.choices[0].message.toolCalls;
      r.Success? && (tcs != [] ==>
        && |r.value.functionCalls.value| == |tcs|
        && forall i :: 0 <= i < |tcs| ==>
             && r.value.functionCalls.value[i].id != ""
             && r.value.functionCalls.value[i].name == tcs[i].name
             && (tcs[i].id != "" ==> r.value.functionCalls.value[i].id == tcs[i].id))
  {
  }

  /** A null content and no tool calls give a candidate with no parts at all. */
  lemma NullContentNoCallsGivesNoParts(resp: ChatCompletion, apiName: string, codec: JsonCodec, e: Entropy, n: nat)
    requires resp.choices != []
    requires resp.choices[0].message == ResponseMessage("", [])
    ensures var r := ConvertOpenAIResponseToGemini(resp, apiName, codec, e, n);
      r.Success? && r.value.candidates[0].content.parts == [] && r.value.functionCalls.None?
  {
  }
}
