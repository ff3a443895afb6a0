/**
 * `BaseContentGenerator` (base.ts): the translation of a canonical
 * conversation into OpenAI-style chat messages and tools, the configuration
 * guard shared by every adapter, and the error text it throws.
 */
module BaseGenerator {
  import opened Wrappers
  import opened Text
  import opened Json
  import opened OrderedMap
  import opened ContentModel
  import ApiResponseConverter

  /** `BaseModelConfig`; an empty `apiKey` or `baseUrl` stands for an absent one. */
  datatype ModelConfig = ModelConfig(model: string, apiKey: string, baseUrl: string, customHeaders: Entries<string, string>)

  /** `OpenAIFormatResult`. */
  datatype OpenAIFormat = OpenAIFormat(messages: seq<Message>, tools: seq<OpenAITool>)

  // ---- system instruction ----

  /** A system-instruction part as text: its own text, or its JSON form. */
  function InstructionPartText(p: Part, codec: JsonCodec): string {
    if p.TextPart? then p.text else codec.stringify(PartJson(p))
  }

  /** The text a system instruction contributes: a string as is, a parts list joined with `\n`, anything else nothing. */
  function SystemText(si: SystemInstruction, codec: JsonCodec): string {
    match si
    case NoInstruction => ""
    case InstructionText(t) => t
    case InstructionContent(parts) =>
      Join(seq(|parts|, i requires 0 <= i < |parts| => InstructionPartText(parts[i], codec)), "\n")
    case InstructionOther => ""
  }

  /** The leading `system` message, present only when the instruction text is not blank. */
  function SystemMessages(si: SystemInstruction, codec: JsonCodec): (r: seq<Message>)
    ensures |r| <= 1
    ensures r != [] ==> r[0].role == "system" && r[0].content == PlainText(SystemText(si, codec))
  {
    if Trim(SystemText(si, codec)) != "" then [Message("system", PlainText(SystemText(si, codec)), None, None)] else []
  }

  /** A system message is sent exactly when the instruction text has a non-whitespace character. */
  lemma BlankInstructionIsDropped(si: SystemInstruction, codec: JsonCodec)
    ensures SystemMessages(si, codec) == []
      <==> forall i :: 0 <= i < |SystemText(si, codec)| ==> IsWhitespace(SystemText(si, codec)[i])
  {
    TrimSlice(SystemText(si, codec));
  }

  /** A parts-form instruction of text parts only is those texts joined with `\n`. */
  lemma TextInstructionJoinsParts(parts: seq<Part>, codec: JsonCodec)
    requires forall i :: 0 <= i < |parts| ==> parts[i].TextPart?
    ensures SystemText(InstructionContent(parts), codec)
      == Join(seq(|parts|, i requires 0 <= i < |parts| => parts[i].text), "\n")
  {
    assert seq(|parts|, i requires 0 <= i < |parts| => InstructionPartText(parts[i], codec))
      == seq(|parts|, i requires 0 <= i < |parts| => parts[i].text);
  }

  // ---- conversation contents ----

  /** `model` is sent as `assistant`; any other role is sent unchanged. */
  function RoleOf(role: string): string {
    if role == "model" then "assistant" else role
  }

  /** The function-call parts, in order. */
  function CallsOf(parts: seq<Part>): (r: seq<FunctionCall>)
    ensures |r| <= |parts|
  {
    if parts == [] then []
    else (if parts[0].FunctionCallPart? then [parts[0].call] else []) + CallsOf(parts[1..])
  }

  /** The function-response parts, in order. */
  function ResponsesOf(parts: seq<Part>): (r: seq<FunctionResponse>)
    ensures |r| <= |parts|
  {
    if parts == [] then []
    else (if parts[0].FunctionResponsePart? then [parts[0].functionResponse] else []) + ResponsesOf(parts[1..])
  }

  /** The texts of the text parts, in order. */
  function TextsOf(parts: seq<Part>): (r: seq<string>)
    ensures |r| <= |parts|
  {
    if parts == [] then []
    else (if parts[0].TextPart? then [parts[0].text] else []) + TextsOf(parts[1..])
  }

  /** The (mime type, data) of the inline-data parts, in order. */
  function InlineOf(parts: seq<Part>): (r: seq<(string, string)>)
    ensures |r| <= |parts|
  {
    if parts == [] then []
    else (if parts[0].InlineDataPart? then [(parts[0].mimeType, parts[0].data)] else []) + InlineOf(parts[1..])
  }

  /** A filter is empty exactly when no part has its kind. */
  lemma FiltersEmptyIff(parts: seq<Part>)
    ensures CallsOf(parts) == [] <==> forall i :: 0 <= i < |parts| ==> !parts[i].FunctionCallPart?
    ensures ResponsesOf(parts) == [] <==> forall i :: 0 <= i < |parts| ==> !parts[i].FunctionResponsePart?
    ensures InlineOf(parts) == [] <==> forall i :: 0 <= i < |parts| ==> !parts[i].InlineDataPart?
    ensures TextsOf(parts) == [] <==> forall i :: 0 <= i < |parts| ==> !parts[i].TextPart?
  {
    CallsEmptyIff(parts);
    ResponsesEmptyIff(parts);
    InlineEmptyIff(parts);
    TextsEmptyIff(parts);
  }

  lemma {:induction false} CallsEmptyIff(parts: seq<Part>)
    ensures CallsOf(parts) == [] <==> forall i :: 0 <= i < |parts| ==> !parts[i].FunctionCallPart?
  {
    if parts != [] {
      CallsEmptyIff(parts[1..]);
      assert forall i :: 1 <= i < |parts| ==> parts[i] == parts[1..][i - 1];
    }
  }

  lemma {:induction false} ResponsesEmptyIff(parts: seq<Part>)
    ensures ResponsesOf(parts) == [] <==> forall i :: 0 <= i < |parts| ==> !parts[i].FunctionResponsePart?
  {
    if parts != [] {
      ResponsesEmptyIff(parts[1..]);
      assert forall i :: 1 <= i < |parts| ==> parts[i] == parts[1..][i - 1];
    }
  }

  lemma {:induction false} InlineEmptyIff(parts: seq<Part>)
    ensures InlineOf(parts) == [] <==> forall i :: 0 <= i < |parts| ==> !parts[i].InlineDataPart?
  {
    if parts != [] {
      InlineEmptyIff(parts[1..]);
      assert forall i :: 1 <= i < |parts| ==> parts[i] == parts[1..][i - 1];
    }
  }

  lemma {:induction false} TextsEmptyIff(parts: seq<Part>)
    ensures TextsOf(parts) == [] <==> forall i :: 0 <= i < |parts| ==> !parts[i].TextPart?
  {
    if parts != [] {
      TextsEmptyIff(parts[1..]);
      assert forall i :: 1 <= i < |parts| ==> parts[i] == parts[1..][i - 1];
    }
  }

  /**
   * Each filter keeps the order of the parts: filtering a concatenation is
   * the concatenation of the filtered halves.
   */
  lemma {:induction false} FiltersAppend(a: seq<Part>, b: seq<Part>)
    ensures CallsOf(a + b) == CallsOf(a) + CallsOf(b)
    ensures ResponsesOf(a + b) == ResponsesOf(a) + ResponsesOf(b)
    ensures TextsOf(a + b) == TextsOf(a) + TextsOf(b)
    ensures InlineOf(a + b) == InlineOf(a) + InlineOf(b)
  {
    CallsAppend(a, b);
    ResponsesAppend(a, b);
    TextsAppend(a, b);
    InlineAppend(a, b);
  }

  lemma {:induction false} CallsAppend(a: seq<Part>, b: seq<Part>)
    ensures CallsOf(a + b) == CallsOf(a) + CallsOf(b)
  {
    if a == [] {
      assert a + b == b;
    } else {
      assert (a + b)[0] == a[0];
      assert (a + b)[1..] == a[1..] + b;
      CallsAppend(a[1..], b);
      var head := if a[0].FunctionCallPart? then [a[0].call] else [];
      assert CallsOf(a + b) == head + CallsOf(a[1..] + b);
      assert CallsOf(a) == head + CallsOf(a[1..]);
    }
  }

  lemma {:induction false} ResponsesAppend(a: seq<Part>, b: seq<Part>)
    ensures ResponsesOf(a + b) == ResponsesOf(a) + ResponsesOf(b)
  {
    if a == [] {
      assert a + b == b;
    } else {
      assert (a + b)[0] == a[0];
      assert (a + b)[1..] == a[1..] + b;
      ResponsesAppend(a[1..], b);
      var head := if a[0].FunctionResponsePart? then [a[0].functionResponse] else [];
      assert ResponsesOf(a + b) == head + ResponsesOf(a[1..] + b);
      assert ResponsesOf(a) == head + ResponsesOf(a[1..]);
    }
  }

  lemma {:induction false} TextsAppend(a: seq<Part>, b: seq<Part>)
    ensures TextsOf(a + b) == TextsOf(a) + TextsOf(b)
  {
    if a == [] {
      assert a + b == b;
    } else {
      assert (a + b)[0] == a[0];
      assert (a + b)[1..] == a[1..] + b;
      TextsAppend(a[1..], b);
      var head := if a[0].TextPart? then [a[0].text] else [];
      assert TextsOf(a + b) == head + TextsOf(a[1..] + b);
      assert TextsOf(a) == head + TextsOf(a[1..]);
    }
  }

  lemma {:induction false} InlineAppend(a: seq<Part>, b: seq<Part>)
    ensures InlineOf(a + b) == InlineOf(a) + InlineOf(b)
  {
    if a == [] {
      assert a + b == b;
    } else {
      assert (a + b)[0] == a[0];
      assert (a + b)[1..] == a[1..] + b;
      InlineAppend(a[1..], b);
      var head := if a[0].InlineDataPart? then [(a[0].mimeType, a[0].data)] else [];
      assert InlineOf(a + b) == head + InlineOf(a[1..] + b);
      assert InlineOf(a) == head + InlineOf(a[1..]);
    }
  }

  /** A single part contributes itself to the filter of its kind and nothing to the others. */
  lemma FiltersOfOne(p: Part)
    ensures CallsOf([p]) == (if p.FunctionCallPart? then [p.call] else [])
    ensures ResponsesOf([p]) == (if p.FunctionResponsePart? then [p.functionResponse] else [])
    ensures TextsOf([p]) == (if p.TextPart? then [p.text] else [])
    ensures InlineOf([p]) == (if p.InlineDataPart? then [(p.mimeType, p.data)] else [])
  {
    assert [p][1..] == [];
  }

  /** The calls kept are exactly those of the function-call parts. */
  lemma {:induction false} CallsMembers(parts: seq<Part>)
    ensures forall x ::
      (x in CallsOf(parts) <==> exists i :: 0 <= i < |parts| && parts[i].FunctionCallPart? && parts[i].call == x)
  {
    if parts != [] {
      CallsMembers(parts[1..]);
      assert forall i :: 1 <= i < |parts| ==> parts[i] == parts[1..][i - 1];
    }
  }

  /** The responses kept are exactly those of the function-response parts. */
  lemma {:induction false} ResponsesMembers(parts: seq<Part>)
    ensures forall x ::
      (x in ResponsesOf(parts) <==> exists i :: 0 <= i < |parts| && parts[i].FunctionResponsePart? && parts[i].functionResponse == x)
  {
    if parts != [] {
      ResponsesMembers(parts[1..]);
      assert forall i :: 1 <= i < |parts| ==> parts[i] == parts[1..][i - 1];
    }
  }

  /** The texts kept are exactly those of the text parts. */
  lemma {:induction false} TextsMembers(parts: seq<Part>)
    ensures forall x ::
      (x in TextsOf(parts) <==> exists i :: 0 <= i < |parts| && parts[i].TextPart? && parts[i].text == x)
  {
    if parts != [] {
      TextsMembers(parts[1..]);
      assert forall i :: 1 <= i < |parts| ==> parts[i] == parts[1..][i - 1];
    }
  }

  /** The (mime type, data) pairs kept are exactly those of the inline-data parts. */
  lemma {:induction false} InlineMembers(parts: seq<Part>)
    ensures forall x ::
      (x in InlineOf(parts) <==> exists i :: 0 <= i < |parts| && parts[i].InlineDataPart? && (parts[i].mimeType, parts[i].data) == x)
  {
    if parts != [] {
      InlineMembers(parts[1..]);
      assert forall i :: 1 <= i < |parts| ==> parts[i] == parts[1..][i - 1];
    }
  }

  /** The arguments a call sends: its `args` when truthy, otherwise `{}`. */
  function CallArgs(call: FunctionCall): Json {
    if call.args.Some? && Truthy(call.args.value) then call.args.value else EmptyObject
  }

  /**
   * The `index`-th entry of `tool_calls`: the call's id, or `call_<clock>_<index>`
   * with the clock read on draw `n`, and the JSON text of its arguments.
   */
  function ToolCallOf(call: FunctionCall, index: nat, codec: JsonCodec, e: Entropy, n: nat): (r: ToolCall)
    ensures r.id != "" && r.name == call.name
    ensures call.id != "" ==> r.id == call.id
    ensures call.id == "" ==> StartsWith(r.id, "call_")
  {
    var id := if call.id != "" then call.id else "call_" + NatToString(e.millis(n)) + "_" + NatToString(index);
    ToolCall(id, call.name, codec.stringify(CallArgs(call)))
  }

  /** The `tool_calls` of one message; call `i` reads the clock on draw `n + i`. */
  function ToolCallsOf(calls: seq<FunctionCall>, codec: JsonCodec, e: Entropy, n: nat): (r: seq<ToolCall>)
    ensures |r| == |calls|
    ensures forall i :: 0 <= i < |calls| ==> r[i] == ToolCallOf(calls[i], i, codec, e, n + i)
  {
    seq(|calls|, i requires 0 <= i < |calls| => ToolCallOf(calls[i], i, codec, e, n + i))
  }

  /** The `tool` message answering one function response. */
  function ResponseMessage(fr: FunctionResponse, codec: JsonCodec): Message {
    Message("tool", PlainText(codec.stringify(fr.response)), None, Some(fr.id))
  }

  function ResponseMessages(rs: seq<FunctionResponse>, codec: JsonCodec): (r: seq<Message>)
    ensures |r| == |rs|
  {
    seq(|rs|, i requires 0 <= i < |rs| => ResponseMessage(rs[i], codec))
  }

  /** `data:<mime>;base64,<data>`, the base64 form of a data URL (RFC 2397, section 3). */
  function DataUrl(mimeType: string, data: string): (r: string)
    ensures StartsWith(r, "data:") && EndsWith(r, data)
    ensures |r| == 5 + |mimeType| + 8 + |data|
    ensures r[5..5 + |mimeType|] == mimeType && r[5 + |mimeType|..5 + |mimeType| + 8] == ";base64,"
  {
    "data:" + mimeType + ";base64," + data
  }

  function TextSegments(texts: seq<string>): (r: seq<Segment>)
    ensures |r| == |texts|
  {
    seq(|texts|, i requires 0 <= i < |texts| => TextSegment(texts[i]))
  }

  function ImageSegments(inline: seq<(string, string)>): (r: seq<Segment>)
    ensures |r| == |inline|
  {
    seq(|inline|, i requires 0 <= i < |inline| => ImageSegment(DataUrl(inline[i].0, inline[i].1)))
  }

  /** Whether a content without calls or responses is sent in the array form. */
  predicate UsesArrayForm(parts: seq<Part>) {
    InlineOf(parts) != [] || |TextsOf(parts)| > 1
  }

  /**
   * The messages of one content. Exactly one branch applies, in the order
   * function calls, function responses, array form, plain text.
   */
  function ContentMessages(c: Content, codec: JsonCodec, e: Entropy, n: nat): seq<Message> {
    var role := RoleOf(c.role);
    var calls := CallsOf(c.parts);
    var texts := TextsOf(c.parts);
    if calls != [] then
      [Message(role, PlainText(Join(texts, "\n")), Some(ToolCallsOf(calls, codec, e, n)), None)]
    else if ResponsesOf(c.parts) != [] then
      ResponseMessages(ResponsesOf(c.parts), codec)
    else if UsesArrayForm(c.parts) then
      [Message(role, Segments(TextSegments(texts) + ImageSegments(InlineOf(c.parts))), None, None)]
    else if texts != [] then
      [Message(role, PlainText(Join(texts, "\n")), None, None)]
    else []
  }

  /** The messages of a conversation; each call-bearing content uses one clock draw per call. */
  function ContentsMessages(cs: seq<Content>, codec: JsonCodec, e: Entropy, n: nat): seq<Message>
    decreases |cs|
  {
    if cs == [] then []
    else
      var k := |cs| - 1;
      ContentsMessages(cs[..k], codec, e, n) + ContentMessages(cs[k], codec, e, n + CallDraws(cs[..k]))
  }

  /** How many clock draws the function calls of the contents take. */
  function CallDraws(cs: seq<Content>): nat
    decreases |cs|
  {
    if cs == [] then 0 else CallDraws(cs[..|cs| - 1]) + |CallsOf(cs[|cs| - 1].parts)|
  }

  /** One more content: its messages follow, with the clock moved on by the earlier calls. */
  lemma ContentsExtend(cs: seq<Content>, i: nat, codec: JsonCodec, e: Entropy, n: nat)
    requires i < |cs|
    ensures ContentsMessages(cs[..i + 1], codec, e, n)
      == ContentsMessages(cs[..i], codec, e, n) + ContentMessages(cs[i], codec, e, n + CallDraws(cs[..i]))
    ensures CallDraws(cs[..i + 1]) == CallDraws(cs[..i]) + |CallsOf(cs[i].parts)|
  {
    assert cs[..i + 1][..i] == cs[..i];
    assert cs[..i + 1][i] == cs[i];
  }

  /** How many messages a content yields, independently of their form. */
  function MessageCount(c: Content): nat {
    if CallsOf(c.parts) != [] then 1
    else if ResponsesOf(c.parts) != [] then |ResponsesOf(c.parts)|
    else if InlineOf(c.parts) != [] || TextsOf(c.parts) != [] then 1
    else 0
  }

  function TotalMessageCount(cs: seq<Content>): nat {
    if cs == [] then 0 else TotalMessageCount(cs[..|cs| - 1]) + MessageCount(cs[|cs| - 1])
  }

  /** The number of messages is the sum over contents of one, the number of responses, or zero. */
  lemma {:induction false} MessageCountIsExact(cs: seq<Content>, codec: JsonCodec, e: Entropy, n: nat)
    ensures |ContentsMessages(cs, codec, e, n)| == TotalMessageCount(cs)
    decreases |cs|
  {
    if cs != [] {
      var k := |cs| - 1;
      MessageCountIsExact(cs[..k], codec, e, n);
      ContentMessageCount(cs[k], codec, e, n + CallDraws(cs[..k]));
    }
  }

  /** A content yields exactly its counted messages. */
  lemma ContentMessageCount(c: Content, codec: JsonCodec, e: Entropy, n: nat)
    ensures |ContentMessages(c, codec, e, n)| == MessageCount(c)
  {
  }

  /** Every message of a content carries the mapped role, except the `tool` answers to responses. */
  lemma ContentRoles(c: Content, codec: JsonCodec, e: Entropy, n: nat)
    ensures var r := ContentMessages(c, codec, e, n);
      forall i :: 0 <= i < |r| ==>
        r[i].role == (if CallsOf(c.parts) == [] && ResponsesOf(c.parts) != [] then "tool" else RoleOf(c.role))
  {
  }

  /** A content with function calls gives one message holding every call, in part order, and its texts. */
  lemma CallContentMessage(c: Content, codec: JsonCodec, e: Entropy, n: nat)
    requires CallsOf(c.parts) != []
    ensures var r := ContentMessages(c, codec, e, n); var calls := CallsOf(c.parts);
      && |r| == 1
      && r[0].content == PlainText(Join(TextsOf(c.parts), "\n"))
      && r[0].toolCallId.None?
      && r[0].toolCalls.Some? && |r[0].toolCalls.value| == |calls|
      && forall i :: 0 <= i < |calls| ==>
           && r[0].toolCalls.value[i].name == calls[i].name
           && r[0].toolCalls.value[i].id != ""
           && (calls[i].id != "" ==> r[0].toolCalls.value[i].id == calls[i].id)
           && r[0].toolCalls.value[i].arguments == codec.stringify(CallArgs(calls[i]))
  {
  }

  /** Without calls, function responses give one `tool` message each, in order, answering that response's id. */
  lemma ResponseContentMessages(c: Content, codec: JsonCodec, e: Entropy, n: nat)
    requires CallsOf(c.parts) == [] && ResponsesOf(c.parts) != []
    ensures var r := ContentMessages(c, codec, e, n); var rs := ResponsesOf(c.parts);
      && |r| == |rs|
      && forall i :: 0 <= i < |rs| ==>
           && r[i].role == "tool"
           && r[i].toolCallId == Some(rs[i].id)
           && r[i].content == PlainText(codec.stringify(rs[i].response))
           && r[i].toolCalls.None?
  {
  }

  /**
   * The array form is used exactly when there are no calls or responses and
   * there is inline data or more than one text; its texts come first, then
   * one data URL per inline part.
   */
  lemma ArrayFormIff(c: Content, codec: JsonCodec, e: Entropy, n: nat)
    ensures var r := ContentMessages(c, codec, e, n);
      (|r| == 1 && r[0].content.Segments?)
        <==> (CallsOf(c.parts) == [] && ResponsesOf(c.parts) == [] && UsesArrayForm(c.parts))
    ensures var r := ContentMessages(c, codec, e, n);
      var texts := TextsOf(c.parts); var inline := InlineOf(c.parts);
      |r| == 1 && r[0].content.Segments? ==>
        && |r[0].content.segments| == |texts| + |inline|
        && (forall i :: 0 <= i < |texts| ==> r[0].content.segments[i] == TextSegment(texts[i]))
        && (forall j :: 0 <= j < |inline| ==>
              r[0].content.segments[|texts| + j] == ImageSegment(DataUrl(inline[j].0, inline[j].1)))
  {
    var r := ContentMessages(c, codec, e, n);
    if CallsOf(c.parts) == [] && ResponsesOf(c.parts) != [] {
      assert r[0] == ResponseMessage(ResponsesOf(c.parts)[0], codec);
    }
  }

  /** A content made of a single text part is sent as that plain string. */
  lemma SingleTextIsPlain(c: Content, t: string, codec: JsonCodec, e: Entropy, n: nat)
    requires c.parts == [TextPart(t)]
    ensures ContentMessages(c, codec, e, n) == [Message(RoleOf(c.role), PlainText(t), None, None)]
  {
    assert CallsOf(c.parts) == [] && ResponsesOf(c.parts) == [] && InlineOf(c.parts) == [];
    assert TextsOf(c.parts) == [t];
  }

  /** A content with no call, response, text or inline part gives no message at all. */
  lemma EmptyContentIsSkipped(c: Content, codec: JsonCodec, e: Entropy, n: nat)
    requires forall i :: 0 <= i < |c.parts| ==> c.parts[i].OtherPart?
    ensures ContentMessages(c, codec, e, n) == []
  {
    FiltersEmptyIff(c.parts);
  }

  /**
   * A tool call sent by this translation comes back from `parseToolCallArgs`
   * with its name, its id when it had one, and its arguments, whenever the
   * codec reads back the JSON text it wrote.
   */
  lemma ToolCallRoundTrip(call: FunctionCall, index: nat, codec: JsonCodec, e: Entropy, n: nat, e2: Entropy, m: nat)
    requires codec.parse(ApiResponseConverter.ArgumentText(codec.stringify(CallArgs(call)))) == Success(CallArgs(call))
    ensures var back := ApiResponseConverter.ParseToolCallArgs(ToolCallOf(call, index, codec, e, n), codec, e2, m);
      && back.name == call.name
      && back.args == Some(CallArgs(call))
      && (call.id != "" ==> back.id == call.id)
      && (call.args.Some? && Truthy(call.args.value) ==> back.args == call.args)
  {
  }

  // ---- tools ----

  /** Every declaration of every tool group that has a declaration array, in order. */
  function Declarations(tools: seq<Tool>): (r: seq<FunctionDeclaration>)
    decreases |tools|
  {
    if tools == [] then []
    else Declarations(tools[..|tools| - 1]) + tools[|tools| - 1].functionDeclarations.GetOr([])
  }

  /** `convertToOpenAITools`: one tool per declaration, with the defaults `unknown_function`, `''` and `{}`. */
  function ConvertToOpenAITools(decls: seq<FunctionDeclaration>): (r: seq<OpenAITool>)
    ensures |r| == |decls|
    ensures forall i :: 0 <= i < |decls| ==>
      && r[i].name != ""
      && (decls[i].name != "" ==> r[i].name == decls[i].name)
      && (decls[i].name == "" ==> r[i].name == "unknown_function")
      && r[i].description == decls[i].description
      && (decls[i].parameters.Some? && Truthy(decls[i].parameters.value) ==> r[i].parameters == decls[i].parameters.value)
      && (decls[i].parameters.None? ==> r[i].parameters == EmptyObject)
  {
    seq(|decls|, i requires 0 <= i < |decls| =>
      OpenAITool(
        if decls[i].name != "" then decls[i].name else "unknown_function",
        decls[i].description,
        if decls[i].parameters.Some? && Truthy(decls[i].parameters.value) then decls[i].parameters.value else EmptyObject))
  }

  /** Flattening keeps every group's declarations, in group order. */
  lemma {:induction false} DeclarationsAppend(a: seq<Tool>, b: seq<Tool>)
    ensures Declarations(a + b) == Declarations(a) + Declarations(b)
    decreases |b|
  {
    if b == [] {
      assert a + b == a;
    } else {
      var b' := b[..|b| - 1];
      assert (a + b)[..|a + b| - 1] == a + b';
      DeclarationsAppend(a, b');
    }
  }

  /** The result of `convertToOpenAIFormat`. */
  function OpenAIFormatOf(contents: seq<Content>, config: GenerationConfig, codec: JsonCodec, e: Entropy, n: nat): OpenAIFormat {
    OpenAIFormat(
      SystemMessages(config.systemInstruction, codec) + ContentsMessages(contents, codec, e, n),
      ConvertToOpenAITools(Declarations(config.tools)))
  }

  /** The whole translation sends the system message (if any) and then exactly the counted messages. */
  lemma FormatMessageCount(contents: seq<Content>, config: GenerationConfig, codec: JsonCodec, e: Entropy, n: nat)
    ensures |OpenAIFormatOf(contents, config, codec, e, n).messages|
      == (if Trim(SystemText(config.systemInstruction, codec)) != "" then 1 else 0) + TotalMessageCount(contents)
  {
    MessageCountIsExact(contents, codec, e, n);
  }

  /** The messages of one content, built as the loop body of `convertToOpenAIFormat` builds them. */
  method ConvertContent(c: Content, codec: JsonCodec, e: Entropy, n: nat) returns (out: seq<Message>)
    ensures out == ContentMessages(c, codec, e, n)
  {
    var role := RoleOf(c.role);
    var calls := CallsOf(c.parts);
    var responses := ResponsesOf(c.parts);
    var texts := TextsOf(c.parts);
    var inline := InlineOf(c.parts);
    out := [];
    if calls != [] {
      out := [Message(role, PlainText(Join(texts, "\n")), Some(ToolCallsOf(calls, codec, e, n)), None)];
    } else if responses != [] {
      out := ConvertResponses(responses, codec);
    } else if inline != [] || |texts| > 1 {
      var segments := BuildSegments(texts, inline);
      out := [Message(role, Segments(segments), None, None)];
    } else if texts != [] {
      out := [Message(role, PlainText(Join(texts, "\n")), None, None)];
    }
  }

  /** The loop pushing one `tool` message per function response. */
  method ConvertResponses(responses: seq<FunctionResponse>, codec: JsonCodec) returns (out: seq<Message>)
    ensures out == ResponseMessages(responses, codec)
  {
    out := [];
    for k := 0 to |responses|
      invariant |out| == k
      invariant forall j :: 0 <= j < k ==> out[j] == ResponseMessage(responses[j], codec)
    {
      out := out + [ResponseMessage(responses[k], codec)];
    }
  }

  /** The loops filling `contentArray`: every text segment, then every image segment. */
  method BuildSegments(texts: seq<string>, inline: seq<(string, string)>) returns (segments: seq<Segment>)
    ensures segments == TextSegments(texts) + ImageSegments(inline)
  {
    segments := [];
    for k := 0 to |texts|
      invariant segments == TextSegments(texts[..k])
    {
      assert TextSegments(texts[..k + 1]) == TextSegments(texts[..k]) + [TextSegment(texts[k])];
      segments := segments + [TextSegment(texts[k])];
    }
    assert texts[..|texts|] == texts;
    for k := 0 to |inline|
      invariant segments == TextSegments(texts) + ImageSegments(inline[..k])
    {
      assert ImageSegments(inline[..k + 1])
        == ImageSegments(inline[..k]) + [ImageSegment(DataUrl(inline[k].0, inline[k].1))];
      segments := segments + [ImageSegment(DataUrl(inline[k].0, inline[k].1))];
    }
    assert inline[..|inline|] == inline;
  }

  /**
   * `convertToOpenAIFormat`: the system message, then the messages of each
   * content in order, then the tools of every declaration group.
   */
  method ConvertToOpenAIFormat(contents: seq<Content>, config: GenerationConfig, codec: JsonCodec, e: Entropy, n: nat)
    returns (r: OpenAIFormat)
    ensures r == OpenAIFormatOf(contents, config, codec, e, n)
  {
    var messages := SystemMessages(config.systemInstruction, codec);
    var converted := ConvertContents(contents, codec, e, n);
    messages := messages + converted;
    var declarations := CollectDeclarations(config.tools);
    r := OpenAIFormat(messages, ConvertToOpenAITools(declarations));
  }

  /** The loop over the contents; each call part reads the clock once. */
  method ConvertContents(contents: seq<Content>, codec: JsonCodec, e: Entropy, n: nat) returns (messages: seq<Message>)
    ensures messages == ContentsMessages(contents, codec, e, n)
  {
    messages := [];
    var draw: nat := n;
    for i := 0 to |contents|
      invariant messages == ContentsMessages(contents[..i], codec, e, n)
      invariant draw == n + CallDraws(contents[..i])
    {
      var step := ConvertContent(contents[i], codec, e, draw);
      ContentsExtend(contents, i, codec, e, n);
      messages := messages + step;
      draw := draw + |CallsOf(contents[i].parts)|;
    }
    assert contents[..|contents|] == contents;
  }

  /** The loop gathering `allDeclarations` from every tool group, in order. */
  method CollectDeclarations(tools: seq<Tool>) returns (declarations: seq<FunctionDeclaration>)
    ensures declarations == Declarations(tools)
  {
    declarations := [];
    for t := 0 to |tools|
      invariant declarations == Declarations(tools[..t])
    {
      assert tools[..t + 1][..t] == tools[..t];
      if tools[t].functionDeclarations.Some? {
        declarations := declarations + tools[t].functionDeclarations.value;
      }
    }
    assert tools[..|tools|] == tools;
  }

  // ---- configuration guard and error text ----

  const EmptyModelError := "模型名称不能为空"
  const EmptyKeyError := "API Key 不能为空"

  /** `validateConfig`: the error thrown, if any; the model is checked before the key. */
  function ValidateConfig(config: ModelConfig): (r: Option<string>)
    ensures r.None? <==> config.model != "" && config.apiKey != ""
    ensures config.model == "" ==> r == Some(EmptyModelError)
    ensures config.model != "" && config.apiKey == "" ==> r == Some(EmptyKeyError)
  {
    if config.model == "" then Some(EmptyModelError)
    else if config.apiKey == "" then Some(EmptyKeyError)
    else None
  }

  function FailurePrefix(model: string, operation: string): string {
    model + " " + operation + " 操作失败: "
  }

  /** `handleHttpError`: the message of the error it throws, naming model and operation before the cause. */
  function HandleHttpError(model: string, operation: string, message: string): (r: string)
    ensures StartsWith(r, model + " " + operation + " ")
    ensures |r| == |FailurePrefix(model, operation)| + |message|
    ensures r[|FailurePrefix(model, operation)|..] == message
  {
    FailurePrefix(model, operation) + message
  }
}
