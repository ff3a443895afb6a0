/**
 * `processStreamResponse`: the reconstruction of canonical responses from an
 * OpenAI-style chat-completion event stream, and the older copy of the same
 * loop inside the Ark adapter (the `ArkInline` dialect).
 *
 * The framing is a simplified subset of server-sent events (section 9.2.4
 * of the WHATWG HTML Living Standard): the stream is cut at '\n', each
 * complete line is trimmed, `data: ` introduces a JSON chunk and
 * `data: [DONE]` is skipped. The machine keeps the text after the last
 * newline, the content received so far and an insertion-ordered map from
 * integer keys to partial tool calls ("slots").
 *
 * The byte reader is a sequence of already-decoded pieces, each of which is
 * either text or the error a read raised. `JSON.parse` of a chunk is the
 * `parseChunk` parameter, whose `None` stands for any exception the
 * per-line `try` swallows.
 */
module StreamResponseProcessor {
  import opened Wrappers
  import opened Text
  import opened Json
  import opened OrderedMap
  import opened ContentModel
  import opened ApiResponseConverter

  // ---- configuration and wire chunks ----

  /** `StreamProcessorConfig`; an empty pattern or prefix means "not configured". */
  datatype ProcessorConfig = ProcessorConfig(apiName: string, finishDataPattern: string, dataPrefix: string)

  function FinishPattern(c: ProcessorConfig): string {
    if c.finishDataPattern != "" then c.finishDataPattern else "data: [DONE]"
  }

  function DataPrefix(c: ProcessorConfig): string {
    if c.dataPrefix != "" then c.dataPrefix else "data: "
  }

  /** One `tool_calls` fragment of a delta; "" stands for an absent string field. */
  datatype ToolCallDelta = ToolCallDelta(index: Option<int>, id: string, kind: string, name: string, arguments: string)

  /** `choices[0].delta`; an absent `tool_calls` array behaves as an empty one. */
  datatype Delta = Delta(content: string, toolCalls: seq<ToolCallDelta>)

  /** A streamed choice; `finishReason` is "" for `null`. */
  datatype ChunkChoice = ChunkChoice(delta: Delta, finishReason: string)

  datatype StreamChunk = StreamChunk(choices: seq<ChunkChoice>)

  /** The shared processor, or the copy inlined in the Ark adapter. */
  datatype Dialect = Shared | ArkInline

  /** Everything the loop reads besides the stream itself. */
  datatype Setup = Setup(
    dialect: Dialect,
    config: ProcessorConfig,
    parseChunk: string -> Option<StreamChunk>,
    codec: JsonCodec,
    entropy: Entropy)

  // ---- state ----

  /** A partial tool call; "" stands for a field not yet seen. */
  datatype Slot = Slot(id: string, kind: string, name: string, arguments: string)

  const EmptySlot: Slot := Slot("", "", "", "")

  type Slots = Entries<int, Slot>

  /** The map of partial tool calls and the content accumulated so far. */
  datatype StreamState = StreamState(slots: Slots, accumulated: string)

  const Initial: StreamState := StreamState([], "")

  /** What one line (or several) produced: responses, the new state, and whether the generator returned. */
  datatype LineResult = LineResult(out: seq<Response>, state: StreamState, finished: bool)

  /** What one `reader.read()` delivered. */
  datatype ReadStep = Piece(text: string) | ReadError(message: string)

  /** All responses yielded, and the error the generator rethrew, if any. */
  datatype Outcome = Outcome(responses: seq<Response>, failure: Option<string>)

  // ---- responses ----

  /** The response yielded for a content delta. */
  function TextResponse(text: string): Response {
    ModelResponse([TextPart(text)], None, None, None)
  }

  /** The last response: `lead` parts, then one function-call part per call, and the same calls as `functionCalls`. */
  function FinalResponse(lead: seq<Part>, calls: seq<FunctionCall>, finishReason: string): Response {
    ModelResponse(lead + CallParts(calls), Some(finishReason), Some(calls), None)
  }

  // ---- slot map operations ----

  /** Folds one fragment into a slot: id and type are replaced when given, name and arguments grow. */
  function Merge(s: Slot, d: ToolCallDelta): Slot {
    Slot(if d.id != "" then d.id else s.id,
         if d.kind != "" then d.kind else s.kind,
         s.name + d.name,
         s.arguments + d.arguments)
  }

  function MaxKey(m: Slots): (r: int)
    ensures forall i :: 0 <= i < |m| ==> m[i].0 <= r
  {
    if m == [] then 0
    else
      var rest := MaxKey(m[1..]);
      if m[0].0 > rest then m[0].0 else rest
  }

  /** The smallest key at or above `k` that holds no slot. */
  function NextFree(m: Slots, k: int): (r: int)
    ensures k <= r && !Has(m, r)
    ensures forall j :: k <= j < r ==> Has(m, j)
    decreases MaxKey(m) + 1 - k
  {
    if Has(m, k) then NextFree(m, k + 1) else k
  }

  /** Two non-empty names that differ: the condition for moving a fragment elsewhere. */
  predicate NameClash(existing: Slot, d: ToolCallDelta) {
    existing.name != "" && d.name != "" && existing.name != d.name
  }

  /** The key a fragment is merged into: its index (0 when absent), moved past a clashing slot when `reindex`. */
  function RouteKey(m: Slots, d: ToolCallDelta, reindex: bool): int {
    var index := d.index.GetOr(0);
    if reindex && Has(m, index) && NameClash(Get(m, index), d) then NextFree(m, index) else index
  }

  function SlotAt(m: Slots, k: int): Slot {
    if Has(m, k) then Get(m, k) else EmptySlot
  }

  function ApplyDelta(m: Slots, d: ToolCallDelta, reindex: bool): Slots {
    var k := RouteKey(m, d, reindex);
    Set(m, k, Merge(SlotAt(m, k), d))
  }

  /** The fragments of one delta, merged in order. */
  function ApplyDeltas(m: Slots, ds: seq<ToolCallDelta>, reindex: bool): Slots
    decreases |ds|
  {
    if ds == [] then m else ApplyDeltas(ApplyDelta(m, ds[0], reindex), ds[1..], reindex)
  }

  /** A fallback id: the random digits followed by the clock, as the processor builds it. */
  function StreamCallId(e: Entropy, n: nat): (r: string)
    ensures r != ""
  {
    e.digits(n) + NatToString(e.millis(n))
  }

  /** The slot a batch entry becomes: id and type defaulted, name and arguments as sent. */
  function BatchSlot(d: ToolCallDelta, e: Entropy, n: nat): Slot {
    Slot(if d.id != "" then d.id else StreamCallId(e, n),
         if d.kind != "" then d.kind else "function",
         d.name,
         d.arguments)
  }

  /**
   * The batch rule: entry `i` is stored at the map's size at that moment plus
   * `i`, without merging (the size is read again for every entry).
   */
  function ApplyBatch(m: Slots, ds: seq<ToolCallDelta>, e: Entropy, i: nat): Slots
    decreases |ds|
  {
    if ds == [] then m
    else ApplyBatch(Set(m, |m| + i, BatchSlot(ds[0], e, i)), ds[1..], e, i + 1)
  }

  /** Whether the whole delta is handled by the batch rule. */
  predicate IsBatch(dialect: Dialect, c: ChunkChoice) {
    dialect == Shared && c.finishReason == "tool_calls" && |c.delta.toolCalls| > 1
  }

  // ---- final tool-call emission ----

  /** The slots the final response reports: those with a name, and with an id too when `needId`. */
  function Selected(vs: seq<Slot>, needId: bool): (r: seq<Slot>)
    ensures |r| <= |vs|
    ensures forall j :: 0 <= j < |r| ==> r[j].name != "" && (needId ==> r[j].id != "")
  {
    if vs == [] then []
    else
      var rest := Selected(vs[1..], needId);
      if vs[0].name != "" && (!needId || vs[0].id != "") then [vs[0]] + rest else rest
  }

  /** The call reported for a named slot: `parseToolCallArgs` on its id (or a fresh one) and its arguments (or `{}`). */
  function FinalCall(s: Slot, codec: JsonCodec, e: Entropy, n: nat): FunctionCall {
    ParseToolCallArgs(
      ToolCall(if s.id != "" then s.id else StreamCallId(e, n), s.name, if s.arguments != "" then s.arguments else "{}"),
      codec, e, n)
  }

  /** The calls of the final response of the shared processor, in slot insertion order. */
  function FinalCalls(vs: seq<Slot>, codec: JsonCodec, e: Entropy, n: nat): (r: seq<FunctionCall>)
    ensures var named := Selected(vs, false);
      && |r| == |named|
      && forall j :: 0 <= j < |r| ==>
           && r[j].name == named[j].name
           && (named[j].id != "" ==> r[j].id == named[j].id)
           && (named[j].id == "" ==> r[j].id == StreamCallId(e, n + j))
           && (codec.parse(ArgumentText(named[j].arguments)).Success? ==>
                 r[j].args == Some(codec.parse(ArgumentText(named[j].arguments)).value))
           && (codec.parse(ArgumentText(named[j].arguments)).Failure? ==> r[j].args == Some(EmptyObject))
  {
    var named := Selected(vs, false);
    seq(|named|, j requires 0 <= j < |named| => FinalCall(named[j], codec, e, n + j))
  }

  /** The argument text the Ark copy parses: the arguments, or `{}`, untrimmed. */
  function ArkArguments(s: Slot): string {
    if s.arguments != "" then s.arguments else "{}"
  }

  /**
   * The calls of the Ark copy's final response; `None` when some argument
   * text fails to parse, which throws inside the per-line `try`.
   */
  function ArkCalls(sel: seq<Slot>, codec: JsonCodec): (r: Option<seq<FunctionCall>>)
    ensures r.Some? <==> forall j :: 0 <= j < |sel| ==> codec.parse(ArkArguments(sel[j])).Success?
    ensures r.Some? ==> |r.value| == |sel| && forall j :: 0 <= j < |sel| ==>
      r.value[j] == FunctionCall(sel[j].id, sel[j].name, Some(codec.parse(ArkArguments(sel[j])).value))
  {
    if sel == [] then Some([])
    else match codec.parse(ArkArguments(sel[0]))
      case Failure(_) => None
      case Success(j) =>
        match ArkCalls(sel[1..], codec)
        case None => None
        case Some(rest) => Some([FunctionCall(sel[0].id, sel[0].name, Some(j))] + rest)
  }

  // ---- one chunk, one line, many lines ----

  /** The response yielded for the content of a choice, if it has any. */
  function ContentOut(c: ChunkChoice): seq<Response> {
    if c.delta.content != "" then [TextResponse(c.delta.content)] else []
  }

  /** The state once the content and the tool-call fragments of a choice are taken in. */
  function AfterDelta(setup: Setup, c: ChunkChoice, st: StreamState): StreamState {
    var d := c.delta;
    var slots := if IsBatch(setup.dialect, c) then ApplyBatch(st.slots, d.toolCalls, setup.entropy, 0)
                 else ApplyDeltas(st.slots, d.toolCalls, setup.dialect == Shared);
    StreamState(slots, st.accumulated + d.content)
  }

  /** The finish check, on the state `next` that the choice's delta produced. */
  function FinishChoice(setup: Setup, c: ChunkChoice, out: seq<Response>, next: StreamState): LineResult {
    if c.finishReason == "" then LineResult(out, next, false)
    else if next.slots == [] then LineResult(out, next, true)
    else if setup.dialect == Shared then
      var draws := if IsBatch(setup.dialect, c) then |c.delta.toolCalls| else 0;
      var calls := FinalCalls(Values(next.slots), setup.codec, setup.entropy, draws);
      LineResult(out + [FinalResponse([], calls, c.finishReason)], next, true)
    else
      match ArkCalls(Selected(Values(next.slots), true), setup.codec)
      case None => LineResult(out, next, false)
      case Some(calls) =>
        var lead := if next.accumulated != "" then [TextPart(next.accumulated)] else [];
        LineResult(out + [FinalResponse(lead, calls, c.finishReason)], next, true)
  }

  /** Everything one parsed choice does: content, tool-call fragments, then the finish check. */
  function ProcessChoice(setup: Setup, c: ChunkChoice, st: StreamState): LineResult {
    FinishChoice(setup, c, ContentOut(c), AfterDelta(setup, c, st))
  }

  /** One complete line of the stream. */
  function ProcessLine(setup: Setup, line: string, st: StreamState): LineResult {
    var trimmed := Trim(line);
    var prefix := DataPrefix(setup.config);
    if trimmed == "" || trimmed == FinishPattern(setup.config) || !StartsWith(trimmed, prefix) then
      LineResult([], st, false)
    else
      match setup.parseChunk(trimmed[|prefix|..])
      case None => LineResult([], st, false)
      case Some(chunk) =>
        if chunk.choices == [] then LineResult([], st, false)
        else ProcessChoice(setup, chunk.choices[0], st)
  }

  /** Complete lines in order, up to the one that ends the generator. */
  function ProcessLines(setup: Setup, lines: seq<string>, st: StreamState): LineResult
    decreases |lines|
  {
    if lines == [] then LineResult([], st, false)
    else
      var first := ProcessLine(setup, lines[0], st);
      if first.finished then first
      else
        var rest := ProcessLines(setup, lines[1..], first.state);
        LineResult(first.out + rest.out, rest.state, rest.finished)
  }

  /**
   * The whole generator from a buffer and a state: each piece is appended to
   * the buffer, every complete line is processed, and the text after the
   * last newline is kept; a read error ends it with that error, and the end
   * of the stream ends it silently with whatever is still buffered.
   */
  function Run(setup: Setup, steps: seq<ReadStep>, buffer: string, st: StreamState): Outcome
    decreases |steps|
  {
    if steps == [] then Outcome([], None)
    else match steps[0]
      case ReadError(message) => Outcome([], Some(message))
      case Piece(text) =>
        var lines := Split(buffer + text, '\n');
        var r := ProcessLines(setup, lines[..|lines| - 1], st);
        if r.finished then Outcome(r.out, None)
        else
          var rest := Run(setup, steps[1..], lines[|lines| - 1], r.state);
          Outcome(r.out + rest.responses, rest.failure)
  }

  /** One piece read: its complete lines are processed and the generator goes on unless they finished it. */
  lemma RunPiece(setup: Setup, text: string, steps: seq<ReadStep>, buffer: string, st: StreamState)
    ensures var lines := Split(buffer + text, '\n');
      var r := ProcessLines(setup, lines[..|lines| - 1], st);
      var rest := Run(setup, steps, lines[|lines| - 1], r.state);
      Run(setup, [Piece(text)] + steps, buffer, st)
        == if r.finished then Outcome(r.out, None) else Outcome(r.out + rest.responses, rest.failure)
  {
    assert ([Piece(text)] + steps)[1..] == steps;
  }

  // ---- properties ----

  /** Text with no newline in it is only buffered; what is still buffered when the stream ends is dropped. */
  lemma UnterminatedTextIsNotProcessed(setup: Setup, text: string, steps: seq<ReadStep>, buffer: string, st: StreamState)
    requires '\n' !in buffer + text
    ensures Run(setup, [Piece(text)] + steps, buffer, st) == Run(setup, steps, buffer + text, st)
    ensures Run(setup, [], buffer + text, st) == Outcome([], None)
  {
    SplitFirst(buffer + text, '\n');
    RunPiece(setup, text, steps, buffer, st);
    var lines := Split(buffer + text, '\n');
    assert lines[..|lines| - 1] == [];
  }

  /** A read error ends the generator with that error and nothing more is yielded. */
  lemma ReadErrorPropagates(setup: Setup, message: string, steps: seq<ReadStep>, buffer: string, st: StreamState)
    ensures Run(setup, [ReadError(message)] + steps, buffer, st) == Outcome([], Some(message))
  {
    assert ([ReadError(message)] + steps)[0] == ReadError(message);
  }

  /**
   * Blank lines, the finish pattern, lines without the data prefix, lines
   * whose JSON does not parse and chunks without a choice yield nothing and
   * change nothing.
   */
  lemma SkippedLinesChangeNothing(setup: Setup, line: string, st: StreamState)
    requires var t := Trim(line); var prefix := DataPrefix(setup.config);
      || t == "" || t == FinishPattern(setup.config) || !StartsWith(t, prefix)
      || setup.parseChunk(t[|prefix|..]).None?
      || setup.parseChunk(t[|prefix|..]).value.choices == []
    ensures ProcessLine(setup, line, st) == LineResult([], st, false)
  {
  }

  /** A choice with content yields exactly one text response for it, first, and the accumulator grows by exactly that text. */
  lemma ContentDeltaYieldsOneTextResponse(setup: Setup, c: ChunkChoice, st: StreamState)
    ensures var r := ProcessChoice(setup, c, st);
      && r.state.accumulated == st.accumulated + c.delta.content
      && (c.delta.content != "" ==> |r.out| >= 1 && r.out[0] == TextResponse(c.delta.content))
      && (c.delta.content == "" && c.finishReason == "" ==> r.out == [])
      && (c.delta.content != "" && c.finishReason == "" ==> r.out == [TextResponse(c.delta.content)] && !r.finished)
  {
  }

  /** The shape of a text response: one `model` candidate with the text as its only part and no finish reason. */
  lemma TextResponseShape(text: string)
    ensures var r := TextResponse(text);
      && |r.candidates| == 1 && r.candidates[0].content.role == "model"
      && r.candidates[0].content.parts == [TextPart(text)]
      && r.candidates[0].finishReason.None? && r.functionCalls.None? && r.usage.None?
  {
  }

  /**
   * The merge rule: the fragment's slot gets name and arguments extended and
   * id and type replaced only when the fragment has them; a new slot is
   * appended at the end of the insertion order, an existing one keeps its
   * place; no other slot changes.
   */
  lemma MergeRule(m: Slots, d: ToolCallDelta, reindex: bool)
    requires DistinctKeys(m)
    ensures var k := RouteKey(m, d, reindex); var prev := SlotAt(m, k); var r := ApplyDelta(m, d, reindex);
      && DistinctKeys(r)
      && Has(r, k)
      && Get(r, k).name == prev.name + d.name
      && Get(r, k).arguments == prev.arguments + d.arguments
      && Get(r, k).id == (if d.id != "" then d.id else prev.id)
      && Get(r, k).kind == (if d.kind != "" then d.kind else prev.kind)
      && (Has(m, k) ==> |r| == |m| && r[OrderedMap.IndexOf(m, k)] == (k, Get(r, k)))
      && (!Has(m, k) ==> r == m + [(k, Get(r, k))])
      && (forall j :: j != k ==> (Has(r, j) <==> Has(m, j)))
      && (forall j :: j != k && Has(m, j) ==> Get(r, j) == Get(m, j))
  {
    var k := RouteKey(m, d, reindex);
    SetFacts(m, k, Merge(SlotAt(m, k), d));
  }

  /**
   * The reindex rule: a fragment whose name clashes with the slot at its
   * index goes to the smallest unused key above that index, as a new slot
   * at the end of the map, and the clashing slot is left as it was.
   */
  lemma ReindexRule(m: Slots, d: ToolCallDelta)
    requires DistinctKeys(m)
    requires Has(m, d.index.GetOr(0)) && NameClash(Get(m, d.index.GetOr(0)), d)
    ensures var i := d.index.GetOr(0); var k := RouteKey(m, d, true); var r := ApplyDelta(m, d, true);
      && i < k && !Has(m, k) && (forall j :: i <= j < k ==> Has(m, j))
      && r == m + [(k, Merge(EmptySlot, d))]
      && Has(r, i) && Get(r, i) == Get(m, i)
  {
    var i := d.index.GetOr(0);
    var k := RouteKey(m, d, true);
    SetFacts(m, k, Merge(EmptySlot, d));
  }

  /** Without a clash (and always in the Ark copy) a fragment goes to its own index, 0 when absent. */
  lemma NoClashKeepsIndex(m: Slots, d: ToolCallDelta, reindex: bool)
    requires !reindex || !Has(m, d.index.GetOr(0)) || !NameClash(Get(m, d.index.GetOr(0)), d)
    ensures RouteKey(m, d, reindex) == d.index.GetOr(0)
  {
  }

  /** Keys stay distinct through the incremental merge, so the map's size is its length. */
  lemma {:induction false} ApplyDeltasKeepKeysDistinct(m: Slots, ds: seq<ToolCallDelta>, reindex: bool)
    requires DistinctKeys(m)
    ensures DistinctKeys(ApplyDeltas(m, ds, reindex))
    decreases |ds|
  {
    if ds != [] {
      MergeRule(m, ds[0], reindex);
      ApplyDeltasKeepKeysDistinct(ApplyDelta(m, ds[0], reindex), ds[1..], reindex);
    }
  }

  /** Keys stay distinct through the batch rule too. */
  lemma {:induction false} ApplyBatchKeepsKeysDistinct(m: Slots, ds: seq<ToolCallDelta>, e: Entropy, i: nat)
    requires DistinctKeys(m)
    ensures DistinctKeys(ApplyBatch(m, ds, e, i))
    decreases |ds|
  {
    if ds != [] {
      SetFacts(m, |m| + i, BatchSlot(ds[0], e, i));
      ApplyBatchKeepsKeysDistinct(Set(m, |m| + i, BatchSlot(ds[0], e, i)), ds[1..], e, i + 1);
    }
  }

  /** Every step of the machine keeps the slot keys distinct. */
  lemma {:induction false} ProcessLinesKeepKeysDistinct(setup: Setup, lines: seq<string>, st: StreamState)
    requires DistinctKeys(st.slots)
    ensures DistinctKeys(ProcessLines(setup, lines, st).state.slots)
    decreases |lines|
  {
    if lines != [] {
      ProcessLineKeepsKeysDistinct(setup, lines[0], st);
      var first := ProcessLine(setup, lines[0], st);
      if !first.finished {
        ProcessLinesKeepKeysDistinct(setup, lines[1..], first.state);
      }
    }
  }

  /** One line keeps the slot keys distinct. */
  lemma ProcessLineKeepsKeysDistinct(setup: Setup, line: string, st: StreamState)
    requires DistinctKeys(st.slots)
    ensures DistinctKeys(ProcessLine(setup, line, st).state.slots)
  {
    var t := Trim(line);
    var prefix := DataPrefix(setup.config);
    if t != "" && t != FinishPattern(setup.config) && StartsWith(t, prefix) {
      var chunk := setup.parseChunk(t[|prefix|..]);
      if chunk.Some? && chunk.value.choices != [] {
        assert ProcessLine(setup, line, st) == ProcessChoice(setup, chunk.value.choices[0], st);
        ProcessChoiceKeepsKeysDistinct(setup, chunk.value.choices[0], st);
      } else {
        assert ProcessLine(setup, line, st).state == st;
      }
    } else {
      assert ProcessLine(setup, line, st).state == st;
    }
  }

  /** One choice keeps the slot keys distinct, through either rule. */
  lemma ProcessChoiceKeepsKeysDistinct(setup: Setup, c: ChunkChoice, st: StreamState)
    requires DistinctKeys(st.slots)
    ensures DistinctKeys(ProcessChoice(setup, c, st).state.slots)
  {
    ApplyBatchKeepsKeysDistinct(st.slots, c.delta.toolCalls, setup.entropy, 0);
    ApplyDeltasKeepKeysDistinct(st.slots, c.delta.toolCalls, setup.dialect == Shared);
    assert ProcessChoice(setup, c, st).state == AfterDelta(setup, c, st);
  }

  /**
   * The batch rule on a map whose keys are all below its size plus the
   * offset: every entry is appended, as sent (with id and type defaulted),
   * under keys that grow by two because the size is read again each time.
   */
  lemma {:induction false} BatchAppendsEntries(m: Slots, ds: seq<ToolCallDelta>, e: Entropy, i: nat)
    requires forall j :: 0 <= j < |m| ==> m[j].0 < |m| + i
    ensures ApplyBatch(m, ds, e, i)
      == m + seq(|ds|, t requires 0 <= t < |ds| => (|m| + i + 2 * t, BatchSlot(ds[t], e, i + t)))
    decreases |ds|
  {
    if ds != [] {
      var m' := m + [(|m| + i, BatchSlot(ds[0], e, i))];
      assert !Has(m, |m| + i);
      assert ApplyBatch(m, ds, e, i) == ApplyBatch(m', ds[1..], e, i + 1);
      assert forall j :: 0 <= j < |m'| ==> m'[j].0 < |m'| + i + 1;
      BatchAppendsEntries(m', ds[1..], e, i + 1);
      BatchEntriesSplit(m, ds, e, i);
    }
  }

  /** The appended entries: the first one, then those of the rest two keys further on. */
  lemma BatchEntriesSplit(m: Slots, ds: seq<ToolCallDelta>, e: Entropy, i: nat)
    requires ds != []
    ensures m + [(|m| + i, BatchSlot(ds[0], e, i))]
        + seq(|ds| - 1, t requires 0 <= t < |ds| - 1 => (|m| + 1 + (i + 1) + 2 * t, BatchSlot(ds[1..][t], e, i + 1 + t)))
      == m + seq(|ds|, t requires 0 <= t < |ds| => (|m| + i + 2 * t, BatchSlot(ds[t], e, i + t)))
  {
    var first := [(|m| + i, BatchSlot(ds[0], e, i))];
    var tail := seq(|ds| - 1, t requires 0 <= t < |ds| - 1 => (|m| + 1 + (i + 1) + 2 * t, BatchSlot(ds[1..][t], e, i + 1 + t)));
    var whole := seq(|ds|, t requires 0 <= t < |ds| => (|m| + i + 2 * t, BatchSlot(ds[t], e, i + t)));
    forall t | 0 <= t < |ds|
      ensures whole[t] == (first + tail)[t]
    {
      if t > 0 {
        assert ds[1..][t - 1] == ds[t];
      }
    }
    assert whole == first + tail;
    assert m + first + tail == m + (first + tail);
  }

  /**
   * As written, the batch rule can overwrite a slot: with one slot at key 1,
   * a batch of two stores its first entry at key 1 and the earlier slot is
   * lost.
   */
  lemma BatchCanOverwriteSlot(a: Slot, x: ToolCallDelta, y: ToolCallDelta, e: Entropy)
    ensures ApplyBatch([(1, a)], [x, y], e, 0) == [(1, BatchSlot(x, e, 0)), (2, BatchSlot(y, e, 1))]
  {
    assert Has([(1, a)], 1);
    assert OrderedMap.IndexOf([(1, a)], 1) == 0;
    var m1 := [(1, BatchSlot(x, e, 0))];
    assert Set([(1, a)], 1, BatchSlot(x, e, 0)) == m1;
    assert !Has(m1, 2);
    var m2 := Set(m1, 2, BatchSlot(y, e, 1));
    assert m2 == [(1, BatchSlot(x, e, 0)), (2, BatchSlot(y, e, 1))];
    assert [x, y][1..] == [y] && [y][1..] == [];
    assert ApplyBatch(m1, [y], e, 1) == ApplyBatch(m2, [], e, 2) == m2;
  }

  /** The slots the final response draws on, in order: membership both ways. */
  lemma {:induction false} SelectedMembers(vs: seq<Slot>, needId: bool)
    ensures forall s :: s in Selected(vs, needId) <==> s in vs && s.name != "" && (needId ==> s.id != "")
    decreases |vs|
  {
    if vs != [] {
      SelectedMembers(vs[1..], needId);
      assert vs == [vs[0]] + vs[1..];
    }
  }

  /** The shape of the final response: the lead parts, then one function-call part per call, and the same calls again. */
  lemma FinalResponseShape(lead: seq<Part>, calls: seq<FunctionCall>, finishReason: string)
    ensures var r := FinalResponse(lead, calls, finishReason); var parts := r.candidates[0].content.parts;
      && |r.candidates| == 1 && r.candidates[0].content.role == "model"
      && r.candidates[0].finishReason == Some(finishReason)
      && |parts| == |lead| + |calls| && parts[..|lead|] == lead
      && (forall j :: 0 <= j < |calls| ==> parts[|lead| + j] == FunctionCallPart(calls[j]))
      && r.functionCalls == Some(calls)
  {
    var parts := lead + CallParts(calls);
    assert parts[..|lead|] == lead;
  }

  /**
   * The finish rule of the shared processor: a non-null finish reason ends
   * the generator; with slots, one more response carries a call for every
   * named slot in insertion order and no text part; without slots nothing
   * more is yielded.
   */
  lemma SharedFinishRule(setup: Setup, c: ChunkChoice, st: StreamState)
    requires setup.dialect == Shared && c.finishReason != ""
    ensures var r := ProcessChoice(setup, c, st); var slots := r.state.slots;
      && r.finished
      && r.state == AfterDelta(setup, c, st)
      && (slots == [] ==> r.out == ContentOut(c))
      && (slots != [] ==>
            && |r.out| == |ContentOut(c)| + 1
            && r.out[..|ContentOut(c)|] == ContentOut(c)
            && r.out[|r.out| - 1] == FinalResponse([], FinalCalls(Values(slots), setup.codec, setup.entropy,
                 if IsBatch(setup.dialect, c) then |c.delta.toolCalls| else 0), c.finishReason))
  {
    var next := AfterDelta(setup, c, st);
    if next.slots != [] {
      var draws := if IsBatch(setup.dialect, c) then |c.delta.toolCalls| else 0;
      var calls := FinalCalls(Values(next.slots), setup.codec, setup.entropy, draws);
      var out := ContentOut(c) + [FinalResponse([], calls, c.finishReason)];
      assert ProcessChoice(setup, c, st) == LineResult(out, next, true);
      assert out[..|ContentOut(c)|] == ContentOut(c);
      assert out[|out| - 1] == FinalResponse([], calls, c.finishReason);
    } else {
      assert ProcessChoice(setup, c, st) == LineResult(ContentOut(c), next, true);
    }
  }

  /** The calls the Ark copy reports exist exactly when every argument text parses. */
  lemma {:induction false} ArkCallsFacts(sel: seq<Slot>, codec: JsonCodec)
    ensures ArkCalls(sel, codec).Some? ==> |ArkCalls(sel, codec).value| == |sel|
    ensures ArkCalls(sel, codec).None? ==> exists j :: 0 <= j < |sel| && codec.parse(ArkArguments(sel[j])).Failure?
    decreases |sel|
  {
    if sel != [] && codec.parse(ArkArguments(sel[0])).Success? {
      ArkCallsFacts(sel[1..], codec);
    }
  }

  /**
   * The finish rule of the Ark copy: the accumulated text comes first, then
   * a call for every slot with both an id and a name; when an argument text
   * does not parse, the exception is swallowed, nothing more is yielded and
   * the generator goes on with the updated state.
   */
  lemma ArkFinishRule(setup: Setup, c: ChunkChoice, st: StreamState)
    requires setup.dialect == ArkInline && c.finishReason != ""
    ensures var r := ProcessChoice(setup, c, st); var next := AfterDelta(setup, c, st);
      var sel := Selected(Values(next.slots), true);
      && r.state == next
      && next.slots == ApplyDeltas(st.slots, c.delta.toolCalls, false)
      && (next.slots == [] ==> r.finished && r.out == ContentOut(c))
      && (next.slots != [] && ArkCalls(sel, setup.codec).None? ==> !r.finished && r.out == ContentOut(c))
      && (next.slots != [] && ArkCalls(sel, setup.codec).Some? ==>
            var lead := if next.accumulated != "" then [TextPart(next.accumulated)] else [];
            r.finished && r.out == ContentOut(c) + [FinalResponse(lead, ArkCalls(sel, setup.codec).value, c.finishReason)])
  {
  }

  /** A line that ends the generator makes everything after it irrelevant, later read errors included. */
  lemma FinishedPieceEndsRun(setup: Setup, text: string, steps: seq<ReadStep>, buffer: string, st: StreamState)
    requires var lines := Split(buffer + text, '\n');
      ProcessLines(setup, lines[..|lines| - 1], st).finished
    ensures var lines := Split(buffer + text, '\n');
      Run(setup, [Piece(text)] + steps, buffer, st)
        == Outcome(ProcessLines(setup, lines[..|lines| - 1], st).out, None)
  {
    RunPiece(setup, text, steps, buffer, st);
  }

  /** After a piece is read, the buffer holds exactly the text after the last newline, and the complete lines are the rest. */
  lemma BufferHoldsTextAfterLastNewline(buffer: string, text: string)
    ensures var lines := Split(buffer + text, '\n'); var kept := lines[|lines| - 1];
      && '\n' !in kept
      && (|lines| == 1 ==> kept == buffer + text)
      && (|lines| > 1 ==> buffer + text == Join(lines[..|lines| - 1], "\n") + "\n" + kept)
  {
    SplitLastPiece(buffer + text, '\n');
  }

  // ---- the reader ----

  /** A `ReadableStreamDefaultReader` over pieces that are already decoded. */
  class Reader {
    var steps: seq<ReadStep>
    var pos: nat
    var locked: bool

    predicate Valid()
      reads this`steps, this`pos
    {
      pos <= |steps|
    }

    /** The pieces not yet delivered. */
    function Remaining(): seq<ReadStep>
      reads this`steps, this`pos
      requires Valid()
    {
      steps[pos..]
    }

    constructor (steps: seq<ReadStep>)
      ensures this.steps == steps && pos == 0 && locked && Valid()
    {
      this.steps := steps;
      pos := 0;
      locked := true;
    }

    /** `reader.read()`: `done` once every piece has been delivered, else the next piece or error. */
    method Read() returns (done: bool, step: ReadStep)
      requires Valid()
      modifies this`pos
      ensures Valid()
      ensures done <==> old(pos) == |steps|
      ensures done ==> pos == old(pos)
      ensures !done ==> pos == old(pos) + 1 && step == steps[old(pos)]
      ensures done ==> Remaining() == []
      ensures !done ==> old(Remaining()) == [step] + Remaining()
    {
      if pos == |steps| {
        done, step := true, Piece("");
      } else {
        done, step := false, steps[pos];
        pos := pos + 1;
      }
    }

    method ReleaseLock()
      modifies this`locked
      ensures !locked
    {
      locked := false;
    }
  }

  // ---- the imperative processor ----

  /** The `index++` probe: the first key at or above `index` that is not in use. */
  method ProbeFreeKey(slots: Slots, index: int) returns (k: int)
    ensures index <= k && !Has(slots, k)
    ensures forall j :: index <= j < k ==> Has(slots, j)
    ensures k == NextFree(slots, index)
  {
    k := index;
    while Has(slots, k)
      invariant index <= k
      invariant forall j :: index <= j < k ==> Has(slots, j)
      invariant NextFree(slots, k) == NextFree(slots, index)
      decreases MaxKey(slots) + 1 - k
    {
      k := k + 1;
    }
  }

  /** The incremental loop over the fragments of one delta. */
  method MergeToolCalls(slots: Slots, ds: seq<ToolCallDelta>, reindex: bool) returns (r: Slots)
    ensures r == ApplyDeltas(slots, ds, reindex)
  {
    r := slots;
    for i := 0 to |ds|
      invariant ApplyDeltas(r, ds[i..], reindex) == ApplyDeltas(slots, ds, reindex)
    {
      var d := ds[i];
      var index := d.index.GetOr(0);
      if reindex && Has(r, index) {
        var existing := Get(r, index);
        if NameClash(existing, d) {
          index := ProbeFreeKey(r, index);
        }
      }
      var accumulated := if Has(r, index) then Get(r, index) else EmptySlot;
      assert ds[i..][1..] == ds[i + 1..];
      r := Set(r, index, Merge(accumulated, d));
    }
  }

  /** The one-shot batch loop: every entry stored under the current size plus its position. */
  method StoreBatch(slots: Slots, ds: seq<ToolCallDelta>, e: Entropy) returns (r: Slots)
    ensures r == ApplyBatch(slots, ds, e, 0)
  {
    r := slots;
    for i := 0 to |ds|
      invariant ApplyBatch(r, ds[i..], e, i) == ApplyBatch(slots, ds, e, 0)
    {
      assert ds[i..][1..] == ds[i + 1..];
      r := Set(r, |r| + i, BatchSlot(ds[i], e, i));
    }
  }

  method HandleChoice(setup: Setup, c: ChunkChoice, st: StreamState) returns (out: seq<Response>, next: StreamState, finished: bool)
    ensures LineResult(out, next, finished) == ProcessChoice(setup, c, st)
  {
    out := [];
    var accumulated := st.accumulated;
    var slots := st.slots;
    if c.delta.content != "" {
      accumulated := accumulated + c.delta.content;
      out := out + [TextResponse(c.delta.content)];
    }
    var batch := IsBatch(setup.dialect, c);
    if batch {
      slots := StoreBatch(slots, c.delta.toolCalls, setup.entropy);
    } else {
      slots := MergeToolCalls(slots, c.delta.toolCalls, setup.dialect == Shared);
    }
    next := StreamState(slots, accumulated);
    assert next == AfterDelta(setup, c, st) && out == ContentOut(c);
    finished := false;
    if c.finishReason != "" {
      if |slots| > 0 {
        if setup.dialect == Shared {
          var calls := FinalCalls(Values(slots), setup.codec, setup.entropy, if batch then |c.delta.toolCalls| else 0);
          out := out + [FinalResponse([], calls, c.finishReason)];
          finished := true;
        } else {
          var calls := ArkCalls(Selected(Values(slots), true), setup.codec);
          if calls.Some? {
            var lead := if accumulated != "" then [TextPart(accumulated)] else [];
            out := out + [FinalResponse(lead, calls.value, c.finishReason)];
            finished := true;
          }
        }
      } else {
        finished := true;
      }
    }
  }

  method HandleLine(setup: Setup, line: string, st: StreamState) returns (out: seq<Response>, next: StreamState, finished: bool)
    ensures LineResult(out, next, finished) == ProcessLine(setup, line, st)
  {
    out, next, finished := [], st, false;
    var trimmed := Trim(line);
    var prefix := DataPrefix(setup.config);
    if trimmed == "" || trimmed == FinishPattern(setup.config) {
      return;
    }
    if StartsWith(trimmed, prefix) {
      var chunk := setup.parseChunk(trimmed[|prefix|..]);
      if chunk.Some? && chunk.value.choices != [] {
        out, next, finished := HandleChoice(setup, chunk.value.choices[0], st);
      }
    }
  }

  /** The responses `out` emitted ahead of a later result. */
  function Prepend(out: seq<Response>, later: LineResult): LineResult {
    LineResult(out + later.out, later.state, later.finished)
  }

  /** One step of `ProcessLines` from position `i`, given the result of line `i`. */
  lemma ProcessLinesStep(setup: Setup, lines: seq<string>, i: nat, st: StreamState, first: LineResult)
    requires i < |lines| && first == ProcessLine(setup, lines[i], st)
    ensures first.finished ==> ProcessLines(setup, lines[i..], st) == first
    ensures !first.finished ==>
      ProcessLines(setup, lines[i..], st) == Prepend(first.out, ProcessLines(setup, lines[i + 1..], first.state))
  {
    assert lines[i..][0] == lines[i];
    assert lines[i..][1..] == lines[i + 1..];
  }

  /** Emitting `a` and then `b` ahead of a result is emitting `a + b`. */
  lemma PrependTwice(a: seq<Response>, b: seq<Response>, later: LineResult)
    ensures Prepend(a, Prepend(b, later)) == Prepend(a + b, later)
  {
    assert a + (b + later.out) == (a + b) + later.out;
  }

  /** The `for (const line of lines)` loop over the complete lines of one read. */
  method HandleLines(setup: Setup, lines: seq<string>, st: StreamState) returns (out: seq<Response>, next: StreamState, finished: bool)
    ensures LineResult(out, next, finished) == ProcessLines(setup, lines, st)
  {
    out, next, finished := [], st, false;
    var i := 0;
    assert lines[0..] == lines;
    while i < |lines|
      invariant 0 <= i <= |lines|
      invariant ProcessLines(setup, lines, st) == Prepend(out, ProcessLines(setup, lines[i..], next))
    {
      var o, n, f := HandleLine(setup, lines[i], next);
      ProcessLinesStep(setup, lines, i, next, LineResult(o, n, f));
      if f {
        out, next, finished := out + o, n, true;
        return;
      }
      PrependTwice(out, o, ProcessLines(setup, lines[i + 1..], n));
      out, next := out + o, n;
      i := i + 1;
    }
  }

  /** `later` preceded by the responses `out` already yielded. */
  function Follow(out: seq<Response>, later: Outcome): Outcome {
    Outcome(out + later.responses, later.failure)
  }

  /** Prefixing twice is prefixing once with both. */
  lemma FollowTwice(a: seq<Response>, b: seq<Response>, later: Outcome)
    ensures Follow(a, Follow(b, later)) == Follow(a + b, later)
  {
    assert a + (b + later.responses) == (a + b) + later.responses;
  }

  /** One read of the generator loop, given what the complete lines of the piece gave. */
  lemma RunPieceStep(setup: Setup, text: string, steps: seq<ReadStep>, buffer: string, st: StreamState, r: LineResult)
    requires var lines := Split(buffer + text, '\n'); r == ProcessLines(setup, lines[..|lines| - 1], st)
    ensures r.finished ==> Run(setup, [Piece(text)] + steps, buffer, st) == Outcome(r.out, None)
    ensures !r.finished ==> var lines := Split(buffer + text, '\n');
      Run(setup, [Piece(text)] + steps, buffer, st) == Follow(r.out, Run(setup, steps, lines[|lines| - 1], r.state))
  {
    RunPiece(setup, text, steps, buffer, st);
  }

  /**
   * `processStreamResponse`: reads until the stream ends, an error is
   * raised or a finishing chunk is handled, and releases the reader's lock
   * on every one of these paths.
   */
  method ProcessStreamResponse(reader: Reader, setup: Setup) returns (out: seq<Response>, failure: Option<string>)
    requires reader.Valid()
    modifies reader
    ensures !reader.locked && reader.steps == old(reader.steps)
    ensures Outcome(out, failure) == Run(setup, old(reader.steps[reader.pos..]), "", Initial)
  {
    ghost var total := Run(setup, reader.Remaining(), "", Initial);
    out, failure := [], None;
    var buffer := "";
    var st := Initial;
    while true
      invariant reader.Valid() && reader.steps == old(reader.steps)
      invariant total == Follow(out, Run(setup, reader.Remaining(), buffer, st))
      decreases |reader.steps| - reader.pos
    {
      var done, step := reader.Read();
      if done {
        assert out + [] == out;
        break;
      }
      match step
      case ReadError(message) => {
        assert out + [] == out;
        failure := Some(message);
        reader.ReleaseLock();
        return;
      }
      case Piece(text) => {
        var lines := Split(buffer + text, '\n');
        var o, n, finished := HandleLines(setup, lines[..|lines| - 1], st);
        RunPieceStep(setup, text, reader.Remaining(), buffer, st, LineResult(o, n, finished));
        FollowTwice(out, o, Run(setup, reader.Remaining(), lines[|lines| - 1], n));
        out, st, buffer := out + o, n, lines[|lines| - 1];
        if finished {
          reader.ReleaseLock();
          return;
        }
      }
    }
    reader.ReleaseLock();
  }
}
