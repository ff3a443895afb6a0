/**
 * `GeminiClient` (client.ts): the cleanup of model-produced JSON text, the
 * thinking switch, the automatic continuation of a turn, history
 * compression, the fallback to the flash model and the checks on an
 * embedding reply.
 */
module Client {
  import opened Wrappers
  import opened Text
  import opened Json
  import opened ContentModel
  import ContentGenerator

  // ---- cleanJsonText ----

  /** The first cleanup stage: a leading "```json" or "```" fence goes, with the whitespace after it. */
  function OpeningFenceDropped(t: string): string {
    if StartsWith(t, "```json") then TrimStart(t[7..])
    else if StartsWith(t, "```") then TrimStart(t[3..])
    else t
  }

  /** The second cleanup stage: a trailing "```" goes, with the whitespace before it. */
  function ClosingFenceDropped(t: string): string {
    if EndsWith(t, "```") then TrimEnd(t[..|t| - 3]) else t
  }

  /**
   * The text `cleanJsonText` returns: trimmed, both fences dropped, trimmed
   * again. It never starts or ends with whitespace.
   */
  function CleanJson(text: string): (r: string)
    ensures r == [] || (!IsWhitespace(r[0]) && !IsWhitespace(r[|r| - 1]))
  {
    Trim(ClosingFenceDropped(OpeningFenceDropped(Trim(text))))
  }

  /** `cleanJsonText`, stage by stage on one variable. */
  method CleanJsonText(text: string) returns (cleanText: string)
    ensures cleanText == CleanJson(text)
    ensures cleanText == [] || (!IsWhitespace(cleanText[0]) && !IsWhitespace(cleanText[|cleanText| - 1]))
  {
    cleanText := Trim(text);
    ghost var trimmed := cleanText;
    if StartsWith(cleanText, "```json") {
      cleanText := TrimStart(cleanText[7..]);
    } else if StartsWith(cleanText, "```") {
      cleanText := TrimStart(cleanText[3..]);
    }
    assert cleanText == OpeningFenceDropped(trimmed);
    ghost var unfenced := cleanText;
    if EndsWith(cleanText, "```") {
      cleanText := TrimEnd(cleanText[..|cleanText| - 3]);
    }
    assert cleanText == ClosingFenceDropped(unfenced);
    cleanText := Trim(cleanText);
  }

  /** A string that starts with `p + q` starts with `p`. */
  lemma PrefixOfPrefix(s: string, p: string, q: string)
    ensures StartsWith(s, p + q) ==> StartsWith(s, p)
  {
    if StartsWith(s, p + q) {
      assert s[..|p|] == (p + q)[..|p|];
    }
  }

  /** Text without a fence at either end is only trimmed. */
  lemma UnfencedTextIsTrimmed(text: string)
    requires !StartsWith(Trim(text), "```") && !EndsWith(Trim(text), "```")
    ensures CleanJson(text) == Trim(text)
  {
    PrefixOfPrefix(Trim(text), "```", "json");
    assert "```" + "json" == "```json";
    TrimOfTrimmed(Trim(text));
  }

  /** The opening fence, with or without the `json` tag, goes with the line break after it. */
  lemma OpeningFenceOfBlock(lang: string, body: string)
    requires lang == "json" || lang == ""
    requires body != [] && !IsWhitespace(body[0])
    ensures OpeningFenceDropped("```" + lang + "\n" + body + "\n```") == body + "\n```"
  {
    var text := "```" + lang + "\n" + body + "\n```";
    var rest := "\n" + body + "\n```";
    assert text == "```" + lang + rest;
    assert rest[1..] == body + "\n```";
    assert TrimStart(rest) == body + "\n```";
    if lang == "json" {
      assert text[..7] == "```json";
      assert text[7..] == rest;
    } else {
      assert text[..3] == "```";
      assert text[3..] == rest;
      assert text[3] == '\n';
      assert !StartsWith(text, "```json");
    }
  }

  /** The closing fence goes with the line break before it. */
  lemma ClosingFenceOfBlock(body: string)
    requires body != [] && !IsWhitespace(body[|body| - 1])
    ensures ClosingFenceDropped(body + "\n```") == body
  {
    var t := body + "\n```";
    assert t[|t| - 3..] == "```";
    assert t[..|t| - 3] == body + "\n";
    assert (body + "\n")[..|body|] == body;
    assert TrimEnd(body + "\n") == TrimEnd(body);
    assert TrimEnd(body) == body;
  }

  /** A fenced block, with or without the `json` tag, gives back its body. */
  lemma FencedBlockIsUnwrapped(lang: string, body: string)
    requires lang == "json" || lang == ""
    requires body != [] && !IsWhitespace(body[0]) && !IsWhitespace(body[|body| - 1])
    ensures CleanJson("```" + lang + "\n" + body + "\n```") == body
  {
    var text := "```" + lang + "\n" + body + "\n```";
    assert text[0] == '`' && text[|text| - 1] == '`';
    TrimOfTrimmed(text);
    OpeningFenceOfBlock(lang, body);
    ClosingFenceOfBlock(body);
    TrimOfTrimmed(body);
  }

  // ---- isThinkingSupported ----

  /** Thinking is requested for Gemini 2.5 models reached through Google's own authentication. */
  predicate IsThinkingSupported(model: string, authType: Option<string>) {
    && StartsWith(model, "gemini-2.5")
    && (|| authType == Some(ContentGenerator.LoginWithGooglePersonal)
        || authType == Some(ContentGenerator.UseGemini)
        || authType == Some(ContentGenerator.UseVertexAI))
  }

  /** The OpenAI-style adapters never get thinking, whatever the model name. */
  lemma ThinkingNeedsGoogleAuth(model: string, authType: Option<string>)
    ensures IsThinkingSupported(model, authType) ==> StartsWith(model, "gemini-2.5")
    ensures authType == Some(ContentGenerator.UseArk) || authType == Some(ContentGenerator.UseGptOpenApi) || authType.None?
      ==> !IsThinkingSupported(model, authType)
    ensures StartsWith(model, "gemini-2.5") && authType == Some(ContentGenerator.UseGemini)
      ==> IsThinkingSupported(model, authType)
  {
  }

  // ---- sendMessageStream ----

  const MaxTurns := 100
  const ContinueText := "请继续。"

  /**
   * What one turn leaves behind: its pending tool calls, whether the abort
   * signal fired, and the speaker the next-speaker check names (if any).
   */
  datatype TurnOutcome = TurnOutcome(pendingToolCalls: nat, aborted: bool, nextSpeaker: Option<string>)

  /** The turn is followed by an automatic "continue" request. */
  predicate Continues(o: TurnOutcome) {
    o.pendingToolCalls == 0 && !o.aborted && o.nextSpeaker == Some("model")
  }

  /** The number of turns run with `turns` left, the next one being turn number `k`. */
  function TurnsRun(turns: nat, outcome: nat -> TurnOutcome, k: nat): (r: nat)
    ensures r <= turns
    ensures turns > 0 ==> r >= 1
  {
    if turns == 0 then 0
    else if Continues(outcome(k)) then 1 + TurnsRun(turns - 1, outcome, k + 1)
    else 1
  }

  /**
   * `sendMessageStream` with its recursion on `turns` unrolled into a loop:
   * the requests sent, in order. `outcome(i)` is what the i-th turn leaves
   * behind. The first request is the caller's; every later one is the fixed
   * continuation; each continuation follows a turn that asked for it; the
   * loop stops at the first turn that does not, or when the budget is spent.
   */
  method SendMessageStream(request: seq<Part>, turns: nat, outcome: nat -> TurnOutcome)
    returns (sent: seq<seq<Part>>)
    ensures |sent| == TurnsRun(turns, outcome, 0) && |sent| <= turns
    ensures turns == 0 ==> sent == []
    ensures turns > 0 ==> sent[0] == request
    ensures forall i :: 1 <= i < |sent| ==> sent[i] == [TextPart(ContinueText)]
    ensures forall i :: 0 <= i < |sent| - 1 ==> Continues(outcome(i))
    ensures 0 < |sent| < turns ==> !Continues(outcome(|sent| - 1))
  {
    sent := [];
    var left := turns;
    var next := request;
    var going := true;
    while going && left != 0
      invariant |sent| <= turns
      invariant going ==> |sent| + left == turns
      invariant going ==> |sent| + TurnsRun(left, outcome, |sent|) == TurnsRun(turns, outcome, 0)
      invariant !going ==> |sent| == TurnsRun(turns, outcome, 0)
      invariant going ==> next == (if sent == [] then request else [TextPart(ContinueText)])
      invariant sent != [] ==> sent[0] == request
      invariant forall i :: 1 <= i < |sent| ==> sent[i] == [TextPart(ContinueText)]
      invariant going ==> forall i :: 0 <= i < |sent| ==> Continues(outcome(i))
      invariant !going ==> sent != [] && !Continues(outcome(|sent| - 1))
    invariant forall i :: 0 <= i < |sent| - 1 ==> Continues(outcome(i))
      decreases left, going
    {
      sent := sent + [next];
      if Continues(outcome(|sent| - 1)) {
        next := [TextPart(ContinueText)];
        left := left - 1;
      } else {
        going := false;
      }
    }
  }

  /** The default budget bounds the whole chain of continuations. */
  lemma AtMostMaxTurns(outcome: nat -> TurnOutcome)
    ensures 1 <= TurnsRun(MaxTurns, outcome, 0) <= MaxTurns
  {
  }

  /** A turn that leaves tool calls pending, or is aborted, ends the chain at once. */
  lemma {:induction false} StopsAtFirstQuietTurn(turns: nat, outcome: nat -> TurnOutcome, k: nat)
    requires turns > 0 && !Continues(outcome(k))
    ensures TurnsRun(turns, outcome, k) == 1
  {
  }

  // ---- generateEmbedding ----

  const NoEmbeddingsError := "No embeddings found in API response."

  function MismatchError(expected: nat, got: nat): string {
    "API returned a mismatched number of embeddings. Expected " + NatToString(expected) + ", got " + NatToString(got) + "."
  }

  function EmptyEmbeddingError(index: nat, text: string): string {
    "API returned an empty embedding for input text at index " + NatToString(index) + ": \"" + text + "\""
  }

  /** The position of the first empty vector, if any. */
  function FirstEmpty(vectors: seq<seq<real>>): (r: Option<nat>)
    ensures r.None? ==> forall i :: 0 <= i < |vectors| ==> vectors[i] != []
    ensures r.Some? ==> r.value < |vectors| && vectors[r.value] == []
    ensures r.Some? ==> forall i :: 0 <= i < r.value ==> vectors[i] != []
  {
    if vectors == [] then None
    else if vectors[0] == [] then Some(0)
    else match FirstEmpty(vectors[1..])
      case None => None
      case Some(i) => Some(i + 1)
  }

  /**
   * `generateEmbedding` after the call: `embeddings` is the reply's list
   * (`None` when absent; an absent `values` is an empty vector). Empty input
   * needs no call and gives no vectors; otherwise every input gets its own
   * non-empty vector, in input order, or the first problem is reported.
   */
  function GenerateEmbedding(texts: seq<string>, embeddings: Option<seq<seq<real>>>): (r: Result<seq<seq<real>>>)
    ensures texts == [] ==> r == Success([])
    ensures texts != [] && (embeddings.None? || embeddings.value == []) ==> r == Failure(NoEmbeddingsError)
    ensures texts != [] && embeddings.Some? && embeddings.value != [] && |embeddings.value| != |texts|
      ==> r == Failure(MismatchError(|texts|, |embeddings.value|))
    ensures r.Success? && texts != [] ==> embeddings.Some? && r.value == embeddings.value
    ensures r.Success? ==> |r.value| == |texts| && forall i :: 0 <= i < |r.value| ==> r.value[i] != []
    ensures r.Failure? && texts != [] && embeddings.Some? && |embeddings.value| == |texts|
      ==> (exists i :: 0 <= i < |texts| && embeddings.value[i] == [] && r.error == EmptyEmbeddingError(i, texts[i]))
  {
    if texts == [] then Success([])
    else if embeddings.None? || embeddings.value == [] then Failure(NoEmbeddingsError)
    else if |embeddings.value| != |texts| then Failure(MismatchError(|texts|, |embeddings.value|))
    else match FirstEmpty(embeddings.value)
      case Some(i) => Failure(EmptyEmbeddingError(i, texts[i]))
      case None => Success(embeddings.value)
  }

  /** The error names the first empty vector, not a later one. */
  lemma EmptyEmbeddingIsTheFirst(texts: seq<string>, vectors: seq<seq<real>>, i: nat)
    requires |vectors| == |texts| && i < |texts|
    requires vectors[i] == [] && forall j :: 0 <= j < i ==> vectors[j] != []
    ensures GenerateEmbedding(texts, Some(vectors)) == Failure(EmptyEmbeddingError(i, texts[i]))
  {
    var f := FirstEmpty(vectors);
    assert f.Some?;
    assert f.value == i;
  }

  // ---- chat compression ----

  const EnvironmentAck := "明白了，谢谢你提供的上下文！"
  const SummaryRequest := "请总结我们到目前为止的对话。摘要应该是一个简明但全面的概述，包含所有关键主题、问题、答案和讨论的重要细节。这个摘要将替换当前的聊天历史以节省token，所以它必须捕获所有必要的信息，以便理解上下文并有效地继续我们的对话，就像没有丢失任何信息一样。"

  /** `ChatCompressionInfo`. */
  datatype CompressionInfo = CompressionInfo(originalTokenCount: int, newTokenCount: int)

  /** The two entries every chat starts with: the environment and the model's acknowledgement. */
  function Preamble(envParts: seq<Part>): (r: seq<Content>)
    ensures |r| == 2 && r[0].role == "user" && r[1].role == "model"
  {
    [Content("user", envParts), Content("model", [TextPart(EnvironmentAck)])]
  }

  /**
   * Whether `tryCompressChat` goes on to summarise, given a non-empty
   * history: always when forced; otherwise only with a known token count, a
   * limit, and a count of at least 95% of that limit.
   */
  predicate ShouldCompress(force: bool, count: Option<int>, limit: int) {
    force || (count.Some? && limit != 0 && !((count.value as real) < 0.95 * (limit as real)))
  }

  /** Unforced compression starts exactly at 95% of the limit, and more tokens never turn it off. */
  lemma CompressionThreshold(count: int, limit: int)
    requires limit != 0
    ensures ShouldCompress(false, Some(count), limit) <==> 100 * count >= 95 * limit
    ensures ShouldCompress(false, Some(count), limit) ==> ShouldCompress(false, Some(count + 1), limit)
  {
  }

  /** Without a count or a limit nothing is compressed unless forced; forcing always compresses. */
  lemma CompressionNeedsCountAndLimit(count: Option<int>, limit: int)
    ensures !ShouldCompress(false, None, limit)
    ensures !ShouldCompress(false, count, 0)
    ensures ShouldCompress(true, count, limit)
  {
  }

  /** The report: both counts, only when both are known and non-zero. */
  function CompressionReport(original: Option<int>, updated: Option<int>): (r: Option<CompressionInfo>)
    ensures r.Some? <==> original.Some? && original.value != 0 && updated.Some? && updated.value != 0
    ensures r.Some? ==> r.value == CompressionInfo(original.value, updated.value)
  {
    if original.Some? && original.value != 0 && updated.Some? && updated.value != 0 then
      Some(CompressionInfo(original.value, updated.value))
    else None
  }

  /** What a flash-fallback handler does when asked: missing, throws, or answers. */
  datatype FallbackHandler = NoHandler | HandlerThrows | HandlerAnswers(accepted: bool)

  /**
   * The model `handleFlashFallback` switches to, if any: only for personal
   * OAuth, only away from a model other than flash, and only on the
   * handler's consent.
   */
  function FallbackTarget(authType: Option<string>, current: string, flash: string, handler: FallbackHandler): Option<string> {
    if authType != Some(ContentGenerator.LoginWithGooglePersonal) then None
    else if current == flash then None
    else if handler == HandlerAnswers(true) then Some(flash)
    else None
  }

  /** A fallback happens exactly under the three conditions, always to flash, and never twice in a row. */
  lemma FallbackConditions(authType: Option<string>, current: string, flash: string, handler: FallbackHandler)
    ensures FallbackTarget(authType, current, flash, handler).Some?
      <==> authType == Some(ContentGenerator.LoginWithGooglePersonal) && current != flash && handler == HandlerAnswers(true)
    ensures FallbackTarget(authType, current, flash, handler).Some? ==> FallbackTarget(authType, current, flash, handler).value == flash
    ensures FallbackTarget(authType, flash, flash, handler).None?
  {
  }

  /**
   * The client: the model in use, the model recorded in the session
   * configuration, and the current chat's history.
   */
  class GeminiClient {
    var model: string
    var configModel: string
    var history: seq<Content>
    /** `DEFAULT_GEMINI_FLASH_MODEL`. */
    const flashModel: string

    /** The model comes from the configuration; there is no chat yet. */
    constructor (configuredModel: string, flash: string)
      ensures model == configuredModel && configModel == configuredModel
      ensures flashModel == flash && history == []
    {
      model := configuredModel;
      configModel := configuredModel;
      flashModel := flash;
      history := [];
    }

    /** `startChat`: a new chat whose history is the preamble followed by `extraHistory`. */
    method StartChat(envParts: seq<Part>, extraHistory: seq<Content>)
      modifies this`history
      ensures history == Preamble(envParts) + extraHistory
    {
      history := Preamble(envParts) + extraHistory;
    }

    /**
     * `tryCompressChat`. `curate` is the chat's curated view of its history;
     * `count` the first token count (a failure is the error thrown);
     * `limit` the model's token limit; `summary` the text of the model's
     * summary or the error its request threw; `newCount` the token count
     * of the new history or the error that count threw, which reaches the
     * caller after the chat was already replaced.
     */
    method TryCompressChat(force: bool, curate: seq<Content> -> seq<Content>, count: Result<Option<int>>, limit: int,
                           envParts: seq<Part>, summary: Result<string>, newCount: Result<Option<int>>)
      returns (r: Result<Option<CompressionInfo>>)
      modifies this`history
      ensures curate(old(history)) == [] ==> r == Success(None) && history == old(history)
      ensures curate(old(history)) != [] && count.Failure? ==> r == Failure(count.error) && history == old(history)
      ensures curate(old(history)) != [] && count.Success? && !ShouldCompress(force, count.value, limit)
        ==> r == Success(None) && history == old(history)
      ensures curate(old(history)) != [] && count.Success? && ShouldCompress(force, count.value, limit) && summary.Failure?
        ==> r == Failure(summary.error) && history == old(history)
      ensures curate(old(history)) != [] && count.Success? && ShouldCompress(force, count.value, limit) && summary.Success?
        ==> && history == Preamble(envParts) + [Content("user", [TextPart(SummaryRequest)]), Content("model", [TextPart(summary.value)])]
            && (newCount.Failure? ==> r == Failure(newCount.error))
            && (newCount.Success? ==> r == Success(CompressionReport(count.value, newCount.value)))
    {
      if curate(history) == [] {
        return Success(None);
      }
      if count.Failure? {
        return Failure(count.error);
      }
      var original := count.value;
      if !force {
        if original.None? {
          return Success(None);
        }
        if limit == 0 {
          return Success(None);
        }
        if (original.value as real) < 0.95 * (limit as real) {
          return Success(None);
        }
      }
      if summary.Failure? {
        return Failure(summary.error);
      }
      var newHistory := [Content("user", [TextPart(SummaryRequest)]), Content("model", [TextPart(summary.value)])];
      StartChat(envParts, newHistory);
      if newCount.Failure? {
        return Failure(newCount.error);
      }
      r := Success(CompressionReport(original, newCount.value));
    }

    /** `handleFlashFallback`: the configuration and the client switch together, or neither does. */
    method HandleFlashFallback(authType: Option<string>, handler: FallbackHandler) returns (r: Option<string>)
      modifies this`model, this`configModel
      ensures r == FallbackTarget(authType, old(model), flashModel, handler)
      ensures r.Some? ==> model == flashModel && configModel == flashModel
      ensures r.None? ==> model == old(model) && configModel == old(configModel)
    {
      if authType != Some(ContentGenerator.LoginWithGooglePersonal) {
        return None;
      }
      var currentModel := model;
      var fallbackModel := flashModel;
      if currentModel == fallbackModel {
        return None;
      }
      if handler.HandlerAnswers? && handler.accepted {
        configModel := fallbackModel;
        model := fallbackModel;
        return Some(fallbackModel);
      }
      return None;
    }
  }
}
