# A verified model of the gemini-cli-cn adapter core

gemini-cli-cn is a command-line assistant that keeps its conversation in the
Gemini content model (contents made of text, inline-data, function-call and
function-response parts) and can talk to OpenAI-style chat-completion
services (the Ark service and a GPT "OpenAPI" gateway) as well as to Gemini.
This project models, in Dafny, the deterministic core of that adapter layer
and of the tools around it, and proves what the code promises about it:

- **Stream reconstruction** (`StreamResponseProcessor`): the server-sent-event
  line framing of a chat-completion stream, text emission once per delta, the
  insertion-ordered map of partial tool calls with its merge, reindex and batch
  rules, and the final tool-call response; also the older inline copy used by
  the Ark adapter. The reader is a class over a sequence of decoded pieces.
- **Wire translation** (`ApiResponseConverter`, `BaseGenerator`,
  `ArkGenerator`, `GptOpenApiGenerator`): contents to chat messages with their
  branch precedence and message count, tool flattening, data URLs for inline
  images, responses back to Gemini form, URLs, headers and the integer token
  estimates.
- **Session policy** (`Client`): JSON fence stripping, the thinking switch,
  the turn budget of `sendMessageStream`, history compression and the flash
  fallback of the `GeminiClient` class, and embedding validation.
- **Configuration** (`ContentGenerator`, `Auth`): model and key selection per
  authentication type from an environment map, generator dispatch, and the
  validation of the chosen authentication method.
- **Tools** (`EditTool`, `MemoryTool`, `ReadManyFiles`): root containment and
  replacement classification of the edit tool, the section-aware insertion of
  a remembered fact, and the validation, selection, ordering and summary of
  the multi-file reader.

Shared modules: `Wrappers` (Option, Result), `Text` (the JavaScript string
operations the source uses: trim, split, join, indexOf, replaceAll, number
printing), `Json` (an abstract JSON value; `JSON.parse` and
`JSON.stringify` are a pair of functions passed in), `ContentModel` (the
Gemini and chat-completion shapes) and `OrderedMap` (a JavaScript `Map` as a
sequence of key/value pairs, so that iteration follows insertion order).

Ids and log ids drawn from the clock and `Math.random`, the network, the file
system, glob, git-ignore filtering, the schema validator, the next-speaker
check and the chat object are parameters of the operations that use them.

## Model

| member | source | states |
|---|---|---|
| ApiResponseConverter.SynthesizedCallId | packages/core/src/utils/apiResponseConverter.ts:44 | a fallback call id starts with `call_` and has something after it |
| ApiResponseConverter.ParseToolCallArgs | packages/core/src/utils/apiResponseConverter.ts:38-64 | the name is kept; a non-empty id is kept and a missing one is synthesised; the trimmed arguments (or `{}`) are parsed, and arguments that do not parse give the empty object instead of an error |
| ApiResponseConverter.EmptyArgumentsParseAsEmptyObjectText | packages/core/src/utils/apiResponseConverter.ts:43 | empty arguments are parsed as the text `{}` |
| ApiResponseConverter.ParseToolCalls | packages/core/src/utils/apiResponseConverter.ts:90-93 | one parsed call per tool call, in order |
| ApiResponseConverter.ConvertOpenAIResponseToGemini | packages/core/src/utils/apiResponseConverter.ts:69-131 | fails exactly when there is no choice, with the "no choices" message; otherwise one `model` candidate whose parts are the text (when non-empty) then one call part per tool call, `functionCalls` present exactly when there are tool calls, the finish reason and the usage copied |
| ApiResponseConverter.ConvertedCallsKeepIds | packages/core/src/utils/apiResponseConverter.ts:90-108 | every converted call has a non-empty id, its tool call's name, and its tool call's id when that was present |
| ApiResponseConverter.NullContentNoCallsGivesNoParts | packages/core/src/utils/apiResponseConverter.ts:84-90 | a null content without tool calls gives a candidate with no parts and no `functionCalls` |
| OrderedMap.IndexOf | packages/core/src/utils/streamResponseProcessor.ts:130-131 | the position found holds the key and no earlier entry does |
| OrderedMap.Set | packages/core/src/utils/streamResponseProcessor.ts:118 | `Map.set` replaces a present key's value where it stands and appends a new key at the end |
| OrderedMap.Values | packages/core/src/utils/streamResponseProcessor.ts:183-185 | `Array.from(map.values())` lists the values in insertion order |
| OrderedMap.SetFacts | packages/core/src/utils/streamResponseProcessor.ts:143 | `set` keeps keys distinct, the stored value is found again, the key set grows by the key alone and every other key's value is unchanged |
| OrderedMap.TailLookup | packages/core/src/utils/streamResponseProcessor.ts:183-185 | dropping the first entry of a map with distinct keys keeps every other key's lookup |
| OrderedMap.AssignFacts | packages/core/src/generators/ark.ts:727-729 | `Object.assign` gives the keys of both records, the source's value for each of its keys and the target's value for the others, keys staying distinct |
| StreamResponseProcessor.NextFree | packages/core/src/utils/streamResponseProcessor.ts:136-138 | the key found is at or above the index and unused, and every key between them is in use |
| StreamResponseProcessor.StreamCallId | packages/core/src/utils/streamResponseProcessor.ts:119 | the fallback id is never empty |
| StreamResponseProcessor.Selected | packages/core/src/utils/streamResponseProcessor.ts:183-189 | only slots with a name (and, in the Ark copy, an id) are reported, never more than there are |
| StreamResponseProcessor.FinalCalls | packages/core/src/utils/streamResponseProcessor.ts:183-203 | one call per named slot, in insertion order, with the slot's name; the slot's own id, or a fresh `<digits><millis>` id from draw `n + j` when it has none; its trimmed argument text (`{}` when empty) parsed, or the empty object when that text does not parse |
| StreamResponseProcessor.ArkCalls | packages/core/src/generators/ark.ts:363-372 | the Ark copy's calls exist exactly when every argument text parses, and then carry each slot's id, name and parsed arguments |
| StreamResponseProcessor.RunPiece | packages/core/src/utils/streamResponseProcessor.ts:71-79 | a read piece is appended to the buffer, its complete lines are processed in order, and the generator goes on with the rest unless a line finished it (stated over `StreamResponseProcessor.Run`) |
| StreamResponseProcessor.UnterminatedTextIsNotProcessed | packages/core/src/utils/streamResponseProcessor.ts:73-77 | text without a newline is only buffered, and what is still buffered when the stream ends yields nothing |
| StreamResponseProcessor.ReadErrorPropagates | packages/core/src/utils/streamResponseProcessor.ts:245-248 | a read error ends the generator with that error and nothing more is yielded |
| StreamResponseProcessor.SkippedLinesChangeNothing | packages/core/src/utils/streamResponseProcessor.ts:80-88 | blank lines, the finish pattern, lines without the data prefix, unparsable JSON and chunks without a choice yield nothing and change nothing (stated over `StreamResponseProcessor.ProcessLine`) |
| StreamResponseProcessor.ContentDeltaYieldsOneTextResponse | packages/core/src/utils/streamResponseProcessor.ts:92-109 | a choice with content yields one text response for it first and the accumulated content grows by exactly that text (stated over `StreamResponseProcessor.ProcessChoice`) |
| StreamResponseProcessor.TextResponseShape | packages/core/src/utils/streamResponseProcessor.ts:95-106 | a text response has one `model` candidate whose only part is the text and no finish reason |
| StreamResponseProcessor.MergeRule | packages/core/src/utils/streamResponseProcessor.ts:142-168 | the fragment's slot gets name and arguments extended, id and type replaced only when given; a new slot goes last, an existing one keeps its place, no other slot changes (stated over `StreamResponseProcessor.ApplyDelta`) |
| StreamResponseProcessor.ReindexRule | packages/core/src/utils/streamResponseProcessor.ts:129-140 | a fragment whose name clashes with the slot at its index goes to the smallest unused key above it, as a new last slot, and the clashing slot is kept (stated over `StreamResponseProcessor.ApplyDelta`) |
| StreamResponseProcessor.NoClashKeepsIndex | packages/core/src/utils/streamResponseProcessor.ts:127 | without a clash, and always in the Ark copy (packages/core/src/generators/ark.ts:323), a fragment goes to its own index, 0 when absent |
| StreamResponseProcessor.ApplyDeltasKeepKeysDistinct | packages/core/src/utils/streamResponseProcessor.ts:126-169 | the incremental merge keeps slot keys distinct |
| StreamResponseProcessor.ApplyBatchKeepsKeysDistinct | packages/core/src/utils/streamResponseProcessor.ts:116-123 | the batch rule keeps slot keys distinct (stated over `StreamResponseProcessor.ApplyBatch`) |
| StreamResponseProcessor.ProcessLinesKeepKeysDistinct | packages/core/src/utils/streamResponseProcessor.ts:79-243 | every line the machine processes keeps slot keys distinct |
| StreamResponseProcessor.BatchAppendsEntries | packages/core/src/utils/streamResponseProcessor.ts:116-123 | on a map whose keys are below its size plus the offset, every batch entry is appended as sent (id and type defaulted) (stated over `StreamResponseProcessor.ApplyBatch`) |
| StreamResponseProcessor.BatchCanOverwriteSlot | packages/core/src/utils/streamResponseProcessor.ts:117-118 | with one slot at key 1, a batch of two stores its first entry at key 1 and the earlier slot is lost |
| StreamResponseProcessor.SelectedMembers | packages/core/src/utils/streamResponseProcessor.ts:186-189 | a slot is reported exactly when it is in the map and has a name (and an id when required) |
| StreamResponseProcessor.FinalResponseShape | packages/core/src/utils/streamResponseProcessor.ts:205-230 | the final response holds the lead parts then one call part per call, and the same calls as `functionCalls` |
| StreamResponseProcessor.SharedFinishRule | packages/core/src/utils/streamResponseProcessor.ts:174-236 | a non-null finish reason ends the generator; with slots one more response, with no text part, carries exactly FinalCalls of the slots (drawing ids from after the batch's draws); without slots nothing more is yielded (stated over `StreamResponseProcessor.ProcessChoice`) |
| StreamResponseProcessor.ArkCallsFacts | packages/core/src/generators/ark.ts:363-372 | the Ark copy's calls exist exactly when every argument text parses |
| StreamResponseProcessor.ArkFinishRule | packages/core/src/generators/ark.ts:352-406 | the Ark copy puts the accumulated text first, then a call per slot with id and name; an unparsable argument text is swallowed, nothing is yielded and the generator goes on (stated over `StreamResponseProcessor.ProcessChoice`) |
| StreamResponseProcessor.FinishedPieceEndsRun | packages/core/src/utils/streamResponseProcessor.ts:236 | once a line ends the generator, nothing after it matters, later read errors included |
| StreamResponseProcessor.BufferHoldsTextAfterLastNewline | packages/core/src/utils/streamResponseProcessor.ts:75-77 | after a read the buffer is exactly the text after the last newline and the complete lines are the rest |
| StreamResponseProcessor.Reader.constructor | packages/core/src/utils/streamResponseProcessor.ts:55-58 | a new reader is locked and positioned at its first piece |
| StreamResponseProcessor.Reader.Read | packages/core/src/utils/streamResponseProcessor.ts:72-73 | `done` exactly when every piece was delivered; otherwise the next piece (or its error) is returned and the position advances by one |
| StreamResponseProcessor.Reader.ReleaseLock | packages/core/src/utils/streamResponseProcessor.ts:249-251 | the reader is unlocked |
| StreamResponseProcessor.ProbeFreeKey | packages/core/src/utils/streamResponseProcessor.ts:136-138 | the `index++` loop stops at the first unused key at or above the index |
| StreamResponseProcessor.MergeToolCalls | packages/core/src/utils/streamResponseProcessor.ts:126-169 | the loop over one delta's fragments merges them in order, as the merge rule states |
| StreamResponseProcessor.StoreBatch | packages/core/src/utils/streamResponseProcessor.ts:116-123 | the one-shot loop stores every entry under the current size plus its position |
| StreamResponseProcessor.HandleChoice | packages/core/src/utils/streamResponseProcessor.ts:88-237 | one choice: its content response, its fragments, then the finish check |
| StreamResponseProcessor.HandleLine | packages/core/src/utils/streamResponseProcessor.ts:80-242 | one complete line, skipped or parsed and handled (stated over `StreamResponseProcessor.ProcessLine`) |
| StreamResponseProcessor.HandleLines | packages/core/src/utils/streamResponseProcessor.ts:79-243 | the complete lines of one read, up to the one that ends the generator |
| StreamResponseProcessor.ProcessStreamResponse | packages/core/src/utils/streamResponseProcessor.ts:55-252 | the whole generator: the responses and failure of the model run over the reader's pieces, with the lock released on every path (stated over `StreamResponseProcessor.Run`) |
| ArkGenerator.ToContent | packages/core/src/generators/ark.ts:36-57 | a nested array is refused with its message; a string or a bare part becomes a `user` content holding it; a content is kept as it is |
| ArkGenerator.ToContentList | packages/core/src/generators/ark.ts:28-31 | the conversion succeeds exactly when no element is a nested array, and then keeps the length, order and each element's conversion |
| ArkGenerator.ToContents | packages/core/src/generators/ark.ts:27-34 | an array is converted element by element; anything else becomes a one-element list |
| ArkGenerator.StringListBecomesUserContents | packages/core/src/generators/ark.ts:27-47 | a list of strings becomes one `user` text content per string, in order |
| ArkGenerator.RealOr | packages/core/src/generators/ark.ts:613-615 | `x \|\| d` on a number: zero and absent fall back to the default, anything else is kept |
| ArkGenerator.IntOr | packages/core/src/generators/ark.ts:614 | the same fallback for an integer |
| ArkGenerator.BuildRequest | packages/core/src/generators/ark.ts:607-620 | model and messages copied, not streaming; temperature, max tokens and top-p default to 0.2, 2048 and 1 and are never zero; `tools` and `tool_choice` present exactly when there is a tool, `none` exactly when the calling mode is NONE |
| ArkGenerator.ConvertToArkFormat | packages/core/src/generators/ark.ts:480-623 | the request carries the model, the messages and tools of the shared OpenAI conversion, and the sampling defaults |
| ArkGenerator.ToolFieldsNeedDeclarations | packages/core/src/generators/ark.ts:594-605 | the tool fields appear exactly when some tool group declares a function |
| ArkGenerator.ParseCalls | packages/core/src/generators/ark.ts:662-667 | the calls parse exactly when every argument text (or `{}`) parses, and then keep id, name and order |
| ArkGenerator.ConvertToGeminiResponse | packages/core/src/generators/ark.ts:644-716 | no choice is the "no choices" error; with tool calls the parts are the text (if any) then the calls, `functionCalls` is set and no usage is copied; without them there is exactly one text part, empty for a null content, and the usage is copied |
| ArkGenerator.AgreesWithSharedConverter | packages/core/src/generators/ark.ts:644-716 | where both converters apply, Ark's gives the same candidate and calls as `convertOpenAIResponseToGemini` and differs only in dropping the usage |
| ArkGenerator.TextAnswerHasOnePart | packages/core/src/generators/ark.ts:696-707 | a plain-text answer always has exactly one part, even for a null content |
| ArkGenerator.HeadersFacts | packages/core/src/generators/ark.ts:721-732 | both fixed headers are always present; a custom header replaces the fixed one of the same name, otherwise the fixed values stand |
| ArkGenerator.DropTrailingSlash | packages/core/src/generators/ark.ts:739 | at most one trailing `/` is removed, exactly when there is one |
| ArkGenerator.DropLeadingSlash | packages/core/src/generators/ark.ts:740 | at most one leading `/` is removed, exactly when there is one |
| ArkGenerator.BuildApiUrl | packages/core/src/generators/ark.ts:737-744 | the base (the default when unset) without one trailing `/`, a `/`, and the endpoint without one leading `/` |
| ArkGenerator.UrlJoinIsNormalised | packages/core/src/generators/ark.ts:737-744 | a slash on either side of the join, or on both, gives the same URL with exactly one `/` |
| ArkGenerator.UnsetBaseUsesDefault | packages/core/src/generators/ark.ts:163 | an unset base URL means the Ark default (line 738 of the same file as well) |
| ArkGenerator.NonTextPartKeepsItsSeparator | packages/core/src/generators/ark.ts:749-757 | a non-text part anywhere between other parts counts as empty text but keeps its place between the spaces, leaving the texts on either side two spaces apart (stated over `ArkGenerator.ExtractText`, `ArkGenerator.PartsText`) |
| ArkGenerator.CountTokens | packages/core/src/generators/ark.ts:433 | the estimate is the least count that covers the text at three characters per token |
| ArkGenerator.ValidateArkConfig | packages/core/src/generators/ark.ts:183-204 | the configuration is accepted exactly when it has a model and a key |
| ArkGenerator.ArkOwnChecksAreUnreachable | packages/core/src/generators/ark.ts:183-204 | the base check runs first, so Ark's own key and model messages are never the ones thrown |
| ArkGenerator.StreamSetup | packages/core/src/generators/ark.ts:272-296 | the inline stream loop is the Ark dialect of the stream machine with the fixed `data: ` prefix and `data: [DONE]` sentinel |
| GptOpenApiGenerator.BuildApiUrl | packages/core/src/generators/gpt_openapi.ts:561-575 | the base (the default when unset) loses one trailing `/`; chat completions go to its `crawl` endpoint with the key as `ak`, any other endpoint is appended after a `/` |
| GptOpenApiGenerator.ChatUrlCarriesKey | packages/core/src/generators/gpt_openapi.ts:566-570 | the chat URL ends with the key, and a base with or without a trailing `/` gives the same URL |
| GptOpenApiGenerator.GeneratedLogId | packages/core/src/generators/gpt_openapi.ts:546-547 | a generated log id starts with `gemini-cli-` |
| GptOpenApiGenerator.BuildHeaders | packages/core/src/generators/gpt_openapi.ts:529-556 | the method fills the header record one header at a time and ends with the headers the rules below describe |
| GptOpenApiGenerator.HeadersFacts | packages/core/src/generators/gpt_openapi.ts:529-556 | `Content-Type` and `X-TT-LOGID` are always present; `Authorization` exactly when the Bearer rule or a custom header supplies it; a configured log id is used unless a custom header replaces it; custom headers win (stated over `GptOpenApiGenerator.FixedHeaders`, `GptOpenApiGenerator.SendsBearer`) |
| GptOpenApiGenerator.UnsetBaseSendsBearer | packages/core/src/generators/gpt_openapi.ts:154-155 | with no base URL configured the Bearer header is sent, although the default base is a `byteintl.net` one (line 536 of the same file as well) (stated over `GptOpenApiGenerator.SendsBearer`) |
| GptOpenApiGenerator.CountTokens | packages/core/src/generators/gpt_openapi.ts:373 | the estimate is the least count that covers the text at 3.5 characters per token |
| GptOpenApiGenerator.CountTokensIsCeiling | packages/core/src/generators/gpt_openapi.ts:373 | the integer form equals the ceiling of the real quotient |
| GptOpenApiGenerator.GptTools | packages/core/src/generators/gpt_openapi.ts:465-472 | one tool per tool, name and parameters kept, an empty description replaced by `工具: <name>` |
| GptOpenApiGenerator.ConvertToGptOpenApiFormat | packages/core/src/generators/gpt_openapi.ts:428-500 | the body holds the base conversion's messages unchanged and one re-described tool per declaration |
| GptOpenApiGenerator.ValidateRequest | packages/core/src/generators/gpt_openapi.ts:217-227 | the body is accepted exactly when it has messages and a model; missing messages are reported first, with the streaming or non-streaming message (lines 303-312 of the same file as well) |
| GptOpenApiGenerator.ReplyErrorFacts | packages/core/src/generators/gpt_openapi.ts:239-258 | the message starts with the status line; a JSON body with neither `error` nor `message` adds nothing; a non-JSON body adds itself (lines 326-349 of the same file as well) (stated over `GptOpenApiGenerator.ReplyErrorMessage`) |
| GptOpenApiGenerator.ErrorMessageWins | packages/core/src/generators/gpt_openapi.ts:239-258 | any non-empty string `error.message` is appended after ` - `, whatever the body's own `message` |
| GptOpenApiGenerator.BodyMessageIsFallback | packages/core/src/generators/gpt_openapi.ts:239-258 | without an `error` member, any non-empty string `message` is appended after ` - ` |
| GptOpenApiGenerator.InvalidRequestNeverFetches | packages/core/src/generators/gpt_openapi.ts:217-227 | a body without messages or model is refused, whatever the server would have answered, with the message re-thrown by the error handler (lines 286-289 of the same file as well) (stated over `GptOpenApiGenerator.GenerateContent`) |
| GptOpenApiGenerator.ChoicesCheckedBeforeConversion | packages/core/src/generators/gpt_openapi.ts:281-285 | a successful reply with choices is converted by the shared converter, whose own no-choices error cannot arise here (stated over `GptOpenApiGenerator.GenerateContent`) |
| GptOpenApiGenerator.GenerateContentStream | packages/core/src/generators/gpt_openapi.ts:292-363 | on success the request sent streams, has messages and a model, and the stream setup is the shared dialect under the adapter's API name |
| GptOpenApiGenerator.ValidateGptConfig | packages/core/src/generators/gpt_openapi.ts:177-198 | the configuration is accepted exactly when it has a model and a key |
| GptOpenApiGenerator.GptOwnChecksAreUnreachable | packages/core/src/generators/gpt_openapi.ts:177-198 | the base check runs first, so the adapter's own messages are never the ones thrown |
| BaseGenerator.SystemMessages | packages/core/src/generators/base.ts:120-145 | at most one message, a `system` one carrying the instruction text |
| BaseGenerator.BlankInstructionIsDropped | packages/core/src/generators/base.ts:139-144 | a system message is sent exactly when the instruction text has a non-whitespace character |
| BaseGenerator.TextInstructionJoinsParts | packages/core/src/generators/base.ts:128-136 | a parts-form instruction of text parts is those texts joined with `\n` |
| BaseGenerator.CallsOf | packages/core/src/generators/base.ts:156-159 | the function-call parts' calls, no more than there are parts; their contents and order are stated by CallsMembers and FiltersAppend |
| BaseGenerator.ResponsesOf | packages/core/src/generators/base.ts:162-167 | the function-response parts' responses, no more than there are parts; contents and order by ResponsesMembers and FiltersAppend |
| BaseGenerator.TextsOf | packages/core/src/generators/base.ts:169-172 | the texts of the text parts, no more than there are parts; contents and order by TextsMembers and FiltersAppend |
| BaseGenerator.InlineOf | packages/core/src/generators/base.ts:175-178 | the (mime type, data) of the inline-data parts, no more than there are parts; contents and order by InlineMembers and FiltersAppend |
| BaseGenerator.FiltersAppend | packages/core/src/generators/base.ts:156-178 | each of the four filters keeps the parts' order: the filter of a concatenation is the concatenation of the filters |
| BaseGenerator.FiltersOfOne | packages/core/src/generators/base.ts:156-178 | a single part lands in the filter of its own kind, with its own payload, and in no other |
| BaseGenerator.CallsMembers | packages/core/src/generators/base.ts:156-159 | a call is kept if and only if some part is a function-call part carrying it |
| BaseGenerator.ResponsesMembers | packages/core/src/generators/base.ts:162-167 | a response is kept if and only if some part is a function-response part carrying it |
| BaseGenerator.TextsMembers | packages/core/src/generators/base.ts:169-172 | a text is kept if and only if some part is a text part carrying it |
| BaseGenerator.InlineMembers | packages/core/src/generators/base.ts:175-178 | a (mime type, data) pair is kept if and only if some part is an inline-data part carrying it |
| BaseGenerator.FiltersEmptyIff | packages/core/src/generators/base.ts:156-178 | each filter is empty exactly when no part has its kind |
| BaseGenerator.ToolCallOf | packages/core/src/generators/base.ts:182-189 | a sent tool call has a non-empty id (the call's own, else one starting with `call_`) and the call's name |
| BaseGenerator.ToolCallsOf | packages/core/src/generators/base.ts:182-189 | one tool call per call, in order, the i-th with index i |
| BaseGenerator.ResponseMessages | packages/core/src/generators/base.ts:201-208 | one `tool` message per function response |
| BaseGenerator.DataUrl | packages/core/src/generators/base.ts:232 | the URL is `data:`, the mime type, `;base64,` and the data, in that order and nothing else |
| BaseGenerator.TextSegments | packages/core/src/generators/base.ts:219-224 | one text segment per text part |
| BaseGenerator.ImageSegments | packages/core/src/generators/base.ts:227-236 | one image segment per inline part |
| BaseGenerator.MessageCountIsExact | packages/core/src/generators/base.ts:148-252 | the number of messages is the sum over contents of one (calls, array or text), the number of responses, or zero |
| BaseGenerator.ContentRoles | packages/core/src/generators/base.ts:149-152 | every message carries the content's role with `model` sent as `assistant`, except the `tool` answers (stated over `BaseGenerator.ContentMessages`) |
| BaseGenerator.CallContentMessage | packages/core/src/generators/base.ts:180-198 | a content with function calls gives one message holding every call in part order and the texts joined with `\n` (stated over `BaseGenerator.ContentMessages`) |
| BaseGenerator.ResponseContentMessages | packages/core/src/generators/base.ts:199-208 | without calls, each function response gives one `tool` message, in order, answering that response's id (stated over `BaseGenerator.ContentMessages`) |
| BaseGenerator.ArrayFormIff | packages/core/src/generators/base.ts:209-241 | the array form is used exactly when there are no calls or responses and there is inline data or more than one text; texts come first, then one data URL per inline part |
| BaseGenerator.SingleTextIsPlain | packages/core/src/generators/base.ts:242-251 | a single text part is sent as that plain string |
| BaseGenerator.EmptyContentIsSkipped | packages/core/src/generators/base.ts:180-251 | a content with no call, response, text or inline part gives no message |
| BaseGenerator.ToolCallRoundTrip | packages/core/src/generators/base.ts:182-189 | a sent tool call, parsed back by `parseToolCallArgs`, has its name, its id when it had one, and its arguments, whenever the codec reads back what it wrote |
| BaseGenerator.ConvertToOpenAITools | packages/core/src/generators/base.ts:275-288 | one tool per declaration with the defaults `unknown_function`, `''` and `{}` |
| BaseGenerator.DeclarationsAppend | packages/core/src/generators/base.ts:255-266 | flattening keeps every group's declarations in group order |
| BaseGenerator.FormatMessageCount | packages/core/src/generators/base.ts:113-270 | the translation sends the system message, if any, then exactly the counted messages (stated over `BaseGenerator.OpenAIFormatOf`) |
| BaseGenerator.ConvertContent | packages/core/src/generators/base.ts:148-251 | the loop body builds exactly the messages of one content |
| BaseGenerator.ConvertResponses | packages/core/src/generators/base.ts:199-208 | one tool message per function response, in the order of the parts, each carrying the response's id and serialized body |
| BaseGenerator.BuildSegments | packages/core/src/generators/base.ts:209-241 | every text part as a text segment, then every inline-data part as an image segment with its data URL, in order |
| BaseGenerator.ConvertContents | packages/core/src/generators/base.ts:147-252 | the conversation loop yields the concatenation, in order, of the messages of each content, with the clock drawn once per function call across all contents |
| BaseGenerator.CollectDeclarations | packages/core/src/generators/base.ts:254-266 | every declaration of every tool group that carries a declaration array, group by group, in order |
| BaseGenerator.ConvertToOpenAIFormat | packages/core/src/generators/base.ts:113-270 | the system message, then each content's messages in order, then the tools of every declaration group (stated over `BaseGenerator.OpenAIFormatOf`) |
| BaseGenerator.ValidateConfig | packages/core/src/generators/base.ts:301-308 | accepted exactly when model and key are set; the model is checked first |
| BaseGenerator.HandleHttpError | packages/core/src/generators/base.ts:293-296 | the thrown message names the model and the operation, then carries the cause unchanged |
| Auth.ValidateAuthMethod | packages/cli/src/config/auth.ts:10-53 | personal login always passes; Gemini, Ark and GPT OpenAPI pass exactly when their key variable is set, else their message; Vertex needs project and location or GOOGLE_API_KEY; any other method gets the invalid-method message |
| Auth.ValidatedKeyReachesConfig | packages/cli/src/config/auth.ts:16-50 | a key-based method that validates reaches a configuration carrying that key (Ark may still fail for want of a model, never of a key) |
| Auth.VertexProjectAloneLeavesFlagUnset | packages/cli/src/config/auth.ts:23-36 | Vertex validation accepts project and location without GOOGLE_API_KEY, but the configuration then carries no key and leaves `vertexai` undefined, so the Google client is built with neither |
| ContentGenerator.InitialModel | packages/core/src/core/contentGenerator.ts:50-65 | for Ark the model is empty or starts with `ep-`; for GPT OpenAPI it is never empty; otherwise it is never empty when the default model is not |
| ContentGenerator.CreateContentGeneratorConfig | packages/core/src/core/contentGenerator.ts:34-143 | the record filled branch by branch is exactly the resolved configuration, or the error thrown (stated over `ContentGenerator.ConfigFor`) |
| ContentGenerator.OAuthCarriesNoKey | packages/core/src/core/contentGenerator.ts:72-75 | personal login carries the model and the auth type and nothing else (stated over `ContentGenerator.ConfigFor`) |
| ContentGenerator.MissingKeyCarriesOnlyModel | packages/core/src/core/contentGenerator.ts:77-142 | without the key its auth type needs, the configuration is only the model and the auth type (stated over `ContentGenerator.ConfigFor`) |
| ContentGenerator.ArkWithKey | packages/core/src/core/contentGenerator.ts:103-125 | Ark with a key takes the key and CUSTOM_BASE_URL; a model the `ep-` check emptied is replaced by ARK_MODEL as it stands; the call fails only when that is empty too |
| ContentGenerator.ArkPrefixCheckIsBypassed | packages/core/src/core/contentGenerator.ts:52-58 | an explicit non-Ark model is discarded and an unprefixed ARK_MODEL is then used instead (lines 108-112 of the same file as well) |
| ContentGenerator.GptWithKeyHasModel | packages/core/src/core/contentGenerator.ts:127-140 | GPT OpenAPI with a key never ends up without a model |
| ContentGenerator.GoogleKeysUseProbedModel | packages/core/src/core/contentGenerator.ts:77-101 | Gemini and Vertex keys go through the model probe; `vertexai` is set, to true, exactly when the Vertex key, project and location are all present |
| ContentGenerator.AdapterConfig | packages/core/src/core/contentGenerator.ts:175-187 | the adapter configuration keeps model, key and headers, with the default endpoint when no base URL is set |
| ContentGenerator.CreateContentGenerator | packages/core/src/core/contentGenerator.ts:147-194 | the adapter for each auth type (Code Assist, the Google client with its key and flag, Ark, GPT OpenAPI), the constructors' configuration errors, and the unsupported-type error otherwise |
| ContentGenerator.ResolvedAdapterConfigIsAccepted | packages/core/src/core/contentGenerator.ts:34-194 | whenever an Ark or GPT OpenAPI key is set and the configuration resolves, its adapter is built without error |
| Client.CleanJson | packages/core/src/core/client.ts:46-66 | the cleaned text never starts or ends with whitespace |
| Client.CleanJsonText | packages/core/src/core/client.ts:46-66 | the stage-by-stage cleanup gives exactly the cleaned text |
| Client.UnfencedTextIsTrimmed | packages/core/src/core/client.ts:46-66 | text without a fence at either end is only trimmed |
| Client.OpeningFenceOfBlock | packages/core/src/core/client.ts:51-57 | the opening fence, with or without `json`, goes with the line break after it |
| Client.ClosingFenceOfBlock | packages/core/src/core/client.ts:60-62 | the closing fence goes with the line break before it |
| Client.FencedBlockIsUnwrapped | packages/core/src/core/client.ts:46-66 | a fenced block, with or without the `json` tag, gives back its body |
| Client.ThinkingNeedsGoogleAuth | packages/core/src/core/client.ts:68-71 | thinking is asked only for `gemini-2.5` models, never through Ark, GPT OpenAPI or an unset auth type, and always for a Gemini 2.5 model with a Gemini key (stated over `Client.IsThinkingSupported`) |
| Client.TurnsRun | packages/core/src/core/client.ts:242-274 | the number of turns run never exceeds the budget and is at least one when there is budget |
| Client.SendMessageStream | packages/core/src/core/client.ts:242-274 | the caller's request goes first and every later one is the fixed continuation; each continuation follows a turn that asked for it; the loop stops at the first turn that does not, or when the budget is spent |
| Client.AtMostMaxTurns | packages/core/src/core/client.ts:82 | the default budget of 100 bounds the whole chain of continuations (line 245 of the same file as well) |
| Client.StopsAtFirstQuietTurn | packages/core/src/core/client.ts:259-272 | a turn with pending tool calls, or an aborted one, ends the chain at once |
| Client.FirstEmpty | packages/core/src/core/client.ts:442-450 | the position found is the first empty vector, and there is none when no vector is empty |
| Client.GenerateEmbedding | packages/core/src/core/client.ts:418-451 | empty input gives no vectors; a missing or empty list, a count mismatch and an empty vector are each reported; on success every input has its own non-empty vector in input order |
| Client.EmptyEmbeddingIsTheFirst | packages/core/src/core/client.ts:442-450 | the error names the first empty vector, not a later one |
| Client.Preamble | packages/core/src/core/client.ts:198-207 | every chat starts with a `user` environment entry and a `model` acknowledgement |
| Client.CompressionThreshold | packages/core/src/core/client.ts:489 | unforced compression starts exactly at 95% of the limit, and more tokens never turn it off (stated over `Client.ShouldCompress`) |
| Client.CompressionNeedsCountAndLimit | packages/core/src/core/client.ts:466-491 | without a count or a limit nothing is compressed unless forced; forcing always compresses (stated over `Client.ShouldCompress`) |
| Client.CompressionReport | packages/core/src/core/client.ts:518-523 | the report is given exactly when both counts are known and non-zero, and carries them |
| Client.FallbackConditions | packages/core/src/core/client.ts:530-560 | a fallback happens exactly for personal OAuth, away from a non-flash model, on the handler's consent; it always goes to flash and never twice in a row (stated over `Client.FallbackTarget`) |
| Client.GeminiClient.constructor | packages/core/src/core/client.ts:84-91 | the model comes from the configuration and there is no chat history yet |
| Client.GeminiClient.StartChat | packages/core/src/core/client.ts:194-208 | the new history is the preamble followed by the extra history |
| Client.GeminiClient.TryCompressChat | packages/core/src/core/client.ts:453-524 | an empty history changes nothing; a failed count is thrown; below the threshold nothing changes; a failed summary request is thrown with the history untouched; otherwise the history becomes the preamble, the request and the summary, and then a failed second count is thrown over the already replaced history, or the report follows the two counts |
| Client.GeminiClient.HandleFlashFallback | packages/core/src/core/client.ts:530-560 | the configuration and the client switch to flash together, or neither changes |
| EditTool.RootWithSep | packages/core/src/tools/edit.ts:132-134 | the root with a separator at its end, added only when missing |
| EditTool.ChildIsWithinRoot | packages/core/src/tools/edit.ts:129-139 | the root itself and every path below it are inside (stated over `EditTool.IsWithinRoot`) |
| EditTool.SiblingIsOutsideRoot | packages/core/src/tools/edit.ts:129-139 | a sibling that merely shares the root's name as a prefix (`/rootX` for `/root`) is outside (stated over `EditTool.IsWithinRoot`) |
| EditTool.ValidateToolParams | packages/core/src/tools/edit.ts:146-166 | the first failing check decides: schema, then an absolute path, then containment in the root; no message exactly when all three hold |
| EditTool.PlainSubstitution | packages/core/src/tools/edit.ts:185 | a replacement without `$` is used literally (stated over `EditTool.Substitution`) |
| EditTool.ReplaceAllJsIsLiteralWithoutDollar | packages/core/src/tools/edit.ts:185 | without `$` in the new text, `replaceAll` is the literal replacement of every non-overlapping occurrence |
| EditTool.DollarInNewStringIsInterpreted | packages/core/src/tools/edit.ts:185 | as written, the new text `$$` comes out as a single `$`; taken literally it stays `$$` (stated over `EditTool.ApplyReplacementAsWritten`) |
| EditTool.ApplyReplacement | packages/core/src/tools/edit.ts:168-186 | a new file is the new text; missing content becomes the new text for an empty old text and empty otherwise; an empty old text leaves existing content unchanged |
| EditTool.ReplacementFacts | packages/core/src/tools/edit.ts:185 | the length changes by the occurrence count times the length difference; no occurrence, or equal old and new text, leaves the content as it was |
| EditTool.AsWrittenAgreesWithoutDollar | packages/core/src/tools/edit.ts:168-186 | the code as written and the literal reading agree whenever the new text holds no `$` (stated over `EditTool.ApplyReplacementAsWritten`) |
| EditTool.NormalizeLineEndings | packages/core/src/tools/edit.ts:210 | every CRLF pair becomes LF, the length dropping by one per pair |
| EditTool.LfContentIsUnchanged | packages/core/src/tools/edit.ts:210 | content with no CRLF pair is left as it is |
| EditTool.CalculateEdit | packages/core/src/tools/edit.ts:194-280 | the method's branch-by-branch locals give exactly the edit specified by `EditOf` (the read error rethrown, the normalised content, the corrected strings' replacement and the occurrence check) (stated over `EditTool.EditOf`) |
| EditTool.EditOfAgreesAsWritten | packages/core/src/tools/edit.ts:229-272 | for an existing file, the new content `EditOf` computes is the one the `replaceAll` as written computes whenever the corrected new text holds no `$` |
| EditTool.EditClassification | packages/core/src/tools/edit.ts:215-263 | a missing file with an empty old text is a new file holding the new text; a missing file otherwise is "not found"; an existing file with an empty old text "already exists"; no occurrence, or a count other than the expected one (default 1), is an error (stated over `EditTool.EditOf`) |
| EditTool.ErrorFreeEdits | packages/core/src/tools/edit.ts:199-263 | an edit is error-free exactly when it creates a missing file or finds the expected number of occurrences (stated over `EditTool.EditOf`) |
| EditTool.Snippet | packages/core/src/tools/edit.ts:347-352 | a snippet is at most 33 characters and ends with `...` when the text is longer than 30 |
| EditTool.SingleLineSnippet | packages/core/src/tools/edit.ts:347-352 | a short single line is its own snippet; a long one is its first 30 characters and `...` |
| EditTool.GetDescription | packages/core/src/tools/edit.ts:338-358 | a missing string gives the invalid-parameters text; equal texts give "no file changes"; otherwise the path and both snippets |
| EditTool.CreateDescriptionIsUnreachable | packages/core/src/tools/edit.ts:339-345 | the create description is never returned, since an empty old text is caught by the first check |
| EditTool.CreateUpdatedParams | packages/core/src/tools/edit.ts:469-477 | the user's versions become old and new text; path and expected count are kept |
| EditTool.UpdatedParamsCompose | packages/core/src/tools/edit.ts:469-477 | updating twice is updating once with the second pair, and updating with the current pair changes nothing |
| MemoryTool.TrimAll | packages/core/src/tools/memoryTool.ts:59 | each name of a list is trimmed, in order, none dropped |
| MemoryTool.UpdatedSetting | packages/core/src/tools/memoryTool.ts:56-64 | a non-empty list becomes the trimmed list; a name that is not blank becomes the trimmed name; an empty list or a blank name leaves the setting as it was |
| MemoryTool.ContextFilenames.constructor | packages/core/src/tools/memoryTool.ts:49-54 | the setting starts as the single name `GEMINI.md` |
| MemoryTool.ContextFilenames.SetGeminiMdFilename | packages/core/src/tools/memoryTool.ts:56-64 | the new setting is the update of the old one; afterwards the full list and the current name are the trimmed input, and a stored list is never empty |
| MemoryTool.ContextFilenames.GetAllGeminiMdFilenames | packages/core/src/tools/memoryTool.ts:73-78 | a single name is returned as a one-element list, a list as it is; never empty |
| MemoryTool.ContextFilenames.GetCurrentGeminiMdFilename | packages/core/src/tools/memoryTool.ts:66-71 | the current name is the first of all the names |
| MemoryTool.DropMarkerRun | packages/core/src/tools/memoryTool.ts:129 | the result is a suffix of the input that starts with neither a hyphen nor whitespace |
| MemoryTool.StripListMarkers | packages/core/src/tools/memoryTool.ts:129 | the leading run of hyphens and spaces is removed only when the text starts with a hyphen; other text is unchanged |
| MemoryTool.MemoryText | packages/core/src/tools/memoryTool.ts:127-129 | the stored text starts with neither a hyphen nor whitespace and ends in no whitespace |
| MemoryTool.NewMemoryItem | packages/core/src/tools/memoryTool.ts:127-130 | the item is `- ` followed by that text |
| MemoryTool.ItemTextIsStable | packages/core/src/tools/memoryTool.ts:127-130 | a fact already written as a list item yields the same text again: the marker is not doubled |
| MemoryTool.ItemIsStable | packages/core/src/tools/memoryTool.ts:127-130 | turning an item into an item again gives the same item |
| MemoryTool.NewlineSeparation | packages/core/src/tools/memoryTool.ts:91-98 | empty content gets no separator; otherwise the separator is empty, one or two line breaks |
| MemoryTool.SeparationEndsInBlankLine | packages/core/src/tools/memoryTool.ts:91-98 | non-empty content followed by its separator always ends in a blank line |
| MemoryTool.SectionEnd | packages/core/src/tools/memoryTool.ts:149-154 | the section ends at the first second-level header after its start, or at the end of the file when there is none |
| MemoryTool.NewSectionIsAppended | packages/core/src/tools/memoryTool.ts:143-146 | without a header the old content is kept as a prefix and the header and the item are appended (stated over `MemoryTool.WithEntry`) |
| MemoryTool.HeadIsKept | packages/core/src/tools/memoryTool.ts:147-167 | with a header, everything up to and including it is kept and the file ends in exactly one newline (stated over `MemoryTool.WithEntry`, whose existing-header branch is `MemoryTool.SectionWithItem`) |
| MemoryTool.FollowingSectionsAreKept | packages/core/src/tools/memoryTool.ts:151-167 | the sections after the memory section follow it unchanged, up to trailing whitespace (stated over `MemoryTool.WithEntry`, whose existing-header branch is `MemoryTool.SectionWithItem`) |
| MemoryTool.ItemIsAdded | packages/core/src/tools/memoryTool.ts:147-167 | with a header, the new item appears on a line of its own (stated over `MemoryTool.WithEntry`, whose existing-header branch is `MemoryTool.SectionWithItem`) |
| MemoryTool.SectionBodyIsKept | packages/core/src/tools/memoryTool.ts:147-167 | with a header, the result starts with everything up to the header, a line break, the section's existing entries (trimmed at both ends, followed by a line break unless the section was blank) and then the new item: earlier memories stay in place and the item is appended after them |
| MemoryTool.AddMemoryEntry | packages/core/src/tools/memoryTool.ts:111-179 | a directory or write failure becomes the wrapped error; success means neither failed |
| MemoryTool.WrittenContentHasSection | packages/core/src/tools/memoryTool.ts:132-169 | the content written always holds the memory section header |
| MemoryTool.ItemIsRecorded | packages/core/src/tools/memoryTool.ts:127-169 | a fact with text left after stripping is written as a line of its own |
| MemoryTool.PerformAddMemoryEntry | packages/core/src/tools/memoryTool.ts:111-179 | the step-by-step construction yields exactly the specified written content or error |
| MemoryTool.Execute | packages/core/src/tools/memoryTool.ts:181-211 | success gives the JSON success message and the saved text; failure the JSON error with its detail and the error display |
| ReadManyFiles.ValidateParams | packages/core/src/tools/read-many-files.ts:204-248 | the checks fail in the source's order: a missing or empty path list, then the schema, then a blank path, then a malformed include list, then a malformed exclude list; no error exactly when all pass |
| ReadManyFiles.StringList | packages/core/src/tools/read-many-files.ts:290-296 | a list of strings is read item by item, in order; a missing list is empty |
| ReadManyFiles.ValidRequestHasPatterns | packages/core/src/tools/read-many-files.ts:204-232 | an accepted request always has at least one search pattern and no blank path (line 314 of the same file as well) |
| ReadManyFiles.DefaultExcludes | packages/core/src/tools/read-many-files.ts:76-113 | the fixed exclusions, unchanged and in order, followed by exactly one for the current context filename |
| ReadManyFiles.EffectiveExcludes | packages/core/src/tools/read-many-files.ts:258-261 | a pattern is excluded exactly when it comes from the request, the ignore file, or the defaults when they are on (lines 310-312 of the same file as well) |
| ReadManyFiles.ExcludeOrder | packages/core/src/tools/read-many-files.ts:258-261 | the defaults come first, then the request's exclusions, then the ignore-file patterns (lines 310-312 of the same file as well) |
| ReadManyFiles.CountAllIn | packages/core/src/tools/read-many-files.ts:266-270 | every ignore-file pattern is in effect, so the count in the note is the number of those patterns |
| ReadManyFiles.ExcludeDescription | packages/core/src/tools/read-many-files.ts:263-273 | with ignore-file patterns, the exclusion text ends with the note counting them |
| ReadManyFiles.GetDescription | packages/core/src/tools/read-many-files.ts:250-276 | the description names every search pattern, joined in order |
| ReadManyFiles.BelowIrreflexive | packages/core/src/tools/read-many-files.ts:378 | no path sorts before itself |
| ReadManyFiles.BelowAsymmetric | packages/core/src/tools/read-many-files.ts:378 | two paths never sort before each other |
| ReadManyFiles.BelowTransitive | packages/core/src/tools/read-many-files.ts:378 | the sort order is transitive |
| ReadManyFiles.BelowTotal | packages/core/src/tools/read-many-files.ts:378 | any two different paths are ordered one way or the other |
| ReadManyFiles.Insert | packages/core/src/tools/read-many-files.ts:361-378 | adding a path to a sorted set keeps it sorted and adds exactly that path |
| ReadManyFiles.SortedIsUnique | packages/core/src/tools/read-many-files.ts:378 | two sorted lists without duplicates holding the same paths are equal |
| ReadManyFiles.SiblingPassesSecurityCheck | packages/core/src/tools/read-many-files.ts:347 | as written, a sibling directory sharing the target's name as a prefix passes the check although it is outside the target (stated over `ReadManyFiles.SecurityCheckAsWritten`, `ReadManyFiles.InsideTarget`) |
| ReadManyFiles.InsideTargetIsContainment | packages/core/src/tools/read-many-files.ts:347 | the corrected check admits the target's descendants, rejects siblings, and admits nothing the written check rejects (stated over `ReadManyFiles.InsideTarget`, `ReadManyFiles.SecurityCheckAsWritten`) |
| ReadManyFiles.ConsideredFiles | packages/core/src/tools/read-many-files.ts:345-378 | the files read are sorted, free of duplicates, and exactly the entries inside the target and not git-ignored |
| ReadManyFiles.GlobOrderIsIrrelevant | packages/core/src/tools/read-many-files.ts:378 | the files read do not depend on the order or repetition of the search results |
| ReadManyFiles.SecuritySkips | packages/core/src/tools/read-many-files.ts:346-353 | the entries skipped by the security check are exactly the search results outside the target, each with the security reason |
| ReadManyFiles.ChecksDisagreeOnlyOnSiblings | packages/core/src/tools/read-many-files.ts:347 | the prefix test as written and the corrected containment check disagree exactly on a path extending the target's name (without a trailing separator) by a character other than `/` |
| ReadManyFiles.FilterAsWrittenWithoutSiblings | packages/core/src/tools/read-many-files.ts:344-378 | when glob returns no such sibling, the files read are exactly the entries passing the prefix test as written and not git-ignored, and no skipped entry passes it |
| ReadManyFiles.GitIgnoredCount | packages/core/src/tools/read-many-files.ts:355-359 | at most the number of entries are counted as git-ignored, and none when ignoring is off |
| ReadManyFiles.CollectFiles | packages/core/src/tools/read-many-files.ts:344-378 | the collection loop yields exactly the considered files and the specified skipped items |
| ReadManyFiles.BaseName | packages/core/src/tools/read-many-files.ts:389 | the base name holds no separator |
| ReadManyFiles.ExtName | packages/core/src/tools/read-many-files.ts:388 | an extension is empty or starts with a dot |
| ReadManyFiles.UnrequestedMediaIsNotRead | packages/core/src/tools/read-many-files.ts:387-402 | an image or PDF not asked for by name or extension is skipped without being read (stated over `ReadManyFiles.Step`, `ReadManyFiles.RequestedExplicitly`) |
| ReadManyFiles.TextFileContribution | packages/core/src/tools/read-many-files.ts:411-426 | a text file read without error adds its content between the separator line and a blank line (stated over `ReadManyFiles.Step`, `ReadManyFiles.Separator`, `ReadManyFiles.RelativePath`) |
| ReadManyFiles.ExtensionSelectsMedia | packages/core/src/tools/read-many-files.ts:390-394 | a pattern holding the file's extension, ignoring case, asks for that file (stated over `ReadManyFiles.RequestedExplicitly`) |
| ReadManyFiles.Steps | packages/core/src/tools/read-many-files.ts:380-440 | each file considered has exactly one outcome |
| ReadManyFiles.EveryFileIsAccountedFor | packages/core/src/tools/read-many-files.ts:380-440 | every file is either read, adding one part and one processed path, or skipped |
| ReadManyFiles.ProcessFiles | packages/core/src/tools/read-many-files.ts:380-440 | the per-file loop yields exactly the specified parts, processed paths and skipped items |
| ReadManyFiles.ProcessedSectionCount | packages/core/src/tools/read-many-files.ts:443-457 | at most ten processed files are listed |
| ReadManyFiles.SkippedSectionCount | packages/core/src/tools/read-many-files.ts:459-475 | at most five skipped items are listed |
| ReadManyFiles.ListedAtMost | packages/core/src/tools/read-many-files.ts:442-481 | the summary lists the smaller of the processed count and ten, plus the smaller of the skipped count and five |
| ReadManyFiles.ProcessedAreListed | packages/core/src/tools/read-many-files.ts:445-456 | up to ten processed files are each listed; beyond ten the remainder is counted |
| ReadManyFiles.AppendLines | packages/core/src/tools/read-many-files.ts:447-449 | appending lines one by one gives their concatenation |
| ReadManyFiles.ProcessedText | packages/core/src/tools/read-many-files.ts:443-457 | the processed-files part of the summary is the specified section |
| ReadManyFiles.SkippedText | packages/core/src/tools/read-many-files.ts:459-481 | the skipped-items part of the summary is the specified section |
| ReadManyFiles.AssembleDisplay | packages/core/src/tools/read-many-files.ts:442-481 | the summary is header, processed section and skipped section |
| ReadManyFiles.WithPlaceholder | packages/core/src/tools/read-many-files.ts:483-487 | the parts are never empty: the placeholder is added only when nothing was read |
| ReadManyFiles.ResultFor | packages/core/src/tools/read-many-files.ts:322-491 | a completed search always answers with a non-empty list of parts |
| ReadManyFiles.ExecuteResult | packages/core/src/tools/read-many-files.ts:278-491 | invalid parameters give the invalid-parameters answer; a list of parts is never empty |
| ReadManyFiles.ValidParamsReachTheGlob | packages/core/src/tools/read-many-files.ts:314-376 | with valid parameters the search runs with the effective exclusions; a failing search gives the search error, a succeeding one a non-empty list of parts |
| ReadManyFiles.Execute | packages/core/src/tools/read-many-files.ts:278-491 | the step-by-step method gives exactly the specified answer |

## Left out

- Network and transport: `fetch`, the body reader, `TextDecoder`, timeouts, the User-Agent header and async-generator plumbing. The stream is a sequence of decoded string pieces or read errors.
- `JSON.parse` and `JSON.stringify` are uninterpreted functions over an abstract JSON value; a parse failure is a `Failure`.
- Clock and randomness: generated call ids, log ids and timestamps are drawn from an `Entropy` parameter; the model only relies on them being non-empty where the source makes them so.
- Logging, the API log files written by the GPT adapter, and telemetry (`recordFileOperationMetric`).
- File-system effects: the memory tool's directory creation, read and write are outcomes passed in; the home directory and `path.join` of the memory file path are not modelled.
- `path.normalize`, `path.resolve` and `path.relative` are a parameter or a plain prefix removal; backslash conversion on Windows is not modelled.
- glob, git-ignore filtering, `detectFileType` and `processSingleFileContent` are parameters of the multi-file reader; `packages/core/src/utils/fileUtils.ts` is not part of this model.
- `ensureCorrectEdit` (a model call) is a parameter of `calculateEdit`; the confirmation dialog, diff rendering and the file write of the edit tool are not modelled.
- The chat object, `checkNextSpeaker`, `retryWithBackoff`, `tokenLimit` and `getEffectiveModel` are parameters or outcomes; the events yielded by `sendMessageStream` and its per-turn compression call are not modelled, only its turn budget.
- `loadEnvironment` and `process.env`: the environment is an explicit map of names to values.
- Strings are sequences of characters: UTF-16 code units, surrogate pairs and locale case mapping are not distinguished; lower-casing is ASCII only.
- Floating point: the token estimates are integer ceilings, and the compression threshold compares `100 * count` with `95 * limit`.
- ReadManyFiles.ToRequest: a falsy `include` or `exclude` that is not an array is treated as absent; the unused `recursive` parameter and the `?? config` fallback for `respect_git_ignore` are not modelled: the parameter is a boolean that defaults to `true` when absent, and the explicit `null` that would reach the configured value is not represented.
- ReadManyFiles.GetDescription: states only that every search pattern is named; the rest of the text is given by its definition.
- EditTool.EditOf: the new content is the literal replacement `EditTool.ApplyReplacement`, the corrected behaviour logged under Findings, not the `$`-expanding `replaceAll` of `packages/core/src/tools/edit.ts:185`; that reading is `EditTool.ApplyReplacementAsWritten`, and `EditTool.EditOfAgreesAsWritten` shows the two agree whenever the corrected new text holds no `$`.
- EditTool.CalculateEdit: computes `EditTool.EditOf`, so the same literal replacement applies.
- ReadManyFiles.ConsideredFiles: uses the corrected containment check `ReadManyFiles.InsideTarget`, logged under Findings, instead of the bare `startsWith` of `packages/core/src/tools/read-many-files.ts:347`; `ReadManyFiles.ChecksDisagreeOnlyOnSiblings` names the only paths where the two differ and `ReadManyFiles.FilterAsWrittenWithoutSiblings` shows the results coincide without them.
- ReadManyFiles.SecuritySkips: uses the corrected containment check, as above; a sibling path the code as written would read is skipped here.
- ReadManyFiles.GitIgnoredCount: counts only entries inside the target by the corrected check, as above.
- ReadManyFiles.CollectFiles: runs the collection loop with the corrected check, as above; the relative path `path.relative` gives a sibling (`../app-secrets/...`) is therefore never needed and not modelled.
- ReadManyFiles.ResultFor: builds on `ReadManyFiles.CollectFiles`, so it answers with the corrected check, as above.
- ReadManyFiles.ExecuteResult: builds on `ReadManyFiles.ResultFor`, with the corrected check.
- ReadManyFiles.Execute: computes `ReadManyFiles.ExecuteResult`, with the corrected check.
- The Google GenAI SDK is not modelled: what `new GoogleGenAI` does with an undefined `vertexai` (it consults `GOOGLE_GENAI_USE_VERTEXAI` in the environment) is outside the model, which records only the options passed to it.
- `DEFAULT_ENCODING` is a parameter of the description, its module being outside this model.

Observations about the source that the model states as written:

- The batch rule of the shared stream processor stores entry `i` at key `size + i`; after a reindex that key can already be taken, and `Map.set` then replaces that slot (`StreamResponseProcessor.BatchCanOverwriteSlot`).
- Vertex validation accepts a project and location without `GOOGLE_API_KEY`, but the configuration built from the same environment only sets `vertexai` with that key; without it the flag is left undefined (`Auth.VertexProjectAloneLeavesFlagUnset`).
- `tryCompressChat` catches none of its three calls: a failing first token count or summary request reaches the caller with the chat untouched, and a failing second token count reaches the caller after the chat was already replaced by the summary; the model follows the code (`Client.GeminiClient.TryCompressChat`).
- The separator line of the multi-file reader is built with `String.prototype.replace`, so `$` patterns in a relative path are expanded; the text-file lemma is stated for a path without `$`.

## Findings

| source | as written | input that shows it | evidently intended | confidence | as-written member | corrected member |
|---|---|---|---|---|---|---|
| packages/core/src/tools/edit.ts:185 | `replaceAll` with a string replacement expands `$$`, `$&` and the other `$` patterns of the new text | content `a`, old text `a`, new text `$$` gives `$` | the new text is inserted literally | not executed | EditTool.DollarInNewStringIsInterpreted | EditTool.ApplyReplacement |
| packages/core/src/tools/read-many-files.ts:347 | the security check is `startsWith(targetDir)` without a separator | `/work/app-secrets/key.txt` with target `/work/app` passes | only the target and paths below it pass | not executed | ReadManyFiles.SiblingPassesSecurityCheck | ReadManyFiles.InsideTargetIsContainment |
