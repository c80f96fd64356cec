# xiao_wan: the string and list core, modelled in Dafny

xiao_wan is a fork of wire-pod, the voice server for the Anki Vector robot. It adds a
chat assistant that talks through the robot. This project models the part of it that sits
between the language model's reply and the robot. Each part is listed below with its module.

- **Command extraction** (`Commands`). A reply is split on `{{`, `}}` and `||` into spoken
  texts and animation commands. Command names are resolved against the registry. The prompt
  that advertises the registry is built here. The extracted actions are then dispatched to
  the robot, and the robot calls are recorded as a trace.
- **Chat history** (`ChatHistory`). There is one remembered chat per robot serial number
  (ESN). A chat holds at most 16 messages, and a full chat drops its oldest exchange first.
  `ChatStore` is a class whose `chats` field is replaced in place or appended to.
- **Sentence segmentation** (`Segmenter`). This is one step of the streaming loop: append a
  delta, choose a sentence mark by fixed priority, cut off one sentence. The module also has
  the end-of-stream join and the `". "` chunking of the knowledge-graph speech loop.
- **Memory plugin** (`Memory`).
  - The `type|detail|memory` record encoding and the decoding of search results.
  - The request checks and dispatch of `Execute`.
  - The first-occurrence de-duplication of `HydrateUserMemories`.
  - The vector database and the embedding service are function parameters (`insert`,
    `search`).
- **Plugin registry** (`Plugins`).
  - `Registry` is a class over the map from plugin ID to plugin.
  - Loading registers the `.so` files of a directory listing.
  - Lookup, the `CallPlugin` response envelope, and the function-definition list.
- **Conversation** (`Conversation`).
  - The global message log of the assistant, as the `Assistant` class.
  - `Message`, `restartConversation` and the recursive `handleFunctionCall` over a scripted
    chat-completion service and the plugin registry.
  - Parsing the HTTP status code out of an error text.
- **Localization** (`Localization`). The phrase table, the grammar key list, and `GetText`'s
  mapping from language to column.
- **Whisper audio** (`Whisper`). PCM padding to the minimum clip length, the little-endian
  `int16` samples, and the model language derived from the locale.
- **Configuration** (`Config`). A value record with getters and copy-returning setters.

Three support modules are shared by the rest:
- `GoStrings`: Go's `strings` functions over code points — `TrimSpace`, `Index`, `Split`,
  `Join`, `TrimSuffix`.
- `Folds`: left-to-right traversals of a sequence, and their laws.
- `Wrappers`: the `Option` and `Result` datatypes.

A Go panic from an index out of range in the command parser (`GetActionsFromString`) is modelled as a `Failure` value. Other panics and `log.Fatalf` calls, which end the process, are not modelled; see Left out. A Go
`(value, error)` pair is modelled as a `Result`, or as a record whose error is an `Option`.

## Model

| member | source | states |
|---|---|---|
| Commands.FindCommand | chipper/pkg/wirepod/ttr/kgsim_cmds_xiao_wan.go:131-138 | It finds the first registry entry whose name equals the command. It finds none exactly when no entry has that name. |
| Commands.CmdParamToAction | chipper/pkg/wirepod/ttr/kgsim_cmds_xiao_wan.go:130-143 | The result is kind -1 with no parameter exactly when no registry entry has the name. Otherwise it is the first matching entry's kind with the parameter attached. The kind is always -1, 1 or 2. |
| Commands.SpanActions | chipper/pkg/wirepod/ttr/kgsim_cmds_xiao_wan.go:169-182 | A command span without the command/parameter separator fails, because indexing the parameter is out of range. Otherwise the result is the resolved command, dropped when unknown, then the trimmed text after the span. That text is emitted even when it is empty. |
| Commands.SegmentActions | chipper/pkg/wirepod/ttr/kgsim_cmds_xiao_wan.go:156-183 | A white-space segment gives no action. A segment without `}}` gives one spoken action of its trimmed text. A segment with `}}` gives the span actions of the text before the first `}}`, followed by the text between the first and second `}}`. |
| Commands.SpanActionsShape | chipper/pkg/wirepod/ttr/kgsim_cmds_xiao_wan.go:169-182 | A span yields at most two actions, each a spoken text or an animation. |
| Commands.SegmentActionsShape | chipper/pkg/wirepod/ttr/kgsim_cmds_xiao_wan.go:156-183 | A segment yields at most two actions, each a spoken text or an animation. |
| Commands.ActionsOfSegmentsShape | chipper/pkg/wirepod/ttr/kgsim_cmds_xiao_wan.go:155-184 | There are at most two actions per segment, and no sound action. The parse fails exactly when some segment fails. |
| Commands.ActionsOfSegmentsAppend | chipper/pkg/wirepod/ttr/kgsim_cmds_xiao_wan.go:156-184 | Actions follow the left-to-right order of the segments. |
| Commands.GetActionsFromString | chipper/pkg/wirepod/ttr/kgsim_cmds_xiao_wan.go:145-185 | A reply without `{{` is one spoken action of the whole reply, untrimmed. Otherwise every `{{`-piece is handled as a segment, in order. |
| Commands.ExtractedKinds | chipper/pkg/wirepod/ttr/kgsim_cmds_xiao_wan.go:95-114 | The sound command is not registered, so no extracted action is a sound. |
| Commands.CreatePrompt | chipper/pkg/wirepod/ttr/kgsim_cmds_xiao_wan.go:116-128 | The prompt starts with the original prompt and the fixed rules. Without commands it is exactly that. With commands it ends with the registry's blocks. |
| Commands.CommandBlocksOrder | chipper/pkg/wirepod/ttr/kgsim_cmds_xiao_wan.go:122-125 | Each entry's block sits between the blocks of the entries before and after it. |
| Commands.RegistryBlocks | chipper/pkg/wirepod/ttr/kgsim_cmds_xiao_wan.go:122-125 | The registry contributes its two blocks, in registry order. |
| Commands.LookupPairFirstMatch | chipper/pkg/wirepod/ttr/kgsim_cmds_xiao_wan.go:206-225 | An animation name resolves to the first map entry with that name. It resolves to nothing exactly when no entry has the name. |
| Commands.PerformActions | chipper/pkg/wirepod/ttr/kgsim_cmds_xiao_wan.go:359-379 | Every action is dispatched in order. There is at most one robot call per action. |
| Commands.PerformedAt | chipper/pkg/wirepod/ttr/kgsim_cmds_xiao_wan.go:359-379 | The calls of action k sit between those of its neighbours. An empty text is skipped and a non-empty text is spoken. An animation is played only when the map has it. A sound or an unknown kind makes no call. |
| ChatHistory.FindChat | chipper/pkg/wirepod/ttr/kgsim_xiao_wan.go:21-30 | It finds the first chat whose ESN matches. It finds none exactly when no chat has that ESN. |
| ChatHistory.FindChatAt | chipper/pkg/wirepod/ttr/kgsim_xiao_wan.go:21-30 | The first position holding the ESN is the one found. |
| ChatHistory.ChatOf | chipper/pkg/wirepod/ttr/kgsim_xiao_wan.go:21-30 | The chat returned always carries the requested ESN. |
| ChatHistory.PlacedThenFound | chipper/pkg/wirepod/ttr/kgsim_xiao_wan.go:32-41 | After placing a chat, looking its robot up gives that chat. |
| ChatHistory.PlacedKeepsOthers | chipper/pkg/wirepod/ttr/kgsim_xiao_wan.go:32-41 | Placing a chat leaves every other robot's chat unchanged. |
| ChatHistory.PlacedKeepsDistinct | chipper/pkg/wirepod/ttr/kgsim_xiao_wan.go:32-41 | Robots stay distinct. The count grows by one exactly when the robot was new. |
| ChatHistory.RememberedShape | chipper/pkg/wirepod/ttr/kgsim_xiao_wan.go:44-69 | The chat ends with the user message then the assistant message. A full chat first loses exactly its two oldest messages, and the other 14 keep their order. |
| ChatHistory.RememberKeepsBounded | chipper/pkg/wirepod/ttr/kgsim_xiao_wan.go:44-69 | If every chat holds an even number of messages, at most 16, that still holds after remembering an exchange. |
| ChatHistory.ChatStore.GetChat | chipper/pkg/wirepod/ttr/kgsim_xiao_wan.go:21-30 | The linear search returns the specified chat. |
| ChatHistory.ChatStore.PlaceChat | chipper/pkg/wirepod/ttr/kgsim_xiao_wan.go:32-41 | The first chat of the robot is replaced in place, or the chat is appended. The store is saved only when the chat is appended. A valid store stays valid when the chat placed is whole and holds at most 16 messages. |
| ChatHistory.PlacedKeepsBounded | chipper/pkg/wirepod/ttr/kgsim_xiao_wan.go:32-41 | Placing a whole chat of at most 16 messages keeps every chat in the store whole and at most 16 messages long. |
| ChatHistory.ChatStore.DropOldestExchange | chipper/pkg/wirepod/ttr/kgsim_xiao_wan.go:56-66 | The copying loop keeps every message after the first two, in order. |
| ChatHistory.ChatStore.Remember | chipper/pkg/wirepod/ttr/kgsim_xiao_wan.go:44-70 | The store becomes the specified store. Chats stay bounded and robots distinct. The robot's chat is the remembered one. |
| Segmenter.SeparatorShape | chipper/pkg/wirepod/ttr/kgsim_xiao_wan.go:229-253 | Every mark is non-empty, and begins and ends with a non-space character, so trimming keeps it. |
| Segmenter.FirstContained | chipper/pkg/wirepod/ttr/kgsim_xiao_wan.go:229-253 | The chosen mark is the first in priority order that occurs anywhere in the buffer. There is none exactly when no mark occurs. |
| Segmenter.ChooseSeparator | chipper/pkg/wirepod/ttr/kgsim_xiao_wan.go:229-253 | The mark chosen for the buffer is the first of the priority list that occurs anywhere in it. There is none exactly when no mark occurs. |
| Segmenter.Step | chipper/pkg/wirepod/ttr/kgsim_xiao_wan.go:226-259 | A delta completes a sentence exactly when some mark occurs. Otherwise the buffer is just extended. |
| Segmenter.StepCuts | chipper/pkg/wirepod/ttr/kgsim_xiao_wan.go:254-259 | With a chosen mark, the step cuts the trimmed buffer on that mark. |
| Segmenter.CutPieces | chipper/pkg/wirepod/ttr/kgsim_xiao_wan.go:255-259 | The sentence is the trimmed text before the first occurrence, plus the mark. The new buffer is the text between the first and second occurrences. |
| Segmenter.StepSentence | chipper/pkg/wirepod/ttr/kgsim_xiao_wan.go:255-259 | The sentence is the trimmed text before the mark, plus the mark. The new buffer is a prefix of the rest. It is all of the rest exactly when the mark does not occur again. |
| Segmenter.StepLosesText | chipper/pkg/wirepod/ttr/kgsim_xiao_wan.go:255-259 | When the mark occurs twice, the sentence and the new buffer together are shorter than the trimmed text. |
| Segmenter.ChooseQuestionMark | chipper/pkg/wirepod/ttr/kgsim_xiao_wan.go:229-253 | A text with no full stop but with a question mark is cut on the question mark. |
| Segmenter.StepLosesTextExample | chipper/pkg/wirepod/ttr/kgsim_xiao_wan.go:255-259 | The delta `a?b?c` speaks `a?` and keeps `b`. The text after the second mark is lost. |
| Segmenter.StepKeep | chipper/pkg/wirepod/ttr/kgsim_xiao_wan.go:255-259 | The corrected step. The text before the mark, the mark, and the new buffer concatenate to the trimmed text. |
| Segmenter.Segmented | chipper/pkg/wirepod/ttr/kgsim_xiao_wan.go:226-265 | The buffer and sentences after a sequence of deltas, starting from an empty buffer, folding the as-written step. Its properties are stated by `Segmenter.SegmentedSentences`. |
| Segmenter.SegmentedSentences | chipper/pkg/wirepod/ttr/kgsim_xiao_wan.go:226-265 | Each delta completes at most one sentence, and every sentence ends with a mark. |
| Segmenter.ConsumeStream | chipper/pkg/wirepod/ttr/kgsim_xiao_wan.go:186-265 | The receive loop computes the specified buffer and sentences, with the step as written. |
| Segmenter.JoinSentences | chipper/pkg/wirepod/ttr/kgsim_xiao_wan.go:194-207 | The saved reply is the sentences joined by single spaces, or empty when there are none. |
| Segmenter.Utterances | chipper/pkg/wirepod/ttr/kgsim_xiao_wan.go:568-573 | There is one utterance per `". "`-piece: the piece with a full stop appended. |
| Segmenter.UtterancesRecover | chipper/pkg/wirepod/ttr/kgsim_xiao_wan.go:568-573 | Removing the appended stops and joining with `". "` gives the text back. |
| Segmenter.SpeakChunks | chipper/pkg/wirepod/ttr/kgsim_xiao_wan.go:568-583 | The utterances are said in order. Speaking stops right after the first one the robot fails on, and every earlier one succeeded. |
| Memory.Query | chipper/plugins/xiao_wan/plugins/source/builtin/memory/plugin.go:225 | The query text is the stored record followed by a comma. |
| Memory.Combined | chipper/plugins/xiao_wan/plugins/source/builtin/memory/plugin.go:190 | The stored record is the type, the detail and the memory, separated by bars. `Memory.DecodeStored` proves decoding gives the fields back. |
| Memory.Decoded | chipper/plugins/xiao_wan/plugins/source/builtin/memory/plugin.go:250-269 | There is one result per record, the records coming from a comma-split when exactly one field is returned. |
| Memory.DecodeResults | chipper/plugins/xiao_wan/plugins/source/builtin/memory/plugin.go:250-269 | The index-filling loop produces the specified decoding. A record with fewer than three bar-separated parts is left as the zero value. |
| Memory.DecodeCombined | chipper/plugins/xiao_wan/plugins/source/builtin/memory/plugin.go:188-190 | A stored record of fields without bars or commas decodes to those fields, trimmed. |
| Memory.DecodeStored | chipper/plugins/xiao_wan/plugins/source/builtin/memory/plugin.go:250-269 | Records of plain memories decode to the trimmed memories, in order. This holds whether they are returned as one field or as several. |
| Memory.SetMemoryFailsWithError | chipper/plugins/xiao_wan/plugins/source/builtin/memory/plugin.go:188-222 | `setMemory` reports failure exactly when the insert returns an error. |
| Memory.SetMemory | chipper/plugins/xiao_wan/plugins/source/builtin/memory/plugin.go:188-222 | The record is stored with the insert service. The outcome is stated by `Memory.SetMemoryFailsWithError`. |
| Memory.FormatResults | chipper/plugins/xiao_wan/plugins/source/builtin/memory/plugin.go:161 | The `%v` text of the result list is bracketed by `[` and `]`. |
| Memory.Cleaned | chipper/plugins/xiao_wan/plugins/source/builtin/memory/plugin.go:422-424 | There is one cleaned memory per result. A memory without a trailing comma is kept as it is. A memory with one loses exactly that final comma. |
| Memory.GetMemory | chipper/plugins/xiao_wan/plugins/source/builtin/memory/plugin.go:224-272 | It searches for the query of the item and decodes the fields, or returns the search error. |
| Memory.DedupSpec | chipper/plugins/xiao_wan/plugins/source/builtin/memory/plugin.go:410-430 | The de-duplicated list has no duplicates and holds exactly the strings of the input. |
| Memory.DedupPrefix | chipper/plugins/xiao_wan/plugins/source/builtin/memory/plugin.go:410-430 | First occurrences keep their order: a prefix of the input de-duplicates to a prefix of the output. |
| Memory.DedupSnoc | chipper/plugins/xiao_wan/plugins/source/builtin/memory/plugin.go:425-428 | A further string is kept exactly when it was not seen before. |
| Memory.AddUnique | chipper/plugins/xiao_wan/plugins/source/builtin/memory/plugin.go:422-429 | The inner loop keeps the list equal to the de-duplication of everything seen. The set of keys equals the set of strings seen. |
| Memory.CollectMemories | chipper/plugins/xiao_wan/plugins/source/builtin/memory/plugin.go:415-430 | The search loop returns the de-duplicated memories of all searches, or the specified error. |
| Memory.CollectStep | chipper/plugins/xiao_wan/plugins/source/builtin/memory/plugin.go:415-430 | A successful search extends the collected memories by its cleaned results. |
| Memory.CollectFails | chipper/plugins/xiao_wan/plugins/source/builtin/memory/plugin.go:417-420 | After successful searches, a failing search fails the whole collection with its error. |
| Memory.FirstFailure | chipper/plugins/xiao_wan/plugins/source/builtin/memory/plugin.go:415-420 | The collection fails with the error of the first failing search. |
| Memory.HydrateUserMemories | chipper/plugins/xiao_wan/plugins/source/builtin/memory/plugin.go:364-438 | The method returns the specified prompt or search error. |
| Memory.HydratedPrompt | chipper/plugins/xiao_wan/plugins/source/builtin/memory/plugin.go:410-437 | The prompt is the fixed prefix, then the memories joined by `", "`. Each memory found appears once, in first-found order. |
| Memory.Execute | chipper/plugins/xiao_wan/plugins/source/builtin/memory/plugin.go:119-173 | The method returns the specified reply, including the loop that stops at the first failed store. |
| Memory.MemoriesRequired | chipper/plugins/xiao_wan/plugins/source/builtin/memory/plugin.go:133-135 | Any request type except `hydrate`, with no memories, gets the fixed message and no error. Unknown types are included. |
| Memory.UnknownRequest | chipper/plugins/xiao_wan/plugins/source/builtin/memory/plugin.go:170-171 | An unknown type with memories gets the fixed usage message and no error. |
| Memory.GetUsesFirst | chipper/plugins/xiao_wan/plugins/source/builtin/memory/plugin.go:153-161 | A get request searches with its first memory only. It asks for five results when the request gives 0. |
| Memory.SetStopsAtFirstError | chipper/plugins/xiao_wan/plugins/source/builtin/memory/plugin.go:138-151 | A set request succeeds exactly when every store succeeds. Otherwise the reply is the error of the first failing store. |
| Plugins.LastDot | chipper/plugins/xiao_wan/plugins/plugins.go:57 | It finds the last `.` of the final path element, or none. |
| Plugins.Ext | chipper/plugins/xiao_wan/plugins/plugins.go:57 | The extension is empty, or a suffix of the name that starts with `.`. |
| Plugins.ExtSharedObject | chipper/plugins/xiao_wan/plugins/plugins.go:57 | A file is loaded exactly when its name ends in `.so`. |
| Plugins.SharedObjects | chipper/plugins/xiao_wan/plugins/plugins.go:56-64 | Only files with the `.so` extension are kept. |
| Plugins.LoadingIgnoresOthers | chipper/plugins/xiao_wan/plugins/plugins.go:56-64 | Files without the `.so` extension play no part in loading. |
| Plugins.LoadingKeyedById | chipper/plugins/xiao_wan/plugins/plugins.go:90 | Every plugin is registered under its own ID. |
| Plugins.LoadingStep | chipper/plugins/xiao_wan/plugins/plugins.go:56-64 | A failing `.so` file ends loading with its error. Any other file is registered or skipped, and loading goes on. |
| Plugins.LoadingFails | chipper/plugins/xiao_wan/plugins/plugins.go:56-64 | Loading fails exactly when some `.so` file fails to load. |
| Plugins.LoadingFirstFailure | chipper/plugins/xiao_wan/plugins/plugins.go:59-62 | The error returned is that of the first `.so` file that fails. |
| Plugins.LoadingSnoc | chipper/plugins/xiao_wan/plugins/plugins.go:90 | A further plugin is stored under its ID. It replaces an earlier plugin with that ID and leaves the other entries unchanged. |
| Plugins.Registry.LoadPlugins | chipper/plugins/xiao_wan/plugins/plugins.go:35-67 | The registry is emptied first. A failed listing leaves it empty with that error. Otherwise the registry and error are those of loading the listing in order. |
| Plugins.Registry.LoadSinglePlugin | chipper/plugins/xiao_wan/plugins/plugins.go:70-92 | It registers the plugin under its ID, or returns the load error and changes nothing. |
| Plugins.Registry.GetPluginByID | chipper/plugins/xiao_wan/plugins/plugins.go:129-132 | It reports a plugin exactly when `IsPluginLoaded` holds, and the plugin is the registered one. |
| Plugins.Registry.IsPluginLoaded | chipper/plugins/xiao_wan/plugins/plugins.go:123-126 | A plugin is loaded exactly when its ID is a key of the registry. `Plugins.Registry.GetPluginByID` is stated in terms of it. |
| Plugins.Registry.CallPlugin | chipper/plugins/xiao_wan/plugins/plugins.go:95-120 | An unknown ID gives the not-found error and no result. A known ID gives the execute error, or else the result, never both. |
| Plugins.Registry.GenerateOpenAIFunctionsDefinition | chipper/plugins/xiao_wan/plugins/plugins.go:140-150 | There is exactly one definition per loaded plugin, in an iteration order that visits each ID once. The listed definitions are exactly the loaded plugins' definitions. |
| Plugins.DefinitionsCover | chipper/plugins/xiao_wan/plugins/plugins.go:140-150 | Definitions listed along an order that visits every loaded ID are exactly the loaded plugins' definitions: none is missing and none is extra. |
| Conversation.AnsweredShape | chipper/plugins/xiao_wan/xiao_wan.go:91-107 | A turn uses a suffix of the script and appends only function-message pairs. An error comes with empty content. Success returns the content of the last reply used, which is a plain answer. |
| Conversation.Answered | chipper/plugins/xiao_wan/xiao_wan.go:91-107 | One request and the function calls it leads to. Its properties are stated by `Conversation.AnsweredShape` and `Conversation.FailedTurnIsEmpty`. |
| Conversation.CalledShape | chipper/plugins/xiao_wan/xiao_wan.go:110-138 | An unknown function fails and appends nothing. A loaded plugin's call is appended first, then its response, and the request is made again. |
| Conversation.Called | chipper/plugins/xiao_wan/xiao_wan.go:110-138 | A function call, then the request made again. Its properties are stated by `Conversation.CalledShape`. |
| Conversation.FailedTurnIsEmpty | chipper/plugins/xiao_wan/xiao_wan.go:91-107 | A failed turn returns empty content. |
| Conversation.PairsPrepend | chipper/plugins/xiao_wan/xiao_wan.go:125-126 | A call of a loaded plugin followed by its response, put before function pairs, keeps them pairs. |
| Conversation.Assistant.AppendMessage | chipper/plugins/xiao_wan/xiao_wan.go:45-51 | It appends exactly one message at the end and changes nothing else. |
| Conversation.Assistant.ResetConversation | chipper/plugins/xiao_wan/xiao_wan.go:54-56 | The log becomes empty. |
| Conversation.Assistant.SendRequestToOpenAI | chipper/plugins/xiao_wan/xiao_wan.go:141-157 | It takes the next scripted reply, or fails once the script is used up. The log is unchanged. |
| Conversation.Assistant.HandleFunctionCall | chipper/plugins/xiao_wan/xiao_wan.go:110-138 | The log, script, content and error become those of the specified call turn. |
| Conversation.Assistant.SendMessage | chipper/plugins/xiao_wan/xiao_wan.go:91-107 | The log, script, content and error become those of the specified turn. |
| Conversation.Assistant.RestartConversation | chipper/plugins/xiao_wan/xiao_wan.go:59-71 | The log becomes the system prompt, the turn's function messages, then the assistant reply. The reply is appended even when the request fails. |
| Conversation.Assistant.Message | chipper/plugins/xiao_wan/xiao_wan.go:74-88 | The user message is appended first. The assistant reply is appended only when the turn succeeds. A failed turn returns empty content with the error. |
| Conversation.FirstMatch | chipper/plugins/xiao_wan/xiao_wan.go:187-189 | It finds the leftmost position where `status code: ` is followed by a digit. |
| Conversation.DigitRun | chipper/plugins/xiao_wan/xiao_wan.go:187 | `\d+` takes the longest run of digits. |
| Conversation.Atoi | chipper/plugins/xiao_wan/xiao_wan.go:190 | The digits' value, saturated at the largest 64-bit `int`. |
| Conversation.ParseOpenAIError | chipper/plugins/xiao_wan/xiao_wan.go:184-196 | The code is between 0 and the largest `int`. It is 0 when nothing matches. |
| Conversation.ParseStatusCode | chipper/plugins/xiao_wan/xiao_wan.go:184-196 | A code written after the first `status code: ` is read back exactly. |
| Conversation.DecimalRoundTrip | chipper/plugins/xiao_wan/xiao_wan.go:190 | Reading the decimal text of a number gives the number back. |
| Conversation.OpenAIError | chipper/plugins/xiao_wan/xiao_wan.go:199-211 | The invalid-key advice is given exactly for status 401. Every other code, 0 included, gets the default branch. |
| Localization.Column | chipper/pkg/wirepod/localization/localization.go:120-146 | The column is always within the 11 columns of a row. |
| Localization.ColumnOfListed | chipper/pkg/wirepod/localization/localization.go:123-142 | The listed languages read columns 1 to 10, in list order. |
| Localization.ColumnOfOthers | chipper/pkg/wirepod/localization/localization.go:120-146 | Every other language reads column 0, `en-US` and the empty string included. |
| Localization.ColumnsDistinct | chipper/pkg/wirepod/localization/localization.go:123-142 | Two languages share a non-zero column only when they are the same language. |
| Localization.RowsComplete | chipper/pkg/wirepod/localization/localization.go:82-118 | Every row of the table has 11 entries. |
| Localization.AllStrCovered | chipper/pkg/wirepod/localization/localization.go:43-78 | Every grammar key has a row in the table. |
| Localization.GetText | chipper/pkg/wirepod/localization/localization.go:120-146 | It returns the key's phrase in the language's column. |
| Whisper.MinDurationValue | chipper/pkg/wirepod/stt/whisper.cpp/WhisperCpp.go:23-26 | The minimum clip is 16320 samples, which is 32640 bytes. |
| Whisper.Zeros | chipper/pkg/wirepod/stt/whisper.cpp/WhisperCpp.go:37 | A new byte slice is all zeros. |
| Whisper.PadPCMSpec | chipper/pkg/wirepod/stt/whisper.cpp/WhisperCpp.go:22-40 | The input is a prefix of the result and every added byte is 0. The result holds at least 16320 samples. A long enough clip comes back unchanged. An even-length short clip comes out at exactly 32640 bytes. |
| Whisper.PadPCM | chipper/pkg/wirepod/stt/whisper.cpp/WhisperCpp.go:22-40 | A short clip is padded with zero samples up to the minimum. Its properties are stated by `Whisper.PadPCMSpec`. |
| Whisper.Sample | chipper/pkg/wirepod/stt/whisper.cpp/WhisperCpp.go:114 | The little-endian `int16` lies in [-32768, 32768). |
| Whisper.SampleRoundTrip | chipper/pkg/wirepod/stt/whisper.cpp/WhisperCpp.go:114 | Encoding and decoding a sample are mutual inverses. |
| Whisper.BytesToFloat32Buffer | chipper/pkg/wirepod/stt/whisper.cpp/WhisperCpp.go:110-117 | There is one value per whole sample, and value i times 32768 is the sample of bytes 2i and 2i+1. Every value lies in [-1, 1). |
| Whisper.SttLanguage | chipper/pkg/wirepod/stt/whisper.cpp/WhisperCpp.go:50-55 | The language is `en` for an empty locale. Otherwise it is the text before the first `-`. |
| Whisper.SttLanguageOfLocale | chipper/pkg/wirepod/stt/whisper.cpp/WhisperCpp.go:50-55 | A locale `aa-BB` gives `aa`. |
| Config.NewDefaults | chipper/plugins/xiao_wan/config/config.go:24-40 | The getters report the fixed placeholder defaults. |
| Config.New | chipper/plugins/xiao_wan/config/config.go:24-40 | The placeholder defaults, as `Config.NewDefaults` states. |
| Config.Cfg.OpenAiAPIKey | chipper/plugins/xiao_wan/config/config.go:43-45 | The OpenAI key. `Config.SetEndpointGet` and `Config.SetCollectionGet` prove the setters leave it alone. |
| Config.Cfg.OpenAibaseURL | chipper/plugins/xiao_wan/config/config.go:47-49 | The OpenAI base URL. The setters leave it alone. |
| Config.Cfg.OpenWeatherMapAPIKey | chipper/plugins/xiao_wan/config/config.go:51-53 | The weather service key. The setters leave it alone. |
| Config.Cfg.MalvusApiEndpoint | chipper/plugins/xiao_wan/config/config.go:56-58 | The Milvus endpoint. `Config.SetEndpointGet` proves it reports the value last set. |
| Config.Cfg.SetMalvusApiEndpoint | chipper/plugins/xiao_wan/config/config.go:61-64 | A copy with another endpoint. The receiver is a value and is unchanged. `Config.SetEndpointGet` and `Config.SettersAlgebra` state its effect. |
| Config.Cfg.MalvusCollectionName | chipper/plugins/xiao_wan/config/config.go:67-69 | The Milvus collection. `Config.SetCollectionGet` proves it reports the value last set. |
| Config.Cfg.SetMalvusCollectionName | chipper/plugins/xiao_wan/config/config.go:72-75 | A copy with another collection. The receiver is a value and is unchanged. `Config.SetCollectionGet` and `Config.SettersAlgebra` state its effect. |
| Config.SetEndpointGet | chipper/plugins/xiao_wan/config/config.go:61-64 | The endpoint getter sees the new value, and every other getter is unchanged. |
| Config.SetCollectionGet | chipper/plugins/xiao_wan/config/config.go:72-75 | The collection getter sees the new value, and every other getter is unchanged. |
| Config.SettersAlgebra | chipper/plugins/xiao_wan/config/config.go:61-75 | Setting the current value back changes nothing. The two setters commute. The later of two settings wins. |

## Left out

- Robot SDK calls, including `SayText`, `PlayAnimation` and behaviour control, become a trace of `RobotCall` values. The text-to-speech audio pipeline of `DoSayText_cn_xiao_wan` is not modelled: the speech request, the file handling and `ffmpeg`.
- Goroutines and channels are not modelled. This covers the streaming goroutine, the `speakReady` signal, the idle animation loop, and the stop flags shared between goroutines. Only the sequential step, the end-of-stream join and the speech loop are modelled.
- The chat-completion service is a script of replies. Each request takes the next reply, and a request after the last reply fails with `no reply`. So the model's reply does not depend on the log it is sent, and the function definitions sent with it are not modelled.
- Milvus and the embedding service become the `insert` and `search` parameters. Embeddings, the collection schema and `getStringSliceFromColumn` are not modelled. A failed embedding request, which makes `embeddings.Data[0]` panic, is not modelled either.
- `MemoryResult`'s score is never set by `getMemory`, so it is left out. `FormatResults` prints it as its zero value, `0`.
- JSON is not modelled: the decoded arguments, `Request` and the file list are inputs.
- `Plugins.Marshal`: JSON string escaping is not modelled. `CallPlugin`'s marshalling error (`plugins.go:114-117`) and the error check after it (`xiao_wan.go:122-124`) cannot happen for a record of two strings, so they are not modelled.
- Loading a `.so` file is not modelled: `plugin.Open`, the symbol lookup, the type assertion and `Init` become one precomputed outcome per file. The `runtime.Caller` failure of `LoadPlugins` is folded into the failed directory listing. `GetAllPlugins` only returns the map and is not modelled.
- `Start` is not modelled: it only wires `LoadPlugins`, `GenerateOpenAIFunctionsDefinition` and `restartConversation` together. The printing of `openaiError` is modelled as the `ErrorAdvice` value it selects.
- `Conversation.Assistant.HandleFunctionCall`: the source recursion has no depth bound. In the model it ends because every request uses one reply from a finite script.
- `Memory.Execute`: the `Failed to set a memory` branch is kept, but `setMemory` never reports failure without an error, so it cannot be reached.
- `Whisper.BytesToFloat32Buffer`: the values are exact reals, not `float32`. Each sample divided by 32768 is exactly representable in `float32`, so nothing is lost.
- Strings are sequences of Unicode code points, while Go works on UTF-8 bytes. For valid UTF-8, searching, splitting and trimming give the same pieces either way.
- `vars.SaveChats` writes the store to disk; the model only counts saves, in `ChatStore.saves`.
- `GetText` and the whisper language read the configured language from global state; in the model it is a parameter. The rest of whisper's `Init` and `STT` is not modelled: model files, the whisper context and transcription.
- Localization.GetText: requires the key to have a row in `texts`. In the source, a missing key gives a nil row and `data[0]` panics (`localization.go:121,145`). `Localization.AllStrCovered` proves every key the grammar uses has a row.
- Commands.PerformActions: a failing robot call is not modelled. In the source, a text-to-speech failure in `DoSayText_cn_xiao_wan` calls `panic` or `log.Fatalf` (`kgsim_cmds_xiao_wan.go:288-336`). That ends the process and the rest of the actions are not performed.
- `ReloadVosk` and the `cmd/*/main.go` entry points are not modelled.
- The `head`, `arm`, `home`, `eyes`, `time` and `weather` plugins are not modelled, and neither is `certs.go`.

The header comment of the `texts` table lists nine language columns after `en-US` and omits `zh-CN`. The code reads `zh-CN` from column 6, and every row has 11 entries. The model follows the code.

The segmenter is meant to lose no text. As written, a delta that completes two sentences with the same mark drops the text after the second mark (see Findings). `Segmenter.Step` models the code as written. The receive loop, `Segmenter.ConsumeStream` and `Segmenter.Segmented`, also folds the as-written step. `Segmenter.StepKeep` is the corrected step, with its no-loss property proved.

## Findings

| source | as written | input that shows it | evidently intended | confidence | as-written member | corrected member |
|---|---|---|---|---|---|---|
| chipper/pkg/wirepod/ttr/kgsim_xiao_wan.go:255-259 | The new buffer is `splitResp[1]`: only the text between the first and second occurrences of the mark. Anything after a second occurrence is neither spoken nor kept. | Empty buffer, delta `"A? B? C"`: speaks `"A?"`, keeps `" B"`, and `"? C"` is lost. | The new buffer is everything after the first occurrence. | not executed | Segmenter.StepLosesTextExample | Segmenter.StepKeep |
