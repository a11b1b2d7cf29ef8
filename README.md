# skid-homework core, modelled in Dafny

skid-homework is a browser application. A student uploads photos of homework, and AI sources
(Gemini or OpenAI configurations) return the problems with answers and explanations. A chat
page lets the student talk to a source about the work. This project models the application's
state and the decisions around it. It then proves what those decisions guarantee.

The modelled state:

- **Problems store.** The uploaded file items, in order. The insertion-ordered map from an
  image URL to its solution, which is where streamed output accumulates. The selection and
  busy flags.
- **AI store.** The list of AI sources and the id of the active source. The queries that pick
  the source a request goes to. The rule that elects a new active id when the active source is
  removed.
- **Settings store.** Preferences, the keyboard shortcut map, and the one-time choice of
  interface language. The migration of persisted settings from older versions.
- **Chat store.** The in-memory thread list, kept newest first. Each chat's messages, kept
  oldest first.

The modelled logic:

- **AI clients.** The OpenAI and Gemini clients. They collect system prompts, build the request
  for an image or a conversation, and assemble the reply from streamed chunks.
- **Chat page.** Titles for new chats, the thread search, which source a chat uses, the guards
  on sending, the history sent to the AI, how the streamed reply fills its placeholder, and
  forking a chat.
- **Improve-solution dialog.** The order in which it offers a problem to the sources. The run
  that tries each source until one reply parses.
- **Markdown renderer.** How a code element's language is read from its class. When a diagram
  block counts as complete while a reply is still streaming.
- **Function plot.** How the JSON of a function-plot block is normalised. The defaults each
  plotted item receives.

Each store is a `class` whose fields its methods reassign. The shared `Valid()` invariants
are: the solution map is a well-formed ordered map, threads are newest first, each chat's
messages are oldest first, and every shortcut action has a binding. Every method keeps these
invariants. The AI store's intended invariant, that the active source id names an existing
source whenever there are sources, is kept by removing, toggling and selecting sources, and by
updates that leave ids alone. Adding a source to an empty list breaks it (see "## Findings"). The
settings page never empties the list, because it refuses to remove the last source, so only a
direct call of the store's actions reaches that state.

The pure logic is written as functions, each with lemmas that relate it to an independent
description. Loops in the source are methods with invariants, proved against such functions:
the clients' conversion loops, the streamed-reply aggregation, the removal of solutions by
URL, and the improve dialog's try-each-source loop.

`JsText` models the JavaScript string operations the code relies on: `trim`,
`replace(/\s+/g, " ")`, `toLowerCase` on ASCII, `includes`, `slice` and truthiness.
`OrderedMap` models the insertion order of a JavaScript `Map`. `Seqs` holds `filter`, `find`,
a stable insertion sort standing for `Array.prototype.sort`, and their lemmas.

## Model

| member | source | states |
|---|---|---|
| ProblemsStore.PatchItem | src/store/problems-store.ts:112-117 | each field of `{ ...item, ...updates }` is the update's when the update carries it, else the item's |
| ProblemsStore.PatchItemIdempotent | src/store/problems-store.ts:112-117 | applying the same update twice equals applying it once |
| ProblemsStore.StatusPatch | src/store/problems-store.ts:100-117 | `updateItemStatus` is `updateFileItem` with a status-only update |
| ProblemsStore.MergeSolution | src/store/problems-store.ts:205-215 | the merged solution takes each carried field from the update; a success status clears the streamed output whatever the update says |
| ProblemsStore.AppendChunk | src/store/problems-store.ts:230-234 | the streamed output becomes the old output (or "") followed by the chunk; all other fields are kept |
| ProblemsStore.AppendChunkTwice | src/store/problems-store.ts:225-237 | streaming chunk a, then chunk b, leaves the same solution as streaming a+b once |
| ProblemsStore.AppendAfterClear | src/store/problems-store.ts:225-261 | after `clearStreamedOutput`, the next chunk becomes the whole output |
| ProblemsStore.ReviseProblem | src/store/problems-store.ts:143-149 | only the problem at the index changes: it gets the new answer, explanation and steps and keeps its problem text |
| ProblemsStore.Store.constructor | src/store/problems-store.ts:81-87 | empty items, empty solution map, no selected image, problem 0, not working |
| ProblemsStore.Store.AddFileItems | src/store/problems-store.ts:94-95 | the old items are a prefix; the new items follow in order |
| ProblemsStore.Store.UpdateItemStatus | src/store/problems-store.ts:100-105 | items with the id get the status; every other item is unchanged and none move |
| ProblemsStore.Store.UpdateFileItem | src/store/problems-store.ts:112-117 | items with the id are merged with the update; every other item is unchanged and none move |
| ProblemsStore.Store.RemoveImageItem | src/store/problems-store.ts:122-125 | the items become the id-filtered list |
| ProblemsStore.Store.UpdateProblem | src/store/problems-store.ts:130-158 | a missing URL leaves the map unchanged; otherwise only that entry's problem list is revised, and key order is kept |
| ProblemsStore.Store.ClearAllItems | src/store/problems-store.ts:163 | no items remain |
| ProblemsStore.Store.AddSolution | src/store/problems-store.ts:171-183 | an existing URL is never overwritten; a new URL is appended last in key order |
| ProblemsStore.Store.UpdateSolution | src/store/problems-store.ts:193-218 | a missing URL leaves the map unchanged; otherwise the entry becomes the merge, in place |
| ProblemsStore.Store.AppendStreamedOutput | src/store/problems-store.ts:225-237 | a missing URL leaves the map unchanged; otherwise the entry gets the chunk appended, in place |
| ProblemsStore.Store.ClearStreamedOutput | src/store/problems-store.ts:245-261 | a missing URL leaves the map unchanged; otherwise the entry's streamed output becomes null |
| ProblemsStore.Store.RemoveSolutionsByUrls | src/store/problems-store.ts:267-274 | the item-by-item deletes leave exactly the map without those URLs, with the remaining keys in their old order |
| OrderedMap.KeysWithoutOrder | src/store/problems-store.ts:267-274 | the keys left after the deletes are a subsequence of the old keys, so they keep their order |
| ProblemsStore.Store.ClearAllSolutions | src/store/problems-store.ts:279 | the map is empty |
| ProblemsStore.Store.SetSelectedImage | src/store/problems-store.ts:284 | the selected image is the argument |
| ProblemsStore.Store.SetSelectedProblem | src/store/problems-store.ts:289 | the selected problem index is the argument |
| ProblemsStore.Store.SetWorking | src/store/problems-store.ts:294 | the busy flag is the argument |
| ProblemsStore.ItemsWithoutId | src/store/problems-store.ts:124 | an item is kept exactly when it was there and has another id; no such item means no change |
| ProblemsStore.ItemsWithoutIdAppend | src/store/problems-store.ts:124 | filtering a concatenation filters each part, so relative order is kept |
| ProblemsStore.ItemsWithoutIdIdempotent | src/store/problems-store.ts:124 | removing the same id twice removes nothing more |
| AiStore.CreateDefaultSources | src/store/ai-store.ts:88-114 | two sources with different ids: an enabled Gemini source that takes over the legacy key, address, model, traits and budget (8192 by default), and a disabled keyless OpenAI source that can never take a request |
| AiStore.CreateClientForSource | src/store/ai-store.ts:116-130 | no client exactly when the key is missing or empty; otherwise a client of the source's provider with its key, its address and, for Gemini, its thinking budget |
| AiStore.EnabledSources | src/store/ai-store.ts:231-232 | the subsequence of sources that are enabled and have a key |
| AiStore.HasActiveKey | src/store/ai-store.ts:236-238 | true exactly when some source is usable |
| AiStore.AllowPdfUpload | src/store/ai-store.ts:240-244 | true exactly when some usable source is a Gemini one |
| AiStore.SourceById | src/store/ai-store.ts:234 | a source is found exactly when one has the id, and it is the first source with that id |
| AiStore.ActiveSource | src/store/ai-store.ts:209-229 | the active source if usable; else the first usable source; else the first source; none only for an empty list |
| AiStore.ActiveSourceUsable | src/store/ai-store.ts:209-238 | the picked source is usable exactly when `hasActiveKey` is true |
| AiStore.ClientForSourceMeaning | src/store/ai-store.ts:246-258 | with a non-empty id, the client of the first source with that id, or none when no source has it; without one, a client whenever some source is usable, built from the active source when it is usable and else from the first usable one; with no usable source, the first source's client, which exists exactly when that source has a key even if it is disabled; a client always carries the key of some source |
| AiStore.PatchSource | src/store/ai-store.ts:173 | each field of `{ ...source, ...updates }` is the update's when carried, else the source's |
| AiStore.Reelect | src/store/ai-store.ts:183-188 | the first enabled remaining source's id, else the first remaining id, else "gemini-default"; with sources left it always names one of them |
| AiStore.SourcesWithoutId | src/store/ai-store.ts:179-181 | the subsequence of sources with another id |
| AiStore.Store.constructor | src/store/ai-store.ts:153-154 | the default sources with "gemini-default" active; the active id names a source |
| AiStore.Store.AddSource | src/store/ai-store.ts:156-168 | the new source is appended under the fresh id, which is returned; the active id stays valid, except when starting from no sources, where it is valid only if it equals the fresh id |
| AiStore.Store.AddSourceKeepingActive | src/store/ai-store.ts:156-168 | the corrected `addSource`: the same append, and from an empty list the new source also becomes active, so the active id names a source afterwards whenever it did before |
| AiStore.AddAfterEmptyingExample | src/store/ai-store.ts:156-194 | removing both built-in sources by direct store calls and then adding one leaves "gemini-default" active while no source has that id |
| AiStore.Store.UpdateSource | src/store/ai-store.ts:170-175 | sources with the id are patched and the rest unchanged; the active id stays valid unless the update renames ids |
| AiStore.Store.RemoveSource | src/store/ai-store.ts:177-194 | the sources are filtered; removing the active source re-elects the active id, removing another keeps it; the active id stays valid |
| AiStore.Store.ToggleSource | src/store/ai-store.ts:196-201 | sources with the id get the flag and the rest are unchanged; the active id stays valid |
| AiStore.Store.SetActiveSource | src/store/ai-store.ts:203-207 | the id becomes active exactly when some source has it; otherwise nothing changes |
| SettingsStore.DefaultsBindEveryAction | src/store/settings-store.ts:19-27 | the default shortcut map binds exactly the seven actions |
| SettingsStore.PrefersZh | src/store/settings-store.ts:91-93 | true exactly when a navigator language exists and starts with "zh" in either case |
| SettingsStore.Migrate | src/store/settings-store.ts:126-150 | the result binds every action; before version 3 it uses the defaults; from version 3 a stored binding wins over the default; a missing hint flag takes its default; a missing initialised flag is true; every other key passes through |
| SettingsStore.MigrateIdempotent | src/store/settings-store.ts:126-150 | migrating a migrated object again changes nothing |
| SettingsStore.Store.constructor | src/store/settings-store.ts:67-76 | the initial preferences, with the default shortcut map and the language not yet initialised |
| SettingsStore.Store.SetImageEnhancement | src/store/settings-store.ts:78 | the flag is the argument |
| SettingsStore.Store.SetShowQwenHint | src/store/settings-store.ts:79 | the flag is the argument |
| SettingsStore.Store.SetThemePreference | src/store/settings-store.ts:80 | the theme is the argument |
| SettingsStore.Store.SetLanguage | src/store/settings-store.ts:81-85 | the language is the argument and counts as initialised |
| SettingsStore.Store.InitializeLanguage | src/store/settings-store.ts:86-98 | the language becomes initialised; an initialised language is never changed; otherwise it is Chinese exactly when the navigator prefers it |
| SettingsStore.Store.SetKeybinding | src/store/settings-store.ts:99-105 | the action gets the binding, every other binding is kept, and every action stays bound |
| SettingsStore.Store.ResetKeybindings | src/store/settings-store.ts:106 | the bindings are the defaults |
| SettingsStore.Store.SetTraits | src/store/settings-store.ts:107 | the traits are the argument |
| SettingsStore.Store.SetExplanationMode | src/store/settings-store.ts:108 | the mode is the argument |
| SettingsStore.Store.SetDevtoolsState | src/store/settings-store.ts:109 | the devtools flag is the argument |
| ChatStore.SortThreadsByUpdated | src/store/chat-store.ts:55-56 | the result is newest first and a permutation of the input |
| ChatStore.SortThreadsStable | src/store/chat-store.ts:55-56 | threads with equal update times keep their relative order, as the stable `sort` keeps them |
| ChatStore.SortThreadsSorted | src/store/chat-store.ts:55-56 | an already newest-first list is unchanged |
| ChatStore.SortMessagesByCreated | src/store/chat-store.ts:68 | the result is oldest first and a permutation of the input |
| ChatStore.MessagesWithoutId | src/store/chat-store.ts:65 | exactly the messages with another id, each as often as before, in order |
| ChatStore.MergeMessage | src/store/chat-store.ts:58-73 | only the chat's entry changes, and it is created if missing; the new list is oldest first, holds the message once, replaces every message with its id, and keeps all others |
| ChatStore.MergedList | src/store/chat-store.ts:63-68 | the filtered, appended and sorted list has the properties stated for `MergeMessage` |
| ChatStore.TouchThreads | src/store/chat-store.ts:179-183 | threads with the chat id get the new update time; the rest are unchanged; nothing moves |
| ChatStore.PatchThread | src/store/chat-store.ts:240-242 | each patchable field is the update's when carried; id and creation time are kept |
| ChatStore.PatchThreads | src/store/chat-store.ts:240-242 | threads with the chat id are patched; without an update time, no update time changes |
| ChatStore.PatchKeepsOrder | src/store/chat-store.ts:243-250 | a patch without an update time leaves a newest-first list newest first, which is why no re-sort is needed |
| ChatStore.ReplaceMessage | src/store/chat-store.ts:220-222 | messages with the id are replaced by the stored record; the rest are unchanged |
| ChatStore.PrepareMessage | src/store/chat-store.ts:158-165 | the record belongs to the chat, has no error, keeps role and content, and uses the given id and time or the fresh ones |
| ChatStore.PrepareMessages | src/store/chat-store.ts:120-128 | one record per input, in order, each prepared with its own fresh id and time |
| ChatStore.Store.constructor | src/store/chat-store.ts:75-78 | no threads, no messages, not hydrated |
| ChatStore.Store.LoadThreads | src/store/chat-store.ts:80-91 | the threads are the database listing; the store is hydrated |
| ChatStore.Store.LoadMessages | src/store/chat-store.ts:93-105 | the chat's entry is the listing, which is also returned; other chats are unchanged |
| ChatStore.Store.CreateChat | src/store/chat-store.ts:107-155 | the new thread is created and updated at `now` and sorted into the list; the chat's messages are written, sorted, only when there are initial messages |
| ChatStore.Store.AppendMessage | src/store/chat-store.ts:157-192 | the prepared message is returned and merged into its chat; its thread moves to the message's time and the list is re-sorted |
| ChatStore.Store.UpdateMessage | src/store/chat-store.ts:194-235 | without a stored record nothing changes and the result is null; otherwise the record replaces the message and the list is re-sorted; the thread moves only for a truthy `createdAt` |
| ChatStore.Store.UpdateThread | src/store/chat-store.ts:237-252 | the thread is patched; the list is re-sorted only when the update carries `updatedAt`; threads stay newest first |
| ChatStore.Store.RenameChat | src/store/chat-store.ts:254-266 | the thread gets the title and the timestamp; the list is re-sorted |
| ChatStore.Store.DeleteChat | src/store/chat-store.ts:268-289 | as written: the thread leaves the list, and the messages record is copied whole, so the deleted chat's messages remain |
| ChatStore.Store.DeleteChatAndMessages | src/store/chat-store.ts:279-288 | as intended: the thread leaves the list and exactly the chat's key leaves the messages record |
| ChatStore.Store.ClearAllChats | src/store/chat-store.ts:291-307 | no threads, no messages, hydrated |
| ChatStore.ThreadsWithoutId | src/store/chat-store.ts:280-282 | the subsequence of threads with another id |
| ChatStore.SubsequenceNewestFirst | src/store/chat-store.ts:280-282 | a subsequence of a newest-first list is newest first |
| ChatStore.ThreadsWithoutIdOrder | src/store/chat-store.ts:280-282 | deleting a thread keeps the list newest first |
| AiClient.TurnsSingle | src/ai/openai.ts:118-133 | one message becomes no turn when blank, else one turn of its trimmed text and its role |
| AiClient.TurnsAppend | src/ai/openai.ts:118-133 | converting a conversation piece by piece equals converting it whole |
| AiClient.TurnsAreFilterMap | src/ai/gemini.ts:156-166 | the conversion keeps the messages with text, trims them, and makes each one a turn, in order |
| AiClient.ChunksFacts | src/ai/openai.ts:152-163 | every chunk passed to the callback is non-empty, and skipping the empty chunks loses nothing of the reply |
| AiClient.Stream | src/ai/gemini.ts:117-124 | the callbacks receive the non-empty chunks in order, and the result is their concatenation |
| OpenAi.NormalizeBaseUrl | src/ai/openai.ts:12-15 | the address, or the public root, loses exactly one trailing slash when it has one, else is unchanged |
| OpenAi.NormalizeBaseUrlExamples | src/ai/openai.ts:12-15 | a missing address gives the public root; a doubled slash loses only one |
| OpenAi.Client.constructor | src/ai/openai.ts:21-28 | the client keeps the key and the normalised address, and has no system prompts |
| OpenAi.Client.AddSystemPrompt | src/ai/openai.ts:30-32 | the prompt is appended |
| OpenAi.Client.SetAvailableTools | src/ai/openai.ts:34-38 | exactly one prompt is added: the tools heading and the joined tool prompts; the joined system prompt grows by that prompt after a blank line |
| OpenAi.Client.SendMedia | src/ai/openai.ts:43-90 | a system message with the joined prompts, then a user message with the text prompt when it is truthy and the image as a base64 data address with detail "auto"; the reply is the trimmed concatenation of the deltas |
| OpenAi.Client.SendChat | src/ai/openai.ts:95-136 | as written: the system prompt is pushed onto the caller's array, and that whole array is converted, so the prompt goes out last |
| OpenAi.Client.SendChatPromptFirst | src/ai/openai.ts:100-136 | as intended: the system message first, then the converted conversation |
| OpenAi.Client.ExecuteStream | src/ai/openai.ts:141-164 | a streaming request for the model and messages; the callbacks get the non-empty deltas; the reply is their trimmed concatenation |
| OpenAi.ConvertHistory | src/ai/openai.ts:118-133 | the loop skips blank messages and trims the rest, keeping their roles; this equals the reference conversion |
| OpenAi.SendChatPromptLast | src/ai/openai.ts:103-133 | what `sendChat` sends starts with the conversation's turns, followed by the trimmed system prompt when it is not blank |
| OpenAi.SendChatPromptLastExample | src/ai/openai.ts:103-133 | for the conversation [user "hi"] and the prompt "Be brief", the user message goes out before the system message |
| OpenAi.PromptFirstLeads | src/ai/openai.ts:100-136 | in the corrected order the system message leads, and the rest is exactly the filtered, trimmed conversation |
| OpenAi.ModelsFromIds | src/ai/openai.ts:166-173 | one model per id, in order, with the id as both name and display name |
| Gemini.ResolveConfig | src/ai/gemini.ts:32-52 | a given thinking budget or safety list is kept; a missing one becomes -1 or the four block-nothing settings |
| Gemini.ResolveConfigFixed | src/ai/gemini.ts:32-52 | passing a resolved configuration back in resolves to itself |
| Gemini.DefaultsBlockNothing | src/ai/gemini.ts:34-51 | by default every harm category has a setting, and no setting blocks anything |
| Gemini.MediaPart | src/ai/gemini.ts:87-101 | an address starting with "http" is passed by reference; anything else is inlined as base64 |
| Gemini.Client.constructor | src/ai/gemini.ts:22-53 | the client keeps the key, the address and the resolved configuration, and has no system prompts |
| Gemini.Client.AddSystemPrompt | src/ai/gemini.ts:55-57 | the prompt is appended |
| Gemini.Client.SetAvailableTools | src/ai/gemini.ts:59-63 | exactly one prompt is added: the tools heading and the joined tool prompts |
| Gemini.Client.SendMedia | src/ai/gemini.ts:65-125 | a user turn with the joined system prompts, always present because an array is truthy; then a user turn with the truthy text prompt and the image part; the configured budget and safety settings go with it; the reply is the untrimmed concatenation |
| Gemini.Client.SendChat | src/ai/gemini.ts:135-185 | the system turn first, then the conversation's converted turns; the reply is the trimmed concatenation |
| Gemini.ChatTurnsFollowMessages | src/ai/gemini.ts:156-166 | after the system turn there is one turn per message with text, in order and trimmed; a turn is the model's exactly when the assistant wrote the message |
| Gemini.ModelsFromList | src/ai/gemini.ts:127-133 | one model per listed model, in order, keeping its name; the display name falls back to the name |
| ChatLogic.TrimTitle | src/hooks/use-chat-logic.ts:18-22 | a blank text gives the fallback; otherwise the single-spaced, trimmed text, cut to 40 characters (counted as Unicode scalar values) plus an ellipsis when longer; such a title is never blank and has no outer or doubled spaces |
| ChatLogic.TruncatedSingleSpaced | src/hooks/use-chat-logic.ts:21 | cutting a single-spaced title and adding the ellipsis keeps it single-spaced and without outer spaces |
| ChatLogic.TrimTitleIdempotent | src/hooks/use-chat-logic.ts:18-22 | a title made from a non-blank text comes back unchanged, whatever the fallback |
| ChatLogic.MapMessagesToAi | src/hooks/use-chat-logic.ts:24-33 | the subsequence of messages that are not blank, kept untrimmed |
| ChatLogic.FilterThreads | src/hooks/use-chat-logic.ts:68-75 | a blank query gives every thread; otherwise the subsequence of threads whose lower-cased title contains the lower-cased query |
| ChatLogic.PreferredSource | src/hooks/use-chat-logic.ts:151-162 | the active source when usable, else the first usable one; none exactly when no source is usable |
| ChatLogic.PreferredIsActiveSource | src/hooks/use-chat-logic.ts:151-162 | when some source is usable, the page's preferred source is the store's `getActiveSource` |
| ChatLogic.SourceMapGet | src/hooks/use-chat-logic.ts:113-117 | found exactly when some source has the id, and it is the last such source, as the later `Map` entry wins |
| ChatLogic.ResolveSource | src/hooks/use-chat-logic.ts:164-167 | the open thread's source id, else the picked id, looked up in the source map; nothing for an empty id |
| ChatLogic.CurrentSourceAfterEffect | src/hooks/use-chat-logic.ts:151-162 | after the effect: the open thread's source, else the existing choice, else the preferred source when one exists |
| ChatLogic.ModelInputAfterEffect | src/hooks/use-chat-logic.ts:169-179 | the thread's model, else the seed's, else the resolved source's, else empty |
| ChatLogic.SendGuard | src/hooks/use-chat-logic.ts:204-217 | a blank input or a send in flight is ignored; a source without a key is reported by name, or as "Unknown"; otherwise the trimmed text goes to the typed model, or to the source's model |
| ChatLogic.NewChatInput | src/hooks/use-chat-logic.ts:227-238 | the seed title, else the text as a title; the source and model; the seed's context as metadata when truthy; the text as the only message |
| ChatLogic.ContextMessages | src/hooks/use-chat-logic.ts:258-273 | at most one non-empty system message: the seed's context for a new chat, else the thread's stored context |
| ChatLogic.History | src/hooks/use-chat-logic.ts:275-279 | the history is never longer than the conversation |
| ChatLogic.HistoryMatchesReference | src/hooks/use-chat-logic.ts:275-279 | the filter, map and filter pipeline is the message-by-message rule: keep each non-placeholder message that is not blank, as role and content |
| ChatLogic.HistoryOmitsPlaceholder | src/hooks/use-chat-logic.ts:250-279 | every history entry is the role and content of a conversation message whose id is not the placeholder's, and its content is not blank |
| ChatLogic.ChatTraitsPrompt | src/hooks/use-chat-logic.ts:284-286 | empty without traits, else the traits between the heading and a line break |
| ChatLogic.AggregateReply | src/hooks/use-chat-logic.ts:292-308 | after each delta the placeholder shows the concatenation so far; at the end it gets the trimmed whole unless that is blank |
| ChatLogic.FailureUpdate | src/hooks/use-chat-logic.ts:309-317 | a failed send writes to the placeholder exactly when the chat and the placeholder exist; the update marks the error, sets the fixed failure text, keeps the role and carries no time, so the thread does not move |
| ChatLogic.SelectSourcePatch | src/hooks/use-chat-logic.ts:181-194 | the patch sets the source id and the time; it carries a model exactly when the source exists, and then that source's model |
| ChatLogic.ForkInput | src/hooks/use-chat-logic.ts:328-336 | the title with " (Fork)", the same source and model, and one input per message with its role and content |
| ChatLogic.Fork | src/hooks/use-chat-logic.ts:323-336 | nothing exactly when no thread has the id; otherwise the fork input of a thread with that id |
| ChatLogic.ForkCopiesConversation | src/hooks/use-chat-logic.ts:323-336 | the forked chat's records are fresh, belong to the new chat, and keep the original roles, contents and order |
| ImproveDialog.OrderedSources | src/components/dialogs/ImproveSolutionDialog.tsx:41-50 | the usable sources, with the active one first when it is usable; a permutation of the usable sources when at most one has the active id |
| ImproveDialog.OrderedPermutes | src/components/dialogs/ImproveSolutionDialog.tsx:45-49 | moving the active source to the front loses nothing when it is the only one with its id |
| ImproveDialog.TraitsPrompt | src/components/dialogs/ImproveSolutionDialog.tsx:97-103 | empty without traits, else the traits inside a `<traits>` element after the heading |
| ImproveDialog.AttemptsUpdateOnce | src/components/dialogs/ImproveSolutionDialog.tsx:88-133 | the loop updates the solution only when a reply is taken, then exactly once, followed by clearing the streamed output |
| ImproveDialog.AttemptsClearBeforeAsk | src/components/dialogs/ImproveSolutionDialog.tsx:110-119 | every request to a source comes right after that image's streamed output is cleared |
| ImproveDialog.AttemptsFirstAnswer | src/components/dialogs/ImproveSolutionDialog.tsx:88-133 | a reply is taken exactly when some source has a client and a parsable reply, and it is the first such source's reply |
| ImproveDialog.AttemptsLastError | src/components/dialogs/ImproveSolutionDialog.tsx:88-135 | when no source answers, the error kept is the last source's: a missing key, the error thrown, or the parse failure |
| ImproveDialog.TryEach | src/components/dialogs/ImproveSolutionDialog.tsx:88-133 | the `for` loop, with its early return, does what the recursive description of the attempts does; each request records the three system prompts of the fresh client (improve, traits, tools) |
| ImproveDialog.TrySource | src/components/dialogs/ImproveSolutionDialog.tsx:89-132 | one loop body either takes a reply or leaves what the remaining sources then complete; its request carries the improve, traits and tools prompts in that order |
| ImproveDialog.AttemptsStep | src/components/dialogs/ImproveSolutionDialog.tsx:89-132 | trying the sources from position i on is deciding on source i and then trying the rest |
| ImproveDialog.HandleImproveSolution | src/components/dialogs/ImproveSolutionDialog.tsx:61-144 | the handler's effects are the run's description: guards, processing notice, flag raised, attempts, failure notice, flag lowered |
| ImproveDialog.NothingToTry | src/components/dialogs/ImproveSolutionDialog.tsx:62-68 | without a problem nothing happens; without a usable source only the no-source notice appears |
| ImproveDialog.RunWithUpdatesOnce | src/components/dialogs/ImproveSolutionDialog.tsx:80-143 | a run holds at most one update, with the first answering source's reply, and ends by lowering the improving flag |
| ImproveDialog.WrappedUpdatesOnce | src/components/dialogs/ImproveSolutionDialog.tsx:80-143 | the notices and the flag around the attempts add no update |
| ImproveDialog.RunUpdatesOnce | src/components/dialogs/ImproveSolutionDialog.tsx:61-144 | the whole handler updates the solution at most once |
| ImproveDialog.RunWithReportsLastError | src/components/dialogs/ImproveSolutionDialog.tsx:135-139 | when every source fails, the failure notice carries the last source's error |
| ImproveDialog.RunReportsLastError | src/components/dialogs/ImproveSolutionDialog.tsx:61-144 | the same for the whole handler, when no source answers |
| MarkdownRenderer.RunLength | src/components/markdown/MarkdownRenderer.tsx:56 | the greedy `[\w-]+`: a run of language characters that cannot be extended |
| MarkdownRenderer.MatchFromFacts | src/components/markdown/MarkdownRenderer.tsx:56 | the search finds the leftmost position where "language-" is followed by a language character, and none exactly when there is none |
| MarkdownRenderer.LangMatchFacts | src/components/markdown/MarkdownRenderer.tsx:56-57 | no match exactly when the pattern matches nowhere; else the group is the maximal run after the leftmost match, and it is never empty |
| MarkdownRenderer.LangGroup | src/components/markdown/MarkdownRenderer.tsx:56-57 | the group is the run of language characters after the leftmost prefix |
| MarkdownRenderer.LangExamples | src/components/markdown/MarkdownRenderer.tsx:56-57 | "language-js" gives "js"; "language-" alone and a missing class give "" |
| MarkdownRenderer.StripFinalNewline | src/components/markdown/MarkdownRenderer.tsx:58 | one final line break is removed when there is one, and nothing else changes |
| MarkdownRenderer.IsBlockComplete | src/components/markdown/MarkdownRenderer.tsx:60-71 | incomplete without an end; complete without an offset; otherwise complete exactly when the offset is within the source and the three characters before it are a fence of backticks or tildes |
| MarkdownRenderer.Render | src/components/markdown/MarkdownRenderer.tsx:73-117 | a "plot-" language shows the generating notice until its block is complete, and the diagram after; another matched language goes to the code renderer; no match renders inline code |
| MarkdownRenderer.RenderContents | src/components/markdown/MarkdownRenderer.tsx:82-117 | diagrams are mermaid for `plot-mermaid` and JSON otherwise, with a component only for the three known kinds; block contents lose a final line break; inline code is untouched |
| MathGraph.Normalize | src/components/markdown/diagram/MathGraph.tsx:88-106 | a `data` array is the configuration itself; otherwise one polyline in the first legend colour, defaulting to `x`, over the given domain or [-10, 10], with the grid on |
| MathGraph.GraphType | src/components/markdown/diagram/MathGraph.tsx:116-122 | the item's own graph type, else interval for implicit functions, scatter for points, and polyline otherwise |
| MathGraph.FinalRange | src/components/markdown/diagram/MathGraph.tsx:124-136 | a range exactly when the function is not implicit and its first two range entries are numbers; then those two numbers |
| MathGraph.Label | src/components/markdown/diagram/MathGraph.tsx:143 | the label, else the function, else "Function n" with n the position plus one; never empty |
| MathGraph.ProcessData | src/components/markdown/diagram/MathGraph.tsx:115-147 | one processed item per configured item, in order |
| MathGraph.ProcessItemDefaults | src/components/markdown/diagram/MathGraph.tsx:138-146 | an item keeps what it sets; missing colours cycle through the legend with period seven; colour and label are never empty |
| MathGraph.Draw | src/components/markdown/diagram/MathGraph.tsx:76-89 | the parse-error outcome exactly when the JSON does not parse; the null-access error exactly when it is `null`; a drawing exactly for any other value |
| MathGraph.DrawFacts | src/components/markdown/diagram/MathGraph.tsx:154-194 | the drawn items follow the configuration; the grid is off only for an explicit `false`; unlabelled axes are called x and y |
| MathGraph.ShorthandPlot | src/components/markdown/diagram/MathGraph.tsx:88-106 | the one-function shorthand draws exactly one linear polyline in the first colour, labelled with its function, over the given domain by [-10, 10], with a grid |

## Left out

- IndexedDB (the Dexie database of src/store/chat-db.ts): what the database returns is a parameter of the chat store's methods, and writes to it are not modelled.
- Calls to the AI services, the network and `async` interleaving: a request is returned instead of sent, and the chunks the service would stream are a parameter. The unawaited `updateMessage` calls made while a reply streams are modelled as the sequence of placeholder contents.
- `localStorage` persistence, rehydration and the legacy Gemini loader: the legacy configuration is an input of `CreateDefaultSources`, and the persisted settings are an input of `Migrate`.
- The settings store persists `devtoolsEnabled` under the key `devtools`, so rehydration never restores it. Rehydration is not modelled, so this is recorded only.
- Routing, hotkeys, toasts, translations, window size, `handleNewChat`, `handleDeleteChat`'s confirmation and the seed-link decoding in src/lib/chat-seed, which is not part of this model: they are user-interface behaviour. The seed's fields are inputs.
- `Date.now`, `createId` and `uuidv4`: the times and fresh ids are parameters.
- `JSON.parse` in the function plot: the parsed value is the input, and a parse failure is `None`. `Number(entry)` is given as an optional real, with `None` for NaN.
- MathGraph's aspect-ratio adjustment of the y domain, the call into function-plot, the legend and the resize observer: this is floating-point layout and rendering. The drawn plot carries the configured y domain.
- The copy of `item.vector` in the plot items: it is a pair passed through unchanged.
- Values of the wrong type in string and array fields of parsed JSON: the model's fields have their declared types.
- Case folding outside ASCII in `toLowerCase`: `JsText.ToLower` folds only A-Z.
- An update object that carries a key whose value is `undefined`: patches model a key as either absent or holding a value.
- ChatLogic.SelectSourcePatch: when the source is missing, the source sends `model: undefined`, and the spread then clears the thread's model. The model leaves the model key out instead.
- `renderImproveXml`, `uint8ToBase64`, `parseImproveResponse` and the prompt files (src/ai/request, src/utils/encoding, src/ai/response and src/ai/prompts are not part of this model): each source's reply is given as already parsed, unparsable or thrown, and the prompts are strings.
- ImproveDialog.OrderedSources: it is a permutation of the usable sources only when at most one of them has the active id. With duplicate ids the other copies are dropped, which is what the code does.
- The Gemini SDK's use of the base address and the key: the client only keeps them.
- The line and column of a markdown end position: `isBlockComplete` reads only the offset.
- The image post-processing, the force diagram, the mermaid diagram and the other components: they are not part of the core.
- ChatLogic.TrimTitle: lengths and slices count Unicode scalar values, where JavaScript's `length` and `slice` count UTF-16 code units. A character outside the Basic Multilingual Plane counts once instead of twice, and the cut never splits a surrogate pair. So a title of 30 emoji is kept whole, where the source cuts it to 20 emoji plus the ellipsis. MarkdownRenderer.IsBlockComplete has the same gap: the unist `end.offset` it reads is a UTF-16 code-unit index into the source, and the model indexes by scalar value.
- AiStore.Store.UpdateSource: an update may carry an `id` key, which renames every source with the old id. When that renames the active source, the active id names no source. The contract keeps the active-id invariant only for updates without an `id`.
- ProblemsStore.Store.UpdateProblem: the problem index must name an existing problem of a stored solution. The source writes at any index: past the end it grows the array, leaving holes and a new problem holding only the three fields. Negative or fractional indices become properties of the array object. These cases are not modelled.
- ChatLogic.History: its own contract bounds only the length. Its content is stated by `ChatLogic.HistoryMatchesReference` and `ChatLogic.HistoryOmitsPlaceholder`.

## Findings

| source | as written | input that shows it | evidently intended | confidence | as-written member | corrected member |
|---|---|---|---|---|---|---|
| src/ai/openai.ts:103-133 | `sendChat` pushes the system prompt onto the caller's `messages` array and then converts that array, so the system message is sent last and the caller's array is changed | history [user "hi"], system prompt "Be brief": the request holds [user "hi", system "Be brief"] | the system message first, as `sendMedia` and the Gemini client send it, leaving the caller's array alone | medium, not executed | OpenAi.SendChatPromptLastExample | OpenAi.PromptFirstLeads |
| src/store/ai-store.ts:156-194 | `removeSource` falls back to "gemini-default" when it removes the last source, and `addSource` never touches the active id, so a source added to an empty list is not active and the active id names no source | direct store calls (the settings page refuses to remove the last source): remove "gemini-default", then "openai-default", then add any source under a fresh id; the list holds one source and "gemini-default" is active | a source added to an empty list becomes the active one | medium, not executed | AiStore.AddAfterEmptyingExample | AiStore.Store.AddSourceKeepingActive |
| src/store/chat-store.ts:283 | `deleteChat` copies the messages record with `const { ...restMessages }`, which names no key, so the deleted chat's messages stay in memory | a store whose messages record holds chat "c"; after `deleteChat("c")` the record still holds "c" | `const { [chatId]: _, ...restMessages }`, dropping the chat's messages with its thread | high, not executed | ChatStore.Store.DeleteChat | ChatStore.Store.DeleteChatAndMessages |
