/**
 * The decisions the chat page takes around the stores: chat titles, which messages go to the
 * AI and with what context, the thread search, which source a chat uses, whether a send may
 * start, how a streamed reply accumulates, and what a forked chat starts with.
 */
module ChatLogic {
  import opened Wrappers
  import opened JsText
  import opened Seqs
  import opened ChatTypes
  import AiStore
  import ChatStore

  const TITLE_LIMIT: nat := 40
  const ELLIPSIS: char := '\U{2026}'

  /**
   * `trimTitle`: white space normalised; the fallback when nothing is left; otherwise at most
   * forty characters, a longer title cut to forty and marked with an ellipsis.
   */
  function TrimTitle(text: string, fallback: string): (r: string)
    ensures AllSpace(text) ==> r == fallback
    ensures !AllSpace(text) && |NormalizeSpaces(text)| <= TITLE_LIMIT ==> r == NormalizeSpaces(text)
    ensures !AllSpace(text) && |NormalizeSpaces(text)| > TITLE_LIMIT ==>
      r == NormalizeSpaces(text)[..TITLE_LIMIT] + [ELLIPSIS]
    ensures !AllSpace(text) ==> 0 < |r| <= TITLE_LIMIT + 1 && SingleSpaced(r) && !IsSpace(r[0]) && !IsSpace(r[|r| - 1])
  {
    var trimmed := NormalizeSpaces(text);
    if trimmed == "" then fallback
    else if |trimmed| > TITLE_LIMIT then
      TruncatedSingleSpaced(trimmed);
      trimmed[..TITLE_LIMIT] + [ELLIPSIS]
    else trimmed
  }

  lemma TruncatedSingleSpaced(s: string)
    requires SingleSpaced(s) && |s| > TITLE_LIMIT && !IsSpace(s[0])
    ensures var r := s[..TITLE_LIMIT] + [ELLIPSIS];
      SingleSpaced(r) && !IsSpace(r[0]) && !IsSpace(r[|r| - 1])
  {
    SliceSingleSpaced(s, 0, TITLE_LIMIT);
    var r := s[..TITLE_LIMIT] + [ELLIPSIS];
    assert forall k :: 0 <= k < TITLE_LIMIT ==> r[k] == s[..TITLE_LIMIT][k];
  }

  /** A title that came out of `trimTitle` comes out again unchanged, whatever the fallback. */
  lemma TrimTitleIdempotent(text: string, fallback: string, otherFallback: string)
    requires !AllSpace(text)
    ensures TrimTitle(TrimTitle(text, fallback), otherFallback) == TrimTitle(text, fallback)
  {
    var r := TrimTitle(text, fallback);
    NormalizeSpacesFixed(r);
    assert !AllSpace(r) by { assert !IsSpace(r[0]); }
    if |NormalizeSpaces(text)| > TITLE_LIMIT {
      assert r[..TITLE_LIMIT] == NormalizeSpaces(text)[..TITLE_LIMIT];
    }
  }

  /** `mapMessagesToAi`: blank messages dropped, the rest kept in order and untrimmed. */
  function MapMessagesToAi(messages: seq<AiChatMessage>): (r: seq<AiChatMessage>)
    ensures forall m :: m in r <==> m in messages && !AllSpace(m.content)
    ensures IsSubsequence(r, messages)
    ensures |r| <= |messages|
  {
    FilterFacts(messages, HasText);
    Filter(messages, HasText)
  }

  /**
   * The thread search: every thread for a blank query, otherwise the threads whose title
   * contains the query, ignoring the case of ASCII letters, in list order.
   */
  function FilterThreads(threads: seq<ChatStore.ChatThread>, query: string): (r: seq<ChatStore.ChatThread>)
    ensures AllSpace(query) ==> r == threads
    ensures !AllSpace(query) ==>
      (forall t :: t in r <==> t in threads && Includes(ToLower(t.title), ToLower(query))) &&
      IsSubsequence(r, threads)
  {
    if AllSpace(query) then threads
    else
      var lowerQuery := ToLower(query);
      var matches := (t: ChatStore.ChatThread) => Includes(ToLower(t.title), lowerQuery);
      FilterFacts(threads, matches);
      Filter(threads, matches)
  }

  /**
   * The source a new chat starts with: the active source if it can take requests, else the
   * first source that can, else none.
   */
  function PreferredSource(sources: seq<AiStore.AiSource>, activeSourceId: string): (r: Option<AiStore.AiSource>)
    ensures r.Some? ==> r.value in sources && AiStore.Usable(r.value)
    ensures r.None? <==> !AiStore.HasActiveKey(sources)
    ensures (exists k :: 0 <= k < |sources| && sources[k].id == activeSourceId && AiStore.Usable(sources[k])) ==>
      r.Some? && r.value.id == activeSourceId
  {
    var available := AiStore.EnabledSources(sources);
    match Find(available, AiStore.HasId(activeSourceId))
    case Some(s) => Some(s)
    case None =>
      assert available != [] ==> available[0] in available;
      if available == [] then None else Some(available[0])
  }

  /** When some source can take requests, the chat page and `getActiveSource` agree. */
  lemma PreferredIsActiveSource(sources: seq<AiStore.AiSource>, activeSourceId: string)
    requires AiStore.HasActiveKey(sources)
    ensures PreferredSource(sources, activeSourceId) == AiStore.ActiveSource(sources, activeSourceId)
  {
    FindInFilter(sources, AiStore.Usable, AiStore.HasId(activeSourceId), AiStore.IsUsableWithId(activeSourceId));
    FilterHead(sources, AiStore.Usable);
  }

  /** `k` holds the last source with this id. */
  ghost predicate LastWithId(sources: seq<AiStore.AiSource>, id: string, k: int) {
    0 <= k < |sources| && sources[k].id == id && forall j :: k < j < |sources| ==> sources[j].id != id
  }

  /** `new Map(sources.map(s => [s.id, s])).get(id)`: the last source with this id wins. */
  function SourceMapGet(sources: seq<AiStore.AiSource>, id: string): (r: Option<AiStore.AiSource>)
    ensures r.Some? <==> exists k :: 0 <= k < |sources| && sources[k].id == id
    ensures r.Some? ==> exists k :: LastWithId(sources, id, k) && sources[k] == r.value
  {
    if sources == [] then None
    else
      var n := |sources| - 1;
      var last := sources[n];
      if last.id == id then
        assert LastWithId(sources, id, n);
        Some(last)
      else
        var init := sources[..n];
        var r := SourceMapGet(init, id);
        assert forall k :: 0 <= k < n ==> init[k] == sources[k];
        assert forall k :: LastWithId(init, id, k) ==> LastWithId(sources, id, k);
        r
  }

  /** The source a chat uses: the open thread's, else the one picked on the page, else none. */
  function ResolveSource(activeThread: Option<ChatStore.ChatThread>, currentSourceId: Option<string>,
                         sources: seq<AiStore.AiSource>): (r: Option<AiStore.AiSource>)
    ensures activeThread.Some? && activeThread.value.sourceId != "" ==>
      r == SourceMapGet(sources, activeThread.value.sourceId)
    ensures activeThread.Some? && activeThread.value.sourceId == "" ==> r.None?
    ensures activeThread.None? && Truthy(currentSourceId) ==> r == SourceMapGet(sources, currentSourceId.value)
    ensures activeThread.None? && !Truthy(currentSourceId) ==> r.None?
    ensures r.Some? ==> r.value in sources
  {
    var id := if activeThread.Some? then Some(activeThread.value.sourceId) else currentSourceId;
    if Truthy(id) then SourceMapGet(sources, id.value) else None
  }

  /**
   * The page's source selection once its effect has run: the open thread's source; else the
   * one already picked; else the preferred source, if any.
   */
  function CurrentSourceAfterEffect(activeThread: Option<ChatStore.ChatThread>, currentSourceId: Option<string>,
                                    sources: seq<AiStore.AiSource>, activeSourceId: string): (r: Option<string>)
    ensures activeThread.Some? ==> r == Some(activeThread.value.sourceId)
    ensures activeThread.None? && Truthy(currentSourceId) ==> r == currentSourceId
    ensures activeThread.None? && !Truthy(currentSourceId) && AiStore.HasActiveKey(sources) ==>
      r == Some(PreferredSource(sources, activeSourceId).value.id)
    ensures activeThread.None? && !AiStore.HasActiveKey(sources) ==> r == currentSourceId
  {
    if activeThread.Some? then Some(activeThread.value.sourceId)
    else if Truthy(currentSourceId) then currentSourceId
    else match PreferredSource(sources, activeSourceId)
      case Some(p) => Some(p.id)
      case None => currentSourceId
  }

  /** The model box once its effect has run: the thread's model, the seed's, the source's, or empty. */
  function ModelInputAfterEffect(activeThread: Option<ChatStore.ChatThread>, seedModel: Option<string>,
                                 resolved: Option<AiStore.AiSource>): (r: string)
    ensures activeThread.Some? ==> r == activeThread.value.model
    ensures activeThread.None? && Truthy(seedModel) ==> r == seedModel.value
    ensures activeThread.None? && !Truthy(seedModel) ==> r == if resolved.Some? then resolved.value.model else ""
  {
    if activeThread.Some? then activeThread.value.model
    else if Truthy(seedModel) then seedModel.value
    else if resolved.Some? then resolved.value.model
    else ""
  }

  /** What `handleSend` does after its guards. */
  datatype SendDecision =
    | Ignored
    | MissingKey(provider: string)
    | Proceed(text: string, modelName: string)

  /**
   * The guards of `handleSend`: a blank input or a send in flight is ignored; a source without
   * a key is reported by name; otherwise the trimmed text goes out to the typed model, or to
   * the source's model when none is typed.
   */
  function SendGuard(messageInput: string, isSending: bool, resolved: Option<AiStore.AiSource>, modelInput: string)
    : (d: SendDecision)
    ensures d.Ignored? <==> AllSpace(messageInput) || isSending
    ensures d.MissingKey? <==> !AllSpace(messageInput) && !isSending && !(resolved.Some? && AiStore.HasKey(resolved.value))
    ensures d.MissingKey? ==> d.provider == if resolved.Some? then resolved.value.name else "Unknown"
    ensures d.Proceed? ==> resolved.Some? && AiStore.HasKey(resolved.value)
    ensures d.Proceed? ==> d.text == Trim(messageInput) && d.text != ""
    ensures d.Proceed? && !AllSpace(modelInput) ==> d.modelName == Trim(modelInput)
    ensures d.Proceed? && AllSpace(modelInput) ==> d.modelName == resolved.value.model
  {
    var trimmed := Trim(messageInput);
    if trimmed == "" || isSending then Ignored
    else if !(resolved.Some? && AiStore.HasKey(resolved.value)) then
      MissingKey(if resolved.Some? then resolved.value.name else "Unknown")
    else Proceed(trimmed, Or(Some(Trim(modelInput)), resolved.value.model))
  }

  /**
   * The chat `handleSend` creates when no chat is open: the seed's title, else the text as a
   * title; the seed's context as metadata when it has one; the text as the first message.
   */
  function NewChatInput(text: string, modelName: string, source: AiStore.AiSource, seedTitle: Option<string>,
                        seedContext: Option<string>, untitled: string): (r: ChatStore.CreateChatInput)
    ensures r.title == if seedTitle.Some? then seedTitle.value else TrimTitle(text, untitled)
    ensures r.sourceId == source.id && r.model == modelName
    ensures r.metadata == if Truthy(seedContext) then Some(ChatStore.ThreadMetadata(seedContext)) else None
    ensures r.initialMessages == Some([ChatStore.MessageInput(None, User, text, None)])
  {
    ChatStore.CreateChatInput(
      seedTitle.Coalesce(TrimTitle(text, untitled)),
      source.id,
      modelName,
      if Truthy(seedContext) then Some(ChatStore.ThreadMetadata(seedContext)) else None,
      Some([ChatStore.MessageInput(None, User, text, None)]))
  }

  /**
   * The system message that precedes the history: the seed's context for a chat this send
   * created, else the open thread's stored context, else nothing.
   */
  function ContextMessages(newlyCreated: bool, seedContext: Option<string>,
                           threadMetadata: Option<ChatStore.ThreadMetadata>): (r: seq<AiChatMessage>)
    ensures |r| <= 1
    ensures forall k :: 0 <= k < |r| ==> r[k].role == System && r[k].content != ""
    ensures newlyCreated && Truthy(seedContext) ==> r == [AiChatMessage(System, seedContext.value)]
    ensures !(newlyCreated && Truthy(seedContext)) && threadMetadata.Some? && Truthy(threadMetadata.value.contextMessage) ==>
      r == [AiChatMessage(System, threadMetadata.value.contextMessage.value)]
    ensures r == [] <==> (!(newlyCreated && Truthy(seedContext)) &&
                          !(threadMetadata.Some? && Truthy(threadMetadata.value.contextMessage)))
  {
    if newlyCreated && Truthy(seedContext) then [AiChatMessage(System, seedContext.value)]
    else if threadMetadata.Some? && Truthy(threadMetadata.value.contextMessage) then
      [AiChatMessage(System, threadMetadata.value.contextMessage.value)]
    else []
  }

  function ToAiMessage(m: ChatStore.ChatMessage): AiChatMessage {
    AiChatMessage(m.role, m.content)
  }

  function NotId(id: string): ChatStore.ChatMessage -> bool {
    (m: ChatStore.ChatMessage) => m.id != id
  }

  /**
   * The history sent to the AI: the chat's messages without the reply placeholder, as role and
   * content, blank ones dropped.
   */
  function History(conversation: seq<ChatStore.ChatMessage>, placeholderId: string): (r: seq<AiChatMessage>)
    ensures |r| <= |conversation|
  {
    MapMessagesToAi(Map(Filter(conversation, NotId(placeholderId)), ToAiMessage))
  }

  /** The history, one message at a time. */
  function HistoryReference(conversation: seq<ChatStore.ChatMessage>, placeholderId: string): seq<AiChatMessage> {
    if conversation == [] then []
    else
      var m := conversation[0];
      (if m.id != placeholderId && !AllSpace(m.content) then [AiChatMessage(m.role, m.content)] else [])
        + HistoryReference(conversation[1..], placeholderId)
  }

  /** The filter-map-filter pipeline is the message-by-message rule. */
  lemma {:induction false} HistoryMatchesReference(conversation: seq<ChatStore.ChatMessage>, placeholderId: string)
    ensures History(conversation, placeholderId) == HistoryReference(conversation, placeholderId)
  {
    if conversation != [] {
      var m := conversation[0];
      var rest := conversation[1..];
      assert conversation == [m] + rest;
      HistoryMatchesReference(rest, placeholderId);
      FilterCons(m, rest, NotId(placeholderId));
      var kept := Filter(rest, NotId(placeholderId));
      if m.id != placeholderId {
        MapCons(m, kept, ToAiMessage);
        FilterCons(ToAiMessage(m), Map(kept, ToAiMessage), HasText);
      }
    }
  }

  /**
   * The reply placeholder never reaches the AI: every history entry is the role and content of
   * a conversation message other than the placeholder, and carries text.
   */
  lemma HistoryOmitsPlaceholder(conversation: seq<ChatStore.ChatMessage>, placeholderId: string)
    ensures forall e :: e in History(conversation, placeholderId) ==>
      exists k :: 0 <= k < |conversation| && conversation[k].id != placeholderId && e == ToAiMessage(conversation[k])
    ensures forall e :: e in History(conversation, placeholderId) ==> !AllSpace(e.content)
  {
    var kept := Filter(conversation, NotId(placeholderId));
    var mapped := Map(kept, ToAiMessage);
    forall e | e in History(conversation, placeholderId)
      ensures exists k :: 0 <= k < |conversation| && conversation[k].id != placeholderId && e == ToAiMessage(conversation[k])
    {
      assert e in mapped;
      var i :| 0 <= i < |mapped| && mapped[i] == e;
      assert kept[i] in kept;
      var k :| 0 <= k < |conversation| && conversation[k] == kept[i];
    }
  }

  /** `traits ? "\nUser traits:\n" + traits + "\n" : ""`. */
  function ChatTraitsPrompt(traits: Option<string>): (r: string)
    ensures !Truthy(traits) ==> r == ""
    ensures Truthy(traits) ==> r == "\nUser traits:\n" + traits.value + "\n"
  {
    if Truthy(traits) then "\nUser traits:\n" + traits.value + "\n" else ""
  }

  /**
   * The streamed reply: after each delta the placeholder is written with everything received
   * so far; at the end it gets the trimmed whole unless that is blank.
   */
  method AggregateReply(deltas: seq<string>) returns (aggregated: string, snapshots: seq<string>, finalContent: Option<string>)
    ensures aggregated == Concat(deltas)
    ensures |snapshots| == |deltas|
    ensures forall k :: 0 <= k < |deltas| ==> snapshots[k] == Concat(deltas[..k + 1])
    ensures AllSpace(aggregated) ==> finalContent.None?
    ensures !AllSpace(aggregated) ==> finalContent == Some(Trim(aggregated))
  {
    aggregated := "";
    snapshots := [];
    var i := 0;
    while i < |deltas|
      invariant 0 <= i <= |deltas|
      invariant aggregated == Concat(deltas[..i])
      invariant |snapshots| == i
      invariant forall k :: 0 <= k < i ==> snapshots[k] == Concat(deltas[..k + 1])
    {
      ConcatPrefix(deltas, i);
      aggregated := aggregated + deltas[i];
      snapshots := snapshots + [aggregated];
      i := i + 1;
    }
    assert deltas[..|deltas|] == deltas;
    if Trim(aggregated) != "" {
      finalContent := Some(Trim(aggregated));
    } else {
      finalContent := None;
    }
  }

  /** What an update on a failed reply writes into the placeholder. */
  const FAILED_REPLY: ChatStore.MessagePatch :=
    ChatStore.MessagePatch(None, Some("Error generating response."), Some(true), None)

  /**
   * The `catch` of `handleSend`: the placeholder is marked as failed only once both the chat
   * and the placeholder exist. Such an update keeps the role and carries no time, so the
   * thread is not moved.
   */
  function FailureUpdate(chatId: Option<string>, placeholderId: Option<string>)
    : (r: Option<(string, string, ChatStore.MessagePatch)>)
    ensures r.Some? <==> Truthy(chatId) && Truthy(placeholderId)
    ensures r.Some? ==> r.value.0 == chatId.value && r.value.1 == placeholderId.value
    ensures r.Some? ==> var patch := r.value.2;
      patch.error == Some(true) && patch.content == Some("Error generating response.") &&
      patch.role.None? && patch.createdAt.None? && !ChatStore.TruthyStamp(patch.createdAt)
  {
    if Truthy(chatId) && Truthy(placeholderId) then Some((chatId.value, placeholderId.value, FAILED_REPLY)) else None
  }

  /** The thread patch when the user picks another source for the open chat. */
  function SelectSourcePatch(sourceId: string, sources: seq<AiStore.AiSource>, now: int): (r: ChatStore.ThreadPatch)
    ensures r.sourceId == Some(sourceId) && r.updatedAt == Some(now)
    ensures r.title.None? && r.metadata.None?
    ensures r.model.Some? <==> exists k :: 0 <= k < |sources| && sources[k].id == sourceId
    ensures r.model.Some? ==> exists k :: 0 <= k < |sources| && sources[k].id == sourceId && sources[k].model == r.model.value
  {
    var source := SourceMapGet(sources, sourceId);
    ChatStore.ThreadPatch(None, Some(sourceId), if source.Some? then Some(source.value.model) else None, None, Some(now))
  }

  /** The input for a copy of a thread: " (Fork)" titled, same source and model, same turns. */
  function ForkInput(thread: ChatStore.ChatThread, messages: seq<ChatStore.ChatMessage>): (r: ChatStore.CreateChatInput)
    ensures r.title == thread.title + " (Fork)"
    ensures r.sourceId == thread.sourceId && r.model == thread.model && r.metadata.None?
    ensures r.initialMessages.Some? && |r.initialMessages.value| == |messages|
    ensures forall k :: 0 <= k < |messages| ==>
      r.initialMessages.value[k] == ChatStore.MessageInput(None, messages[k].role, messages[k].content, None)
  {
    ChatStore.CreateChatInput(thread.title + " (Fork)", thread.sourceId, thread.model, None,
      Some(seq(|messages|, k requires 0 <= k < |messages| =>
        ChatStore.MessageInput(None, messages[k].role, messages[k].content, None))))
  }

  /** `handleForkChat`: nothing without a thread of that id, else the fork of the first one. */
  function Fork(threads: seq<ChatStore.ChatThread>, chatId: string, messages: seq<ChatStore.ChatMessage>)
    : (r: Option<ChatStore.CreateChatInput>)
    ensures r.None? <==> forall k :: 0 <= k < |threads| ==> threads[k].id != chatId
    ensures r.Some? ==> exists k :: 0 <= k < |threads| && threads[k].id == chatId && r.value == ForkInput(threads[k], messages)
  {
    match Find(threads, (t: ChatStore.ChatThread) => t.id == chatId)
    case None => None
    case Some(t) => Some(ForkInput(t, messages))
  }

  /**
   * The forked chat's messages are fresh records in the new chat with the original roles and
   * contents, in the original order.
   */
  lemma ForkCopiesConversation(thread: ChatStore.ChatThread, messages: seq<ChatStore.ChatMessage>, newId: string,
                               freshIds: seq<string>, stamps: seq<int>)
    requires |freshIds| == |messages| && |stamps| == |messages|
    ensures var prepared := ChatStore.PrepareMessages(ForkInput(thread, messages).initialMessages.value, newId, freshIds, stamps);
      |prepared| == |messages| &&
      forall k :: 0 <= k < |messages| ==>
        prepared[k].role == messages[k].role && prepared[k].content == messages[k].content &&
        prepared[k].chatId == newId && prepared[k].id == freshIds[k] && prepared[k].createdAt == stamps[k] &&
        !prepared[k].error
  {
  }
}
