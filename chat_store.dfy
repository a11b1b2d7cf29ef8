/**
 * The in-memory side of the chat store: the thread list, kept newest first, and for each
 * chat its messages, kept oldest first. What the database returns is passed in.
 */
module ChatStore {
  import opened Wrappers
  import opened Seqs
  import opened ChatTypes

  /** The thread metadata the chat hook reads: an optional seeded context message. */
  datatype ThreadMetadata = ThreadMetadata(contextMessage: Option<string>)

  /** A thread record; `metadata` is `None` for `null`. */
  datatype ChatThread = ChatThread(
    id: string,
    title: string,
    sourceId: string,
    model: string,
    createdAt: int,
    updatedAt: int,
    metadata: Option<ThreadMetadata>)

  datatype ChatMessage = ChatMessage(
    id: string,
    chatId: string,
    role: ChatRole,
    content: string,
    error: bool,
    createdAt: int)

  /** A message before it gets its chat, and perhaps its id and time. */
  datatype MessageInput = MessageInput(id: Option<string>, role: ChatRole, content: string, createdAt: Option<int>)

  datatype CreateChatInput = CreateChatInput(
    title: string,
    sourceId: string,
    model: string,
    metadata: Option<ThreadMetadata>,
    initialMessages: Option<seq<MessageInput>>)

  /** The thread fields `updateThread` accepts; `None` is a key the update does not carry. */
  datatype ThreadPatch = ThreadPatch(
    title: Option<string>,
    sourceId: Option<string>,
    model: Option<string>,
    metadata: Option<Option<ThreadMetadata>>,
    updatedAt: Option<int>)

  /** The message fields `updateMessage` accepts. */
  datatype MessagePatch = MessagePatch(
    role: Option<ChatRole>,
    content: Option<string>,
    error: Option<bool>,
    createdAt: Option<int>)

  function UpdatedKey(t: ChatThread): int { -t.updatedAt }

  function CreatedKey(m: ChatMessage): int { m.createdAt }

  ghost predicate NewestFirst(threads: seq<ChatThread>) {
    forall i, j :: 0 <= i < j < |threads| ==> threads[i].updatedAt >= threads[j].updatedAt
  }

  ghost predicate OldestFirst(messages: seq<ChatMessage>) {
    forall i, j :: 0 <= i < j < |messages| ==> messages[i].createdAt <= messages[j].createdAt
  }

  /** `sortThreadsByUpdated`: a sorted copy, newest first, ties in their original order. */
  function SortThreadsByUpdated(threads: seq<ChatThread>): (r: seq<ChatThread>)
    ensures NewestFirst(r)
    ensures multiset(r) == multiset(threads)
    ensures |r| == |threads|
  {
    var sorted := SortBy(threads, UpdatedKey);
    assert forall i, j :: 0 <= i < j < |sorted| ==> UpdatedKey(sorted[i]) <= UpdatedKey(sorted[j]);
    sorted
  }

  /** Threads updated at the same moment keep their relative order. */
  lemma SortThreadsStable(threads: seq<ChatThread>, stamp: int)
    ensures WithKey(SortThreadsByUpdated(threads), UpdatedKey, -stamp) == WithKey(threads, UpdatedKey, -stamp)
  {
    SortByStable(threads, UpdatedKey, -stamp);
  }

  /** A list already newest first is returned as it is. */
  lemma SortThreadsSorted(threads: seq<ChatThread>)
    requires NewestFirst(threads)
    ensures SortThreadsByUpdated(threads) == threads
  {
    assert SortedBy(threads, UpdatedKey);
    SortBySorted(threads, UpdatedKey);
  }

  /** `[...messages].sort((a, b) => a.createdAt - b.createdAt)`. */
  function SortMessagesByCreated(messages: seq<ChatMessage>): (r: seq<ChatMessage>)
    ensures OldestFirst(r)
    ensures multiset(r) == multiset(messages)
    ensures |r| == |messages|
  {
    SortBy(messages, CreatedKey)
  }

  /** The messages whose id is not `id`, in order. */
  function MessagesWithoutId(messages: seq<ChatMessage>, id: string): (r: seq<ChatMessage>)
    ensures forall m :: m in r <==> m in messages && m.id != id
    ensures forall m :: multiset(r)[m] == if m.id == id then 0 else multiset(messages)[m]
    ensures IsSubsequence(r, messages)
  {
    var keep := (m: ChatMessage) => m.id != id;
    FilterFacts(messages, keep);
    Filter(messages, keep)
  }

  /** `stateMessages[chatId] ?? []`. */
  function MessagesOf(stateMessages: map<string, seq<ChatMessage>>, chatId: string): seq<ChatMessage> {
    if chatId in stateMessages then stateMessages[chatId] else []
  }

  /**
   * `next` is the chat's list after merging `message` into `messages`: oldest first, the
   * messages of other ids plus this one, which it holds exactly once, and no other message of
   * this id.
   */
  ghost predicate MergedInto(messages: seq<ChatMessage>, message: ChatMessage, next: seq<ChatMessage>) {
    && OldestFirst(next)
    && multiset(next) == multiset(MessagesWithoutId(messages, message.id)) + multiset{message}
    && multiset(next)[message] == 1
    && (forall m :: m in next && m.id == message.id ==> m == message)
    && (forall m :: m in messages && m.id != message.id ==> m in next)
  }

  /**
   * `mergeMessage`: the chat's list without any message of the same id, plus the message,
   * sorted oldest first; every other chat is untouched.
   */
  function MergeMessage(stateMessages: map<string, seq<ChatMessage>>, chatId: string, message: ChatMessage)
    : (r: map<string, seq<ChatMessage>>)
    ensures r.Keys == stateMessages.Keys + {chatId}
    ensures forall k :: k in stateMessages && k != chatId ==> r[k] == stateMessages[k]
    ensures MergedInto(MessagesOf(stateMessages, chatId), message, r[chatId])
  {
    var messages := MessagesOf(stateMessages, chatId);
    var next := SortMessagesByCreated(MessagesWithoutId(messages, message.id) + [message]);
    MergedList(messages, message);
    stateMessages[chatId := next]
  }

  /** The merged list of one chat. */
  lemma MergedList(messages: seq<ChatMessage>, message: ChatMessage)
    ensures MergedInto(messages, message, SortMessagesByCreated(MessagesWithoutId(messages, message.id) + [message]))
  {
    var kept := MessagesWithoutId(messages, message.id);
    var next := SortMessagesByCreated(kept + [message]);
    assert multiset(kept + [message]) == multiset(kept) + multiset{message};
    assert multiset(kept)[message] == 0;
    forall m | m in next && m.id == message.id ensures m == message {
      assert m in multiset(next);
      assert m !in multiset(kept);
    }
    forall m | m in messages && m.id != message.id ensures m in next {
      assert m in kept;
      assert m in multiset(next);
    }
  }

  /** `updatedAt` of every thread with this id set to `stamp`. */
  function TouchThreads(threads: seq<ChatThread>, chatId: string, stamp: int): (r: seq<ChatThread>)
    ensures |r| == |threads|
    ensures forall k :: 0 <= k < |threads| ==>
      r[k] == if threads[k].id == chatId then threads[k].(updatedAt := stamp) else threads[k]
  {
    seq(|threads|, k requires 0 <= k < |threads| =>
      if threads[k].id == chatId then threads[k].(updatedAt := stamp) else threads[k])
  }

  /** `{ ...thread, ...updates }`. */
  function PatchThread(thread: ChatThread, updates: ThreadPatch): (r: ChatThread)
    ensures r.id == thread.id && r.createdAt == thread.createdAt
    ensures r.title == updates.title.Coalesce(thread.title)
    ensures r.sourceId == updates.sourceId.Coalesce(thread.sourceId)
    ensures r.model == updates.model.Coalesce(thread.model)
    ensures r.metadata == updates.metadata.Coalesce(thread.metadata)
    ensures r.updatedAt == updates.updatedAt.Coalesce(thread.updatedAt)
  {
    thread.(title := updates.title.Coalesce(thread.title),
            sourceId := updates.sourceId.Coalesce(thread.sourceId),
            model := updates.model.Coalesce(thread.model),
            metadata := updates.metadata.Coalesce(thread.metadata),
            updatedAt := updates.updatedAt.Coalesce(thread.updatedAt))
  }

  /** The update merged into every thread with this id. */
  function PatchThreads(threads: seq<ChatThread>, chatId: string, updates: ThreadPatch): (r: seq<ChatThread>)
    ensures |r| == |threads|
    ensures forall k :: 0 <= k < |threads| ==>
      r[k] == if threads[k].id == chatId then PatchThread(threads[k], updates) else threads[k]
    ensures updates.updatedAt.None? ==> forall k :: 0 <= k < |threads| ==> r[k].updatedAt == threads[k].updatedAt
  {
    seq(|threads|, k requires 0 <= k < |threads| =>
      if threads[k].id == chatId then PatchThread(threads[k], updates) else threads[k])
  }

  /** A patch that leaves every `updatedAt` alone keeps the list newest first. */
  lemma PatchKeepsOrder(threads: seq<ChatThread>, chatId: string, updates: ThreadPatch)
    requires NewestFirst(threads) && updates.updatedAt.None?
    ensures NewestFirst(PatchThreads(threads, chatId, updates))
  {
  }

  /** The stored record in place of every message with this id. */
  function ReplaceMessage(messages: seq<ChatMessage>, messageId: string, updated: ChatMessage): (r: seq<ChatMessage>)
    ensures |r| == |messages|
    ensures forall k :: 0 <= k < |messages| ==>
      r[k] == if messages[k].id == messageId then updated else messages[k]
  {
    seq(|messages|, k requires 0 <= k < |messages| =>
      if messages[k].id == messageId then updated else messages[k])
  }

  /** A message input completed with its chat, a fresh id when it has none, and `error: false`. */
  function PrepareMessage(input: MessageInput, chatId: string, freshId: string, now: int): (m: ChatMessage)
    ensures m.chatId == chatId && !m.error && m.role == input.role && m.content == input.content
    ensures m.id == input.id.Coalesce(freshId)
    ensures m.createdAt == input.createdAt.Coalesce(now)
  {
    ChatMessage(input.id.Coalesce(freshId), chatId, input.role, input.content, false, input.createdAt.Coalesce(now))
  }

  /** Each initial message prepared with the id and time drawn for it. */
  function PrepareMessages(inputs: seq<MessageInput>, chatId: string, freshIds: seq<string>, stamps: seq<int>)
    : (r: seq<ChatMessage>)
    requires |freshIds| == |inputs| && |stamps| == |inputs|
    ensures |r| == |inputs|
    ensures forall k :: 0 <= k < |inputs| ==> r[k] == PrepareMessage(inputs[k], chatId, freshIds[k], stamps[k])
    ensures forall k :: 0 <= k < |r| ==> r[k].chatId == chatId && !r[k].error
  {
    seq(|inputs|, k requires 0 <= k < |inputs| => PrepareMessage(inputs[k], chatId, freshIds[k], stamps[k]))
  }

  /** `updates.createdAt` is truthy: present and not zero. */
  predicate TruthyStamp(stamp: Option<int>) {
    stamp.Some? && stamp.value != 0
  }

  class Store {
    var threads: seq<ChatThread>
    var messages: map<string, seq<ChatMessage>>
    var isHydrated: bool

    /** Threads newest first, each chat's messages oldest first. */
    ghost predicate Valid()
      reads this
    {
      NewestFirst(threads) && forall k :: k in messages ==> OldestFirst(messages[k])
    }

    constructor()
      ensures Valid()
      ensures threads == [] && messages == map[] && !isHydrated
    {
      threads := [];
      messages := map[];
      isHydrated := false;
    }

    /** Takes the threads the database lists, newest first. */
    method LoadThreads(listing: seq<ChatThread>)
      requires Valid()
      modifies this`threads, this`isHydrated
      ensures threads == listing && isHydrated
      ensures NewestFirst(listing) ==> Valid()
    {
      threads := listing;
      isHydrated := true;
    }

    /** Stores the messages the database lists for one chat, oldest first, and returns them. */
    method LoadMessages(chatId: string, listing: seq<ChatMessage>) returns (loaded: seq<ChatMessage>)
      requires Valid()
      modifies this`messages
      ensures loaded == listing
      ensures messages == old(messages)[chatId := listing]
      ensures OldestFirst(listing) ==> Valid()
    {
      messages := messages[chatId := listing];
      loaded := listing;
    }

    /**
     * Adds a thread created and last updated `now`; the chat's messages are written only when
     * there are initial messages.
     */
    method CreateChat(input: CreateChatInput, now: int, chatId: string, freshIds: seq<string>, stamps: seq<int>)
      returns (id: string)
      requires Valid()
      requires input.initialMessages.Some? ==>
        |freshIds| == |input.initialMessages.value| && |stamps| == |input.initialMessages.value|
      modifies this`threads, this`messages
      ensures Valid()
      ensures id == chatId
      ensures threads == SortThreadsByUpdated([ChatThread(chatId, input.title, input.sourceId, input.model, now, now, input.metadata)] + old(threads))
      ensures var prepared := if input.initialMessages.Some?
                              then PrepareMessages(input.initialMessages.value, chatId, freshIds, stamps) else [];
        messages == if prepared != [] then old(messages)[chatId := SortMessagesByCreated(prepared)] else old(messages)
    {
      var thread := ChatThread(chatId, input.title, input.sourceId, input.model, now, now, input.metadata);
      var prepared := if input.initialMessages.Some?
                      then PrepareMessages(input.initialMessages.value, chatId, freshIds, stamps) else [];
      threads := SortThreadsByUpdated([thread] + threads);
      if prepared != [] {
        messages := messages[chatId := SortMessagesByCreated(prepared)];
      }
      id := chatId;
    }

    /** Adds or replaces the message and moves its thread's `updatedAt` to the message's time. */
    method AppendMessage(chatId: string, input: MessageInput, freshId: string, now: int) returns (message: ChatMessage)
      requires Valid()
      modifies this`threads, this`messages
      ensures Valid()
      ensures message == PrepareMessage(input, chatId, freshId, now)
      ensures threads == SortThreadsByUpdated(TouchThreads(old(threads), chatId, message.createdAt))
      ensures messages == MergeMessage(old(messages), chatId, message)
    {
      message := PrepareMessage(input, chatId, freshId, now);
      threads := SortThreadsByUpdated(TouchThreads(threads, chatId, message.createdAt));
      messages := MergeMessage(messages, chatId, message);
    }

    /**
     * Puts the record the database holds after the update (`stored`) in place of the message.
     * Without a stored record nothing changes and the result is `None`. The thread moves only
     * when the update carries a truthy `createdAt`.
     */
    method UpdateMessage(chatId: string, messageId: string, updates: MessagePatch, stored: Option<ChatMessage>)
      returns (r: Option<ChatMessage>)
      requires Valid()
      modifies this`threads, this`messages
      ensures Valid()
      ensures r == stored
      ensures stored.None? ==> threads == old(threads) && messages == old(messages)
      ensures stored.Some? ==>
        threads == (if TruthyStamp(updates.createdAt)
                    then SortThreadsByUpdated(TouchThreads(old(threads), chatId, updates.createdAt.value))
                    else old(threads)) &&
        messages == old(messages)[chatId := SortMessagesByCreated(ReplaceMessage(MessagesOf(old(messages), chatId), messageId, stored.value))]
    {
      r := stored;
      if stored.Some? {
        if TruthyStamp(updates.createdAt) {
          threads := SortThreadsByUpdated(TouchThreads(threads, chatId, updates.createdAt.value));
        }
        messages := messages[chatId := SortMessagesByCreated(ReplaceMessage(MessagesOf(messages, chatId), messageId, stored.value))];
      }
    }

    /** Merges the update into the thread; the list is re-sorted only when the update moves `updatedAt`. */
    method UpdateThread(chatId: string, updates: ThreadPatch)
      requires Valid()
      modifies this`threads
      ensures Valid()
      ensures threads == if updates.updatedAt.Some?
                         then SortThreadsByUpdated(PatchThreads(old(threads), chatId, updates))
                         else PatchThreads(old(threads), chatId, updates)
    {
      var next := PatchThreads(threads, chatId, updates);
      if updates.updatedAt.Some? {
        threads := SortThreadsByUpdated(next);
      } else {
        PatchKeepsOrder(threads, chatId, updates);
        threads := next;
      }
    }

    /** Sets the title and moves the thread to `timestamp`. */
    method RenameChat(chatId: string, title: string, timestamp: int)
      requires Valid()
      modifies this`threads
      ensures Valid()
      ensures threads == SortThreadsByUpdated(PatchThreads(old(threads), chatId, ThreadPatch(Some(title), None, None, None, Some(timestamp))))
    {
      threads := SortThreadsByUpdated(PatchThreads(threads, chatId, ThreadPatch(Some(title), None, None, None, Some(timestamp))));
    }

    /**
     * Drops the thread. The rest-spread that was to drop the chat's messages names no key, so
     * the messages record is copied whole.
     */
    method DeleteChat(chatId: string)
      requires Valid()
      modifies this`threads, this`messages
      ensures Valid()
      ensures threads == ThreadsWithoutId(old(threads), chatId)
      ensures messages == old(messages)
      ensures chatId in old(messages) ==> chatId in messages && messages[chatId] == old(messages)[chatId]
    {
      ThreadsWithoutIdOrder(threads, chatId);
      threads := ThreadsWithoutId(threads, chatId);
    }

    /** `deleteChat` with the chat's key left out of the copy: its messages go with its thread. */
    method DeleteChatAndMessages(chatId: string)
      requires Valid()
      modifies this`threads, this`messages
      ensures Valid()
      ensures threads == ThreadsWithoutId(old(threads), chatId)
      ensures chatId !in messages
      ensures messages.Keys == old(messages).Keys - {chatId}
      ensures forall k :: k in messages ==> messages[k] == old(messages)[k]
    {
      ThreadsWithoutIdOrder(threads, chatId);
      threads := ThreadsWithoutId(threads, chatId);
      messages := messages - {chatId};
    }

    method ClearAllChats()
      modifies this`threads, this`messages, this`isHydrated
      ensures Valid()
      ensures threads == [] && messages == map[] && isHydrated
    {
      threads := [];
      messages := map[];
      isHydrated := true;
    }
  }

  /** `threads.filter(thread => thread.id !== chatId)`. */
  function ThreadsWithoutId(threads: seq<ChatThread>, chatId: string): (r: seq<ChatThread>)
    ensures forall t :: t in r <==> t in threads && t.id != chatId
    ensures IsSubsequence(r, threads)
  {
    var keep := (t: ChatThread) => t.id != chatId;
    FilterFacts(threads, keep);
    Filter(threads, keep)
  }

  /** A subsequence of a newest-first list is newest first. */
  lemma {:induction false} SubsequenceNewestFirst(r: seq<ChatThread>, s: seq<ChatThread>)
    requires IsSubsequence(r, s) && NewestFirst(s)
    ensures NewestFirst(r)
  {
    if r != [] && s != [] {
      assert NewestFirst(s[1..]) by {
        forall i, j | 0 <= i < j < |s[1..]| ensures s[1..][i].updatedAt >= s[1..][j].updatedAt {
          assert s[1..][i] == s[i + 1] && s[1..][j] == s[j + 1];
        }
      }
      if r[0] == s[0] && IsSubsequence(r[1..], s[1..]) {
        SubsequenceNewestFirst(r[1..], s[1..]);
        SubsequenceMembers(r[1..], s[1..]);
        forall i, j | 0 <= i < j < |r| ensures r[i].updatedAt >= r[j].updatedAt {
          if i == 0 {
            assert r[j] == r[1..][j - 1];
            var k :| 0 <= k < |s[1..]| && s[1..][k] == r[j];
            assert s[k + 1] == r[j];
          } else {
            assert r[i] == r[1..][i - 1] && r[j] == r[1..][j - 1];
          }
        }
      } else {
        SubsequenceNewestFirst(r, s[1..]);
      }
    }
  }

  /** Deleting a thread keeps the list newest first. */
  lemma ThreadsWithoutIdOrder(threads: seq<ChatThread>, chatId: string)
    requires NewestFirst(threads)
    ensures NewestFirst(ThreadsWithoutId(threads, chatId))
  {
    SubsequenceNewestFirst(ThreadsWithoutId(threads, chatId), threads);
  }
}
