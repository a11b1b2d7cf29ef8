/**
 * The OpenAI client: its base address, the system prompts it collects, the chat-completion
 * requests it builds for an image and for a conversation, and the reply it assembles from the
 * streamed deltas. The request itself is not sent: it is returned, and the deltas the service
 * would stream back are a parameter.
 */
module OpenAi {
  import opened Wrappers
  import opened JsText
  import opened Seqs
  import opened ChatTypes
  import AiClient

  const DEFAULT_OPENAI_ROOT: string := "https://api.openai.com/v1"
  const DEFAULT_MODEL: string := "gpt-4o-mini"

  /** `(baseUrl ?? DEFAULT_OPENAI_ROOT).replace(/\/$/, "")`: at most one trailing slash removed. */
  function NormalizeBaseUrl(baseUrl: Option<string>): (r: string)
    ensures var url := baseUrl.Coalesce(DEFAULT_OPENAI_ROOT);
      && (url == r || url == r + "/")
      && (url == r <==> (url == [] || url[|url| - 1] != '/'))
  {
    var url := baseUrl.Coalesce(DEFAULT_OPENAI_ROOT);
    if url != [] && url[|url| - 1] == '/' then
      assert url == url[..|url| - 1] + "/";
      url[..|url| - 1]
    else url
  }

  /** A missing address means the public service; a doubled slash loses only one. */
  lemma NormalizeBaseUrlExamples()
    ensures NormalizeBaseUrl(None) == DEFAULT_OPENAI_ROOT
    ensures NormalizeBaseUrl(Some("https://example.org/v1/")) == "https://example.org/v1"
    ensures NormalizeBaseUrl(Some("https://example.org//")) == "https://example.org/"
  {
    assert DEFAULT_OPENAI_ROOT[|DEFAULT_OPENAI_ROOT| - 1] == '1';
    assert "https://example.org/v1/"[..22] == "https://example.org/v1";
    assert "https://example.org//"[..20] == "https://example.org/";
  }

  /** One part of a user message: text, or an image given by address. */
  datatype ContentPart = TextPart(text: string) | ImageUrlPart(url: string, detail: string)

  /** A chat-completion message with plain content, or a user message made of parts. */
  datatype Message =
    | TextMessage(role: ChatRole, content: string)
    | PartsMessage(role: ChatRole, parts: seq<ContentPart>)

  /** The streamed chat-completion request. */
  datatype Request = Request(model: string, messages: seq<Message>, stream: bool)

  /** An entry of the model list. */
  datatype OpenAiModel = OpenAiModel(name: string, displayName: string)

  /** The image as a data address. */
  function DataUrl(mimeType: string, media: string): string {
    "data:" + mimeType + ";base64," + media
  }

  function TextTurn(role: ChatRole, content: string): Message {
    TextMessage(role, content)
  }

  /**
   * The caller's message list, which `sendChat` appends to: the source pushes its system
   * prompt onto the array it was given rather than onto the one it sends.
   */
  class MessageList {
    var items: seq<AiChatMessage>

    constructor(items: seq<AiChatMessage>)
      ensures this.items == items
    {
      this.items := items;
    }
  }

  class Client {
    const apiKey: string
    const baseUrl: string
    var systemPrompts: seq<string>

    constructor(apiKey: string, baseUrl: Option<string>)
      ensures this.apiKey == apiKey && this.baseUrl == NormalizeBaseUrl(baseUrl)
      ensures systemPrompts == []
    {
      this.apiKey := apiKey;
      this.baseUrl := NormalizeBaseUrl(baseUrl);
      systemPrompts := [];
    }

    /** The system prompts joined by blank lines. */
    function SystemPrompt(): string
      reads this
    {
      Join(systemPrompts, "\n\n")
    }

    method AddSystemPrompt(prompt: string)
      modifies this`systemPrompts
      ensures systemPrompts == old(systemPrompts) + [prompt]
    {
      systemPrompts := systemPrompts + [prompt];
    }

    /** Exactly one system prompt more: the tools heading and the tool prompts. */
    method SetAvailableTools(prompts: seq<string>)
      modifies this`systemPrompts
      ensures systemPrompts == old(systemPrompts) + [AiClient.ToolsPrompt(prompts)]
      ensures SystemPrompt() == if old(systemPrompts) == [] then AiClient.ToolsPrompt(prompts)
        else old(SystemPrompt()) + "\n\n" + AiClient.ToolsPrompt(prompts)
    {
      var toolsPrompt := Join(prompts, "\n\n");
      AddSystemPrompt("## Available Tools\n" + toolsPrompt);
      if old(systemPrompts) != [] {
        JoinSnoc(old(systemPrompts), AiClient.ToolsPrompt(prompts), "\n\n");
      }
    }

    /**
     * `sendMedia`: a system message with the joined prompts, then a user message with the
     * prompt as text when there is one and the image as a data address; the reply is the
     * trimmed concatenation of the streamed deltas.
     */
    method SendMedia(media: string, mimeType: string, prompt: Option<string>, model: Option<string>,
                     deltas: seq<Option<string>>)
      returns (request: Request, result: string, callbacks: seq<string>)
      ensures request.model == model.Coalesce(DEFAULT_MODEL) && request.stream
      ensures |request.messages| == 2
      ensures request.messages[0] == TextMessage(System, SystemPrompt())
      ensures request.messages[1].PartsMessage? && request.messages[1].role == User
      ensures var parts := request.messages[1].parts;
        && |parts| == (if Truthy(prompt) then 2 else 1)
        && parts[|parts| - 1] == ImageUrlPart(DataUrl(mimeType, media), "auto")
        && (Truthy(prompt) ==> parts[0] == TextPart(prompt.value))
      ensures callbacks == AiClient.Chunks(deltas)
      ensures result == Trim(Concat(callbacks))
    {
      var messages: seq<Message> := [];
      messages := messages + [TextMessage(System, Join(systemPrompts, "\n\n"))];
      var contentParts: seq<ContentPart> := [];
      if Truthy(prompt) {
        contentParts := contentParts + [TextPart(prompt.value)];
      }
      contentParts := contentParts + [ImageUrlPart("data:" + mimeType + ";base64," + media, "auto")];
      messages := messages + [PartsMessage(User, contentParts)];
      request, result, callbacks := ExecuteStream(model.Coalesce(DEFAULT_MODEL), messages, deltas);
    }

    /**
     * `sendChat` as the source has it: the system prompt is appended to the caller's list,
     * and then that whole list, prompt included, is converted, so the prompt is sent last.
     */
    method SendChat(messages: MessageList, model: Option<string>, deltas: seq<Option<string>>)
      returns (request: Request, result: string, callbacks: seq<string>)
      modifies messages
      ensures messages.items == old(messages.items) + [AiChatMessage(System, SystemPrompt())]
      ensures request == Request(model.Coalesce(DEFAULT_MODEL), AiClient.Turns(messages.items, TextTurn), true)
      ensures callbacks == AiClient.Chunks(deltas)
      ensures result == Trim(Concat(callbacks))
    {
      messages.items := messages.items + [AiChatMessage(System, Join(systemPrompts, "\n\n"))];
      var converted := ConvertHistory(messages.items);
      request, result, callbacks := ExecuteStream(model.Coalesce(DEFAULT_MODEL), converted, deltas);
    }

    /** `sendChat` with the system prompt put first, as the other client and `sendMedia` do. */
    method SendChatPromptFirst(messages: seq<AiChatMessage>, model: Option<string>, deltas: seq<Option<string>>)
      returns (request: Request, result: string, callbacks: seq<string>)
      ensures request == Request(model.Coalesce(DEFAULT_MODEL),
        [TextMessage(System, SystemPrompt())] + AiClient.Turns(messages, TextTurn), true)
      ensures callbacks == AiClient.Chunks(deltas)
      ensures result == Trim(Concat(callbacks))
    {
      var converted := ConvertHistory(messages);
      request, result, callbacks :=
        ExecuteStream(model.Coalesce(DEFAULT_MODEL), [TextMessage(System, Join(systemPrompts, "\n\n"))] + converted, deltas);
    }

    /** `_executeStream`: the request, and the trimmed concatenation of the deltas with text. */
    method ExecuteStream(model: string, messages: seq<Message>, deltas: seq<Option<string>>)
      returns (request: Request, result: string, callbacks: seq<string>)
      ensures request == Request(model, messages, true)
      ensures callbacks == AiClient.Chunks(deltas)
      ensures result == Trim(Concat(callbacks))
    {
      request := Request(model, messages, true);
      var aggregated;
      aggregated, callbacks := AiClient.Stream(deltas);
      result := Trim(aggregated);
    }
  }

  /** The conversion loop of `sendChat`: blank messages skipped, the rest trimmed, roles kept. */
  method ConvertHistory(messages: seq<AiChatMessage>) returns (converted: seq<Message>)
    ensures converted == AiClient.Turns(messages, TextTurn)
  {
    converted := [];
    for i := 0 to |messages|
      invariant converted == AiClient.Turns(messages[..i], TextTurn)
    {
      var message := messages[i];
      var trimmed := Trim(message.content);
      AiClient.TurnsAppend(messages[..i], [message], TextTurn);
      assert messages[..i + 1] == messages[..i] + [message];
      AiClient.TurnsSingle(message, TextTurn);
      if trimmed == "" {
        continue;
      }
      converted := converted + [TextMessage(message.role, trimmed)];
    }
    assert messages[..|messages|] == messages;
  }

  /**
   * What `sendChat` sends: the conversation's turns, then the system prompt when it is not
   * blank. The prompt is never first unless the conversation has no text at all.
   */
  lemma SendChatPromptLast(history: seq<AiChatMessage>, systemPrompt: string)
    ensures var sent := AiClient.Turns(history + [AiChatMessage(System, systemPrompt)], TextTurn);
      && |AiClient.Turns(history, TextTurn)| <= |sent|
      && sent[..|AiClient.Turns(history, TextTurn)|] == AiClient.Turns(history, TextTurn)
      && (AllSpace(systemPrompt) ==> sent == AiClient.Turns(history, TextTurn))
      && (!AllSpace(systemPrompt) ==> sent == AiClient.Turns(history, TextTurn) + [TextMessage(System, Trim(systemPrompt))])
  {
    AiClient.TurnsAppend(history, [AiChatMessage(System, systemPrompt)], TextTurn);
    AiClient.TurnsSingle(AiChatMessage(System, systemPrompt), TextTurn);
  }

  /** A one-message conversation goes out with the user's message ahead of the instructions. */
  lemma SendChatPromptLastExample()
    ensures AiClient.Turns([AiChatMessage(User, "hi"), AiChatMessage(System, "Be brief")], TextTurn) ==
      [TextMessage(User, "hi"), TextMessage(System, "Be brief")]
  {
    var history := [AiChatMessage(User, "hi")];
    assert !AllSpace("hi") by { assert !IsSpace("hi"[0]); }
    assert !AllSpace("Be brief") by { assert !IsSpace("Be brief"[0]); }
    TrimFixed("hi");
    TrimFixed("Be brief");
    AiClient.TurnsSingle(history[0], TextTurn);
    SendChatPromptLast(history, "Be brief");
    assert history + [AiChatMessage(System, "Be brief")] == [AiChatMessage(User, "hi"), AiChatMessage(System, "Be brief")];
  }

  /** With the prompt put first, the system message leads and the conversation follows unchanged. */
  lemma PromptFirstLeads(history: seq<AiChatMessage>, systemPrompt: string)
    ensures var sent := [TextMessage(System, systemPrompt)] + AiClient.Turns(history, TextTurn);
      sent[0] == TextMessage(System, systemPrompt) &&
      sent[1..] == Map(Map(Filter(history, HasText), AiClient.Trimmed), AiClient.Make(TextTurn))
  {
    AiClient.TurnsAreFilterMap(history, TextTurn);
  }

  /** `getAvailableModels`: every listed id is both the name and the display name. */
  function ModelsFromIds(ids: seq<string>): (r: seq<OpenAiModel>)
    ensures |r| == |ids|
    ensures forall k :: 0 <= k < |r| ==> r[k].name == ids[k] && r[k].displayName == ids[k]
  {
    Map(ids, (id: string) => OpenAiModel(id, id))
  }
}
