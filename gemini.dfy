/**
 * The Gemini client: its generation config with defaults, the system prompts it collects, the
 * content lists it builds for an image and for a conversation, and the reply it assembles from
 * the streamed chunks. The request is returned instead of sent, and the chunk texts the service
 * would stream back are a parameter.
 */
module Gemini {
  import opened Wrappers
  import opened JsText
  import opened Seqs
  import opened ChatTypes
  import AiClient

  const DEFAULT_MODEL: string := "gemini-2.5-pro"
  /** -1 asks the service to choose the thinking budget itself. */
  const DEFAULT_THINKING_BUDGET: int := -1

  datatype HarmCategory = Harassment | HateSpeech | SexuallyExplicit | DangerousContent
  datatype HarmBlockThreshold = BlockNone | BlockOnlyHigh | BlockMediumAndAbove | BlockLowAndAbove
  datatype SafetySetting = SafetySetting(category: HarmCategory, threshold: HarmBlockThreshold)

  /** The optional configuration a caller passes. */
  datatype GeminiConfig = GeminiConfig(thinkingBudget: Option<int>, safetySettings: Option<seq<SafetySetting>>)

  /** The configuration the client keeps, every field filled in. */
  datatype Config = Config(thinkingBudget: int, safetySettings: seq<SafetySetting>)

  /** Nothing blocked, in each of the four harm categories. */
  const DEFAULT_SAFETY_SETTINGS: seq<SafetySetting> := [
    SafetySetting(Harassment, BlockNone),
    SafetySetting(HateSpeech, BlockNone),
    SafetySetting(SexuallyExplicit, BlockNone),
    SafetySetting(DangerousContent, BlockNone)
  ]

  /** `config?.thinkingBudget ?? -1` and `config?.safetySettings ?? [...]`. */
  function ResolveConfig(config: Option<GeminiConfig>): (r: Config)
    ensures config.Some? && config.value.thinkingBudget.Some? ==> r.thinkingBudget == config.value.thinkingBudget.value
    ensures (config.None? || config.value.thinkingBudget.None?) ==> r.thinkingBudget == DEFAULT_THINKING_BUDGET
    ensures config.Some? && config.value.safetySettings.Some? ==> r.safetySettings == config.value.safetySettings.value
    ensures (config.None? || config.value.safetySettings.None?) ==> r.safetySettings == DEFAULT_SAFETY_SETTINGS
  {
    match config
    case None => Config(DEFAULT_THINKING_BUDGET, DEFAULT_SAFETY_SETTINGS)
    case Some(c) => Config(c.thinkingBudget.Coalesce(DEFAULT_THINKING_BUDGET), c.safetySettings.Coalesce(DEFAULT_SAFETY_SETTINGS))
  }

  /** A resolved configuration passed back in resolves to itself. */
  lemma ResolveConfigFixed(config: Option<GeminiConfig>)
    ensures var r := ResolveConfig(config);
      ResolveConfig(Some(GeminiConfig(Some(r.thinkingBudget), Some(r.safetySettings)))) == r
  {
  }

  /** By default every harm category has a setting, and no setting blocks anything. */
  lemma DefaultsBlockNothing(c: HarmCategory)
    ensures var r := ResolveConfig(None);
      && (exists k :: 0 <= k < |r.safetySettings| && r.safetySettings[k] == SafetySetting(c, BlockNone))
      && (forall k :: 0 <= k < |r.safetySettings| ==> r.safetySettings[k].threshold == BlockNone)
  {
    var k := match c
      case Harassment => 0
      case HateSpeech => 1
      case SexuallyExplicit => 2
      case DangerousContent => 3;
    var r := ResolveConfig(None);
    assert r.safetySettings[k] == SafetySetting(c, BlockNone);
  }

  /** A part of a content entry: text, an image by address, or an image inline in base64. */
  datatype Part =
    | TextPart(text: string)
    | FileData(mimeType: string, fileUri: string)
    | InlineData(mimeType: string, data: string)

  /** The roles Gemini knows: the user's side and the model's. */
  datatype ContentRole = UserRole | ModelRole

  datatype Content = Content(role: ContentRole, parts: seq<Part>)

  /** The streamed generation request. */
  datatype Request = Request(model: string, thinkingBudget: int, safetySettings: seq<SafetySetting>,
                             contents: seq<Content>)

  /** An entry of the service's model list: its name, and its display name if it has one. */
  datatype ListedModel = ListedModel(name: string, displayName: Option<string>)

  datatype GeminiModel = GeminiModel(name: string, displayName: string)

  /** An assistant message is the model's turn; user and system messages are the user's. */
  function ChatTurn(role: ChatRole, text: string): Content {
    Content(if role == Assistant then ModelRole else UserRole, [TextPart(text)])
  }

  /** The part an image becomes: addresses starting with "http" by reference, anything else inline. */
  function MediaPart(media: string, mimeType: string): (r: Part)
    ensures StartsWith(media, "http") ==> r == FileData(mimeType, media)
    ensures !StartsWith(media, "http") ==> r == InlineData(mimeType, media)
  {
    if StartsWith(media, "http") then FileData(mimeType, media) else InlineData(mimeType, media)
  }

  class Client {
    const apiKey: string
    const baseUrl: Option<string>
    const config: Config
    var systemPrompts: seq<string>

    constructor(apiKey: string, baseUrl: Option<string>, config: Option<GeminiConfig>)
      ensures this.apiKey == apiKey && this.baseUrl == baseUrl
      ensures this.config == ResolveConfig(config)
      ensures systemPrompts == []
    {
      this.apiKey := apiKey;
      this.baseUrl := baseUrl;
      this.config := ResolveConfig(config);
      systemPrompts := [];
    }

    /** The system prompts joined by blank lines. */
    function SystemPrompt(): string
      reads this
    {
      Join(systemPrompts, "\n\n")
    }

    method AddSystemPrompt(prompt: string)
      modifies this`systemPrompts
      ensures systemPrompts == old(systemPrompts) + [prompt]
    {
      systemPrompts := systemPrompts + [prompt];
    }

    /** Exactly one system prompt more: the tools heading and the tool prompts. */
    method SetAvailableTools(prompts: seq<string>)
      modifies this`systemPrompts
      ensures systemPrompts == old(systemPrompts) + [AiClient.ToolsPrompt(prompts)]
      ensures SystemPrompt() == if old(systemPrompts) == [] then AiClient.ToolsPrompt(prompts)
        else old(SystemPrompt()) + "\n\n" + AiClient.ToolsPrompt(prompts)
    {
      var toolsPrompt := Join(prompts, "\n\n");
      AddSystemPrompt("## Available Tools\n" + toolsPrompt);
      if old(systemPrompts) != [] {
        JoinSnoc(old(systemPrompts), AiClient.ToolsPrompt(prompts), "\n\n");
      }
    }

    /**
     * `sendMedia`: a user turn with the joined system prompts (an array is always truthy, so
     * this turn is there even when there are no prompts), then a user turn with the prompt as
     * text when there is one and the image. The reply is the concatenated chunks, untrimmed.
     */
    method SendMedia(media: string, mimeType: string, prompt: Option<string>, model: Option<string>,
                     deltas: seq<Option<string>>)
      returns (request: Request, result: string, callbacks: seq<string>)
      ensures request.model == model.Coalesce(DEFAULT_MODEL)
      ensures request.thinkingBudget == config.thinkingBudget && request.safetySettings == config.safetySettings
      ensures |request.contents| == 2
      ensures request.contents[0] == Content(UserRole, [TextPart(SystemPrompt())])
      ensures request.contents[1].role == UserRole
      ensures var parts := request.contents[1].parts;
        && |parts| == (if Truthy(prompt) then 2 else 1)
        && parts[|parts| - 1] == MediaPart(media, mimeType)
        && (Truthy(prompt) ==> parts[0] == TextPart(prompt.value))
      ensures callbacks == AiClient.Chunks(deltas)
      ensures result == Concat(callbacks)
    {
      var contents: seq<Content> := [];
      contents := contents + [Content(UserRole, [TextPart(Join(systemPrompts, "\n\n"))])];
      var parts: seq<Part> := [];
      if Truthy(prompt) {
        parts := parts + [TextPart(prompt.value)];
      }
      if StartsWith(media, "http") {
        parts := parts + [FileData(mimeType, media)];
      } else {
        parts := parts + [InlineData(mimeType, media)];
      }
      contents := contents + [Content(UserRole, parts)];
      request := Request(model.Coalesce(DEFAULT_MODEL), config.thinkingBudget, config.safetySettings, contents);
      result, callbacks := AiClient.Stream(deltas);
    }

    /**
     * `sendChat`: the system prompt as the first user turn, then each message with text, trimmed,
     * as a model turn when the assistant wrote it and a user turn otherwise. The reply is the
     * concatenated chunks, trimmed.
     */
    method SendChat(messages: seq<AiChatMessage>, model: Option<string>, deltas: seq<Option<string>>)
      returns (request: Request, result: string, callbacks: seq<string>)
      ensures request == Request(model.Coalesce(DEFAULT_MODEL), config.thinkingBudget, config.safetySettings,
        [Content(UserRole, [TextPart(SystemPrompt())])] + AiClient.Turns(messages, ChatTurn))
      ensures callbacks == AiClient.Chunks(deltas)
      ensures result == Trim(Concat(callbacks))
    {
      var contents: seq<Content> := [Content(UserRole, [TextPart(Join(systemPrompts, "\n\n"))])];
      for i := 0 to |messages|
        invariant contents == [Content(UserRole, [TextPart(SystemPrompt())])] + AiClient.Turns(messages[..i], ChatTurn)
      {
        var message := messages[i];
        var trimmed := Trim(message.content);
        AiClient.TurnsAppend(messages[..i], [message], ChatTurn);
        AiClient.TurnsSingle(message, ChatTurn);
        assert messages[..i + 1] == messages[..i] + [message];
        if trimmed == "" {
          continue;
        }
        var role := if message.role == Assistant then ModelRole else UserRole;
        contents := contents + [Content(role, [TextPart(trimmed)])];
      }
      assert messages[..|messages|] == messages;
      request := Request(model.Coalesce(DEFAULT_MODEL), config.thinkingBudget, config.safetySettings, contents);
      var aggregated;
      aggregated, callbacks := AiClient.Stream(deltas);
      result := Trim(aggregated);
    }
  }

  /**
   * After the system turn, the conversation's messages with text follow in order, one turn
   * each, trimmed; a turn is the model's exactly when the assistant wrote the message.
   */
  lemma ChatTurnsFollowMessages(messages: seq<AiChatMessage>)
    ensures var turns := AiClient.Turns(messages, ChatTurn);
      var spoken := Filter(messages, HasText);
      && |turns| == |spoken|
      && forall k :: 0 <= k < |turns| ==>
        && turns[k].parts == [TextPart(Trim(spoken[k].content))]
        && (turns[k].role == ModelRole <==> spoken[k].role == Assistant)
  {
    AiClient.TurnsAreFilterMap(messages, ChatTurn);
    var turns := AiClient.Turns(messages, ChatTurn);
    var spoken := Filter(messages, HasText);
    var trimmed := Map(spoken, AiClient.Trimmed);
    var made := Map(trimmed, AiClient.Make(ChatTurn));
    assert turns == made;
    forall k | 0 <= k < |turns|
      ensures turns[k].parts == [TextPart(Trim(spoken[k].content))]
      ensures turns[k].role == ModelRole <==> spoken[k].role == Assistant
    {
      var m := trimmed[k];
      assert m == AiClient.Trimmed(spoken[k]);
      assert made[k] == AiClient.Make(ChatTurn)(m);
      assert made[k] == ChatTurn(m.role, m.content);
    }
  }

  /** `getAvailableModels`: every listed model keeps its name, and shows it when it has no display name. */
  function ModelsFromList(models: seq<ListedModel>): (r: seq<GeminiModel>)
    ensures |r| == |models|
    ensures forall k :: 0 <= k < |r| ==>
      && r[k].name == models[k].name
      && (models[k].displayName.Some? ==> r[k].displayName == models[k].displayName.value)
      && (models[k].displayName.None? ==> r[k].displayName == models[k].name)
  {
    Map(models, (m: ListedModel) => GeminiModel(m.name, m.displayName.Coalesce(m.name)))
  }
}
