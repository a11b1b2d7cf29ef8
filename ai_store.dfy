/**
 * The AI source registry: a list of provider configurations and the id of the active one,
 * the rule that re-elects the active source when it is removed, and the read-only queries
 * that pick the source a request goes to.
 */
module AiStore {
  import opened Wrappers
  import opened Seqs

  datatype AiProvider = Gemini | OpenAi

  /** `apiKey: null` and an absent `baseUrl`, `traits` or `thinkingBudget` are `None`. */
  datatype AiSource = AiSource(
    id: string,
    name: string,
    provider: AiProvider,
    apiKey: Option<string>,
    baseUrl: Option<string>,
    model: string,
    traits: Option<string>,
    thinkingBudget: Option<int>,
    enabled: bool)

  /** A source as `addSource` receives it: everything but the id. */
  datatype NewSource = NewSource(
    name: string,
    provider: AiProvider,
    apiKey: Option<string>,
    baseUrl: Option<string>,
    model: string,
    traits: Option<string>,
    thinkingBudget: Option<int>,
    enabled: bool)

  /**
   * `Partial<AiSource>`. For a field that may be `null` or absent in a source, the outer
   * `Option` says whether the update carries the key and the inner one its value: the
   * settings page clears the traits with `Some(None)`.
   */
  datatype AiSourcePatch = AiSourcePatch(
    id: Option<string>,
    name: Option<string>,
    provider: Option<AiProvider>,
    apiKey: Option<Option<string>>,
    baseUrl: Option<Option<string>>,
    model: Option<string>,
    traits: Option<Option<string>>,
    thinkingBudget: Option<Option<int>>,
    enabled: Option<bool>)

  /** What the legacy single-Gemini configuration held, once read back from storage. */
  datatype LegacyGemini = LegacyGemini(
    apiKey: Option<string>,
    baseUrl: string,
    model: string,
    traits: Option<string>,
    thinkingBudget: int)

  /** The arguments a client is constructed with. */
  datatype ClientConfig =
    | GeminiClient(key: string, geminiBaseUrl: Option<string>, budget: Option<int>)
    | OpenAiClient(key: string, openAiBaseUrl: Option<string>)

  const DEFAULT_GEMINI_MODEL: string := "models/gemini-2.5-flash"
  const DEFAULT_GEMINI_BASE_URL: string := "https://generativelanguage.googleapis.com"
  const DEFAULT_OPENAI_MODEL: string := "gpt-4.1-mini"
  const DEFAULT_OPENAI_BASE_URL: string := "https://api.openai.com/v1"
  const DEFAULT_THINKING_BUDGET: int := 8192
  const GEMINI_DEFAULT_ID: string := "gemini-default"
  const OPENAI_DEFAULT_ID: string := "openai-default"

  /** `Boolean(source.apiKey)`: a key is present and not the empty string. */
  predicate HasKey(source: AiSource) {
    source.apiKey.Some? && source.apiKey.value != ""
  }

  /** Enabled and holding a key: the sources a request may go to. */
  predicate Usable(source: AiSource) {
    source.enabled && HasKey(source)
  }

  /** The two built-in sources; the Gemini one takes over a legacy configuration if there is one. */
  function CreateDefaultSources(legacy: Option<LegacyGemini>): (r: seq<AiSource>)
    ensures |r| == 2 && r[0].id != r[1].id
    ensures r[0].id == GEMINI_DEFAULT_ID && r[0].provider == Gemini && r[0].enabled
    ensures r[1].id == OPENAI_DEFAULT_ID && r[1].provider == OpenAi && !r[1].enabled
    ensures r[1].apiKey.None? && r[1].traits.None? && r[1].thinkingBudget.None?
    ensures r[1].model == DEFAULT_OPENAI_MODEL && r[1].baseUrl == Some(DEFAULT_OPENAI_BASE_URL)
    ensures legacy.None? ==>
      r[0].apiKey.None? && r[0].model == DEFAULT_GEMINI_MODEL &&
      r[0].baseUrl == Some(DEFAULT_GEMINI_BASE_URL) && r[0].thinkingBudget == Some(DEFAULT_THINKING_BUDGET)
    ensures legacy.Some? ==>
      r[0].apiKey == legacy.value.apiKey && r[0].model == legacy.value.model &&
      r[0].baseUrl == Some(legacy.value.baseUrl) && r[0].traits == legacy.value.traits &&
      r[0].thinkingBudget == Some(legacy.value.thinkingBudget)
    ensures !Usable(r[1])
  {
    var gemini := match legacy
      case None =>
        AiSource(GEMINI_DEFAULT_ID, "Gemini", Gemini, None, Some(DEFAULT_GEMINI_BASE_URL),
                 DEFAULT_GEMINI_MODEL, None, Some(DEFAULT_THINKING_BUDGET), true)
      case Some(l) =>
        AiSource(GEMINI_DEFAULT_ID, "Gemini", Gemini, l.apiKey, Some(l.baseUrl),
                 l.model, l.traits, Some(l.thinkingBudget), true);
    var openai := AiSource(OPENAI_DEFAULT_ID, "OpenAI", OpenAi, None, Some(DEFAULT_OPENAI_BASE_URL),
                           DEFAULT_OPENAI_MODEL, None, None, false);
    [gemini, openai]
  }

  /** The client a source would get: none without a key, otherwise one for its provider. */
  function CreateClientForSource(source: AiSource): (r: Option<ClientConfig>)
    ensures r.None? <==> !HasKey(source)
    ensures r.Some? ==> r.value.key == source.apiKey.value
    ensures r.Some? ==> (r.value.GeminiClient? <==> source.provider == Gemini)
    ensures r.Some? && r.value.GeminiClient? ==>
      r.value.geminiBaseUrl == source.baseUrl && r.value.budget == source.thinkingBudget
    ensures r.Some? && r.value.OpenAiClient? ==> r.value.openAiBaseUrl == source.baseUrl
  {
    if !HasKey(source) then None
    else match source.provider
      case Gemini => Some(GeminiClient(source.apiKey.value, source.baseUrl, source.thinkingBudget))
      case OpenAi => Some(OpenAiClient(source.apiKey.value, source.baseUrl))
  }

  /** `getEnabledSources`: the usable sources, in list order. */
  function EnabledSources(sources: seq<AiSource>): (r: seq<AiSource>)
    ensures forall s :: s in r <==> s in sources && Usable(s)
    ensures IsSubsequence(r, sources)
    ensures (forall k :: 0 <= k < |sources| ==> Usable(sources[k])) ==> r == sources
  {
    FilterFacts(sources, Usable);
    Filter(sources, Usable)
  }

  /** `hasActiveKey`: some source can take a request. */
  function HasActiveKey(sources: seq<AiSource>): (b: bool)
    ensures b <==> exists k :: 0 <= k < |sources| && Usable(sources[k])
  {
    var enabled := EnabledSources(sources);
    assert enabled != [] ==> enabled[0] in enabled;
    assert forall k :: 0 <= k < |sources| && Usable(sources[k]) ==> sources[k] in enabled;
    |enabled| > 0
  }

  predicate IsGemini(source: AiSource) {
    source.provider == Gemini
  }

  /** `allowPdfUpload`: some usable source is a Gemini one. */
  function AllowPdfUpload(sources: seq<AiSource>): (b: bool)
    ensures b <==> exists k :: 0 <= k < |sources| && Usable(sources[k]) && sources[k].provider == Gemini
  {
    var gemini := Filter(EnabledSources(sources), IsGemini);
    assert gemini != [] ==> gemini[0] in gemini;
    assert forall k :: 0 <= k < |sources| && Usable(sources[k]) && IsGemini(sources[k]) ==> sources[k] in gemini;
    |gemini| > 0
  }

  /** `getSourceById`: the first source with this id. */
  function SourceById(sources: seq<AiSource>, id: string): (r: Option<AiSource>)
    ensures r.Some? <==> exists k :: 0 <= k < |sources| && sources[k].id == id
    ensures r.Some? ==> r.value in sources && r.value.id == id
    ensures r.Some? ==> exists k :: FirstWithIdAt(sources, id, k) && sources[k] == r.value
  {
    Find(sources, HasId(id))
  }

  /** `sources[k]` has this id and no source before it does. */
  ghost predicate FirstWithIdAt(sources: seq<AiSource>, id: string, k: int) {
    0 <= k < |sources| && sources[k].id == id && forall j :: 0 <= j < k ==> sources[j].id != id
  }

  /** `sources[k]` is usable and no usable source comes before it. */
  ghost predicate FirstUsableAt(sources: seq<AiSource>, k: int) {
    0 <= k < |sources| && Usable(sources[k]) && forall j :: 0 <= j < k ==> !Usable(sources[j])
  }

  /**
   * `getActiveSource`: the active source when it is usable, else the first usable source,
   * else the first source, else nothing.
   */
  function ActiveSource(sources: seq<AiSource>, activeId: string): (r: Option<AiSource>)
    ensures r.None? <==> sources == []
    ensures r.Some? ==> r.value in sources
    ensures (exists k :: 0 <= k < |sources| && sources[k].id == activeId && Usable(sources[k])) ==>
      r.Some? && r.value.id == activeId && Usable(r.value)
    ensures ((forall k :: 0 <= k < |sources| ==> !(sources[k].id == activeId && Usable(sources[k]))) &&
             (exists k :: 0 <= k < |sources| && Usable(sources[k]))) ==>
      exists k :: FirstUsableAt(sources, k) && r == Some(sources[k])
    ensures (forall k :: 0 <= k < |sources| ==> !Usable(sources[k])) && sources != [] ==>
      r == Some(sources[0])
  {
    match Find(sources, IsUsableWithId(activeId))
    case Some(s) => Some(s)
    case None =>
      match Find(sources, Usable)
      case Some(s) => Some(s)
      case None => if sources == [] then None else Some(sources[0])
  }

  /** The source has this id. */
  function HasId(id: string): AiSource -> bool {
    (s: AiSource) => s.id == id
  }

  /** The source has this id and can take a request. */
  function IsUsableWithId(id: string): AiSource -> bool {
    (s: AiSource) => s.id == id && Usable(s)
  }

  /** The source `getActiveSource` picks can take a request exactly when `hasActiveKey` holds. */
  lemma ActiveSourceUsable(sources: seq<AiSource>, activeId: string)
    ensures HasActiveKey(sources) <==>
      ActiveSource(sources, activeId).Some? && Usable(ActiveSource(sources, activeId).value)
  {
    var r := ActiveSource(sources, activeId);
    if HasActiveKey(sources) {
      var k :| 0 <= k < |sources| && Usable(sources[k]);
      if exists j :: 0 <= j < |sources| && sources[j].id == activeId && Usable(sources[j]) {
      } else {
        var j :| FirstUsableAt(sources, j) && r == Some(sources[j]);
      }
    } else if sources != [] {
      assert !Usable(sources[0]);
    }
  }

  /**
   * `getClientForSource`: with a non-empty id, the client of the source with that id;
   * otherwise the client of the active source.
   */
  function ClientForSource(sources: seq<AiSource>, activeId: string, id: Option<string>): Option<ClientConfig> {
    var chosen := if id.Some? && id.value != "" then SourceById(sources, id.value) else ActiveSource(sources, activeId);
    match chosen
    case None => None
    case Some(s) => CreateClientForSource(s)
  }

  /**
   * What `getClientForSource` hands back. With a non-empty id: the client of the first source
   * with that id, and nothing when no source has it. Without one: a client whenever some source
   * is usable, built from the active source when that is usable and from the first usable one
   * otherwise; with no usable source, the first source's client, which exists exactly when that
   * source has a key even though it is disabled.
   */
  lemma ClientForSourceMeaning(sources: seq<AiSource>, activeId: string, id: Option<string>)
    ensures var r := ClientForSource(sources, activeId, id);
      id.Some? && id.value != "" ==>
        && ((forall k :: 0 <= k < |sources| ==> sources[k].id != id.value) ==> r.None?)
        && (forall k :: FirstWithIdAt(sources, id.value, k) ==> r == CreateClientForSource(sources[k]))
    ensures var r := ClientForSource(sources, activeId, id);
      id.None? || id.value == "" ==>
        && (r.Some? <==> HasActiveKey(sources) || (sources != [] && HasKey(sources[0])))
        && ((exists k :: 0 <= k < |sources| && sources[k].id == activeId && Usable(sources[k])) ==>
              exists k :: 0 <= k < |sources| && sources[k].id == activeId && Usable(sources[k]) &&
                r == CreateClientForSource(sources[k]))
        && ((forall k :: 0 <= k < |sources| ==> !(sources[k].id == activeId && Usable(sources[k]))) &&
            HasActiveKey(sources) ==>
              exists k :: FirstUsableAt(sources, k) && r == CreateClientForSource(sources[k]))
        && (!HasActiveKey(sources) && sources != [] ==> r == CreateClientForSource(sources[0]))
    ensures var r := ClientForSource(sources, activeId, id);
      r.Some? ==> exists k :: 0 <= k < |sources| && HasKey(sources[k]) && r.value.key == sources[k].apiKey.value
  {
    var r := ClientForSource(sources, activeId, id);
    if id.Some? && id.value != "" {
      var found := SourceById(sources, id.value);
      forall k | FirstWithIdAt(sources, id.value, k) ensures r == CreateClientForSource(sources[k]) {
        var j :| FirstWithIdAt(sources, id.value, j) && sources[j] == found.value;
        assert j == k;
      }
      if r.Some? {
        var j :| FirstWithIdAt(sources, id.value, j) && sources[j] == found.value;
        assert HasKey(sources[j]);
      }
    } else {
      var active := ActiveSource(sources, activeId);
      ActiveSourceUsable(sources, activeId);
      if (exists k :: 0 <= k < |sources| && sources[k].id == activeId && Usable(sources[k])) {
        var k :| 0 <= k < |sources| && sources[k] == active.value;
      }
      if r.Some? {
        var k :| 0 <= k < |sources| && sources[k] == active.value;
        assert HasKey(sources[k]);
      }
      if HasActiveKey(sources) {
        assert Usable(active.value);
      }
    }
  }

  /** `{ ...source, ...updates }`. */
  function PatchSource(source: AiSource, updates: AiSourcePatch): (r: AiSource)
    ensures r.id == updates.id.Coalesce(source.id)
    ensures r.name == updates.name.Coalesce(source.name)
    ensures r.provider == updates.provider.Coalesce(source.provider)
    ensures r.apiKey == updates.apiKey.Coalesce(source.apiKey)
    ensures r.baseUrl == updates.baseUrl.Coalesce(source.baseUrl)
    ensures r.model == updates.model.Coalesce(source.model)
    ensures r.traits == updates.traits.Coalesce(source.traits)
    ensures r.thinkingBudget == updates.thinkingBudget.Coalesce(source.thinkingBudget)
    ensures r.enabled == updates.enabled.Coalesce(source.enabled)
  {
    AiSource(
      updates.id.Coalesce(source.id),
      updates.name.Coalesce(source.name),
      updates.provider.Coalesce(source.provider),
      updates.apiKey.Coalesce(source.apiKey),
      updates.baseUrl.Coalesce(source.baseUrl),
      updates.model.Coalesce(source.model),
      updates.traits.Coalesce(source.traits),
      updates.thinkingBudget.Coalesce(source.thinkingBudget),
      updates.enabled.Coalesce(source.enabled))
  }

  /** The active id `removeSource` falls back to: first enabled, else first, else the Gemini default. */
  function Reelect(remaining: seq<AiSource>): (r: string)
    ensures remaining != [] ==> exists k :: 0 <= k < |remaining| && remaining[k].id == r
    ensures remaining == [] ==> r == GEMINI_DEFAULT_ID
    ensures (exists k :: 0 <= k < |remaining| && remaining[k].enabled) ==>
      exists k :: 0 <= k < |remaining| && remaining[k].enabled && remaining[k].id == r &&
        forall j :: 0 <= j < k ==> !remaining[j].enabled
    ensures (forall k :: 0 <= k < |remaining| ==> !remaining[k].enabled) && remaining != [] ==>
      r == remaining[0].id
  {
    match FindIndex(remaining, (s: AiSource) => s.enabled)
    case Some(k) => remaining[k].id
    case None => if remaining == [] then GEMINI_DEFAULT_ID else remaining[0].id
  }

  /** `sources.filter(source => source.id !== id)`. */
  function SourcesWithoutId(sources: seq<AiSource>, id: string): (r: seq<AiSource>)
    ensures forall s :: s in r <==> s in sources && s.id != id
    ensures IsSubsequence(r, sources)
  {
    FilterFacts(sources, OtherId(id));
    Filter(sources, OtherId(id))
  }

  /** The source has another id. */
  function OtherId(id: string): AiSource -> bool {
    (s: AiSource) => s.id != id
  }

  class Store {
    var sources: seq<AiSource>
    var activeSourceId: string

    /** Whenever there are sources, the active id is the id of one of them. */
    ghost predicate ActiveNamesSource()
      reads this
    {
      sources != [] ==> exists k :: 0 <= k < |sources| && sources[k].id == activeSourceId
    }

    constructor(legacy: Option<LegacyGemini>)
      ensures sources == CreateDefaultSources(legacy)
      ensures activeSourceId == GEMINI_DEFAULT_ID
      ensures ActiveNamesSource()
    {
      sources := CreateDefaultSources(legacy);
      activeSourceId := GEMINI_DEFAULT_ID;
    }

    /** Appends the source under the fresh id, which it returns. */
    method AddSource(source: NewSource, freshId: string) returns (id: string)
      modifies this`sources
      ensures id == freshId
      ensures sources == old(sources) + [AiSource(freshId, source.name, source.provider, source.apiKey,
        source.baseUrl, source.model, source.traits, source.thinkingBudget, source.enabled)]
      ensures old(ActiveNamesSource()) && old(sources) != [] ==> ActiveNamesSource()
      ensures old(sources) == [] ==> (ActiveNamesSource() <==> freshId == activeSourceId)
    {
      id := freshId;
      var added := AiSource(freshId, source.name, source.provider, source.apiKey,
        source.baseUrl, source.model, source.traits, source.thinkingBudget, source.enabled);
      sources := sources + [added];
      assert sources[|sources| - 1] == added;
      if old(sources) != [] && old(ActiveNamesSource()) {
        var k :| 0 <= k < |old(sources)| && old(sources)[k].id == activeSourceId;
        assert sources[k] == old(sources)[k];
      }
    }

    /**
     * `addSource` as intended: appending to an empty list also makes the new source the
     * active one, so the active id names a source afterwards whenever it did before.
     */
    method AddSourceKeepingActive(source: NewSource, freshId: string) returns (id: string)
      modifies this
      ensures id == freshId
      ensures sources == old(sources) + [AiSource(freshId, source.name, source.provider, source.apiKey,
        source.baseUrl, source.model, source.traits, source.thinkingBudget, source.enabled)]
      ensures activeSourceId == if old(sources) == [] then freshId else old(activeSourceId)
      ensures old(ActiveNamesSource()) ==> ActiveNamesSource()
      ensures old(sources) == [] ==> ActiveNamesSource()
    {
      if sources == [] {
        activeSourceId := freshId;
      }
      id := AddSource(source, freshId);
    }

    /** Merges the update into every source with this id; order and length are kept. */
    method UpdateSource(id: string, updates: AiSourcePatch)
      modifies this`sources
      ensures |sources| == |old(sources)|
      ensures forall k :: 0 <= k < |sources| ==>
        sources[k] == if old(sources)[k].id == id then PatchSource(old(sources)[k], updates) else old(sources)[k]
      ensures old(ActiveNamesSource()) && updates.id.None? ==> ActiveNamesSource()
    {
      var current := sources;
      sources := seq(|current|, k requires 0 <= k < |current| =>
        if current[k].id == id then PatchSource(current[k], updates) else current[k]);
      if current != [] && old(ActiveNamesSource()) && updates.id.None? {
        var k :| 0 <= k < |current| && current[k].id == activeSourceId;
        assert sources[k].id == activeSourceId;
      }
    }

    /**
     * Removes every source with this id. Removing the active one re-elects a new active id;
     * removing another leaves the active id alone.
     */
    method RemoveSource(id: string)
      modifies this
      ensures sources == SourcesWithoutId(old(sources), id)
      ensures activeSourceId == if old(activeSourceId) == id then Reelect(sources) else old(activeSourceId)
      ensures old(ActiveNamesSource()) ==> ActiveNamesSource()
    {
      var next := SourcesWithoutId(sources, id);
      if activeSourceId == id {
        activeSourceId := Reelect(next);
      } else if old(ActiveNamesSource()) && old(sources) != [] {
        var k :| 0 <= k < |old(sources)| && old(sources)[k].id == activeSourceId;
        assert old(sources)[k] in next;
      }
      sources := next;
    }

    /** Sets the enabled flag of every source with this id; order and length are kept. */
    method ToggleSource(id: string, enabled: bool)
      modifies this`sources
      ensures |sources| == |old(sources)|
      ensures forall k :: 0 <= k < |sources| ==>
        sources[k] == if old(sources)[k].id == id then old(sources)[k].(enabled := enabled) else old(sources)[k]
      ensures old(ActiveNamesSource()) ==> ActiveNamesSource()
    {
      var current := sources;
      sources := seq(|current|, k requires 0 <= k < |current| =>
        if current[k].id == id then current[k].(enabled := enabled) else current[k]);
      if current != [] && old(ActiveNamesSource()) {
        var k :| 0 <= k < |current| && current[k].id == activeSourceId;
        assert sources[k].id == activeSourceId;
      }
    }

    /** Makes this id the active one, if some source has it. */
    method SetActiveSource(id: string)
      modifies this`activeSourceId
      ensures (exists k :: 0 <= k < |sources| && sources[k].id == id) ==> activeSourceId == id
      ensures (forall k :: 0 <= k < |sources| ==> sources[k].id != id) ==> activeSourceId == old(activeSourceId)
      ensures old(ActiveNamesSource()) ==> ActiveNamesSource()
    {
      if SourceById(sources, id).Some? {
        activeSourceId := id;
      }
    }
  }

  /**
   * `addSource` as written: once both built-in sources are removed the active id falls back to
   * "gemini-default", and a source added afterwards leaves that id naming no source.
   */
  method AddAfterEmptyingExample(source: NewSource, freshId: string) returns (store: Store)
    requires freshId != GEMINI_DEFAULT_ID
    ensures store.sources != [] && store.activeSourceId == GEMINI_DEFAULT_ID
    ensures !store.ActiveNamesSource()
  {
    ghost var defaults := CreateDefaultSources(None);
    assert defaults == [defaults[0]] + [defaults[1]];
    FilterCons(defaults[0], [defaults[1]], OtherId(GEMINI_DEFAULT_ID));
    FilterCons(defaults[1], [], OtherId(GEMINI_DEFAULT_ID));
    FilterCons(defaults[1], [], OtherId(OPENAI_DEFAULT_ID));
    assert [defaults[1]] + [] == [defaults[1]];
    store := new Store(None);
    store.RemoveSource(GEMINI_DEFAULT_ID);
    assert store.sources == [defaults[1]];
    store.RemoveSource(OPENAI_DEFAULT_ID);
    assert store.sources == [];
    var id := store.AddSource(source, freshId);
  }
}
