/**
 * The settings store: display and behaviour preferences, the keyboard shortcut map, the
 * one-shot choice of interface language, and the migration of persisted settings.
 */
module SettingsStore {
  import opened Wrappers
  import opened JsText

  datatype ThemePreference = Light | Dark | SystemTheme
  datatype LanguagePreference = En | Zh
  datatype ExplanationMode = Explanation | Steps

  /** The names of the actions that have a keyboard shortcut. */
  const ACTION_NAMES: set<string> :=
    {"upload", "camera", "startScan", "clearAll", "openSettings", "openChat", "openGlobalTraitsEditor"}

  type ShortcutAction = a: string | a in ACTION_NAMES witness "upload"

  const DEFAULT_SHORTCUTS: map<string, string> := map[
    "upload" := "ctrl+1",
    "camera" := "ctrl+2",
    "startScan" := "ctrl+3",
    "clearAll" := "ctrl+4",
    "openSettings" := "ctrl+5",
    "openChat" := "ctrl+e",
    "openGlobalTraitsEditor" := "ctrl+x"]

  const DEFAULT_LANGUAGE: LanguagePreference := En

  /** Every action has a binding. */
  ghost predicate BindsEveryAction(bindings: map<string, string>) {
    forall a :: a in ACTION_NAMES ==> a in bindings
  }

  /** The defaults bind exactly the shortcut actions. */
  lemma DefaultsBindEveryAction()
    ensures BindsEveryAction(DEFAULT_SHORTCUTS)
    ensures DEFAULT_SHORTCUTS.Keys == ACTION_NAMES
  {
  }

  /** `navigator.language.toLowerCase().startsWith("zh")`, false without a navigator. */
  function PrefersZh(navigatorLanguage: Option<string>): (b: bool)
    ensures b <==> (navigatorLanguage.Some? && |navigatorLanguage.value| >= 2 &&
                    LowerChar(navigatorLanguage.value[0]) == 'z' && LowerChar(navigatorLanguage.value[1]) == 'h')
  {
    navigatorLanguage.Some? && StartsWith(ToLower(navigatorLanguage.value), "zh")
  }

  /**
   * The persisted settings object, every key optional. `devtools` is the name under which
   * the store persists `devtoolsEnabled`.
   */
  datatype StoredSettings = StoredSettings(
    imageEnhancement: Option<bool>,
    showQwenHint: Option<bool>,
    theme: Option<ThemePreference>,
    language: Option<LanguagePreference>,
    languageInitialized: Option<bool>,
    keybindings: Option<map<string, string>>,
    traits: Option<string>,
    explanationMode: Option<ExplanationMode>,
    devtools: Option<bool>)

  /** What storage handed back: an object, or something that is not one (`null`, a number). */
  datatype Persisted = NotAnObject | AnObject(data: StoredSettings)

  const NO_SETTINGS: StoredSettings := StoredSettings(None, None, None, None, None, None, None, None, None)

  /**
   * `migrate`: before version 3 stored bindings are dropped; the result's bindings are the
   * defaults overlaid by whatever is stored; a missing `showQwenHint` takes the default
   * and a missing `languageInitialized` is true; other keys pass through.
   */
  function Migrate(persisted: Persisted, version: int, showQwenHintDefault: bool): (r: StoredSettings)
    ensures r.keybindings.Some? && BindsEveryAction(r.keybindings.value)
    ensures version < 3 ==> r.keybindings == Some(DEFAULT_SHORTCUTS)
    ensures forall a :: a in ACTION_NAMES ==>
      r.keybindings.value[a] ==
        if version >= 3 && persisted.AnObject? && persisted.data.keybindings.Some? && a in persisted.data.keybindings.value
        then persisted.data.keybindings.value[a] else DEFAULT_SHORTCUTS[a]
    ensures var data := if persisted.AnObject? then persisted.data else NO_SETTINGS;
      r.showQwenHint == Some(data.showQwenHint.Coalesce(showQwenHintDefault)) &&
      r.languageInitialized == Some(data.languageInitialized.Coalesce(true)) &&
      r.(keybindings := data.keybindings, showQwenHint := data.showQwenHint,
         languageInitialized := data.languageInitialized) == data
  {
    var data := if persisted.AnObject? then persisted.data else NO_SETTINGS;
    var data := if version < 3 then data.(keybindings := Some(DEFAULT_SHORTCUTS)) else data;
    var bindings := match data.keybindings
      case Some(existing) => DEFAULT_SHORTCUTS + existing
      case None => DEFAULT_SHORTCUTS;
    assert DEFAULT_SHORTCUTS + DEFAULT_SHORTCUTS == DEFAULT_SHORTCUTS;
    data.(keybindings := Some(bindings),
          showQwenHint := Some(data.showQwenHint.Coalesce(showQwenHintDefault)),
          languageInitialized := Some(data.languageInitialized.Coalesce(true)))
  }

  /** Running the migration on its own output changes nothing. */
  lemma MigrateIdempotent(persisted: Persisted, version: int, showQwenHintDefault: bool)
    ensures var once := Migrate(persisted, version, showQwenHintDefault);
      Migrate(AnObject(once), version, showQwenHintDefault) == once
  {
    var once := Migrate(persisted, version, showQwenHintDefault);
    var kb := once.keybindings.value;
    if version >= 3 {
      assert DEFAULT_SHORTCUTS + kb == kb by {
        DefaultsBindEveryAction();
        assert (DEFAULT_SHORTCUTS + kb).Keys == kb.Keys;
      }
    }
  }

  class Store {
    var imageEnhancement: bool
    var showQwenHint: bool
    var theme: ThemePreference
    var language: LanguagePreference
    var languageInitialized: bool
    var keybindings: map<string, string>
    var traits: string
    var explanationMode: ExplanationMode
    var devtoolsEnabled: bool

    /** Every shortcut action keeps a binding. */
    ghost predicate Valid()
      reads this
    {
      BindsEveryAction(keybindings)
    }

    constructor(showQwenHintDefault: bool)
      ensures Valid()
      ensures !imageEnhancement && showQwenHint == showQwenHintDefault && theme == SystemTheme
      ensures language == DEFAULT_LANGUAGE && !languageInitialized && keybindings == DEFAULT_SHORTCUTS
      ensures traits == "" && explanationMode == Explanation && !devtoolsEnabled
    {
      imageEnhancement := false;
      showQwenHint := showQwenHintDefault;
      theme := SystemTheme;
      language := DEFAULT_LANGUAGE;
      languageInitialized := false;
      keybindings := DEFAULT_SHORTCUTS;
      traits := "";
      explanationMode := Explanation;
      devtoolsEnabled := false;
    }

    method SetImageEnhancement(state: bool)
      modifies this`imageEnhancement
      ensures imageEnhancement == state
    {
      imageEnhancement := state;
    }

    method SetShowQwenHint(state: bool)
      modifies this`showQwenHint
      ensures showQwenHint == state
    {
      showQwenHint := state;
    }

    method SetThemePreference(preference: ThemePreference)
      modifies this`theme
      ensures theme == preference
    {
      theme := preference;
    }

    /** An explicit choice also counts as the initialisation. */
    method SetLanguage(preference: LanguagePreference)
      modifies this`language, this`languageInitialized
      ensures language == preference && languageInitialized
    {
      language := preference;
      languageInitialized := true;
    }

    /**
     * Picks the language from the browser once: Chinese when its language tag starts with
     * "zh" in any case, English otherwise. Once initialised it does nothing, so a second
     * call never changes anything.
     */
    method InitializeLanguage(navigatorLanguage: Option<string>)
      modifies this`language, this`languageInitialized
      ensures languageInitialized
      ensures old(languageInitialized) ==> language == old(language)
      ensures !old(languageInitialized) ==> language == if PrefersZh(navigatorLanguage) then Zh else En
    {
      if !languageInitialized {
        languageInitialized := true;
        language := if PrefersZh(navigatorLanguage) then Zh else En;
      }
    }

    /** Rebinds one action; every other binding is kept. */
    method SetKeybinding(action: ShortcutAction, binding: string)
      requires Valid()
      modifies this`keybindings
      ensures Valid()
      ensures keybindings == old(keybindings)[action := binding]
      ensures keybindings[action] == binding
      ensures forall a :: a in old(keybindings) && a != action ==> a in keybindings && keybindings[a] == old(keybindings)[a]
    {
      keybindings := keybindings[action := binding];
    }

    method ResetKeybindings()
      modifies this`keybindings
      ensures Valid()
      ensures keybindings == DEFAULT_SHORTCUTS
    {
      keybindings := DEFAULT_SHORTCUTS;
    }

    method SetTraits(text: string)
      modifies this`traits
      ensures traits == text
    {
      traits := text;
    }

    method SetExplanationMode(mode: ExplanationMode)
      modifies this`explanationMode
      ensures explanationMode == mode
    {
      explanationMode := mode;
    }

    method SetDevtoolsState(state: bool)
      modifies this`devtoolsEnabled
      ensures devtoolsEnabled == state
    {
      devtoolsEnabled := state;
    }
  }
}
