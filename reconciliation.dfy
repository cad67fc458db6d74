/** The settings reconciler of the webview plugin (src/webview/plugin.js), as
    pure transitions on a state value.

    The reconciler keeps three variables: the global settings
    (`window.franzSettings`), the active service (`serviceData`) and the flag
    that lets a service pin its own spellchecker language
    (`overrideSpellcheckerLanguage`). Each inbound event updates them and calls
    the dark-mode and spellchecker collaborators. Those collaborators are known
    here only through the calls they receive: `effects` is the log of those
    calls, and what the collaborators report back (is the dark-mode style
    injected, which dictionary is in use) is a function of that log. */
module Reconciliation {
  import opened JsValues

  /** `window.franzSettings`: the last global settings the host sent. */
  datatype GlobalSettings = GlobalSettings(enableSpellchecking: bool, spellcheckerLanguage: JsString)

  datatype Recipe = Recipe(path: string)

  /** `serviceData`: the payload of the last successful initializeRecipe or of
      the last service-settings-update, kept whole. */
  datatype Service = Service(id: JsString, recipe: Recipe, isDarkModeEnabled: bool, spellcheckerLanguage: JsString)

  /** One call into the dark-mode or the spellchecker collaborator. */
  datatype Effect =
    | InjectDarkMode(path: string)
    | RemoveDarkMode
    | SwitchDict(language: JsString)
    | DisableSpellchecker

  /** The dictionary the spellchecker uses: its own default until the first
      `switchDict`, then the (raw, possibly nullish) argument of the last one. */
  datatype Dictionary = ProviderDefault | Selected(language: JsString)

  datatype State = State(
    global: GlobalSettings,
    service: Option<Service>,
    overrideLanguage: bool,
    effects: seq<Effect>)

  /** The four inbound events; `loads` says whether loading and running the
      recipe module succeeds. */
  datatype Event =
    | RecipeInitialized(data: Service, loads: bool)
    | SettingsUpdated(settings: GlobalSettings)
    | ServiceSettingsUpdated(data: Service)
    | ServiceIdAsked

  /** `window.franzSettings = {}`: both fields read as undefined, hence falsy. */
  const NoSettings := GlobalSettings(false, None)

  /** The state when the script starts: no service, no override, no calls. */
  const Initial := State(NoSettings, None, false, [])

  predicate IsDarkModeCall(call: Effect) {
    call.InjectDarkMode? || call.RemoveDarkMode?
  }

  predicate NoSwitch(calls: seq<Effect>) {
    forall call :: call in calls ==> !call.SwitchDict?
  }

  /** What `isDarkModeStyleInjected()` answers after the calls in `effects`:
      the last inject or remove call decides, and before any there is no style. */
  function DarkModeInjected(effects: seq<Effect>): bool {
    if effects == [] then false
    else match effects[|effects| - 1]
      case InjectDarkMode(_) => true
      case RemoveDarkMode => false
      case _ => DarkModeInjected(effects[..|effects| - 1])
  }

  /** The dictionary in use after the calls in `effects`. */
  function CurrentDictionary(effects: seq<Effect>): Dictionary {
    if effects == [] then ProviderDefault
    else match effects[|effects| - 1]
      case SwitchDict(language) => Selected(language)
      case _ => CurrentDictionary(effects[..|effects| - 1])
  }

  /** The style is injected exactly when some inject call is followed by no
      other inject or remove call. */
  lemma {:induction false} DarkModeInjectedIsLastDarkModeCall(effects: seq<Effect>)
    ensures DarkModeInjected(effects) <==>
              exists i :: 0 <= i < |effects| && effects[i].InjectDarkMode?
                          && forall j :: i < j < |effects| ==> !IsDarkModeCall(effects[j])
  {
    if effects != [] {
      var n := |effects| - 1;
      var init := effects[..n];
      assert forall k :: 0 <= k < n ==> init[k] == effects[k];
      DarkModeInjectedIsLastDarkModeCall(init);
      if effects[n].InjectDarkMode? {
        assert effects[n].InjectDarkMode?;
      } else if effects[n].RemoveDarkMode? {
        assert !DarkModeInjected(effects);
      } else if DarkModeInjected(init) {
        var i :| 0 <= i < n && init[i].InjectDarkMode? && forall j :: i < j < n ==> !IsDarkModeCall(init[j]);
        assert effects[i].InjectDarkMode? && forall j :: i < j < |effects| ==> !IsDarkModeCall(effects[j]);
      }
    }
  }

  /** The dictionary is the provider's own until the first `switchDict`, and
      afterwards the argument of a `switchDict` that no later one follows. */
  lemma {:induction false} CurrentDictionaryIsLastSwitch(effects: seq<Effect>)
    ensures CurrentDictionary(effects).ProviderDefault? <==>
              forall i :: 0 <= i < |effects| ==> !effects[i].SwitchDict?
    ensures CurrentDictionary(effects).Selected? ==>
              exists i :: 0 <= i < |effects| && effects[i] == SwitchDict(CurrentDictionary(effects).language)
                          && forall j :: i < j < |effects| ==> !effects[j].SwitchDict?
  {
    if effects != [] {
      var n := |effects| - 1;
      var init := effects[..n];
      assert forall k :: 0 <= k < n ==> init[k] == effects[k];
      CurrentDictionaryIsLastSwitch(init);
      if effects[n].SwitchDict? {
        assert effects[n] == SwitchDict(CurrentDictionary(effects).language);
      } else if CurrentDictionary(init).Selected? {
        var i :| 0 <= i < n && init[i] == SwitchDict(CurrentDictionary(init).language)
                 && forall j :: i < j < n ==> !init[j].SwitchDict?;
        assert effects[i] == SwitchDict(CurrentDictionary(effects).language);
      }
    }
  }

  /** How many inject or remove calls the dark-mode collaborator received. */
  function DarkModeCalls(effects: seq<Effect>): (n: nat)
    ensures n <= |effects|
  {
    if effects == [] then 0
    else
      var init := effects[..|effects| - 1];
      assert effects == init + [effects[|effects| - 1]];
      DarkModeCalls(init) + (if IsDarkModeCall(effects[|effects| - 1]) then 1 else 0)
  }

  /** What one more call does to the collaborators' observable state. */
  lemma AfterCall(effects: seq<Effect>, call: Effect)
    ensures DarkModeInjected(effects + [call])
            == if call.InjectDarkMode? then true
               else if call.RemoveDarkMode? then false
               else DarkModeInjected(effects)
    ensures CurrentDictionary(effects + [call])
            == if call.SwitchDict? then Selected(call.language) else CurrentDictionary(effects)
    ensures DarkModeCalls(effects + [call]) == DarkModeCalls(effects) + if IsDarkModeCall(call) then 1 else 0
  {
    assert (effects + [call])[..|effects|] == effects;
  }

  /** Handler of `initializeRecipe` (src/webview/plugin.js:19-44). When the
      recipe fails to load nothing changes. Otherwise the payload becomes the
      active service, dark mode is injected whenever the payload enables it
      (without asking whether it already is), and a truthy language is
      switched to and pinned; without one, the flag and the dictionary stay. */
  function InitializeRecipe(s: State, data: Service, loads: bool): (r: State)
    ensures !loads ==> r == s
    ensures s.effects <= r.effects
    ensures loads ==> r.service == Some(data) && r.global == s.global
    ensures DarkModeCalls(r.effects) == DarkModeCalls(s.effects) + if loads && data.isDarkModeEnabled then 1 else 0
    ensures DarkModeInjected(r.effects) == if loads && data.isDarkModeEnabled then true else DarkModeInjected(s.effects)
    ensures loads && Truthy(data.spellcheckerLanguage) ==>
              r.overrideLanguage && CurrentDictionary(r.effects) == Selected(data.spellcheckerLanguage)
    ensures !(loads && Truthy(data.spellcheckerLanguage)) ==>
              r.overrideLanguage == s.overrideLanguage && CurrentDictionary(r.effects) == CurrentDictionary(s.effects)
    ensures r.effects[|s.effects|..]
            == (if loads && data.isDarkModeEnabled then [InjectDarkMode(data.recipe.path)] else [])
               + (if loads && Truthy(data.spellcheckerLanguage) then [SwitchDict(data.spellcheckerLanguage)] else [])
  {
    if !loads then
      assert s.effects[|s.effects|..] == [];
      s
    else
      var language := data.spellcheckerLanguage;
      var inject := if data.isDarkModeEnabled then [InjectDarkMode(data.recipe.path)] else [];
      var pin := if Truthy(language) then [SwitchDict(language)] else [];
      var styled := s.effects + inject;
      AfterCall(s.effects, InjectDarkMode(data.recipe.path));
      AfterCall(styled, SwitchDict(language));
      assert s.effects + [] == s.effects;
      assert styled + [] == styled;
      assert (styled + pin)[|s.effects|..] == inject + pin;
      State(s.global, Some(data), if Truthy(language) then true else s.overrideLanguage, styled + pin)
  }

  /** Handler of `settings-update` (src/webview/plugin.js:52-63). Spellchecking
      switched off disables the spellchecker whatever the flag says; switched
      on, the global language is applied exactly when no service pinned one.
      The payload always replaces the global settings; the service, the flag
      and dark mode are left alone. */
  function SettingsUpdate(s: State, data: GlobalSettings): (r: State)
    ensures r.global == data && r.service == s.service && r.overrideLanguage == s.overrideLanguage
    ensures s.effects <= r.effects
    ensures DarkModeCalls(r.effects) == DarkModeCalls(s.effects)
    ensures DarkModeInjected(r.effects) == DarkModeInjected(s.effects)
    ensures !data.enableSpellchecking ==> r.effects[|s.effects|..] == [DisableSpellchecker]
    ensures SwitchDict(data.spellcheckerLanguage) in r.effects[|s.effects|..]
            <==> data.enableSpellchecking && !s.overrideLanguage
    ensures data.enableSpellchecking && !s.overrideLanguage ==>
              CurrentDictionary(r.effects) == Selected(data.spellcheckerLanguage)
    ensures !(data.enableSpellchecking && !s.overrideLanguage) ==>
              NoSwitch(r.effects[|s.effects|..]) && CurrentDictionary(r.effects) == CurrentDictionary(s.effects)
    ensures data.enableSpellchecking && s.overrideLanguage ==> r.effects == s.effects
    ensures data.enableSpellchecking && !s.overrideLanguage ==>
              r.effects == s.effects + [SwitchDict(data.spellcheckerLanguage)]
  {
    var call := if !data.enableSpellchecking then DisableSpellchecker else SwitchDict(data.spellcheckerLanguage);
    AfterCall(s.effects, call);
    if data.enableSpellchecking && s.overrideLanguage then s.(global := data)
    else
      assert (s.effects + [call])[|s.effects|..] == [call];
      s.(global := data, effects := s.effects + [call])
  }

  /** The dark-mode half of `service-settings-update`
      (src/webview/plugin.js:70-78): ask whether the style is injected and
      inject or remove it only when that differs from what is wanted. */
  function ReconcileDarkMode(effects: seq<Effect>, enabled: bool, path: string): (r: seq<Effect>)
    ensures effects <= r
    ensures DarkModeInjected(r) == enabled
    ensures DarkModeCalls(r) == DarkModeCalls(effects) + if DarkModeInjected(effects) == enabled then 0 else 1
    ensures CurrentDictionary(r) == CurrentDictionary(effects)
    ensures r == effects + if DarkModeInjected(effects) == enabled then []
                           else [if enabled then InjectDarkMode(path) else RemoveDarkMode]
  {
    var injected := DarkModeInjected(effects);
    if enabled && !injected then
      AfterCall(effects, InjectDarkMode(path));
      effects + [InjectDarkMode(path)]
    else if !enabled && injected then
      AfterCall(effects, RemoveDarkMode);
      effects + [RemoveDarkMode]
    else
      assert effects + [] == effects;
      effects
  }

  /** Handler of `service-settings-update` (src/webview/plugin.js:65-91). The
      payload becomes the active service. Dark mode ends up as the payload asks,
      with one inject or remove call when it was otherwise and none when it
      already matched. The flag ends up set exactly when the payload carries a
      truthy language, and the dictionary is that language, or else the global
      one. */
  function ServiceSettingsUpdate(s: State, data: Service): (r: State)
    ensures r.service == Some(data) && r.global == s.global
    ensures s.effects <= r.effects
    ensures DarkModeInjected(r.effects) == data.isDarkModeEnabled
    ensures DarkModeCalls(r.effects)
            == DarkModeCalls(s.effects) + if DarkModeInjected(s.effects) == data.isDarkModeEnabled then 0 else 1
    ensures r.overrideLanguage <==> Truthy(data.spellcheckerLanguage)
    ensures CurrentDictionary(r.effects)
            == Selected(if Truthy(data.spellcheckerLanguage) then data.spellcheckerLanguage
                        else s.global.spellcheckerLanguage)
    ensures r.effects[|s.effects|..]
            == (if DarkModeInjected(s.effects) == data.isDarkModeEnabled then []
                else [if data.isDarkModeEnabled then InjectDarkMode(data.recipe.path) else RemoveDarkMode])
               + [SwitchDict(if Truthy(data.spellcheckerLanguage) then data.spellcheckerLanguage
                             else s.global.spellcheckerLanguage)]
  {
    var styled := ReconcileDarkMode(s.effects, data.isDarkModeEnabled, data.recipe.path);
    var pinned := Truthy(data.spellcheckerLanguage);
    var language := if pinned then data.spellcheckerLanguage else s.global.spellcheckerLanguage;
    AfterCall(styled, SwitchDict(language));
    var toggle := styled[|s.effects|..];
    assert styled == s.effects + toggle;
    assert (styled + [SwitchDict(language)])[|s.effects|..] == toggle + [SwitchDict(language)];
    State(s.global, Some(data), pinned, styled + [SwitchDict(language)])
  }

  /** Dispatch of one inbound event; `get-service-id` only replies. */
  function Step(s: State, e: Event): (r: State)
    ensures s.effects <= r.effects
    ensures e.ServiceIdAsked? ==> r == s
  {
    match e
    case RecipeInitialized(data, loads) => InitializeRecipe(s, data, loads)
    case SettingsUpdated(settings) => SettingsUpdate(s, settings)
    case ServiceSettingsUpdated(data) => ServiceSettingsUpdate(s, data)
    case ServiceIdAsked => s
  }

  /** The state after a sequence of events, delivered one at a time. The log
      of collaborator calls only ever grows. */
  function Run(s: State, events: seq<Event>): (r: State)
    ensures s.effects <= r.effects
    ensures |r.effects| <= |s.effects| + 2 * |events|
    decreases |events|
  {
    if events == [] then s else Run(Step(s, events[0]), events[1..])
  }

  lemma {:induction false} RunAppend(s: State, a: seq<Event>, b: seq<Event>)
    ensures Run(s, a + b) == Run(Run(s, a), b)
    decreases |a|
  {
    if a != [] {
      assert (a + b)[0] == a[0];
      assert (a + b)[1..] == a[1..] + b;
      RunAppend(Step(s, a[0]), a[1..], b);
    } else {
      assert a + b == b;
    }
  }
}
