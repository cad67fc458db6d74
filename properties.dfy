/** What the reconciliation rules of src/webview/plugin.js guarantee across
    several events. */
module ReconcilerProperties {
  import opened JsValues
  import opened Reconciliation

  /** Events that touch only the global settings (or merely ask for the id). */
  predicate OnlyGlobalUpdates(events: seq<Event>) {
    forall i :: 0 <= i < |events| ==> events[i].SettingsUpdated? || events[i].ServiceIdAsked?
  }

  lemma OnlyGlobalUpdatesTail(events: seq<Event>)
    requires events != [] && OnlyGlobalUpdates(events)
    ensures events[0].SettingsUpdated? || events[0].ServiceIdAsked?
    ensures OnlyGlobalUpdates(events[1..])
  {
    forall i | 0 <= i < |events[1..]| ensures events[1..][i].SettingsUpdated? || events[1..][i].ServiceIdAsked? {
      assert events[1..][i] == events[i + 1];
    }
  }

  /** While the override flag is set, the dictionary in use is a truthy
      language. */
  predicate OverridePinsDictionary(s: State) {
    s.overrideLanguage ==>
      var d := CurrentDictionary(s.effects);
      d.Selected? && Truthy(d.language)
  }

  /** Applying the same service-settings-update twice toggles dark mode at most
      once in total, and not at all if it already matched. */
  lemma ServiceSettingsUpdateTwiceTogglesOnce(s: State, data: Service)
    ensures var twice := ServiceSettingsUpdate(ServiceSettingsUpdate(s, data), data);
            && DarkModeInjected(twice.effects) == data.isDarkModeEnabled
            && DarkModeCalls(twice.effects)
               == DarkModeCalls(s.effects) + if DarkModeInjected(s.effects) == data.isDarkModeEnabled then 0 else 1
  {
  }

  /** Repeating a service update repeats its `switchDict` call: the second
      application makes exactly that one call, although the dictionary
      already matches. */
  lemma ServiceSettingsUpdateTwiceSwitchesAgain(s: State, data: Service)
    ensures var once := ServiceSettingsUpdate(s, data);
            var twice := ServiceSettingsUpdate(once, data);
            var language := if Truthy(data.spellcheckerLanguage) then data.spellcheckerLanguage
                            else s.global.spellcheckerLanguage;
            && CurrentDictionary(once.effects) == Selected(language)
            && twice.effects[|once.effects|..] == [SwitchDict(language)]
  {
  }

  /** Global updates never touch the active service, the override flag or
      dark mode. */
  lemma {:induction false} GlobalUpdatesKeepServiceState(s: State, events: seq<Event>)
    requires OnlyGlobalUpdates(events)
    ensures Run(s, events).service == s.service
    ensures Run(s, events).overrideLanguage == s.overrideLanguage
    ensures DarkModeInjected(Run(s, events).effects) == DarkModeInjected(s.effects)
    ensures DarkModeCalls(Run(s, events).effects) == DarkModeCalls(s.effects)
    decreases |events|
  {
    if events != [] {
      OnlyGlobalUpdatesTail(events);
      GlobalUpdatesKeepServiceState(Step(s, events[0]), events[1..]);
    }
  }

  /** A pinned service language wins: while the flag is set, no sequence of
      global updates switches the dictionary or changes the one in use. */
  lemma {:induction false} PinnedLanguageSurvivesGlobalUpdates(s: State, events: seq<Event>)
    requires s.overrideLanguage
    requires OnlyGlobalUpdates(events)
    ensures Run(s, events).overrideLanguage
    ensures CurrentDictionary(Run(s, events).effects) == CurrentDictionary(s.effects)
    ensures NoSwitch(Run(s, events).effects[|s.effects|..])
    decreases |events|
  {
    if events == [] {
      assert Run(s, events).effects[|s.effects|..] == [];
    } else {
      OnlyGlobalUpdatesTail(events);
      var next := Step(s, events[0]);
      var r := Run(next, events[1..]);
      assert r == Run(s, events);
      PinnedLanguageSurvivesGlobalUpdates(next, events[1..]);
      NoSwitchAcross(s.effects, next.effects, r.effects);
    }
  }

  lemma NoSwitchAcross(a: seq<Effect>, b: seq<Effect>, c: seq<Effect>)
    requires a <= b <= c
    requires NoSwitch(b[|a|..]) && NoSwitch(c[|b|..])
    ensures NoSwitch(c[|a|..])
  {
    assert c[|a|..] == b[|a|..] + c[|b|..];
  }

  /** A service-settings-update that carries a language pins it against every
      later global update until another service update arrives. */
  lemma PinnedByServiceUpdate(s: State, data: Service, events: seq<Event>)
    requires Truthy(data.spellcheckerLanguage)
    requires OnlyGlobalUpdates(events)
    ensures CurrentDictionary(Run(ServiceSettingsUpdate(s, data), events).effects)
            == Selected(data.spellcheckerLanguage)
  {
    PinnedLanguageSurvivesGlobalUpdates(ServiceSettingsUpdate(s, data), events);
  }

  /** Events that neither enable spellchecking nor touch the service. */
  predicate NoEnablingUpdates(events: seq<Event>) {
    forall i :: 0 <= i < |events| ==>
      events[i].ServiceIdAsked? || (events[i].SettingsUpdated? && !events[i].settings.enableSpellchecking)
  }

  /** Disabling updates and id requests leave the dictionary alone. */
  lemma {:induction false} DisablingUpdatesKeepDictionary(s: State, events: seq<Event>)
    requires NoEnablingUpdates(events)
    ensures CurrentDictionary(Run(s, events).effects) == CurrentDictionary(s.effects)
    decreases |events|
  {
    if events != [] {
      assert NoEnablingUpdates(events[1..]) by {
        forall i | 0 <= i < |events[1..]|
          ensures events[1..][i].ServiceIdAsked?
                  || (events[1..][i].SettingsUpdated? && !events[1..][i].settings.enableSpellchecking)
        {
          assert events[1..][i] == events[i + 1];
        }
      }
      DisablingUpdatesKeepDictionary(Step(s, events[0]), events[1..]);
    }
  }

  /** Without an override, the last global update that enables spellchecking
      decides the dictionary: whatever global updates came before it, and
      whatever disabling updates or id requests come after it. */
  lemma GlobalLanguageGovernsWithoutOverride(s: State, before: seq<Event>, settings: GlobalSettings, after: seq<Event>)
    requires !s.overrideLanguage
    requires OnlyGlobalUpdates(before)
    requires settings.enableSpellchecking
    requires NoEnablingUpdates(after)
    ensures CurrentDictionary(Run(s, before + [SettingsUpdated(settings)] + after).effects)
            == Selected(settings.spellcheckerLanguage)
  {
    RunAppend(s, before + [SettingsUpdated(settings)], after);
    RunAppend(s, before, [SettingsUpdated(settings)]);
    GlobalUpdatesKeepServiceState(s, before);
    DisablingUpdatesKeepDictionary(Run(s, before + [SettingsUpdated(settings)]), after);
  }

  /** The override flag never outlives the pinned dictionary: every event keeps
      it pointing at a truthy language. */
  lemma {:induction false} OverridePinsDictionaryAlways(s: State, events: seq<Event>)
    requires OverridePinsDictionary(s)
    ensures OverridePinsDictionary(Run(s, events))
    decreases |events|
  {
    if events != [] {
      OverridePinsDictionaryAlways(Step(s, events[0]), events[1..]);
    }
  }

  /** A session: a recipe with dark mode and a pinned "de", a global update to
      "en" that the pin overrides, then a service update without language that
      removes dark mode and falls back to "en". */
  lemma DarkModeAndPinScenario()
    ensures var data := Service(Some("svc"), Recipe("/p"), true, Some("de"));
            var s1 := InitializeRecipe(Initial, data, true);
            var s2 := SettingsUpdate(s1, GlobalSettings(true, Some("en")));
            var s3 := ServiceSettingsUpdate(s2, Service(None, Recipe("/p"), false, None));
            && s1.overrideLanguage && DarkModeInjected(s1.effects)
            && CurrentDictionary(s1.effects) == Selected(Some("de"))
            && s2.effects == s1.effects
            && !s3.overrideLanguage && !DarkModeInjected(s3.effects)
            && CurrentDictionary(s3.effects) == Selected(Some("en"))
  {
  }

  /** initializeRecipe never clears the flag: after a recipe that pinned "de",
      a recipe without a language keeps the flag and "de" in use although the
      active service has no language of its own. */
  lemma InitializeRecipeKeepsEarlierPin()
    ensures var first := Service(Some("a"), Recipe("/a"), false, Some("de"));
            var second := Service(Some("b"), Recipe("/b"), false, None);
            var r := InitializeRecipe(InitializeRecipe(Initial, first, true), second, true);
            && r.overrideLanguage
            && r.service == Some(second)
            && CurrentDictionary(r.effects) == Selected(Some("de"))
  {
  }

  /** initializeRecipe does not reconcile dark mode: enabled twice it injects
      twice, and disabled it leaves an earlier style in place. */
  lemma InitializeRecipeDoesNotReconcileDarkMode(s: State, data: Service)
    requires DarkModeInjected(s.effects)
    ensures data.isDarkModeEnabled ==>
              DarkModeCalls(InitializeRecipe(s, data, true).effects) == DarkModeCalls(s.effects) + 1
    ensures !data.isDarkModeEnabled ==>
              DarkModeInjected(InitializeRecipe(s, data, true).effects)
              && InitializeRecipe(s, data, true).service.value.isDarkModeEnabled == false
  {
  }
}
