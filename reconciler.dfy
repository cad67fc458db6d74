/** The reconciler as the plugin script runs it: module-level variables that
    the inbound event handlers of src/webview/plugin.js update in place. Each
    handler is proved to reach exactly the state the matching transition of
    module Reconciliation describes. */
module Plugin {
  import opened JsValues
  import opened Reconciliation

  class Reconciler {
    /** `window.franzSettings` */
    var franzSettings: GlobalSettings
    /** `serviceData`; None until the first successful initializeRecipe */
    var serviceData: Option<Service>
    /** `overrideSpellcheckerLanguage` */
    var overrideSpellcheckerLanguage: bool
    /** The calls made so far to the dark-mode and spellchecker collaborators. */
    var effects: seq<Effect>

    ghost function Snapshot(): State
      reads this
    {
      State(franzSettings, serviceData, overrideSpellcheckerLanguage, effects)
    }

    /** The script's top level (src/webview/plugin.js:14-16). */
    constructor ()
      ensures Snapshot() == Initial
    {
      franzSettings := NoSettings;
      serviceData := None;
      overrideSpellcheckerLanguage := false;
      effects := [];
    }

    /** `isDarkModeStyleInjected()` of the dark-mode collaborator. */
    function IsDarkModeStyleInjected(): (injected: bool)
      reads this
      ensures injected == DarkModeInjected(effects)
    {
      DarkModeInjected(effects)
    }

    /** `injectDarkModeStyle(path)` of the dark-mode collaborator. */
    method InjectDarkModeStyle(path: string)
      modifies this`effects
      ensures effects == old(effects) + [InjectDarkMode(path)]
    {
      effects := effects + [InjectDarkMode(path)];
    }

    /** `removeDarkModeStyle()` of the dark-mode collaborator. */
    method RemoveDarkModeStyle()
      modifies this`effects
      ensures effects == old(effects) + [RemoveDarkMode]
    {
      effects := effects + [RemoveDarkMode];
    }

    /** `switchDict(language)` of the spellchecker collaborator. */
    method SwitchDictionary(language: JsString)
      modifies this`effects
      ensures effects == old(effects) + [SwitchDict(language)]
    {
      effects := effects + [SwitchDict(language)];
    }

    /** `disable()` of the spellchecker collaborator. */
    method DisableSpellchecking()
      modifies this`effects
      ensures effects == old(effects) + [DisableSpellchecker]
    {
      effects := effects + [DisableSpellchecker];
    }

    /** Handler of `initializeRecipe`; `loads` is whether requiring and running
        the recipe module succeeds. A failure is swallowed before any
        variable is assigned. */
    method OnInitializeRecipe(data: Service, loads: bool)
      modifies this
      ensures Snapshot() == InitializeRecipe(old(Snapshot()), data, loads)
    {
      if !loads {
        return;
      }
      serviceData := Some(data);
      if data.isDarkModeEnabled {
        InjectDarkModeStyle(data.recipe.path);
      }
      if Truthy(data.spellcheckerLanguage) {
        SwitchDictionary(data.spellcheckerLanguage);
        overrideSpellcheckerLanguage := true;
      }
    }

    /** Handler of `settings-update`. */
    method OnSettingsUpdate(data: GlobalSettings)
      modifies this
      ensures Snapshot() == SettingsUpdate(old(Snapshot()), data)
    {
      if !data.enableSpellchecking {
        DisableSpellchecking();
      } else if !overrideSpellcheckerLanguage {
        SwitchDictionary(data.spellcheckerLanguage);
      }
      franzSettings := data;
    }

    /** Handler of `service-settings-update`. */
    method OnServiceSettingsUpdate(data: Service)
      modifies this
      ensures Snapshot() == ServiceSettingsUpdate(old(Snapshot()), data)
    {
      serviceData := Some(data);
      if data.isDarkModeEnabled && !IsDarkModeStyleInjected() {
        InjectDarkModeStyle(serviceData.value.recipe.path);
      } else if !data.isDarkModeEnabled && IsDarkModeStyleInjected() {
        RemoveDarkModeStyle();
      }
      if Truthy(data.spellcheckerLanguage) {
        SwitchDictionary(data.spellcheckerLanguage);
        overrideSpellcheckerLanguage := true;
      } else {
        SwitchDictionary(franzSettings.spellcheckerLanguage);
        overrideSpellcheckerLanguage := false;
      }
    }

    /** Handler of `get-service-id`: replies with the active service's id. The
        handler dereferences `serviceData` without a check, so a service must
        be active. */
    method OnGetServiceId() returns (id: JsString)
      requires serviceData.Some?
      ensures id == serviceData.value.id
    {
      id := serviceData.value.id;
    }
  }
}
