# Franz webview plugin: settings reconciler and `window.open` rule

This project models the logic of the webview preload script of the Franz
messaging client (`src/webview/plugin.js`). The script runs inside each
service's webview. The Dafny model covers two parts of it.

- **The settings reconciler.** The script keeps three module-level variables:
  the global settings (`window.franzSettings`), the active service
  (`serviceData`) and the flag that lets a service pin its own spellchecker
  language (`overrideSpellcheckerLanguage`). Four host events update them:
  `initializeRecipe`, `settings-update`, `service-settings-update` and
  `get-service-id`. The handlers call the dark-mode collaborator (inject or
  remove the style) and the spellchecker collaborator (switch the dictionary,
  or disable checking).
- **The `window.open` rule.** A call with neither a frame name nor a features
  string is a plain link and goes to the host as `new-window`. Every other call
  goes to the original `window.open`.

Layout:

- `js_values.dfy` (module `JsValues`): `Option`. A string-valued payload field
  is an `Option<string>`, where `None` is null or undefined. `Truthy` is
  JavaScript truthiness, so `""` counts as absent.
- `reconciliation.dfy` (module `Reconciliation`): the handlers as pure
  transitions on a `State` value. The collaborators are known only through the
  calls they receive, kept in the log `effects`. What they report back is a
  function of that log. `DarkModeInjected` is what `isDarkModeStyleInjected()`
  answers: the style is there iff the last inject or remove call was an inject.
  `CurrentDictionary` is the argument of the last `switchDict`.
  `DarkModeCalls` counts inject and remove calls.
- `reconciler.dfy` (module `Plugin`): class `Reconciler` holds the script's
  variables as fields. Its handler methods update those fields step by step, as
  the script does. Each method is proved to reach exactly the state that the
  matching transition describes.
- `properties.dfy` (module `ReconcilerProperties`): properties that span
  several events.
- `window_open.dfy` (module `WindowOpen`): the `window.open` classification.

Two invariants one might expect are "the flag is set exactly when the active
service pinned a language" and "the injected style always matches the active
service". Both hold after `service-settings-update`. Neither holds after
`initializeRecipe`. That handler never clears the flag. It injects the style
without checking whether it is already there, and it never removes it. The model
follows the code. `InitializeRecipeKeepsEarlierPin` and
`InitializeRecipeDoesNotReconcileDarkMode` show the difference. The weaker
invariant that does hold is `OverridePinsDictionaryAlways`: while the flag is
set, the dictionary in use is a truthy language.

## Model

| member | source | states |
|---|---|---|
| `Reconciliation.DarkModeInjectedIsLastDarkModeCall` | src/webview/plugin.js:8 | What `isDarkModeStyleInjected()` reports, as `DarkModeInjected` models it: the style is injected iff some inject call is followed by no later inject or remove call. |
| `Reconciliation.CurrentDictionaryIsLastSwitch` | src/webview/plugin.js:7 | What dictionary the spellchecker uses, as `CurrentDictionary` models it. It is the provider's default iff `switchDict` was never called. Otherwise it is the argument of a `switchDict` call that no later `switchDict` follows. |
| `Reconciliation.InitializeRecipe` | src/webview/plugin.js:19-44 | If the recipe fails to load, nothing changes and no call is made. Otherwise the payload becomes the active service and the global settings stay. The calls made are exactly these: an inject with the recipe path whenever the payload enables dark mode, whatever was injected before, then, if the payload has a truthy language, a `switchDict` to it. Nothing else is called, and no disable. A truthy language becomes the dictionary and sets the flag. Without one, the flag and the dictionary stay. |
| `Reconciliation.SettingsUpdate` | src/webview/plugin.js:52-63 | The payload replaces the global settings. The service, the flag and dark mode do not change. With spellchecking off, the only call is a disable. With it on and the flag clear, the only call is a switch to the global language, which becomes the dictionary. With it on and the flag set, no call at all is made. |
| `Reconciliation.ReconcileDarkMode` | src/webview/plugin.js:70-78 | Afterwards the style is injected exactly when it is wanted. The only call appended is one inject (with the recipe path) or one remove, made exactly when the state differed, and none when it matched. The dictionary is untouched. |
| `Reconciliation.ServiceSettingsUpdate` | src/webview/plugin.js:65-91 | The payload becomes the active service and the global settings stay. Dark mode ends as the payload asks. The calls made are exactly these: at most one inject (with the recipe path) or remove, made exactly when the state differed, then one `switchDict`, always made and always last. There is no disable. The flag is set iff the payload has a truthy language. The dictionary becomes that language, or otherwise the global language. |
| `Reconciliation.Step` | src/webview/plugin.js:19-98 | Dispatching any of the four events only appends to the call log. `get-service-id` leaves the whole state unchanged. |
| `Reconciliation.Run` | src/webview/plugin.js:19-98 | Over any event sequence, the call log only grows, by at most two calls per event. |
| `Reconciliation.RunAppend` | src/webview/plugin.js:19-98 | Events are handled one after another: running `a + b` equals running `a` and then `b`. |
| `Plugin.Reconciler.constructor` | src/webview/plugin.js:14-16 | Start state: the global settings are `{}`, so both fields are falsy. There is no service, the flag is clear and no calls have been made. |
| `Plugin.Reconciler.IsDarkModeStyleInjected` | src/webview/plugin.js:70-74 | The answer of `isDarkModeStyleInjected()` is `DarkModeInjected` of the calls made so far, that is, whether the last inject or remove call was an inject. |
| `Plugin.Reconciler.InjectDarkModeStyle` | src/webview/plugin.js:8 | Records one inject call with the recipe path and changes nothing else. |
| `Plugin.Reconciler.RemoveDarkModeStyle` | src/webview/plugin.js:8 | Records one remove call and changes nothing else. |
| `Plugin.Reconciler.SwitchDictionary` | src/webview/plugin.js:7 | Records one `switchDict` call with the raw argument, even a null one, and changes nothing else. |
| `Plugin.Reconciler.DisableSpellchecking` | src/webview/plugin.js:7 | Records one disable call and changes nothing else. |
| `Plugin.Reconciler.OnInitializeRecipe` | src/webview/plugin.js:19-44 | After the in-place updates, the variables and the call log equal `InitializeRecipe` of the old state. |
| `Plugin.Reconciler.OnSettingsUpdate` | src/webview/plugin.js:52-63 | After the in-place updates, the variables and the call log equal `SettingsUpdate` of the old state. |
| `Plugin.Reconciler.OnServiceSettingsUpdate` | src/webview/plugin.js:65-91 | After the in-place updates, the variables and the call log equal `ServiceSettingsUpdate` of the old state. |
| `Plugin.Reconciler.OnGetServiceId` | src/webview/plugin.js:94-98 | The reply is the active service's id, which may be undefined. A service must be active because the handler does not check for one. No state changes. |
| `ReconcilerProperties.ServiceSettingsUpdateTwiceTogglesOnce` | src/webview/plugin.js:70-78 | Applying the same service update twice gives one dark-mode toggle in total, or none if the state already matched. |
| `ReconcilerProperties.ServiceSettingsUpdateTwiceSwitchesAgain` | src/webview/plugin.js:80-90 | Repeating a service update calls `switchDict` again with the same language, although the dictionary already matches. It is the only call the second update makes. |
| `ReconcilerProperties.GlobalUpdatesKeepServiceState` | src/webview/plugin.js:52-63 | No sequence of global updates and id requests changes the active service, the flag or the dark-mode state. |
| `ReconcilerProperties.PinnedLanguageSurvivesGlobalUpdates` | src/webview/plugin.js:55-60 | While the flag is set, no sequence of global updates switches the dictionary, changes it or clears the flag. |
| `ReconcilerProperties.PinnedByServiceUpdate` | src/webview/plugin.js:80-84 | After a service update that carries a language, that language stays in use across any later global updates. |
| `ReconcilerProperties.DisablingUpdatesKeepDictionary` | src/webview/plugin.js:55-56 | Settings updates that turn spellchecking off, and id requests, never change the dictionary in use. |
| `ReconcilerProperties.GlobalLanguageGovernsWithoutOverride` | src/webview/plugin.js:55-60 | With the flag clear, the dictionary after a sequence of global updates is the language of the last update that has spellchecking enabled. Before it may come any global updates or id requests. After it may come any updates that turn spellchecking off, or id requests. |
| `ReconcilerProperties.OverridePinsDictionaryAlways` | src/webview/plugin.js:35-39 | If the flag being set implies a truthy dictionary, that implication still holds after any sequence of events. |
| `ReconcilerProperties.DarkModeAndPinScenario` | src/webview/plugin.js:19-91 | Initialize with dark mode and "de": the style is injected, "de" is in use and pinned. A global update to "en" makes no call. A service update with no language removes the style, clears the flag and falls back to "en". |
| `ReconcilerProperties.InitializeRecipeKeepsEarlierPin` | src/webview/plugin.js:35-40 | A recipe without a language loaded after one that pinned "de" leaves the flag set and "de" in use. |
| `ReconcilerProperties.InitializeRecipeDoesNotReconcileDarkMode` | src/webview/plugin.js:30-33 | With the style already injected, a recipe enabling dark mode injects again. A recipe disabling it leaves the style in place. |
| `WindowOpen.Open` | src/webview/plugin.js:108-115 | The URL goes to the host as `new-window` iff both the frame name and the features are falsy. Otherwise all three arguments go unchanged to the original `window.open`. |
| `WindowOpen.OnlyTruthinessDecides` | src/webview/plugin.js:110 | The choice depends only on whether the two optional arguments are truthy, not on their text. |
| `WindowOpen.LinkAndPopupExamples` | src/webview/plugin.js:108-115 | A plain link, or one with empty frame name and features, goes to the host. `("_blank", "width=1")` goes to the native popup. |

## Left out

- The IPC transport (`ipcRenderer.on`, `sendToHost`, `event.sender.send`) is not modelled. Handlers are methods and transitions, and the `get-service-id` reply is a return value. It is plumbing only.
- Loading the recipe is not modelled: `path.join`, the `require.cache` deletion, `require.resolve`, `require` and `RecipeWebview`. A boolean `loads` stands in for it. Both ways loading can fail leave the state unchanged: a throw inside the `try`, which is swallowed, and a throw from `require.resolve` before it, which escapes the handler. What the recipe module itself does to the page is not modelled.
- The asynchronous spellchecker start-up and the context-menu wiring (src/webview/plugin.js:47-50) are not modelled. They are one-off set-up of collaborators whose code is not part of this model.
- `./spellchecker`, `./darkmode`, `./contextMenu`, `./notifications` and `./lib/RecipeWebview` are not part of this model. The dark-mode style counts as injected iff the last inject or remove call was an inject, so a style added by other code is not seen. Whether `switchDict` re-enables a disabled spellchecker is unknown, so the model records the calls made and has no enabled/disabled state.
- The `hello` message on `DOMContentLoaded`, `debug` logging, `mobx` and the return value of the original `window.open` are not modelled. None of them affects the reconciliation rules.
- Payload field types are simplified. `isDarkModeEnabled` and `enableSpellchecking` are booleans, and every other JavaScript value is folded into its truthiness. The language, id and `window.open` arguments are strings or null/undefined, so numbers and objects there are not modelled. A payload missing `recipe` (which would throw at `data.recipe.path`) is not modelled.
- Plugin.Reconciler.OnGetServiceId: calling it with no active service throws a TypeError in the source. The model makes this a precondition instead of modelling the throw. The state is unchanged either way, which is why `Step` treats the event as a no-op.
- Exceptions thrown by the collaborators are not modelled. In `initializeRecipe`, the `try` also swallows a throw from `injectDarkModeStyle` or `switchDict` (src/webview/plugin.js:31, 37). By then `serviceData` has already been replaced (line 28), and the flag may be left unset, so the handler stops part-way. The model treats these calls as never throwing, so that partial update is not captured. A throw in the other handlers escapes them unhandled; that is not modelled either.
