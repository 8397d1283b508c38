# Flow Launcher: plugin indicator and public API mediator, in Dafny

This project models two pieces of the Flow Launcher's plugin-facing logic and
proves what they promise.

- **The plugin indicator** (`plugin_indicator.dfy`, module `PluginIndicator`).
  For a query it lists the action keywords of the non-global plugins. A keyword
  is listed when the fuzzy matcher accepts the search against the keyword or
  against the plugin's name, or when the search is empty. The plugin must also
  be enabled. Every result scores 100, is titled with its keyword and completes
  to the keyword followed by the term separator. Selecting a result writes that
  same text into the query box and keeps the window open. The keyword index
  (`PluginManager.NonGlobalPlugins`) is a `KeywordIndex`: a sequence of distinct
  keywords in enumeration order, and a map from keyword to plugin. The fuzzy
  matcher's verdict and the translated subtitle template are function-valued
  fields of the plugin's `Context`. The result's action closure is data
  (`ResultAction`): the query text it sets and the value it returns.
  `PublicApi.RunAction` runs it against the API object.
- **The public API mediator** (`public_api.dfy`, module `PublicApi`).
  `PublicAPIInstance` is a class over the part of the main view model that the
  mediator writes: the query text, the main window's visibility and the
  progress bar's visibility. A `trace` records the calls it makes to the five
  savers and to the updater's restart, in order. Each state-changing method
  names in its `modifies` clause the single fields it may write, so "nothing
  else changes" is part of every contract. `PushResults` works in place on an
  array of results. The keyboard-hook callback is a function of the optional
  `GlobalKeyboardEvent` subscriber.
- **Shared values** (`plugin.dfy`, module `Plugin`): plugin metadata, the
  query, result entries, and the term separator.

## Model

| member | source | states |
|---|---|---|
| `PluginIndicator.Results` | Plugins/Flow.Launcher.Plugin.PluginIndicator/Main.cs:13-33 | every result lists a keyword of the index whose plugin passes the filter (keyword or name accepted by the fuzzy matcher, or empty search; and not disabled); each result is that keyword's indicator result; there are at most as many results as keywords |
| `PluginIndicator.IndicatorResult` | Plugins/Flow.Launcher.Plugin.PluginIndicator/Main.cs:20-32 | a result has title = keyword, subtitle = the template applied to the plugin name, score 100, the plugin's icon, auto-complete text keyword + separator, an action that sets the query to keyword + separator and returns false, and no provenance |
| `PluginIndicator.Main.Query` | Plugins/Flow.Launcher.Plugin.PluginIndicator/Main.cs:11-34 | an empty index gives no results; every result's keyword belongs to an enabled plugin, scores 100, carries that plugin's icon and completes to, and drills into, keyword + separator |
| `PluginIndicator.Main.Init` | Plugins/Flow.Launcher.Plugin.PluginIndicator/Main.cs:36-39 | the context is set to the one given |
| `PluginIndicator.Listed` | Plugins/Flow.Launcher.Plugin.PluginIndicator/Main.cs:16-19 | a listed keyword's plugin is enabled; with an empty search a keyword is listed exactly when its plugin is enabled, whatever the fuzzy matcher answers |
| `PluginIndicator.ListedIff` | Plugins/Flow.Launcher.Plugin.PluginIndicator/Main.cs:14-19 | a keyword is listed if and only if it is in the index, its plugin is enabled, and the search matches the keyword or the plugin name or is empty |
| `PluginIndicator.ResultsComplete` | Plugins/Flow.Launcher.Plugin.PluginIndicator/Main.cs:16-19 | every keyword that passes the filter appears among the results |
| `PluginIndicator.DisabledNeverListed` | Plugins/Flow.Launcher.Plugin.PluginIndicator/Main.cs:19 | a disabled plugin's keyword never appears, whatever the fuzzy matcher answers |
| `PluginIndicator.ResultsFollowKeywordOrder` | Plugins/Flow.Launcher.Plugin.PluginIndicator/Main.cs:13-14 | the results' titles are a subsequence of the index's keyword enumeration: the listed keywords keep the order in which the index enumerates them |
| `PluginIndicator.ResultsDistinct` | Plugins/Flow.Launcher.Plugin.PluginIndicator/Main.cs:14 | over keywords without repeats (the index's keys), no keyword is listed twice |
| `PluginIndicator.EmptySearchListsAllEnabled` | Plugins/Flow.Launcher.Plugin.PluginIndicator/Main.cs:18-19 | with an empty search the results' titles are exactly the enabled keywords, once each, in index order |
| `PluginIndicator.SelectResult` | Plugins/Flow.Launcher.Plugin.PluginIndicator/Main.cs:27-31 | running any result's action sets the query text to its keyword + separator and returns false (keep the window open) |
| `PublicApi.RunAction` | Plugins/Flow.Launcher.Plugin.PluginIndicator/Main.cs:29-30 | an action's query change goes through ChangeQuery (query text = the action's text, or unchanged if it has none) and its return value is passed back |
| `PublicApi.PublicAPIInstance.constructor` | Wox/PublicAPIInstance.cs:28-35 | a new mediator has an empty trace and no keyboard-event subscriber |
| `PublicApi.PublicAPIInstance.ChangeQuery` | Wox/PublicAPIInstance.cs:41-44 | the query text becomes the given text; the requery flag is ignored; no other field changes |
| `PublicApi.PublicAPIInstance.ChangeQueryText` | Wox/PublicAPIInstance.cs:46-49 | the query text becomes the given text; the select-all flag is ignored; no other field changes |
| `PublicApi.PublicAPIInstance.RestarApp` | Wox/PublicAPIInstance.cs:57-67 | the main window ends Hidden; the trace gains the five saves in order and then one restart of the application file; nothing else changes |
| `PublicApi.PublicAPIInstance.SaveAppAllSettings` | Wox/PublicAPIInstance.cs:74-81 | the trace gains exactly the five saves, in the order main view model, settings view model, plugin manager, image loader, alphabet; nothing else changes |
| `PublicApi.SaveSequenceCallsEachSaverOnce` | Wox/PublicAPIInstance.cs:76-80 | each of the five savers occurs in the save sequence exactly once |
| `PublicApi.RestartFollowsAllSaves` | Wox/PublicAPIInstance.cs:64-66 | in what RestarApp appends, the restart is the last of six calls and every call before it is a save |
| `PublicApi.PublicAPIInstance.HideApp` | Wox/PublicAPIInstance.cs:89-92 | the main window becomes Hidden; nothing else changes |
| `PublicApi.PublicAPIInstance.ShowApp` | Wox/PublicAPIInstance.cs:95-98 | the main window becomes Visible; nothing else changes |
| `PublicApi.PublicAPIInstance.StartLoadingBar` | Wox/PublicAPIInstance.cs:122-125 | the progress bar becomes Visible whatever it was; nothing else changes |
| `PublicApi.PublicAPIInstance.StopLoadingBar` | Wox/PublicAPIInstance.cs:127-130 | the progress bar becomes Collapsed whatever it was; nothing else changes |
| `PublicApi.LoadingBarIsIdempotent` | Wox/PublicAPIInstance.cs:122-130 | starting (or stopping) the loading bar twice leaves it as starting (or stopping) it once |
| `PublicApi.PublicAPIInstance.GetAllPlugins` | Wox/PublicAPIInstance.cs:142-145 | the result is a newly allocated list with the registry's plugins in the registry's order |
| `PublicApi.GetAllPluginsIsACopy` | Wox/PublicAPIInstance.cs:142-145 | adding to the list GetAllPlugins returned leaves the registry's list unchanged |
| `PublicApi.Stamp` | Wox/PublicAPIInstance.cs:152-157 | a stamped result carries the plugin's directory, the plugin's id and the query; a non-empty, non-rooted icon path becomes the plugin directory combined with it, any other icon path is kept; every other field agrees with the original |
| `PublicApi.StampTwiceIsStampOnce` | Wox/PublicAPIInstance.cs:152-157 | when the resolved icon path is rooted, stamping the same result a second time with the same plugin and query changes nothing |
| `PublicApi.PublicAPIInstance.PushResults` | Wox/PublicAPIInstance.cs:150-157 | the array keeps its length and every element becomes the stamped version of what was there, icon path resolved |
| `PublicApi.PublicAPIInstance.KListenerHookedKeyboardCallback` | Wox/PublicAPIInstance.cs:168-175 | with no subscriber the key is allowed; with a subscriber the verdict is exactly the subscriber's answer for (key event code, virtual key code, modifier state) |
| `PublicApi.KeyEvent.Code` | Wox/PublicAPIInstance.cs:172 | `(int)keyevent` is one of the four Windows key-message numbers |

## Left out

- The fuzzy matcher (`FuzzySearch(...).IsSearchPrecisionScoreMet()`) is not part of this model; its verdict is the `precisionMet` field of `Context`, about which nothing is assumed.
- Translation lookups and `string.Format` are not part of this model; the subtitle is the `subTitleFor` field of `Context`, applied to the plugin name. `GetTranslatedPluginTitle` and `GetTranslatedPluginDescription` (Main.cs:41-49) are pure translation lookups and are left out, as is `GetTranslation` (PublicAPIInstance.cs:137-140).
- The search text is a non-null string, so `string.IsNullOrEmpty` is "equals the empty string"; a null search is not modelled.
- PluginIndicator.Main.Query: requires that `Init` ran first. Called before `Init` on a non-empty index, the source would fail with a null-reference exception instead; on an empty index its filter never runs and it returns an empty list, which the model does not cover.
- Of the `Query` class only the `Search` text is used (the `Query` datatype also carries the raw text and the action keyword); the class's parsing of the raw query and its `TermSeparator` declaration are not part of this model, and the term separator is taken to be a single space.
- The `KeyEvent` enumeration is not part of this model; its integer values are taken to be the Windows message numbers of the four key transitions (256, 257, 260, 261).
- The plugin registry (`PluginManager.NonGlobalPlugins`, `PluginManager.AllPlugins`) is a global in the source; here it is passed in (`KeywordIndex`) or held by reference (`PluginList`). Atomic reload and concurrent readers are not modelled, and `ReloadAllPluginData` is left out as an external service.
- `PublicApi.PublicAPIInstance.RestarApp`: the model shows that the window ends Hidden and that the restart follows all five saves, but not that the window is hidden before the first save, because the savers' view of the window is not modelled.
- `UpdateManager.RestartApp` and the five savers are external; each call is only logged in the trace. `UpdateManager.RestartApp` ends the process (it calls `Environment.Exit(0)`), but in the model the mediator stays usable after `RestarApp` and its trace can keep growing. Exceptions are not modelled: a throwing saver would stop the later ones in the source, since it has no fault isolation.
- `PublicApi.PublicAPIInstance.KListenerHookedKeyboardCallback`: an exception thrown by the subscriber is not modelled; in the source it would propagate out of the callback, because the code has no fail-open handler.
- `GlobalKeyboardEvent` is modelled as one optional subscriber; adding and removing handlers (`+=`, `-=`) and multicast invocation are left out. The constructor's hook registration and `WebRequest.RegisterPrefix` are left out as foreign calls.
- PublicApi.PublicAPIInstance.GetAllPlugins: `ToList()` copies the list only; the returned list holds the same `PluginPair` objects as the registry, so a change made to an element through the copy shows in the registry. Plugins are values in the model, so this element aliasing is not modelled; the copy is proved independent at list level only.
- PublicApi.Stamp, PublicApi.PublicAPIInstance.PushResults: the `Result` class (Flow.Launcher.Plugin/Result.cs) is not part of this model. Its property setters are modelled only in one respect: setting `PluginDirectory` resolves a non-empty icon path that is not rooted against the new directory. No line cited in the table shows that setter; the resolution follows the upstream `Result` class. `Path.IsPathRooted` and `Path.Combine` are the function-valued fields of `PathOps`, about which nothing is assumed. Any other logic in the `IcoPath` setter is not modelled.
- `PushResults`: the `Task.Run` dispatch to `UpdateResultView` is threading and is left out. Results are values in an array, so the case where one result object occurs twice in the list (aliasing) is not modelled.
- `CloseApp`, `CheckForNewUpdate`, `ShowMsg`, `OpenSettingDialog` and `InstallPlugin` are UI-thread dispatch, window management or external services and are left out.
- `MainViewModel.ChangeQueryText` is not part of this model; both query-changing methods simply set the query text.
- `SaveAppAllSettings` has no per-saver fault isolation: a throwing saver stops the later ones. `KListener_hookedKeyboardCallback` has no fail-open handler. `ChangeQuery` ignores `requery`. The model follows the code in all three.
