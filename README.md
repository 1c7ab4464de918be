# Verified model of the MarkerMetro WinShared web view and configuration window

This project models, in Dafny, the two pieces of the MarkerMetro Unity
"WinShared" plugin that have behaviour worth stating:

- **The phone web view** `FBWebViewWP8` (module `WebView`, file `web_view.dfy`).
  It is the control an OAuth-style login flow uses to show a web page inside
  the app. It keeps three optional callbacks (finished, error, started), an
  opaque caller object, an `IsActive` flag, its own visibility and a
  "Loading..." progress indicator. It reacts to `Navigate`, to the activation
  that `Navigate` queues on the UI dispatcher, to the browser's started,
  finished and failed events, and to `Finish`.
  - The class `WebView.FBWebViewWP8` has one field per piece of state and one
    method per input. Each callback invocation is appended to a ghost `Trace`.
  - The queued activation is an explicit FIFO `pending` of uris. The method
    `RunDispatched` runs the oldest one.
  - Every input method (`Navigate`, `RunDispatched`, `NavigationStarted`,
    `NavigationFinished`, `NavigationFailed`, `Finish`) is proved to follow the
    pure functions `Step` (new state) and `Emitted` (invocations produced).
    The constructor is tied to `Initial`. `StartProgress` and `StopProgress`
    are specified directly.
  - `Run` folds `Step` and `Emitted` over any sequence of inputs. The lemmas
    about `Run` state what holds across a whole session: silence after
    `Finish`, replacement of callbacks by a second `Navigate`, one terminal
    callback per navigation, and an indicator that follows the events.
- **The editor configuration window** `ConfigureWindow` (module `PluginConfig`,
  file `configure_window.dfy`). Behind its GUI sits a small keyed store.
  - Five directory kinds map onto four cached fields; NuGet and BuildLocal
    share one of them.
  - Each cached field mirrors an entry of the persisted plugin settings
    (`Settings`).
  - Each kind has a fixed label.
  - The rows drawn depend on the plugin source.
  - `GetDir`, `GetDirLabel` and the row selection are functions. `SetDir`,
    `OnEnable` and the "Choose" button of a row are methods.

Inputs from outside are parameters:
- the folder the picker returns (`picked`);
- the project's data folder (`dataPath`);
- the platform's full-path normalisation (`fullPath`, a function value the
  model leaves uninterpreted);
- the settings store as the Visual Studio tools search leaves it (`afterSearch`).

Three behaviours of the code a caller might not expect:
- `Finish` clears the three callbacks but leaves the caller object
  (`_state`) as it was.
- `IsActive` becomes true only when the queued activation runs, not when
  `Navigate` returns.
- Lifecycle events may arrive in any order, and each one is forwarded. The
  control suppresses neither repeated started callbacks nor a second
  terminal callback.

One consequence of the code is stated as a lemma (`QueuedActivationOutlivesFinish`).
`Finish` does not cancel an activation that is still queued. If `Finish`
runs before the dispatcher, the control ends up visible and active again,
with no callbacks left to invoke.

## Model

| member | source | states |
|---|---|---|
| `WebView.Initial` | WindowsSolution/WindowsPhone/UnityProject/FBWebViewWP8.xaml.cs:20-33 | A new control has the indicator hidden, is inactive, holds no callbacks and no caller object, and shows the empty document |
| `WebView.Step` | WindowsSolution/WindowsPhone/UnityProject/FBWebViewWP8.xaml.cs:48-104 | Navigate replaces all three callbacks and the caller object and changes neither activity nor visibility. The activation makes the control visible and active and loads its uri. A started event shows the indicator. A terminal event hides it. Finish hides the indicator, clears the callbacks, collapses and deactivates the control and keeps the caller object |
| `WebView.Emitted` | WindowsSolution/WindowsPhone/UnityProject/FBWebViewWP8.xaml.cs:48-67 | An input invokes at most one callback. It invokes one exactly when it is a lifecycle event whose own callback is registered. The call goes to that callback with the event's uri and the stored caller object. A failure always reports code 1 |
| `WebView.Run` | WindowsSolution/WindowsPhone/UnityProject/FBWebViewWP8.xaml.cs:48-104 | A session invokes at most one callback per lifecycle event it contains. Navigate, the queued activation and Finish never invoke a callback |
| `WebView.RunAppend` | WindowsSolution/WindowsPhone/UnityProject/FBWebViewWP8.xaml.cs:48-104 | Running two input sequences one after the other gives the same final state and invocations as running their concatenation |
| `WebView.OnlyRegisteredCallbacksFire` | WindowsSolution/WindowsPhone/UnityProject/FBWebViewWP8.xaml.cs:48-78 | Until the next Navigate, every invocation goes to a callback the control holds, in its own slot, with the stored caller object. With no callbacks held, nothing is invoked |
| `WebView.SilentAfterFinish` | WindowsSolution/WindowsPhone/UnityProject/FBWebViewWP8.xaml.cs:69-78 | After Finish, no lifecycle event and no queued activation invokes any callback until the next Navigate |
| `WebView.FinishIdempotent` | WindowsSolution/WindowsPhone/UnityProject/FBWebViewWP8.xaml.cs:69-78 | A second Finish leaves the same state and invokes nothing |
| `WebView.NavigateReplacesCallbacks` | WindowsSolution/WindowsPhone/UnityProject/FBWebViewWP8.xaml.cs:86-97 | After a Navigate, and until the next one, every invocation goes to that Navigate's callbacks in the matching slot, with its caller object. Callbacks of an earlier Navigate are never invoked |
| `WebView.NonTerminalKeepsCallbacks` | WindowsSolution/WindowsPhone/UnityProject/FBWebViewWP8.xaml.cs:55-60 | Activations and started events leave the callbacks and the caller object unchanged. Every invocation they produce is of the held started callback |
| `WebView.NavigateThenFinished` | WindowsSolution/WindowsPhone/UnityProject/FBWebViewWP8.xaml.cs:62-67 | Navigate, then activations and started events, then a finished event: the finished callback is invoked exactly once, last, with the event's uri and the caller object. Every earlier invocation is of the started callback. The error callback is never invoked |
| `WebView.NavigateThenFailed` | WindowsSolution/WindowsPhone/UnityProject/FBWebViewWP8.xaml.cs:48-53 | Navigate, then activations and started events, then a failed event: the error callback is invoked exactly once, last, with code 1, the event's uri and the caller object. Every earlier invocation is of the started callback. The finished callback is never invoked |
| `WebView.ProgressFollowsEvents` | WindowsSolution/WindowsPhone/UnityProject/FBWebViewWP8.xaml.cs:35-78 | After any input sequence, the indicator is shown in exactly two cases: some started event is followed by no terminal event and no Finish, or it was shown before and nothing since has hidden it |
| `WebView.ProgressFromConstruction` | WindowsSolution/WindowsPhone/UnityProject/FBWebViewWP8.xaml.cs:27-32 | From construction on, the indicator is shown exactly when a started event has not yet been followed by a terminal event or Finish |
| `WebView.ActiveLifecycle` | WindowsSolution/WindowsPhone/UnityProject/FBWebViewWP8.xaml.cs:80-104 | IsActive is false after construction and Navigate. It is true once the queued activation has run, and the browser then loads the uri. It is false again after Finish |
| `WebView.QueuedActivationOutlivesFinish` | WindowsSolution/WindowsPhone/UnityProject/FBWebViewWP8.xaml.cs:69-103 | An activation queued before Finish and run after it makes the control active and visible again. The control holds no callbacks and nothing is invoked |
| `WebView.FBWebViewWP8.constructor` | WindowsSolution/WindowsPhone/UnityProject/FBWebViewWP8.xaml.cs:20-33 | The new control is the initial state with an empty trace: indicator hidden, inactive, no callbacks |
| `WebView.FBWebViewWP8.StartProgress` | WindowsSolution/WindowsPhone/UnityProject/FBWebViewWP8.xaml.cs:35-40 | Shows the indicator and changes nothing else |
| `WebView.FBWebViewWP8.StopProgress` | WindowsSolution/WindowsPhone/UnityProject/FBWebViewWP8.xaml.cs:42-46 | Hides the indicator and changes nothing else |
| `WebView.FBWebViewWP8.NavigationFailed` | WindowsSolution/WindowsPhone/UnityProject/FBWebViewWP8.xaml.cs:48-53 | Hides the indicator. Appends an error invocation with code 1 and the stored caller object exactly when an error callback is registered. Follows `Step` and `Emitted` |
| `WebView.FBWebViewWP8.NavigationStarted` | WindowsSolution/WindowsPhone/UnityProject/FBWebViewWP8.xaml.cs:55-60 | Shows the indicator. Appends a started invocation with the uri and the caller object exactly when a started callback is registered. Follows `Step` and `Emitted` |
| `WebView.FBWebViewWP8.NavigationFinished` | WindowsSolution/WindowsPhone/UnityProject/FBWebViewWP8.xaml.cs:62-67 | Hides the indicator. Appends a finished invocation with the uri and the caller object exactly when a finished callback is registered. Follows `Step` and `Emitted` |
| `WebView.FBWebViewWP8.Finish` | WindowsSolution/WindowsPhone/UnityProject/FBWebViewWP8.xaml.cs:69-78 | Hides the indicator. Clears all three callbacks. Blanks the browser, collapses the control and deactivates it. Keeps the caller object and the queue. Invokes nothing |
| `WebView.FBWebViewWP8.Navigate` | WindowsSolution/WindowsPhone/UnityProject/FBWebViewWP8.xaml.cs:86-104 | Stores the three callbacks and the caller object, replacing the earlier set. Queues the activation for the uri. Leaves activity and visibility as they were and invokes nothing |
| `WebView.FBWebViewWP8.RunDispatched` | WindowsSolution/WindowsPhone/UnityProject/FBWebViewWP8.xaml.cs:98-103 | Runs the oldest queued activation: the control becomes visible and active and the browser loads its uri. Invokes nothing |
| `PluginConfig.SlotOf` | Assets/MarkerMetro/Editor/ConfigureWindow.cs:124-144 | NuGet and BuildLocal map to the build-scripts field. Every other kind has a field of its own |
| `PluginConfig.SharedSlot` | Assets/MarkerMetro/Editor/ConfigureWindow.cs:135-137 | Two kinds share a field exactly when they are equal or are NuGet and BuildLocal |
| `PluginConfig.Settings.WithDir` | Assets/MarkerMetro/Editor/ConfigureWindow.cs:149-172 | Writing one directory setting changes that setting only. Get after set returns the value written, and every other setting is unchanged |
| `PluginConfig.GetDirLabel` | Assets/MarkerMetro/Editor/ConfigureWindow.cs:177-197 | Every kind has a non-empty label. The label is "Build Scripts" exactly for NuGet and BuildLocal |
| `PluginConfig.LabelsFollowSlots` | Assets/MarkerMetro/Editor/ConfigureWindow.cs:177-197 | Two kinds carry the same label exactly when they share a field |
| `PluginConfig.RowsShown` | Assets/MarkerMetro/Editor/ConfigureWindow.cs:44-56 | With the Local source the rows are WinLegacy, WinIntegration, BuildLocal, VSCommonTool. With any other source they are NuGet, VSCommonTool. VSCommonTool is always last. No field has two rows, and the build-scripts and tools fields always have one |
| `PluginConfig.RowsCoverSlots` | Assets/MarkerMetro/Editor/ConfigureWindow.cs:44-56 | With the Local source every field has a row. With any other source the two project directories have none |
| `PluginConfig.DefaultFolder` | Assets/MarkerMetro/Editor/ConfigureWindow.cs:109 | The picker opens at the current directory when it is non-empty, otherwise at the data folder |
| `PluginConfig.ConfigureWindow.constructor` | Assets/MarkerMetro/Editor/ConfigureWindow.cs:29-38 | A created and enabled window holds the store's values: every cached field equals its setting, and the plugin source and build configuration come from the store |
| `PluginConfig.ConfigureWindow.OnEnable` | Assets/MarkerMetro/Editor/ConfigureWindow.cs:29-38 | After enabling, every cached field equals its persisted setting, and the plugin source and build configuration are the stored ones |
| `PluginConfig.ConfigureWindow.GetDir` | Assets/MarkerMetro/Editor/ConfigureWindow.cs:124-144 | Returns the cached field of the kind's slot, so NuGet and BuildLocal read the same field. When cache and store are in sync, that is the persisted setting |
| `PluginConfig.ConfigureWindow.SetDir` | Assets/MarkerMetro/Editor/ConfigureWindow.cs:149-172 | Afterwards GetDir returns the full path of the argument for the kind and for its alias. Every other kind reads as before. Exactly the matching setting is written with the same value. Cache and store stay in sync |
| `PluginConfig.ConfigureWindow.ChooseDir` | Assets/MarkerMetro/Editor/ConfigureWindow.cs:107-115 | Offers the current directory, or the data folder when it is empty. A non-empty pick is stored as by SetDir. An empty pick changes no field and no setting |

## Left out

- The system tray: `SystemTray.IsVisible`, attaching the indicator to the current page, and the indicator's text and indeterminate style. They belong to the host shell. Only the indicator's visibility is modelled.
- `InitializeComponent` and the event subscriptions in the constructor. The lifecycle events are the methods `NavigationStarted`, `NavigationFinished` and `NavigationFailed`, callable in any order. Whether loading the empty document raises events of its own is the browser's business and is not modelled.
- The threading of `Dispatcher.BeginInvoke`. Queued activations are a FIFO queue that `RunDispatched` works off one at a time. Timing relative to the browser's events is not modelled.
- What a caller's callback does when invoked. A callback that re-enters the control, for example by calling `Finish`, is not modelled because callback bodies are outside the control. An invocation is only recorded in the trace.
- C# `null` strings and uris. Callbacks and the caller object are explicit options (`Option`, `Null`); `string.IsNullOrEmpty` becomes a test for the empty string.
- `WebView.FBWebViewWP8.constructor`: the control's initial visibility is the default of a user control (visible). The constructor does not set it.
- `DrawUpdateSource` and `DrawBuildConfig`, the two pop-up menus of the window. They only copy a user choice into a field and into the store. The rows drawn are modelled as a function of whatever plugin source is current.
- All immediate-mode GUI layout (`GUILayout`, `EditorGUILayout`) and the folder picker itself. The picker's result is the parameter `picked`.
- `PluginConfigHelper.SearchVSCommonToolsDir` is not part of this model. Its effect on the store is the input `afterSearch` of `OnEnable`.
- `System.IO.Path.GetFullPath` is left uninterpreted (the function value `fullPath`). The exceptions it throws for malformed paths are not modelled.
- The enumeration `PluginSource` is not part of this model beyond its `Local` member. Every other value is `Other(code)`.
- `PluginConfig.ConfigureWindow.constructor`: the source declares no constructor. The editor creates the window and then enables it, and the model's constructor loads the store as `OnEnable` does, without the tools-directory search.
- `Assets/WinIntegrationExample/Scripts/GUIStart.cs`: pixel layout and dispatch into a game object and a social SDK that are not part of this model.
- `Assets/Plugins/MarkerMetro/FileHelper.cs`: one-line wrappers over the platform file API and the UTF-8 encoder, which have no logic of their own.
