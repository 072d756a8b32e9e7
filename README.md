# Focus mode for a Sublime Text window, modelled in Dafny

The plugin puts an editor window into "focus mode". It hides the minimap, side bar,
status bar and tabs, and lays a table of distraction-free display settings over
every view. On exit it restores what it recorded. Everything rests on one marker
key, `focus_mode_state`. In a window's template settings the marker holds the four
pre-focus chrome flags. In a view's settings it holds the snapshot of the view's
previous values.

The model has four modules:

- `Values` (values.dfy): settings values (JSON without null) and stores
  (`map<string, Value>`; an absent key is what the plugin reads as `None`).
- `ViewFocus` (view_focus.dfy): the snapshot/overwrite on entry and the restore on
  exit, as functions on a `ViewState` value, and as methods on a `View` object whose
  settings store they update in place.
- `WindowFocus` (window_focus.dfy): the chrome flags, the merge of the global and
  project focus settings, and whole-window entry, exit and reload. These exist as
  functions on a `WindowState` value and as methods of a `Window` class. Each method
  is proved to move the window's `State()` exactly as the matching function does.
- `Plugin` (plugin.dfy): the two module-level configuration caches as a
  `FocusPlugin` class with load, unload and the two reload handlers; the toggle
  command; the event-listener guards.

The configuration caches and the project's `settings.Focus` mapping are explicit
state or parameters. The editor's list of windows is a parameter.

Three points where the code's behaviour is easy to misread; the model follows the code:

- On exit a view gets `update(snapshot)`. The snapshot only holds keys that had a
  value, so a key that was unset before entry keeps its focus value. It is not erased.
  `ViewFocus.ViewRoundTrip` states the exact outcome (the store laid over the table).
  `ViewFocus.UnsetKeyKeepsFocusValue` shows it on the `word_wrap`/`rulers` example.
- The snapshot covers only the keys of the table in force at entry. A key that a
  later reload adds is not restored on exit (`ViewFocus.ReloadKeepsViewSnapshot`).
- `enter_focus_mode` on a window that is already focused overwrites the window's
  record with the applied flags. Window-level entry is therefore not idempotent
  (`WindowFocus.ReenterLosesSavedFlags`). The toggle command never does this.

## Model

| member | source | states |
|---|---|---|
| `ViewFocus.EnteredView` | focus.py:111-124 | Does nothing when the marker is present. Otherwise: the marker is set and holds exactly the table's keys that had a value, with those values; every table key holds the table's value; every other key is untouched; the status text is shown |
| `ViewFocus.ExitedView` | focus.py:127-135 | Does nothing without a marker. Otherwise: writes the snapshot's values back, removes the marker, hides the status text, and leaves keys outside the snapshot untouched |
| `ViewFocus.ViewRoundTrip` | focus.py:117-133 | Enter then exit on an unfocused view leaves `table + old store`: set keys get their old values, unset table keys keep the focus value, other keys are untouched |
| `ViewFocus.ViewRoundTripExact` | focus.py:117-133 | When every key of the table was set before entry, enter then exit restores the store exactly |
| `ViewFocus.UnsetKeyKeepsFocusValue` | focus.py:117-133 | With `word_wrap` unset and `rulers` at [80], after entry and exit `rulers` is [80] again and `word_wrap` stays true |
| `ViewFocus.ReloadKeepsViewSnapshot` | focus.py:59-68 | A table reload between entry and exit keeps the snapshot. Exit restores every originally set table key; keys the snapshot does not cover keep the reloaded value |
| `ViewFocus.EnterViewFocusMode` | focus.py:111-124 | Updates the view in place exactly as `EnteredView` |
| `ViewFocus.ExitViewFocusMode` | focus.py:127-135 | Updates the view in place exactly as `ExitedView` |
| `WindowFocus.RecordFlags` | focus.py:75-80 | The record stored under the window marker reads back as the four flags it was made from, whatever the default |
| `WindowFocus.AppliedFlags` | focus.py:85-94 | Each flag comes from the project's `settings.Focus` if it names the key, else from the global focus settings, else `false` |
| `WindowFocus.EnteredWindow` | focus.py:71-82 | Marker set to a record of the pre-entry flags; other template keys kept; flags as `AppliedFlags`; every view entered |
| `WindowFocus.AppliedWindow` | focus.py:85-94 | Only the flags change, to `AppliedFlags`; template, project and views are kept |
| `WindowFocus.ExitedWindow` | focus.py:97-108 | Marker removed and nothing else from the template; flags read back from the record, each defaulting to `true` (all `true` without a marker); every view exited |
| `WindowFocus.ReloadedWindow` | focus.py:67-68 | Flags and template kept; every listed view gets the reloaded table, transient views are kept |
| `WindowFocus.WindowRoundTrip` | focus.py:71-108 | Enter then exit restores the four flags and removes the marker; every unfocused view ends as `table + old store` |
| `WindowFocus.ReloadKeepsWindowSnapshot` | focus.py:50-68 | Reloading either configuration while focused makes the flags follow the new focus settings; exit still restores the pre-entry flags and each view's originally set table keys |
| `WindowFocus.ReenterLosesSavedFlags` | focus.py:75-80 | Entering twice then exiting gives the applied focus flags, not the flags from before the first entry |
| `WindowFocus.Window.ApplyFocusModeSettings` | focus.py:85-94 | Moves the window's state as `AppliedWindow` |
| `WindowFocus.Window.EnterFocusMode` | focus.py:71-82 | Moves the window's state as `EnteredWindow`; its views are entered one by one in place |
| `WindowFocus.Window.ExitFocusMode` | focus.py:97-108 | Moves the window's state as `ExitedWindow`; its views are exited one by one in place |
| `WindowFocus.Window.UpdateViewSettings` | focus.py:67-68 | Moves the window's state as `ReloadedWindow` |
| `Plugin.ExitedIfMarked` | focus.py:34-36 | After teardown a window holds no marker; an unmarked window is untouched; a marked one gets its recorded flags back |
| `Plugin.Toggled` | focus.py:169-173 | Marker presence flips on every run |
| `Plugin.ToggleTwiceRestores` | focus.py:169-173 | Two runs from normal mode restore the flags and the template settings exactly; each unfocused view ends as `table + old store` |
| `Plugin.ToggleParity` | focus.py:169-173 | After `n` runs the window is focused exactly when it started focused and `n` is even, or started in normal mode and `n` is odd |
| `Plugin.ToggleEvenTimesRestores` | focus.py:169-173 | Any even number of runs from normal mode restores the flags and the template settings exactly; each unfocused view ends as after a single round trip |
| `Plugin.FocusPlugin.Loaded` | focus.py:16-24 | Both caches are updated with the contents of their settings files |
| `Plugin.FocusPlugin.Unloaded` | focus.py:27-39 | Every marked window is exited, the others are untouched, no window holds the marker afterwards, and both caches are empty |
| `Plugin.FocusPlugin.UpdateFocusModeWindowSettings` | focus.py:50-56 | The focus cache becomes the reloaded file; every marked window gets `AppliedWindow`, its record untouched; others are untouched |
| `Plugin.FocusPlugin.UpdateFocusModeViewSettings` | focus.py:59-68 | The table cache becomes the reloaded file; every marked window gets `ReloadedWindow`, with no new snapshot; others are untouched |
| `Plugin.ToggleFocusModeCommand.Description` | focus.py:175-180 | "Enter Focus Mode" exactly when the window has no marker, "Exit Focus Mode" otherwise |
| `Plugin.ToggleFocusModeCommand.Run` | focus.py:169-173 | Moves the window's state as `Toggled`; the description changes on every run |
| `Plugin.EnterViewIfWindowFocused` | focus.py:139-141 | A view in a marked window enters focus mode; a view without a window, or in an unmarked one, is untouched (`on_load` at focus.py:147-149 and `on_post_move` at focus.py:155-157 have the same body) |
| `Plugin.ExitViewIfWindowFocused` | focus.py:151-153 | A view in a marked window is exited; otherwise untouched |
| `Plugin.ExitWindowIfFocused` | focus.py:143-145 | A new window that carries the marker is exited; otherwise untouched |
| `Plugin.ApplyIfWindowFocused` | focus.py:159-165 | A marked window re-applies its focus flags; otherwise untouched |

## Left out

- Editor API calls (`load_settings`, `add_on_change`, `clear_on_change`, `to_dict`,
  `sublime.windows()`, `window.views()`, `project_data()`) call into the host. Their
  results are parameters or fields here.
- Which editor event fires when is the host's business. Only what each listener
  handler does once called is modelled. `on_new`, `on_load` and `on_post_move` share
  one body, and so do `on_load_project` and `on_post_save_project`.
- The view's status text is modelled as a shown/hidden flag.
- Settings inheritance from defaults, JSON `null` values and value typing are not
  modelled. A store is a plain map.
- Which views a window has is fixed (`Window.views` is a constant). The plugin never
  changes it; views that open and close are host events.
- The window list and view lists are assumed to be as the editor hands them out:
  each window listed once, each view listed once and in one window only
  (`Plugin.Separate`, `Window.Valid`).
- Exceptions are not modelled. Where the code would raise, the model carries on as
  the entries below say, and the rest of the loop still runs.
- ExitedView: a view marker that is neither a mapping nor a sequence of key/value
  pairs makes `update` raise in the code; the model leaves that view as it is. For a
  marker holding a pair list, an empty list or an empty string the code writes the
  pairs, erases the marker and the status text; the model does not, and leaves such a
  view focused with its status shown.
- ExitedWindow: a window marker that holds no mapping makes `.get` raise in the code.
  The model reads it as an empty record, so all four flags become `true`.
- AppliedFlags: a project `settings` or `Focus` entry that is not a mapping makes the
  code raise. The model reads it as empty. A flag value that is not a boolean is
  handed to the host by the code; the model reads the default instead.
- The round-trip lemmas assume the distraction-free table does not itself contain
  the marker key. Such a table would overwrite the snapshot on entry.
