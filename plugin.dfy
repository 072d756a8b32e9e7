/** The plugin's module-level state and entry points: the two configuration caches,
    the reload handlers, plugin teardown, the toggle command and the event-listener
    guards. The editor's windows are passed in, as `sublime.windows()` hands them out. */
module Plugin {
  import opened Values
  import opened ViewFocus
  import opened WindowFocus

  /** The editor lists each window once, each window lists each of its views once,
      and no view belongs to two windows. */
  ghost predicate Separate(ws: seq<Window>)
  {
    && (forall i :: 0 <= i < |ws| ==> ws[i].Valid())
    && (forall i, j :: 0 <= i < j < |ws| ==> ws[i] != ws[j])
    && (forall i, j, v :: 0 <= i < |ws| && 0 <= j < |ws| && i != j && v in ws[i].views ==> v !in ws[j].views)
  }

  /** Every view of the given windows. */
  ghost function ViewsOf(ws: seq<Window>): set<View>
  {
    set i, v | 0 <= i < |ws| && v in ws[i].views :: v
  }

  /** Exit focus mode in window `i`, touching no other window. */
  method ExitOne(windows: seq<Window>, i: int)
    requires Separate(windows) && 0 <= i < |windows|
    modifies windows[i], windows[i].views
    ensures windows[i].State() == ExitedWindow(old(windows[i].State()))
    ensures forall k :: 0 <= k < |windows| && k != i ==> windows[k].State() == old(windows[k].State())
  {
    windows[i].ExitFocusMode();
    forall k | 0 <= k < |windows| && k != i
      ensures windows[k].State() == old(windows[k].State())
    {
      var vs := windows[k].views;
      forall j | 0 <= j < |vs|
        ensures vs[j].State() == old(vs[j].State())
      {
        assert vs[j] !in windows[i].views;
      }
      assert ViewStates(vs) == old(ViewStates(vs));
    }
  }

  /** Lay the table over the listed views of window `i`, touching no other window. */
  method UpdateViewsOfOne(windows: seq<Window>, i: int, df: Store)
    requires Separate(windows) && 0 <= i < |windows|
    modifies windows[i].views
    ensures windows[i].State() == ReloadedWindow(old(windows[i].State()), df)
    ensures forall k :: 0 <= k < |windows| && k != i ==> windows[k].State() == old(windows[k].State())
  {
    windows[i].UpdateViewSettings(df);
    forall k | 0 <= k < |windows| && k != i
      ensures windows[k].State() == old(windows[k].State())
    {
      var vs := windows[k].views;
      forall j | 0 <= j < |vs|
        ensures vs[j].State() == old(vs[j].State())
      {
        assert vs[j] !in windows[i].views;
      }
      assert ViewStates(vs) == old(ViewStates(vs));
    }
  }

  /** What teardown does to one window: a focused window is forced out of focus mode. */
  function ExitedIfMarked(w: WindowState): (r: WindowState)
    ensures !Marked(r)
    ensures !Marked(w) ==> r == w
    ensures Marked(w) ==> r.flags == ReadFlags(SavedFlags(w.template), true)
  {
    if Marked(w) then ExitedWindow(w) else w
  }

  /** `ToggleFocusModeCommand.run`: enter when the marker is absent, exit otherwise. */
  function Toggled(w: WindowState, focus: Store, df: Store): (r: WindowState)
    ensures Marked(r) <==> !Marked(w)
    ensures r.project == w.project && |r.views| == |w.views|
  {
    if !Marked(w) then EnteredWindow(w, focus, df) else ExitedWindow(w)
  }

  /** Two runs of the toggle on a window in normal mode bring back its flags and its
      template settings, and give each view the view-level round trip. */
  lemma ToggleTwiceRestores(w: WindowState, focus: Store, df: Store)
    requires !Marked(w) && FocusModeKey !in df
    ensures var r := Toggled(Toggled(w, focus, df), focus, df);
      && r.flags == w.flags && r.template == w.template
      && |r.views| == |w.views|
      && forall i :: 0 <= i < |w.views| && !Focused(w.views[i].settings) ==>
           r.views[i].settings == df + w.views[i].settings
  {
    WindowRoundTrip(w, focus, df);
    assert w.template - {FocusModeKey} == w.template;
  }

  /** `n` successive runs of the toggle command on one window. */
  function ToggledTimes(w: WindowState, focus: Store, df: Store, n: nat): WindowState
  {
    if n == 0 then w else Toggled(ToggledTimes(w, focus, df, n - 1), focus, df)
  }

  /** After `n` runs the window is focused exactly when it started focused and `n`
      is even, or started in normal mode and `n` is odd. */
  lemma {:induction false} ToggleParity(w: WindowState, focus: Store, df: Store, n: nat)
    ensures Marked(ToggledTimes(w, focus, df, n)) <==> (Marked(w) != (n % 2 == 1))
  {
    if n > 0 {
      ToggleParity(w, focus, df, n - 1);
    }
  }

  /** Any even number of runs from normal mode gives back the window's flags and
      template settings; each view that was not focused ends as after one round trip,
      however many round trips there were. */
  lemma {:induction false} ToggleEvenTimesRestores(w: WindowState, focus: Store, df: Store, m: nat)
    requires !Marked(w) && FocusModeKey !in df
    requires forall i :: 0 <= i < |w.views| ==> !Focused(w.views[i].settings)
    ensures var r := ToggledTimes(w, focus, df, 2 * m);
      && r.flags == w.flags && r.template == w.template
      && |r.views| == |w.views|
      && forall i :: 0 <= i < |w.views| ==>
           r.views[i].settings == if m == 0 then w.views[i].settings else df + w.views[i].settings
  {
    if m > 0 {
      ToggleEvenTimesRestores(w, focus, df, m - 1);
      var r := ToggledTimes(w, focus, df, 2 * (m - 1));
      var t := Toggled(Toggled(r, focus, df), focus, df);
      assert ToggledTimes(w, focus, df, 2 * m - 1) == Toggled(r, focus, df);
      assert ToggledTimes(w, focus, df, 2 * m) == t;
      forall i | 0 <= i < |r.views|
        ensures !Focused(r.views[i].settings)
      {
      }
      ToggleTwiceRestores(r, focus, df);
      forall i | 0 <= i < |w.views|
        ensures t.views[i].settings == df + w.views[i].settings
      {
        assert t.views[i].settings == df + r.views[i].settings;
        OverlayTwice(df, w.views[i].settings);
      }
    }
  }

  /** Laying the same table over a store twice is laying it once. */
  lemma OverlayTwice(df: Store, s: Store)
    ensures df + (df + s) == df + s
  {
    assert (df + (df + s)).Keys == (df + s).Keys;
  }

  /** The module-level configuration caches `focus_mode_settings` and
      `distraction_free_settings`. */
  class FocusPlugin {
    var focusSettings: Store
    var distractionFree: Store

    constructor ()
      ensures focusSettings == map[] && distractionFree == map[]
    {
      focusSettings := map[];
      distractionFree := map[];
    }

    /** focus.py `plugin_loaded`: fill both caches from the two settings files. */
    method Loaded(focusFile: Store, distractionFreeFile: Store)
      modifies this
      ensures focusSettings == old(focusSettings) + focusFile
      ensures distractionFree == old(distractionFree) + distractionFreeFile
    {
      focusSettings := focusSettings + focusFile;
      distractionFree := distractionFree + distractionFreeFile;
    }

    /** focus.py `plugin_unloaded`: force every focused window out of focus mode,
        then clear both caches. */
    method Unloaded(windows: seq<Window>)
      requires Separate(windows)
      modifies this, windows, ViewsOf(windows)
      ensures forall i :: 0 <= i < |windows| ==> !Marked(windows[i].State())
      ensures forall i :: 0 <= i < |windows| ==>
        windows[i].State() == ExitedIfMarked(old(windows[i].State()))
      ensures focusSettings == map[] && distractionFree == map[]
    {
      var i := 0;
      while i < |windows|
        invariant 0 <= i <= |windows|
        invariant forall k :: 0 <= k < i ==> windows[k].State() == ExitedIfMarked(old(windows[k].State()))
        invariant forall k :: i <= k < |windows| ==> windows[k].State() == old(windows[k].State())
      {
        if FocusModeKey in windows[i].template {
          assert forall v :: v in windows[i].views ==> v in ViewsOf(windows);
          ExitOne(windows, i);
        }
        i := i + 1;
      }
      focusSettings := map[];
      distractionFree := map[];
    }

    /** focus.py `update_focus_mode_window_settings`: replace the focus cache and
        re-apply it to every focused window; the pre-focus records stay as they are. */
    method UpdateFocusModeWindowSettings(loaded: Store, windows: seq<Window>)
      requires Separate(windows)
      modifies this, windows
      ensures focusSettings == loaded && distractionFree == old(distractionFree)
      ensures forall i :: 0 <= i < |windows| ==>
        windows[i].State() == if old(Marked(windows[i].State()))
                              then AppliedWindow(old(windows[i].State()), loaded)
                              else old(windows[i].State())
    {
      focusSettings := loaded;
      var i := 0;
      while i < |windows|
        invariant 0 <= i <= |windows|
        invariant focusSettings == loaded && distractionFree == old(distractionFree)
        invariant forall k :: 0 <= k < i ==>
          windows[k].State() == if old(Marked(windows[k].State()))
                                then AppliedWindow(old(windows[k].State()), loaded)
                                else old(windows[k].State())
        invariant forall k :: i <= k < |windows| ==> windows[k].State() == old(windows[k].State())
      {
        if FocusModeKey in windows[i].template {
          windows[i].ApplyFocusModeSettings(focusSettings);
        }
        i := i + 1;
      }
    }

    /** focus.py `update_focus_mode_view_settings`: replace the distraction-free cache
        and lay it over the listed views of every focused window; no snapshot is retaken. */
    method UpdateFocusModeViewSettings(loaded: Store, windows: seq<Window>)
      requires Separate(windows)
      modifies this, ViewsOf(windows)
      ensures distractionFree == loaded && focusSettings == old(focusSettings)
      ensures forall i :: 0 <= i < |windows| ==>
        windows[i].State() == if old(Marked(windows[i].State()))
                              then ReloadedWindow(old(windows[i].State()), loaded)
                              else old(windows[i].State())
    {
      distractionFree := loaded;
      var i := 0;
      while i < |windows|
        invariant 0 <= i <= |windows|
        invariant distractionFree == loaded && focusSettings == old(focusSettings)
        invariant forall k :: 0 <= k < i ==>
          windows[k].State() == if old(Marked(windows[k].State()))
                                then ReloadedWindow(old(windows[k].State()), loaded)
                                else old(windows[k].State())
        invariant forall k :: i <= k < |windows| ==> windows[k].State() == old(windows[k].State())
      {
        if FocusModeKey in windows[i].template {
          assert forall v :: v in windows[i].views ==> v in ViewsOf(windows);
          UpdateViewsOfOne(windows, i, distractionFree);
        }
        i := i + 1;
      }
    }
  }

  /** focus.py `ToggleFocusModeCommand`, bound to one window. */
  class ToggleFocusModeCommand {
    const window: Window

    constructor (window: Window)
      ensures this.window == window
    {
      this.window := window;
    }

    /** The command's label: "Enter Focus Mode" exactly when the window is not focused. */
    function Description(): (d: string)
      reads window
      ensures d == "Enter Focus Mode" <==> FocusModeKey !in window.template
      ensures d == "Enter Focus Mode" || d == "Exit Focus Mode"
    {
      if FocusModeKey !in window.template then "Enter Focus Mode" else "Exit Focus Mode"
    }

    method Run(focus: Store, df: Store)
      requires window.Valid()
      modifies window, window.views
      ensures window.State() == Toggled(old(window.State()), focus, df)
      ensures Description() != old(Description())
    {
      if FocusModeKey !in window.template {
        window.EnterFocusMode(focus, df);
      } else {
        window.ExitFocusMode();
      }
    }
  }

  /** `FocusModeListener.on_new`, `on_load` and `on_post_move`: a view that shows up in
      a focused window enters focus mode. `window` is null for a view without a window. */
  method EnterViewIfWindowFocused(view: View, window: Window?, df: Store)
    modifies view
    ensures view.State() ==
      if window != null && FocusModeKey in window.template
      then EnteredView(old(view.State()), df) else old(view.State())
  {
    if window != null && FocusModeKey in window.template {
      EnterViewFocusMode(view, df);
    }
  }

  /** `FocusModeListener.on_pre_move`: a view about to leave a focused window is restored. */
  method ExitViewIfWindowFocused(view: View, window: Window?)
    modifies view
    ensures view.State() ==
      if window != null && FocusModeKey in window.template
      then ExitedView(old(view.State())) else old(view.State())
  {
    if window != null && FocusModeKey in window.template {
      ExitViewFocusMode(view);
    }
  }

  /** `FocusModeListener.on_new_window`: a new window that inherited the marker is
      taken out of focus mode. */
  method ExitWindowIfFocused(window: Window)
    requires window.Valid()
    modifies window, window.views
    ensures window.State() == ExitedIfMarked(old(window.State()))
  {
    if FocusModeKey in window.template {
      window.ExitFocusMode();
    }
  }

  /** `FocusModeListener.on_load_project` and `on_post_save_project`: a focused window
      re-reads its project's focus settings. */
  method ApplyIfWindowFocused(window: Window, focus: Store)
    modifies window
    ensures window.State() ==
      if old(Marked(window.State())) then AppliedWindow(old(window.State()), focus) else old(window.State())
  {
    if FocusModeKey in window.template {
      window.ApplyFocusModeSettings(focus);
    }
  }
}
