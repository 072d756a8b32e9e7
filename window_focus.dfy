/** Focus mode for a window: the four chrome flags, the marker in the window's
    template settings, and the window's views. */
module WindowFocus {
  import opened Values
  import opened ViewFocus

  /** Visibility of the minimap, side bar, status bar and tabs. */
  datatype Flags = Flags(minimap: bool, sideBar: bool, statusBar: bool, tabs: bool)

  const ShowMinimap: string := "show_minimap"
  const ShowSideBar: string := "show_side_bar"
  const ShowStatusBar: string := "show_status_bar"
  const ShowTabs: string := "show_tabs"

  /** Read the four flags from a store, each defaulting independently. */
  function ReadFlags(m: Store, default: bool): Flags
  {
    Flags(GetFlag(m, ShowMinimap, default), GetFlag(m, ShowSideBar, default),
          GetFlag(m, ShowStatusBar, default), GetFlag(m, ShowTabs, default))
  }

  /** The record `enter_focus_mode` stores under the window marker. */
  function RecordFlags(f: Flags): (m: Store)
    ensures ReadFlags(m, true) == f && ReadFlags(m, false) == f
    ensures FocusModeKey !in m
  {
    map[ShowMinimap := Bool(f.minimap), ShowSideBar := Bool(f.sideBar),
        ShowStatusBar := Bool(f.statusBar), ShowTabs := Bool(f.tabs)]
  }

  /** The project's `settings.Focus` mapping; a window without a project has none. */
  function ProjectFocus(project: Option<Store>): Store
  {
    match project
    case None => map[]
    case Some(data) => GetDict(GetDict(data, "settings"), "Focus")
  }

  /** Where one flag comes from: the project first, then the global focus settings,
      and `false` when neither names it. */
  function MergedFlag(focus: Store, projectFocus: Store, key: string): bool
  {
    if key in projectFocus then GetFlag(projectFocus, key, false) else GetFlag(focus, key, false)
  }

  /** The flags `apply_focus_mode_settings` sets, read from the global focus settings
      merged with the project's, project entries winning. */
  function AppliedFlags(focus: Store, project: Option<Store>): (f: Flags)
    ensures var p := ProjectFocus(project);
      f == Flags(MergedFlag(focus, p, ShowMinimap), MergedFlag(focus, p, ShowSideBar),
                 MergedFlag(focus, p, ShowStatusBar), MergedFlag(focus, p, ShowTabs))
  {
    ReadFlags(focus + ProjectFocus(project), false)
  }

  /** What the model keeps of a window. */
  datatype WindowState = WindowState(flags: Flags, template: Store, project: Option<Store>, views: seq<ViewState>)

  /** A window is in focus mode exactly when its template settings carry the marker. */
  predicate Marked(w: WindowState)
  {
    FocusModeKey in w.template
  }

  /** The pre-focus record `exit_focus_mode` reads back (empty when there is none). */
  function SavedFlags(template: Store): Store
  {
    GetDict(template, FocusModeKey)
  }

  /** `enter_focus_mode`. */
  function EnteredWindow(w: WindowState, focus: Store, df: Store): (r: WindowState)
    ensures Marked(r) && ReadFlags(SavedFlags(r.template), true) == w.flags
    ensures r.template - {FocusModeKey} == w.template - {FocusModeKey}
    ensures r.flags == AppliedFlags(focus, w.project) && r.project == w.project
    ensures |r.views| == |w.views|
    ensures forall i :: 0 <= i < |w.views| ==> r.views[i] == EnteredView(w.views[i], df)
  {
    WindowState(AppliedFlags(focus, w.project),
                w.template[FocusModeKey := Dict(RecordFlags(w.flags))],
                w.project,
                seq(|w.views|, i requires 0 <= i < |w.views| => EnteredView(w.views[i], df)))
  }

  /** `apply_focus_mode_settings`: only the flags change. */
  function AppliedWindow(w: WindowState, focus: Store): (r: WindowState)
    ensures r.flags == AppliedFlags(focus, w.project)
    ensures r.template == w.template && r.project == w.project && r.views == w.views
  {
    w.(flags := AppliedFlags(focus, w.project))
  }

  /** `exit_focus_mode`. */
  function ExitedWindow(w: WindowState): (r: WindowState)
    ensures !Marked(r) && r.template == w.template - {FocusModeKey} && r.project == w.project
    ensures !Marked(w) ==> r.flags == Flags(true, true, true, true)
    ensures Marked(w) && w.template[FocusModeKey].Dict? ==>
      r.flags == ReadFlags(w.template[FocusModeKey].entries, true)
    ensures |r.views| == |w.views|
    ensures forall i :: 0 <= i < |w.views| ==> r.views[i] == ExitedView(w.views[i])
  {
    WindowState(ReadFlags(SavedFlags(w.template), true),
                w.template - {FocusModeKey},
                w.project,
                seq(|w.views|, i requires 0 <= i < |w.views| => ExitedView(w.views[i])))
  }

  /** One window's part of `update_focus_mode_view_settings`. */
  function ReloadedWindow(w: WindowState, df: Store): (r: WindowState)
    ensures r.flags == w.flags && r.template == w.template && r.project == w.project
    ensures |r.views| == |w.views|
    ensures forall i :: 0 <= i < |w.views| ==> r.views[i] == ReloadedView(w.views[i], df)
  {
    w.(views := seq(|w.views|, i requires 0 <= i < |w.views| => ReloadedView(w.views[i], df)))
  }

  /** Entering then exiting restores the four flags and the template settings, and
      gives every view the view-level round trip. */
  lemma WindowRoundTrip(w: WindowState, focus: Store, df: Store)
    requires FocusModeKey !in df
    ensures var r := ExitedWindow(EnteredWindow(w, focus, df));
      && r.flags == w.flags && !Marked(r) && r.template == w.template - {FocusModeKey}
      && |r.views| == |w.views|
      && forall i :: 0 <= i < |w.views| && !Focused(w.views[i].settings) ==>
           r.views[i].settings == df + w.views[i].settings
  {
    var e := EnteredWindow(w, focus, df);
    var r := ExitedWindow(e);
    assert e.template[FocusModeKey] == Dict(RecordFlags(w.flags));
    forall i | 0 <= i < |w.views| && !Focused(w.views[i].settings)
      ensures r.views[i].settings == df + w.views[i].settings
    {
      ViewRoundTrip(w.views[i], df);
    }
  }

  /** Reloading either configuration while focused leaves the pre-focus record alone:
      the flags follow the new focus settings while focused, and exit still restores
      the flags from before entry and each view's snapshot. */
  lemma ReloadKeepsWindowSnapshot(w: WindowState, focus: Store, df: Store, focus2: Store, df2: Store)
    requires FocusModeKey !in df && FocusModeKey !in df2
    ensures var e := ReloadedWindow(AppliedWindow(EnteredWindow(w, focus, df), focus2), df2);
      && e.flags == AppliedFlags(focus2, w.project)
      && var r := ExitedWindow(e);
      && r.flags == w.flags && !Marked(r) && r.template == w.template - {FocusModeKey}
      && |r.views| == |w.views|
      && forall i, k ::
           0 <= i < |w.views| && !Focused(w.views[i].settings) && k in df && k in w.views[i].settings
           ==> k in r.views[i].settings && r.views[i].settings[k] == w.views[i].settings[k]
  {
    var e0 := EnteredWindow(w, focus, df);
    var e := ReloadedWindow(AppliedWindow(e0, focus2), df2);
    assert e.template[FocusModeKey] == Dict(RecordFlags(w.flags));
    var r := ExitedWindow(e);
    forall i | 0 <= i < |w.views| && !Focused(w.views[i].settings)
      ensures forall k :: k in df && k in w.views[i].settings ==>
        k in r.views[i].settings && r.views[i].settings[k] == w.views[i].settings[k]
    {
      ReloadKeepsViewSnapshot(w.views[i], df, df2);
    }
  }

  /** Entering a window that is already focused overwrites its record with the flags
      focus mode applied, so a later exit does not bring back the flags from before the
      first entry; window-level entry is not idempotent. */
  lemma ReenterLosesSavedFlags(w: WindowState, focus: Store, df: Store)
    ensures var twice := EnteredWindow(EnteredWindow(w, focus, df), focus, df);
      ExitedWindow(twice).flags == AppliedFlags(focus, w.project)
  {
    var once := EnteredWindow(w, focus, df);
    var twice := EnteredWindow(once, focus, df);
    assert twice.template[FocusModeKey] == Dict(RecordFlags(once.flags));
  }

  /** The views of a window, as values. */
  ghost function ViewStates(vs: seq<View>): (r: seq<ViewState>)
    reads vs
  {
    seq(|vs|, i requires 0 <= i < |vs| reads vs => vs[i].State())
  }

  /** An editor window: its chrome flags, template settings, project data and views
      (transient ones included). */
  class Window {
    var minimap: bool
    var sideBar: bool
    var statusBar: bool
    var tabs: bool
    var template: Store
    var project: Option<Store>
    /** The window's views, transient ones included; which views a window has is up to
        the editor, never to the plugin. */
    const views: seq<View>

    constructor (flags: Flags, template: Store, project: Option<Store>, views: seq<View>)
      ensures this.views == views
      ensures State() == WindowState(flags, template, project, ViewStates(views))
    {
      minimap, sideBar, statusBar, tabs := flags.minimap, flags.sideBar, flags.statusBar, flags.tabs;
      this.template := template;
      this.project := project;
      this.views := views;
    }

    /** The editor lists each view of a window once. */
    ghost predicate Valid()
    {
      forall i, j :: 0 <= i < j < |views| ==> views[i] != views[j]
    }

    ghost function State(): WindowState
      reads this, views
    {
      WindowState(Flags(minimap, sideBar, statusBar, tabs), template, project, ViewStates(views))
    }

    /** focus.py `apply_focus_mode_settings`. */
    method ApplyFocusModeSettings(focus: Store)
      modifies this
      ensures State() == AppliedWindow(old(State()), focus)
    {
      var settings := focus + ProjectFocus(project);
      minimap := GetFlag(settings, ShowMinimap, false);
      sideBar := GetFlag(settings, ShowSideBar, false);
      statusBar := GetFlag(settings, ShowStatusBar, false);
      tabs := GetFlag(settings, ShowTabs, false);
    }

    /** focus.py `enter_focus_mode`. */
    method EnterFocusMode(focus: Store, df: Store)
      requires Valid()
      modifies this, views
      ensures State() == EnteredWindow(old(State()), focus, df)
    {
      var i := 0;
      while i < |views|
        invariant 0 <= i <= |views|
        invariant template == old(template) && project == old(project)
        invariant Flags(minimap, sideBar, statusBar, tabs) == old(Flags(minimap, sideBar, statusBar, tabs))
        invariant forall k :: 0 <= k < i ==> views[k].State() == EnteredView(old(views[k].State()), df)
        invariant forall k :: i <= k < |views| ==> views[k].State() == old(views[k].State())
      {
        EnterViewFocusMode(views[i], df);
        i := i + 1;
      }
      template := template[FocusModeKey := Dict(RecordFlags(Flags(minimap, sideBar, statusBar, tabs)))];
      ApplyFocusModeSettings(focus);
    }

    /** focus.py `exit_focus_mode`. */
    method ExitFocusMode()
      requires Valid()
      modifies this, views
      ensures State() == ExitedWindow(old(State()))
    {
      var i := 0;
      while i < |views|
        invariant 0 <= i <= |views|
        invariant template == old(template) && project == old(project)
        invariant Flags(minimap, sideBar, statusBar, tabs) == old(Flags(minimap, sideBar, statusBar, tabs))
        invariant forall k :: 0 <= k < i ==> views[k].State() == ExitedView(old(views[k].State()))
        invariant forall k :: i <= k < |views| ==> views[k].State() == old(views[k].State())
      {
        ExitViewFocusMode(views[i]);
        i := i + 1;
      }
      var saved := SavedFlags(template);
      minimap := GetFlag(saved, ShowMinimap, true);
      sideBar := GetFlag(saved, ShowSideBar, true);
      statusBar := GetFlag(saved, ShowStatusBar, true);
      tabs := GetFlag(saved, ShowTabs, true);
      template := template - {FocusModeKey};
    }

    /** The view loop of `update_focus_mode_view_settings` for this window: every view
      the window lists (transient ones are not listed) gets the reloaded table. */
    method UpdateViewSettings(df: Store)
      requires Valid()
      modifies views
      ensures State() == ReloadedWindow(old(State()), df)
    {
      var i := 0;
      while i < |views|
        invariant 0 <= i <= |views|
        invariant forall k :: 0 <= k < i ==> views[k].State() == ReloadedView(old(views[k].State()), df)
        invariant forall k :: i <= k < |views| ==> views[k].State() == old(views[k].State())
      {
        if !views[i].transient {
          views[i].settings := views[i].settings + df;
        }
        i := i + 1;
      }
    }
  }
}
