/** Focus mode for a single view: the snapshot taken on entry and the restore on exit. */
module ViewFocus {
  import opened Values

  /** What the model keeps of a view: its settings store, whether the "Focus Mode"
      status text is shown, and whether the view is transient (a preview). */
  datatype ViewState = ViewState(settings: Store, status: bool, transient: bool)

  /** A store is in focus mode exactly when it carries the marker key. */
  predicate Focused(s: Store)
  {
    FocusModeKey in s
  }

  /** The pre-focus snapshot: the current value of every key of the
      distraction-free table that has one. */
  function Snapshot(s: Store, df: Store): Store
  {
    map k | k in df.Keys * s.Keys :: s[k]
  }

  /** `enter_view_focus_mode`: record the snapshot under the marker, then lay the
      distraction-free table over the store. */
  function EnteredView(v: ViewState, df: Store): (r: ViewState)
    ensures Focused(r.settings) && r.transient == v.transient
    ensures Focused(v.settings) ==> r == v
    ensures !Focused(v.settings) ==> r.status
    ensures !Focused(v.settings) ==>
      forall k :: k in df ==> k in r.settings && r.settings[k] == df[k]
    ensures !Focused(v.settings) ==>
      forall k :: k !in df && k != FocusModeKey ==>
        (k in r.settings <==> k in v.settings) && (k in v.settings ==> r.settings[k] == v.settings[k])
    ensures !Focused(v.settings) && FocusModeKey !in df ==>
      && r.settings[FocusModeKey].Dict?
      && r.settings[FocusModeKey].entries.Keys == df.Keys * v.settings.Keys
      && forall k :: k in r.settings[FocusModeKey].entries ==>
           r.settings[FocusModeKey].entries[k] == v.settings[k]
  {
    if Focused(v.settings) then v
    else v.(settings := v.settings[FocusModeKey := Dict(Snapshot(v.settings, df))] + df, status := true)
  }

  /** `exit_view_focus_mode`: write the snapshot back over the store and drop the marker.
      A marker that holds no mapping leaves the view as it is. */
  function ExitedView(v: ViewState): (r: ViewState)
    ensures r.transient == v.transient
    ensures !Focused(v.settings) ==> r == v
    ensures Focused(v.settings) && v.settings[FocusModeKey].Dict? ==>
      var pre := v.settings[FocusModeKey].entries;
      && !Focused(r.settings) && !r.status
      && (forall k :: k in pre && k != FocusModeKey ==> k in r.settings && r.settings[k] == pre[k])
      && (forall k :: k !in pre && k != FocusModeKey ==>
            (k in r.settings <==> k in v.settings) && (k in v.settings ==> r.settings[k] == v.settings[k]))
  {
    if !Focused(v.settings) then v
    else match v.settings[FocusModeKey]
      case Dict(pre) => v.(settings := (v.settings + pre) - {FocusModeKey}, status := false)
      case _ => v
  }

  /** One view's part of `update_focus_mode_view_settings`: lay the reloaded table over
      the store; transient views are not listed by the window and keep their settings. */
  function ReloadedView(v: ViewState, df: Store): ViewState
  {
    if v.transient then v else v.(settings := v.settings + df)
  }

  /** Entering then exiting gives the store laid over the distraction-free table: keys
      that were set get their old value back, keys that were unset keep the focus value. */
  lemma ViewRoundTrip(v: ViewState, df: Store)
    requires !Focused(v.settings) && FocusModeKey !in df
    ensures ExitedView(EnteredView(v, df)).settings == df + v.settings
    ensures !ExitedView(EnteredView(v, df)).status
  {
    var e := EnteredView(v, df);
    var pre := Snapshot(v.settings, df);
    assert e.settings[FocusModeKey] == Dict(pre);
    var r := ExitedView(e).settings;
    assert r == (e.settings + pre) - {FocusModeKey};
    assert r.Keys == (df + v.settings).Keys;
    forall k | k in r
      ensures r[k] == (df + v.settings)[k]
    {
      if k in v.settings && k in df {
        assert r[k] == pre[k];
      }
    }
  }

  /** When every key of the table was set before entry, the round trip restores the
      store exactly. */
  lemma ViewRoundTripExact(v: ViewState, df: Store)
    requires !Focused(v.settings) && FocusModeKey !in df
    requires df.Keys <= v.settings.Keys
    ensures ExitedView(EnteredView(v, df)).settings == v.settings
  {
    ViewRoundTrip(v, df);
    assert df + v.settings == v.settings;
  }

  /** A key unset before entry is not erased on exit: with `word_wrap` unset and
      `rulers` at [80], a table setting `word_wrap` to true and `rulers` to [] leaves,
      after entry and exit, `rulers` at [80] but `word_wrap` still true. */
  lemma UnsetKeyKeepsFocusValue()
    ensures
      var before := ViewState(map["rulers" := List([Int(80)])], false, false);
      var df := map["word_wrap" := Bool(true), "rulers" := List([])];
      var after := ExitedView(EnteredView(before, df)).settings;
      && EnteredView(before, df).settings["rulers"] == List([])
      && EnteredView(before, df).settings["word_wrap"] == Bool(true)
      && after["rulers"] == List([Int(80)])
      && "word_wrap" in after && after["word_wrap"] == Bool(true)
  {
    var before := ViewState(map["rulers" := List([Int(80)])], false, false);
    var df := map["word_wrap" := Bool(true), "rulers" := List([])];
    ViewRoundTrip(before, df);
  }

  /** Reloading the distraction-free table while focused does not touch the snapshot:
      exit still restores every key of the original table that was set before entry,
      while keys the snapshot does not cover keep the reloaded value. */
  lemma ReloadKeepsViewSnapshot(v: ViewState, df: Store, df2: Store)
    requires !Focused(v.settings) && FocusModeKey !in df && FocusModeKey !in df2
    ensures
      var r := ExitedView(ReloadedView(EnteredView(v, df), df2)).settings;
      && !Focused(r)
      && (forall k :: k in df && k in v.settings ==> k in r && r[k] == v.settings[k])
      && (!v.transient ==>
            forall k :: k in df2 && !(k in df && k in v.settings) ==> k in r && r[k] == df2[k])
  {
    var e := EnteredView(v, df);
    var pre := Snapshot(v.settings, df);
    assert e.settings[FocusModeKey] == Dict(pre);
    var l := ReloadedView(e, df2);
    assert l.settings[FocusModeKey] == Dict(pre);
  }

  /** A view of the editor; only its settings store and status text are modelled. */
  class View {
    var settings: Store
    var status: bool
    const transient: bool

    constructor (settings: Store, transient: bool)
      ensures State() == ViewState(settings, false, transient)
    {
      this.settings := settings;
      this.status := false;
      this.transient := transient;
    }

    ghost function State(): ViewState
      reads this
    {
      ViewState(settings, status, transient)
    }
  }

  /** focus.py `enter_view_focus_mode`. */
  method EnterViewFocusMode(view: View, df: Store)
    modifies view
    ensures view.State() == EnteredView(old(view.State()), df)
  {
    if FocusModeKey in view.settings {
      return;
    }
    view.settings := view.settings[FocusModeKey := Dict(Snapshot(view.settings, df))];
    view.settings := view.settings + df;
    view.status := true;
  }

  /** focus.py `exit_view_focus_mode`. */
  method ExitViewFocusMode(view: View)
    modifies view
    ensures view.State() == ExitedView(old(view.State()))
  {
    if FocusModeKey !in view.settings {
      return;
    }
    var pre := view.settings[FocusModeKey];
    if !pre.Dict? {
      return;
    }
    view.settings := view.settings + pre.entries;
    view.settings := view.settings - {FocusModeKey};
    view.status := false;
  }
}
