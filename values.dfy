/** Values held in the editor's key-value settings stores. */
module Values {

  /** A settings value as the editor stores it: JSON without null.
      A key that is absent from a store is what the plugin reads as None. */
  datatype Value =
    | Bool(b: bool)
    | Int(i: int)
    | Str(s: string)
    | List(items: seq<Value>)
    | Dict(entries: map<string, Value>)

  /** A per-view, per-window or configuration settings store. */
  type Store = map<string, Value>

  datatype Option<+T> = None | Some(value: T)

  /** The key under which a window or a view records its pre-focus state. */
  const FocusModeKey: string := "focus_mode_state"

  /** `m.get(key, default)` used as a boolean flag. */
  function GetFlag(m: Store, key: string, default: bool): bool
  {
    if key in m && m[key].Bool? then m[key].b else default
  }

  /** `m.get(key, {})` used as a mapping. */
  function GetDict(m: Store, key: string): Store
  {
    if key in m && m[key].Dict? then m[key].entries else map[]
  }
}
