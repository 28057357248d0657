/** A JavaScript value that may be `null`: `getAttribute`, `localStorage.getItem`
    and a storage event's `key` / `newValue` all answer `null` when there is nothing. */
module Options {

  datatype Option<+T> = None | Some(value: T)

  /** The JavaScript expression `v || d` where `v` is a string or `null`:
      both `null` and the empty string are falsy and give `d`. */
  predicate Truthy(v: Option<string>) {
    v.Some? && v.value != ""
  }

  function Or(v: Option<string>, d: string): string {
    if Truthy(v) then v.value else d
  }
}
