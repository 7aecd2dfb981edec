/** The menu keys that a menu hands to the item under the cursor (the MKEY_ values of the menu system). */
module MenuKeys {
  datatype MenuKey =
    | Up | Down | Left | Right | PageUp | PageDown | Enter | Back | Clear
    | Input   // a key was captured for a binding
    | Abort   // the capture was cancelled
    | MBYes | MBNo

  /** The keys an option list turns into a change of its selection. */
  predicate IsCycleKey(k: MenuKey)
  {
    k.Left? || k.Right? || k.Enter?
  }
}
