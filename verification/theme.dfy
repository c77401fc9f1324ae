/**
 * `useTheme`: the persisted light/dark theme store.
 */
module Theme {
  datatype Theme = Light | Dark

  /** The theme before anything is stored. */
  function Initial(): (t: Theme)
    ensures t == Light
  {
    Light
  }

  /** `toggleTheme`: light becomes dark, and anything else becomes light. */
  function Toggle(t: Theme): (r: Theme)
    ensures r != t
    ensures t == Light <==> r == Dark
  {
    if t == Light then Dark else Light
  }

  /** `setTheme`: the theme becomes exactly the one given, whatever it was. */
  function SetTheme(current: Theme, t: Theme): (r: Theme)
    ensures r == t
  {
    t
  }

  /** Toggling twice gives back the theme one started from. */
  lemma ToggleTwice(t: Theme)
    ensures Toggle(Toggle(t)) == t
  {
  }

  /** Toggling is setting the other theme. */
  lemma ToggleIsSetOther(t: Theme)
    ensures Toggle(t) == SetTheme(t, if t == Dark then Light else Dark)
  {
  }
}
