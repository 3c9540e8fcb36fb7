/** The part of the page that the UI-preference script reads and writes.

The script keeps no state of its own: the document IS the state. The `dark`
class on the root element says whether the dark theme is applied, the
`darkMode` key of the origin's local storage holds the persisted preference,
and the `hidden` class on the three mobile-navigation elements says whether
the menu is open. This module abstracts those DOM lookups and that storage
key into one immutable record.
 */
module Dom {

  /** A value that may be absent; `None` models `localStorage.getItem`
      returning `null` for a key that was never written. */
  datatype Option<+T> = None | Some(value: T)

  /** The `hidden` class on `.mobile-menu` (the container),
      `.mobile-menu-open` and `.mobile-menu-closed` (the two icons). */
  datatype Menu = Menu(containerHidden: bool, openIconHidden: bool, closedIconHidden: bool)

  /** Everything the preference script observes or changes:
      `rootDark` is the `dark` class on `<html>`, `stored` the value under
      the `darkMode` storage key, `menu` the three menu elements. */
  datatype UiState = UiState(rootDark: bool, stored: Option<string>, menu: Menu)

  /** The literal strings the script writes under `darkMode`. */
  function Encode(dark: bool): string {
    if dark then "true" else "false"
  }

  /** How the start-up code reads the stored preference: anything but the
      exact string "false" (including no value at all) means dark. */
  predicate ReadsAsDark(stored: Option<string>) {
    stored != Some("false")
  }

  /** The stored preference is the encoding of the class currently applied. */
  predicate Persisted(s: UiState) {
    s.stored == Some(Encode(s.rootDark))
  }

  /** The three menu elements show one coherent picture: either the menu is
      shown with the "open" icon visible and the "closed" icon hidden, or
      the menu is hidden with the "open" icon hidden and the "closed" icon
      visible. */
  predicate Consistent(m: Menu) {
    m.openIconHidden == m.containerHidden && m.closedIconHidden == !m.containerHidden
  }

  /** Reading back what was written yields the value written, and the
      encoding tells the two themes apart. */
  lemma EncodeRoundTrip(dark: bool)
    ensures ReadsAsDark(Some(Encode(dark))) == dark
    ensures Encode(dark) != Encode(!dark)
  {
  }
}
