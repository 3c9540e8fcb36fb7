# UI-preference toggler of the portfolio site's client script

This project models the client-side preference logic of `assets/js/app.js`:
the dark-mode start-up code and the single delegated click listener that
toggles the colour theme and the mobile navigation menu.

The script keeps no variables of its own, so the page is the state. The
model abstracts it into one immutable record, `Dom.UiState`:

- `rootDark` is the `dark` class on `<html>`.
- `stored` is the value under the `darkMode` key of local storage. `None`
  stands for the `null` that `getItem` returns for a key never written.
- `menu` holds the `hidden` class on `.mobile-menu`, `.mobile-menu-open`
  and `.mobile-menu-closed`.

Each event becomes a pure transition on that record (module `Toggler`):

- `Init` is the `DOMContentLoaded` theme start-up.
- `ToggleTheme` is the theme branch of the click listener.
- `ToggleMenu` is the mobile-menu branch.
- `OnClick` is the whole listener.

A click is reduced to two booleans: whether the target's ancestor walk
(`closest`) finds `data-toggle-dark-mode`, and whether it finds
`data-toggle-mobile-menu`.

Module `Session` strings clicks together. `Run` handles a sequence of clicks
one after another, each to completion. `Load` is a fresh document after
start-up, which keeps only local storage across a reload.

Behaviour of the code worth calling out:

- Two theme toggles restore the class but not necessarily the stored value
  (app.js:59-65). The value comes back exactly when it already agreed with
  the class. An absent or corrupt value is overwritten with "true" or
  "false" (`ToggleThemeTwiceIdentity`).
- The two marker tests are independent `if`s (app.js:56, 69). A click
  inside both markers runs the theme branch and then the menu branch
  (`OnClick`).
- Start-up treats any stored string other than exactly "false" as dark
  (app.js:48). That includes no value at all and corrupt values.
- Start-up only ever adds the `dark` class and never removes it
  (app.js:50-52). So a root that the layout already marks `dark` stays
  dark even when "false" is stored (`Session.Load`).

## Model

| member | source | states |
|---|---|---|
| Toggler.Init | assets/js/app.js:48-52 | Start-up makes the root dark whenever the stored value is absent or is any string other than exactly "false". A stored "false" leaves the page exactly as it was. An already dark root stays dark. Storage and menu are untouched. |
| Toggler.ToggleTheme | assets/js/app.js:57-65 | The class is negated. Afterwards the stored value is the "true"/"false" encoding of the new class. The menu is untouched. |
| Toggler.ToggleMenu | assets/js/app.js:70-82 | The container's hidden flag is negated. Both icons are then set consistently with it whatever they were before. Theme and storage are untouched. |
| Toggler.OnClick | assets/js/app.js:55-84 | The class flips exactly when the theme marker is hit, and the menu container flips exactly when the menu marker is hit. A branch that does not run leaves its part of the page unchanged. A branch that does run leaves storage agreeing with the class, or the three menu elements agreeing with each other. |
| Toggler.ToggleThemeTwice | assets/js/app.js:57-65 | Two theme toggles restore the class. The stored value is then the encoding of the original class. |
| Toggler.ToggleThemeTwiceIdentity | assets/js/app.js:57-65 | Two theme toggles give back the original state exactly if and only if storage already agreed with the class. An absent, corrupt or contradicting stored value does not come back. |
| Toggler.PersistRestore | assets/js/app.js:48-65 | On a fresh page, start-up applied to the value the theme toggle just wrote reproduces the class that toggle applied, unless the root already carried `dark`. In that case the root stays dark. |
| Toggler.InitIdempotent | assets/js/app.js:48-52 | Running start-up a second time changes nothing. |
| Toggler.ToggleMenuTwice | assets/js/app.js:74-82 | Two menu toggles restore all three menu flags when they were consistent beforehand. |
| Toggler.ToggleMenuTwiceRepairsIcons | assets/js/app.js:74-82 | Two menu toggles restore the container. They leave the icons consistent with it, so an inconsistent starting state is not given back. |
| Toggler.ThemeAndMenuCommute | assets/js/app.js:56-83 | The two branches act on disjoint parts of the page, so running them in either order gives the same state. |
| Toggler.OnClickFrames | assets/js/app.js:55-84 | A click that hits no marker changes nothing. The theme marker alone runs only the theme toggle and leaves the menu alone. The menu marker alone runs only the menu toggle and leaves theme and storage alone. Both markers together run the theme toggle, then the menu toggle. |
| Session.Run | assets/js/app.js:55-84 | Over any click sequence, the class and the menu container each end flipped exactly when their marker was hit an odd number of times. A part whose marker was never hit is unchanged. Once the theme marker was hit, storage agrees with the class. Once the menu marker was hit, the three menu elements agree. |
| Session.RunAppend | assets/js/app.js:55-84 | Handling two click sequences one after the other is the same as handling their concatenation. |
| Session.RunTwice | assets/js/app.js:57-82 | Replaying a session's clicks restores the class and a consistent menu. Storage ends as the encoding of the original class if the theme was toggled, and is unchanged otherwise. |
| Session.Load | assets/js/app.js:46-52 | A freshly loaded page is dark exactly when the layout puts `dark` on the root or storage does not hold "false". Storage and the markup's menu classes are kept. |
| Session.DefaultIsDark | assets/js/app.js:48-52 | With nothing stored, or any value other than "false", a loaded page is dark whatever the layout. |
| Session.PreferenceSurvivesReload | assets/js/app.js:48-65 | After a session in which the theme was toggled at least once, a reload comes up dark if the session ended dark or the layout marks the root dark, and light otherwise. So without a `dark` class in the layout, the session's final class is reproduced. |
| Session.UnmarkedClicksChangeNothing | assets/js/app.js:55-84 | A session whose clicks never hit a marker leaves the page exactly as it was. |
| Dom.EncodeRoundTrip | assets/js/app.js:48-64 | Start-up reads "true" as dark and "false" as not dark, and the two encodings differ. |

## Left out

- The LiveView socket is left out: its construction, the CSRF token lookup, the long-poll fallback option, `connect()` and the `window.liveSocket` debug handle (lines 21-43). These are network transport and calls into a library whose behaviour is not visible here.
- The topbar progress indicator and its 300 ms display delay are left out (lines 32-34). This is a timing effect of a vendored library.
- Listener registration (`DOMContentLoaded`, `click`) and the `closest(...)` ancestor walk are not modelled. A click is given as the two booleans saying which markers the walk found.
- Unavailable local storage is not modelled. The code has no `try`/`catch` around it, so no silent fallback is modelled either.
- Missing menu elements are not modelled. The code has no null checks. The model assumes all three elements exist, which the record type builds in.
- The layout's initial classes on the root and the menu elements are not modelled. The templates are not part of this model, so `Session.Load` takes them as parameters.
- Session.Run assumes that nothing but this listener writes the page or the `darkMode` key during a session or before a reload. Another tab of the same origin can overwrite the shared key, and LiveView patches (app.js:26-37) can rewrite the menu elements' classes. Neither writer is modelled, and `Session.PreferenceSurvivesReload` carries the same assumption.
