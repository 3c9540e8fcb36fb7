/** The transitions of the UI-preference script: start-up initialisation of
the theme, the theme toggle, the mobile-menu toggle, and the delegated click
handler that dispatches to the two toggles. Each is a pure function from the
page state before the event to the page state after it.
 */
module Toggler {
  import opened Dom

  /** Start-up: read the stored preference and add the `dark` class unless
      the stored value is exactly "false". The class is only ever added,
      never removed, and storage and menu are left alone. */
  function Init(s: UiState): (r: UiState)
    ensures s.stored != Some("false") ==> r.rootDark
    ensures s.stored == Some("false") ==> r == s
    ensures s.rootDark ==> r.rootDark
    ensures r.stored == s.stored && r.menu == s.menu
  {
    if ReadsAsDark(s.stored) then s.(rootDark := true) else s
  }

  /** The theme branch of the click handler: read the applied class, apply
      its negation and persist the new value. */
  function ToggleTheme(s: UiState): (r: UiState)
    ensures r.rootDark == !s.rootDark
    ensures Persisted(r)
    ensures r.menu == s.menu
  {
    if s.rootDark then
      s.(rootDark := false, stored := Some("false"))
    else
      s.(rootDark := true, stored := Some("true"))
  }

  /** The mobile-menu branch of the click handler: decide from the container
      alone, then set the container and both icons. */
  function ToggleMenu(s: UiState): (r: UiState)
    ensures r.menu.containerHidden == !s.menu.containerHidden
    ensures Consistent(r.menu)
    ensures r.rootDark == s.rootDark && r.stored == s.stored
  {
    if s.menu.containerHidden then
      s.(menu := Menu(containerHidden := false, openIconHidden := false, closedIconHidden := true))
    else
      s.(menu := Menu(containerHidden := true, openIconHidden := true, closedIconHidden := false))
  }

  /** A click, reduced to which action markers it hits on the way up from its
      target: `onThemeToggle` when an ancestor carries `data-toggle-dark-mode`,
      `onMenuToggle` when one carries `data-toggle-mobile-menu`. */
  datatype Click = Click(onThemeToggle: bool, onMenuToggle: bool)

  /** The delegated click listener: two independent tests, the theme branch
      first, then the menu branch; both run when both markers match. */
  function OnClick(s: UiState, c: Click): (r: UiState)
    ensures r.rootDark == (s.rootDark != c.onThemeToggle)
    ensures if c.onThemeToggle then Persisted(r) else r.stored == s.stored
    ensures r.menu.containerHidden == (s.menu.containerHidden != c.onMenuToggle)
    ensures if c.onMenuToggle then Consistent(r.menu) else r.menu == s.menu
  {
    var afterTheme := if c.onThemeToggle then ToggleTheme(s) else s;
    if c.onMenuToggle then ToggleMenu(afterTheme) else afterTheme
  }

  /** Toggling the theme twice restores the class; the stored value is then
      the encoding of the original class, whatever was stored before. */
  lemma ToggleThemeTwice(s: UiState)
    ensures ToggleTheme(ToggleTheme(s)).rootDark == s.rootDark
    ensures ToggleTheme(ToggleTheme(s)).stored == Some(Encode(s.rootDark))
    ensures ToggleTheme(ToggleTheme(s)).menu == s.menu
  {
  }

  /** Two theme toggles give back exactly the state started from if and only
      if storage already agreed with the class. An absent or corrupt stored
      value, or one that contradicts the class, is overwritten and does not
      come back. */
  lemma ToggleThemeTwiceIdentity(s: UiState)
    ensures ToggleTheme(ToggleTheme(s)) == s <==> Persisted(s)
  {
  }

  /** What the theme toggle writes, start-up reads back: on a fresh page
      whose root does not yet carry `dark`, initialising from the value just
      stored reproduces the class the toggle applied. A root that already
      carries `dark` stays dark, since start-up never removes the class. */
  lemma PersistRestore(s: UiState, rootMarkup: bool, markup: Menu)
    ensures Init(UiState(rootMarkup, ToggleTheme(s).stored, markup)).rootDark
            == (rootMarkup || ToggleTheme(s).rootDark)
  {
  }

  /** Start-up is idempotent: running it a second time changes nothing. */
  lemma InitIdempotent(s: UiState)
    ensures Init(Init(s)) == Init(s)
  {
  }

  /** Toggling the menu twice restores all three flags when they were
      consistent to begin with. */
  lemma ToggleMenuTwice(s: UiState)
    requires Consistent(s.menu)
    ensures ToggleMenu(ToggleMenu(s)) == s
  {
  }

  /** Without prior consistency the icons are not restored: the toggle
      overwrites them from the container's flag alone. */
  lemma ToggleMenuTwiceRepairsIcons(s: UiState)
    ensures Consistent(ToggleMenu(ToggleMenu(s)).menu)
    ensures ToggleMenu(ToggleMenu(s)).menu.containerHidden == s.menu.containerHidden
    ensures !Consistent(s.menu) ==> ToggleMenu(ToggleMenu(s)) != s
  {
  }

  /** The two branches act on disjoint parts of the page, so their order
      does not matter. */
  lemma ThemeAndMenuCommute(s: UiState)
    ensures ToggleMenu(ToggleTheme(s)) == ToggleTheme(ToggleMenu(s))
  {
  }

  /** Frame conditions of the click handler: a click hitting no marker changes
      nothing, each single marker runs only its own branch, and a click
      hitting both runs the theme branch and then the menu branch. */
  lemma OnClickFrames(s: UiState)
    ensures OnClick(s, Click(false, false)) == s
    ensures OnClick(s, Click(true, false)) == ToggleTheme(s)
    ensures OnClick(s, Click(true, false)).menu == s.menu
    ensures OnClick(s, Click(false, true)) == ToggleMenu(s)
    ensures OnClick(s, Click(false, true)).rootDark == s.rootDark
    ensures OnClick(s, Click(false, true)).stored == s.stored
    ensures OnClick(s, Click(true, true)) == ToggleMenu(ToggleTheme(s))
  {
  }
}
