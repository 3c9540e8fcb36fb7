/** A browsing session: the page is loaded, start-up runs once, and then the
single delegated listener handles a sequence of clicks, each to completion
before the next. A reload starts a fresh document that keeps only what is in
local storage.
 */
module Session {
  import opened Dom
  import opened Toggler

  /** The two action markers a click can hit. */
  datatype Marker = ThemeMarker | MenuMarker

  predicate Hits(c: Click, m: Marker) {
    match m
    case ThemeMarker => c.onThemeToggle
    case MenuMarker => c.onMenuToggle
  }

  /** The number of clicks in a sequence that hit marker `m`. */
  function Toggles(clicks: seq<Click>, m: Marker): nat {
    if |clicks| == 0 then 0
    else (if Hits(clicks[0], m) then 1 else 0) + Toggles(clicks[1..], m)
  }

  predicate Odd(n: nat) {
    n % 2 == 1
  }

  /** The listener applied to each click in turn. Its contract summarises a
      whole session: the theme and the menu each end flipped exactly when
      their marker was hit an odd number of times; a part never hit is left
      as it was; and once hit, storage agrees with the class and the three
      menu elements agree with each other. */
  function Run(s: UiState, clicks: seq<Click>): (r: UiState)
    ensures r.rootDark == (s.rootDark != Odd(Toggles(clicks, ThemeMarker)))
    ensures if Toggles(clicks, ThemeMarker) == 0 then r.stored == s.stored else Persisted(r)
    ensures r.menu.containerHidden == (s.menu.containerHidden != Odd(Toggles(clicks, MenuMarker)))
    ensures if Toggles(clicks, MenuMarker) == 0 then r.menu == s.menu else Consistent(r.menu)
    decreases |clicks|
  {
    if |clicks| == 0 then s else Run(OnClick(s, clicks[0]), clicks[1..])
  }

  /** Handling one sequence of clicks and then another is handling their
      concatenation: the listener keeps no state besides the page. */
  lemma {:induction false} RunAppend(s: UiState, a: seq<Click>, b: seq<Click>)
    ensures Run(s, a + b) == Run(Run(s, a), b)
    decreases |a|
  {
    if |a| == 0 {
      assert a + b == b;
    } else {
      assert (a + b)[0] == a[0];
      assert (a + b)[1..] == a[1..] + b;
      RunAppend(OnClick(s, a[0]), a[1..], b);
    }
  }

  /** Repeating a session's clicks returns the class and the menu to where
      they started (the menu provided it started consistent), and leaves the
      stored value equal to the encoding of the original class if the theme
      was ever toggled. */
  lemma {:induction false} RunTwice(s: UiState, clicks: seq<Click>)
    requires Consistent(s.menu)
    ensures Run(s, clicks + clicks).rootDark == s.rootDark
    ensures Run(s, clicks + clicks).menu == s.menu
    ensures Toggles(clicks, ThemeMarker) > 0 ==> Run(s, clicks + clicks).stored == Some(Encode(s.rootDark))
    ensures Toggles(clicks, ThemeMarker) == 0 ==> Run(s, clicks + clicks).stored == s.stored
  {
    RunAppend(s, clicks, clicks);
  }

  /** A freshly loaded document after start-up: the root carries `dark`
      if the layout puts it there (`rootMarkup`), the menu elements carry
      the classes of the markup, and storage holds whatever the previous
      page left there. */
  function Load(rootMarkup: bool, stored: Option<string>, markup: Menu): (r: UiState)
    ensures r.rootDark <==> rootMarkup || stored != Some("false")
    ensures r.stored == stored && r.menu == markup
  {
    Init(UiState(rootMarkup, stored, markup))
  }

  /** With nothing stored, or anything stored other than "false", the page
      comes up dark, whatever the layout. */
  lemma DefaultIsDark(rootMarkup: bool, v: Option<string>, markup: Menu)
    requires v != Some("false")
    ensures Load(rootMarkup, v, markup).rootDark
  {
  }

  /** The theme chosen in a session survives a reload once the theme has
      been toggled at least once: a dark choice always does, and a light
      choice does whenever the layout does not itself put `dark` on the
      root, because start-up only ever adds the class. */
  lemma PreferenceSurvivesReload(s: UiState, clicks: seq<Click>, rootMarkup: bool, markup: Menu)
    requires Toggles(clicks, ThemeMarker) > 0
    ensures Load(rootMarkup, Run(s, clicks).stored, markup).rootDark
            == (rootMarkup || Run(s, clicks).rootDark)
    ensures !rootMarkup ==> Load(rootMarkup, Run(s, clicks).stored, markup).rootDark == Run(s, clicks).rootDark
  {
  }

  /** A session that never hits a marker leaves the page exactly as it was. */
  lemma {:induction false} UnmarkedClicksChangeNothing(s: UiState, clicks: seq<Click>)
    requires forall i :: 0 <= i < |clicks| ==> !clicks[i].onThemeToggle && !clicks[i].onMenuToggle
    ensures Run(s, clicks) == s
    decreases |clicks|
  {
    if |clicks| != 0 {
      UnmarkedClicksChangeNothing(OnClick(s, clicks[0]), clicks[1..]);
    }
  }
}
