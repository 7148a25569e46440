/**
 * The page chrome of js/main.js: the light/dark theme switch
 * (`initTheme`) and the mobile navigation menu (`initNavigation`).
 * Storage, the colour-scheme media query and focus handling are
 * reduced to the state they change.
 */
module SiteChrome {
  import opened Wrappers

  const DarkMetaColor: string := "#0c0e1a"
  const LightMetaColor: string := "#ffffff"
  /** The crescent moon shown while the page is light. */
  const MoonIcon: string := "\U{1F319}"
  /** The sun shown otherwise. */
  const SunIcon: string := "\U{2600}\U{FE0F}"

  /** `getCurrentTheme`: the `data-theme` attribute, with a missing or empty one read as light. */
  function CurrentTheme(attr: Option<string>): (theme: string)
    ensures attr.None? ==> theme == "light"
    ensures attr.Some? && attr.value != "" ==> theme == attr.value
    ensures theme != ""
  {
    if attr.Some? && attr.value != "" then attr.value else "light"
  }

  /** The theme a click switches to: dark from light, light from anything else. */
  function Toggled(theme: string): (next: string)
    ensures next == "dark" <==> theme == "light"
    ensures next == "light" <==> theme != "light"
  {
    if theme == "light" then "dark" else "light"
  }

  /** Two clicks from light or dark come back to where they started. */
  lemma ToggleTwiceRestores(theme: string)
    requires theme == "light" || theme == "dark"
    ensures Toggled(Toggled(theme)) == theme
  {
  }

  /** The icon for a theme: the moon while light, the sun otherwise. */
  function IconFor(theme: string): (icon: string)
    ensures icon == MoonIcon <==> theme == "light"
  {
    if theme == "light" then MoonIcon else SunIcon
  }

  /** The browser-chrome colour for a theme: the dark navy exactly for dark. */
  function MetaColorFor(theme: string): (color: string)
    ensures color == DarkMetaColor <==> theme == "dark"
  {
    if theme == "dark" then DarkMetaColor else LightMetaColor
  }

  /** The theme state: the root attribute, the stored choice, the icon and the meta colour. */
  /** `localStorage.getItem('theme')` is truthy: present and not empty. */
  predicate HasStoredChoice(stored: Option<string>)
  {
    stored.Some? && stored.value != ""
  }

  class ThemeManager {
    var attr: Option<string>
    var stored: Option<string>
    var icon: string
    var metaColor: string

    /** The icon always shows the current theme. */
    ghost predicate Valid()
      reads this
    {
      icon == IconFor(CurrentTheme(attr))
    }

    /** `initTheme` on a page whose markup carries `initial` and whose storage holds `saved`. */
    constructor (initial: Option<string>, saved: Option<string>, meta: string)
      ensures Valid() && attr == initial && stored == saved && metaColor == meta
    {
      attr := initial;
      stored := saved;
      metaColor := meta;
      icon := IconFor(CurrentTheme(initial));
    }

    /** `setTheme`: record the theme, store it, refresh the icon and the meta colour. */
    method SetTheme(theme: string)
      modifies this
      ensures Valid()
      ensures attr == Some(theme) && stored == Some(theme)
      ensures metaColor == MetaColorFor(theme)
    {
      attr := Some(theme);
      stored := Some(theme);
      icon := IconFor(CurrentTheme(attr));
      metaColor := MetaColorFor(theme);
    }

    /** The toggle button's click. */
    method Toggle()
      modifies this
      ensures Valid()
      ensures attr == Some(Toggled(CurrentTheme(old(attr))))
      ensures stored == Some(Toggled(CurrentTheme(old(attr))))
      ensures metaColor == MetaColorFor(Toggled(CurrentTheme(old(attr))))
      ensures CurrentTheme(attr) == "dark" <==> CurrentTheme(old(attr)) == "light"
      ensures metaColor == DarkMetaColor <==> CurrentTheme(old(attr)) == "light"
    {
      SetTheme(Toggled(CurrentTheme(attr)));
    }

    /**
     * A change of the system colour scheme applies only while no choice is
     * stored; a stored empty string is falsy and counts as no choice.
     */
    method SystemSchemeChanged(prefersDark: bool)
      modifies this
      ensures HasStoredChoice(old(stored)) ==>
        attr == old(attr) && stored == old(stored) && icon == old(icon) && metaColor == old(metaColor)
      ensures !HasStoredChoice(old(stored)) ==>
        var theme := if prefersDark then "dark" else "light";
        Valid() && attr == Some(theme) && stored == Some(theme) && metaColor == MetaColorFor(theme)
    {
      if !HasStoredChoice(stored) {
        SetTheme(if prefersDark then "dark" else "light");
      }
    }
  }

  /** The mobile menu: the `isOpen` flag and the DOM state it drives. */
  class NavMenu {
    var isOpen: bool
    /** The toggle button's `active` class. */
    var toggleActive: bool
    /** The toggle button's `aria-expanded` attribute. */
    var ariaExpanded: string
    /** The link list's `open` class. */
    var linksOpen: bool
    /** `document.body.style.overflow`. */
    var bodyOverflow: string

    /** The button, the list and the page scroll lock all agree with the flag. */
    ghost predicate Valid()
      reads this
    {
      && toggleActive == isOpen
      && linksOpen == isOpen
      && ariaExpanded == (if isOpen then "true" else "false")
      && bodyOverflow == (if isOpen then "hidden" else "")
    }

    /** The menu starts closed. */
    constructor ()
      ensures Valid() && !isOpen
    {
      isOpen := false;
      toggleActive := false;
      ariaExpanded := "false";
      linksOpen := false;
      bodyOverflow := "";
    }

    /** `closeMenu`: always leaves the menu closed and the page scrollable. */
    method CloseMenu()
      modifies this
      ensures Valid() && !isOpen && bodyOverflow == ""
    {
      isOpen := false;
      toggleActive := false;
      ariaExpanded := "false";
      linksOpen := false;
      bodyOverflow := "";
    }

    /** The toggle button's click flips the menu. */
    method Toggle()
      requires Valid()
      modifies this
      ensures Valid() && isOpen == !old(isOpen)
    {
      isOpen := !isOpen;
      toggleActive := isOpen;
      ariaExpanded := if isOpen then "true" else "false";
      linksOpen := isOpen;
      bodyOverflow := if isOpen then "hidden" else "";
    }

    /** A click on a navigation link closes the menu. */
    method LinkClicked()
      modifies this
      ensures Valid() && !isOpen
    {
      CloseMenu();
    }

    /** A click anywhere outside the navigation bar closes an open menu; others change nothing. */
    method DocumentClicked(insideNav: bool)
      requires Valid()
      modifies this
      ensures Valid()
      ensures isOpen == (old(isOpen) && insideNav)
    {
      if isOpen && !insideNav {
        CloseMenu();
      }
    }

    /** Escape closes the menu only when it is open; other keys change nothing. */
    method KeyPressed(key: string)
      requires Valid()
      modifies this
      ensures Valid()
      ensures isOpen == (old(isOpen) && key != "Escape")
      ensures !(key == "Escape" && old(isOpen)) ==> isOpen == old(isOpen) && bodyOverflow == old(bodyOverflow)
    {
      if key == "Escape" && isOpen {
        CloseMenu();
      }
    }
  }
}
