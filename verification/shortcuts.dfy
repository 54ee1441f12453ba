/** The keyboard-shortcut rule of the page: which `keydown` events on the
    document do something, what they do and whether they cancel the
    browser's default action. */
module Shortcuts {
  import opened Dom

  /** What the handler asks the page to do. */
  datatype Command =
    | NoCommand
    | ClickThemeToggle            // `DOM.themeToggle.click()`
    | CloseModal                  // `closeExitModal()`
    | ClickNavLink(href: string)  // click the `.nav__link` with this href, if there is one

  datatype Response = Response(command: Command, preventDefault: bool)

  const Nothing: Response := Response(NoCommand, false)

  /** Focus in one of these elements means the user is typing. */
  predicate IsFormTag(tagName: string)
  {
    tagName == "INPUT" || tagName == "TEXTAREA" || tagName == "SELECT"
  }

  /** `handleKeyboardShortcuts` for a key, the Ctrl flag, the tag name of
      the focused element, whether the theme toggle exists and whether the
      exit modal is open. */
  function Shortcut(key: string, ctrl: bool, focusTag: string, hasThemeToggle: bool, modalOpen: bool): (r: Response)
    ensures IsFormTag(focusTag) ==> r == Nothing
    ensures r.command == ClickThemeToggle <==>
      !IsFormTag(focusTag) && ToLower(key) == "t" && ctrl && hasThemeToggle
    ensures r.command == CloseModal <==>
      !IsFormTag(focusTag) && ToLower(key) == "escape" && modalOpen
    ensures r.command == ClickNavLink("#hero") <==> !IsFormTag(focusTag) && ToLower(key) == "1" && ctrl
    ensures r.command == ClickNavLink("#projects") <==> !IsFormTag(focusTag) && ToLower(key) == "2" && ctrl
    ensures r.command.ClickNavLink? ==> r.command.href in ["#hero", "#projects"]
    ensures r.preventDefault <==> r.command == ClickThemeToggle || r.command.ClickNavLink?
  {
    if IsFormTag(focusTag) then Nothing
    else
      var k := ToLower(key);
      if k == "t" then
        if hasThemeToggle && ctrl then Response(ClickThemeToggle, true) else Nothing
      else if k == "escape" then
        if modalOpen then Response(CloseModal, false) else Nothing
      else if k == "1" then
        if ctrl then Response(ClickNavLink("#hero"), true) else Nothing
      else if k == "2" then
        if ctrl then Response(ClickNavLink("#projects"), true) else Nothing
      else Nothing
  }

  /** The key name is compared after lower-casing, so the shifted and
      unshifted spellings of a key select the same shortcut. */
  lemma ShortcutIgnoresCase(key: string, ctrl: bool, focusTag: string, hasThemeToggle: bool, modalOpen: bool)
    ensures Shortcut(key, ctrl, focusTag, hasThemeToggle, modalOpen) ==
            Shortcut(ToLower(key), ctrl, focusTag, hasThemeToggle, modalOpen)
  {
    ToLowerIdempotent(key);
  }

  /** Without Ctrl the only shortcut is closing an open modal with Escape, and
      it never cancels the default action. */
  lemma WithoutCtrlOnlyEscape(key: string, focusTag: string, hasThemeToggle: bool, modalOpen: bool)
    ensures Shortcut(key, false, focusTag, hasThemeToggle, modalOpen).command in {NoCommand, CloseModal}
    ensures !Shortcut(key, false, focusTag, hasThemeToggle, modalOpen).preventDefault
  {
  }

  /** `Escape`, however capitalised, closes an open modal outside form fields. */
  lemma EscapeClosesOpenModal(ctrl: bool, focusTag: string, hasThemeToggle: bool)
    requires !IsFormTag(focusTag)
    ensures Shortcut("Escape", ctrl, focusTag, hasThemeToggle, true) == Response(CloseModal, false)
    ensures Shortcut("ESCAPE", ctrl, focusTag, hasThemeToggle, true) == Response(CloseModal, false)
    ensures Shortcut("Escape", ctrl, focusTag, hasThemeToggle, false) == Nothing
  {
    assert ToLower("Escape") == "escape";
    assert ToLower("ESCAPE") == "escape";
  }
}
