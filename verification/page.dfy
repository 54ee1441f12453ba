/** The page state the script's event handlers change: the body's theme
    classes and the stored preference, the mobile navigation, the header
    and back-to-top classes, the active navigation links and the
    exit-intent modal. Which optional elements the page has is fixed when
    the page loads. */
module PageUi {
  import opened Dom
  import opened Scroll
  import opened Shortcuts

  datatype Theme = Dark | Light

  /** The theme toggle's label: a sun offers the way back to light. */
  datatype Icon = Sun | Moon

  /** The theme a `toggleTheme` call switches to, read from the `dark` class. */
  function NextTheme(dark: bool): (t: Theme)
    ensures t == Dark <==> !dark
  {
    if dark then Light else Dark
  }

  /** Breakpoint at and above which a resize closes the mobile navigation. */
  const DesktopWidth: real := 860.0

  class Page {
    /** Which of the optional elements `initializeElements` found. `hasNav`
        means both the nav toggle and the nav list exist. */
    const hasThemeToggle: bool
    const hasNav: bool
    const hasHeader: bool
    const hasBackToTop: bool
    const hasExitModal: bool
    /** The modal holds a button: `showExitModal` focuses the first one
        before attaching its keydown listener, and throws without one. */
    const modalHasButton: bool
    /** The theme toggle lies inside the nav toggle or the nav list, so a
        click on it does not count as a click outside the menu. */
    const themeToggleInNav: bool
    /** The `href` of every `.nav__link`, in document order. */
    const navHrefs: seq<string>

    /** The body's `dark`, `light` and `theme-transition` classes. */
    var dark: bool
    var light: bool
    var themeTransition: bool
    var themeIcon: Icon
    /** The `theme` entry of local storage. */
    var storedTheme: Option<Theme>

    /** The nav toggle's `aria-expanded`, the list's `is-open` class and the
        hamburger lines drawn as a cross. */
    var ariaExpanded: bool
    var navOpen: bool
    var hamburgerCross: bool

    /** The header's `scrolled` class and the back-to-top button's visibility. */
    var headerScrolled: bool
    var backToTopShown: bool
    /** The `active` class of each nav link. */
    var linkActive: seq<bool>

    /** `isModalOpen`, the modal's `display: flex`, the body's
        `overflow: hidden`, and how many keydown listeners the modal holds. */
    var isModalOpen: bool
    var modalDisplayed: bool
    var bodyScrollLocked: bool
    var modalKeyListeners: nat

    /** The shortcut's click closes the menu: a theme-toggle click that
        lands outside the menu, or a nav-link click that finds its link. */
    predicate CloseMenuAfter(c: Command)
    {
      && hasNav
      && match c
         case ClickThemeToggle => !themeToggleInNav
         case ClickNavLink(href) => href in navHrefs
         case _ => false
    }

    ghost predicate Valid()
      reads this
    {
      && |linkActive| == |navHrefs|
      && ariaExpanded == navOpen == hamburgerCross
      && isModalOpen == modalDisplayed == bodyScrollLocked
      && (isModalOpen ==> hasExitModal && (modalHasButton ==> modalKeyListeners > 0))
      && (!modalHasButton ==> modalKeyListeners == 0)
    }

    /** The page as loaded: the body's theme classes, the toggle's label, the
        header and back-to-top state and the links' `active` classes as the
        markup sets them, whatever theme local storage already holds (the
        script never reads it), navigation closed, modal closed. */
    constructor (themeToggle: bool, nav: bool, header: bool, backToTop: bool, exitModal: bool,
                 modalButton: bool, toggleInNav: bool, hrefs: seq<string>,
                 bodyDark: bool, bodyLight: bool, icon: Icon, stored: Option<Theme>,
                 scrolledClass: bool, backToTopVisible: bool, active: seq<bool>)
      requires |active| == |hrefs|
      ensures Valid()
      ensures hasThemeToggle == themeToggle && hasNav == nav && hasHeader == header
      ensures hasBackToTop == backToTop && hasExitModal == exitModal && navHrefs == hrefs
      ensures modalHasButton == modalButton && themeToggleInNav == toggleInNav
      ensures dark == bodyDark && light == bodyLight && themeIcon == icon && !themeTransition
      ensures storedTheme == stored
      ensures !navOpen
      ensures headerScrolled == scrolledClass && backToTopShown == backToTopVisible && linkActive == active
      ensures !isModalOpen && modalKeyListeners == 0
    {
      hasThemeToggle, hasNav, hasHeader := themeToggle, nav, header;
      hasBackToTop, hasExitModal, navHrefs := backToTop, exitModal, hrefs;
      modalHasButton, themeToggleInNav := modalButton, toggleInNav;
      dark, light, themeTransition := bodyDark, bodyLight, false;
      themeIcon := icon;
      storedTheme := stored;
      ariaExpanded, navOpen, hamburgerCross := false, false, false;
      headerScrolled, backToTopShown := scrolledClass, backToTopVisible;
      linkActive := active;
      isModalOpen, modalDisplayed, bodyScrollLocked := false, false, false;
      modalKeyListeners := 0;
    }

    // ---- Theme ----

    /** `toggleTheme`: switch to the theme opposite the `dark` class, flip
        both theme classes, relabel the button and store the new theme. */
    method ToggleTheme()
      requires Valid() && hasThemeToggle
      modifies this`dark, this`light, this`themeTransition, this`themeIcon, this`storedTheme
      ensures Valid()
      ensures dark == !old(dark) && light == !old(light)
      ensures storedTheme == Some(NextTheme(old(dark)))
      ensures storedTheme == Some(if dark then Dark else Light)
      ensures themeIcon == (if NextTheme(old(dark)) == Dark then Sun else Moon)
      ensures themeTransition
      ensures (dark != light) == (old(dark) != old(light))
    {
      var newTheme := NextTheme(dark);
      themeTransition := true;
      dark := !dark;
      light := !light;
      themeIcon := if newTheme == Dark then Sun else Moon;
      storedTheme := Some(newTheme);
    }

    /** Two clicks on the toggle restore both theme classes, leave the
        original theme stored and label the button with the original theme's
        icon (whatever label the markup started with). */
    method ToggleThemeTwice()
      requires Valid() && hasThemeToggle
      modifies this`dark, this`light, this`themeTransition, this`themeIcon, this`storedTheme
      ensures Valid()
      ensures dark == old(dark) && light == old(light)
      ensures storedTheme == Some(if old(dark) then Dark else Light)
      ensures themeIcon == (if old(dark) then Sun else Moon)
    {
      ToggleTheme();
      ToggleTheme();
    }

    // ---- Mobile navigation ----

    /** `toggleMobileNav`: flip `aria-expanded` and `is-open`, and draw the
        hamburger as a cross exactly when the menu was closed. */
    method ToggleMobileNav()
      requires Valid() && hasNav
      modifies this`ariaExpanded, this`navOpen, this`hamburgerCross
      ensures Valid()
      ensures ariaExpanded == !old(ariaExpanded) && navOpen == !old(navOpen)
      ensures hamburgerCross == !old(ariaExpanded)
    {
      var isExpanded := ariaExpanded;
      ariaExpanded := !isExpanded;
      navOpen := !navOpen;
      hamburgerCross := !isExpanded;
    }

    /** `closeMobileNav`: closed whatever the state before. */
    method CloseMobileNav()
      requires Valid() && hasNav
      modifies this`ariaExpanded, this`navOpen, this`hamburgerCross
      ensures Valid()
      ensures !ariaExpanded && !navOpen && !hamburgerCross
    {
      ariaExpanded := false;
      navOpen := false;
      hamburgerCross := false;
    }

    /** The document click listener: a click outside both the toggle and the
        list closes the menu. */
    method HandleDocumentClick(insideNav: bool)
      requires Valid() && hasNav
      modifies this`ariaExpanded, this`navOpen, this`hamburgerCross
      ensures Valid()
      ensures !insideNav ==> !navOpen
      ensures insideNav ==> navOpen == old(navOpen) && ariaExpanded == old(ariaExpanded)
    {
      if !insideNav {
        CloseMobileNav();
      }
    }

    /** `handleResize` (its canvas part is `ParticleField.Resize`): on a page
        with a menu, a window at least 860 wide closes it. */
    method HandleResize(innerWidth: real)
      requires Valid()
      modifies this`ariaExpanded, this`navOpen, this`hamburgerCross
      ensures Valid()
      ensures innerWidth >= DesktopWidth && hasNav ==> !navOpen && !ariaExpanded
      ensures !(innerWidth >= DesktopWidth && hasNav) ==> navOpen == old(navOpen) && ariaExpanded == old(ariaExpanded)
    {
      if innerWidth >= DesktopWidth && hasNav {
        CloseMobileNav();
      }
    }

    /** `handleSmoothScroll` on an anchor whose target (if any) has top
        `targetTop`; a scroll closes the menu. Only the scrolling path calls
        `closeMobileNav`, so only it needs the menu's elements. */
    method HandleSmoothScroll(href: string, targetTop: Option<int>, headerHeight: nat) returns (outcome: AnchorOutcome)
      requires Valid()
      requires hasNav || !SmoothScroll(href, targetTop, 0).ScrollTo?
      modifies this`ariaExpanded, this`navOpen, this`hamburgerCross
      ensures Valid()
      ensures outcome == SmoothScroll(href, targetTop, if hasHeader then headerHeight else 0)
      ensures outcome.ScrollTo? ==> !navOpen
      ensures !outcome.ScrollTo? ==> navOpen == old(navOpen) && ariaExpanded == old(ariaExpanded)
    {
      outcome := SmoothScroll(href, targetTop, if hasHeader then headerHeight else 0);
      if outcome.ScrollTo? {
        CloseMobileNav();
      }
    }

    // ---- Scroll ----

    method UpdateHeaderOnScroll(scrollY: real)
      requires Valid()
      modifies this`headerScrolled
      ensures Valid()
      ensures hasHeader ==> headerScrolled == HeaderScrolled(scrollY)
      ensures !hasHeader ==> headerScrolled == old(headerScrolled)
    {
      if hasHeader {
        headerScrolled := HeaderScrolled(scrollY);
      }
    }

    method UpdateBackToTopButton(scrollY: real)
      requires Valid()
      modifies this`backToTopShown
      ensures Valid()
      ensures hasBackToTop ==> backToTopShown == BackToTopShown(scrollY)
      ensures !hasBackToTop ==> backToTopShown == old(backToTopShown)
    {
      if hasBackToTop {
        backToTopShown := BackToTopShown(scrollY);
      }
    }

    /** `updateActiveNavLink`: for each section covering `scrollY + 100`, in
        document order, clear every link and mark those pointing at it. */
    method UpdateActiveNavLink(scrollY: real, sections: seq<Section>)
      requires Valid()
      modifies this`linkActive
      ensures Valid()
      ensures linkActive == ActiveAfter(navHrefs, old(linkActive), sections, scrollY)
    {
      var position := scrollY + ActiveOffset;
      var i := 0;
      while i < |sections|
        invariant 0 <= i <= |sections|
        invariant linkActive == ActiveUpTo(navHrefs, old(linkActive), sections, position, i)
        invariant |linkActive| == |navHrefs|
      {
        var section := sections[i];
        if Covers(section, position) {
          var l := 0;
          while l < |navHrefs|
            invariant 0 <= l <= |navHrefs|
            invariant |linkActive| == |navHrefs|
            invariant forall m :: 0 <= m < l ==> (linkActive[m] <==> navHrefs[m] == "#" + section.id)
          {
            linkActive := linkActive[l := false];
            if navHrefs[l] == "#" + section.id {
              linkActive := linkActive[l := true];
            }
            l := l + 1;
          }
          assert linkActive == Marked(navHrefs, section.id);
        }
        i := i + 1;
      }
    }

    /** `handleScroll`, its modelled part: header, back-to-top, active link. */
    method HandleScroll(scrollY: real, sections: seq<Section>)
      requires Valid()
      modifies this`headerScrolled, this`backToTopShown, this`linkActive
      ensures Valid()
      ensures hasHeader ==> headerScrolled == HeaderScrolled(scrollY)
      ensures !hasHeader ==> headerScrolled == old(headerScrolled)
      ensures hasBackToTop ==> backToTopShown == BackToTopShown(scrollY)
      ensures !hasBackToTop ==> backToTopShown == old(backToTopShown)
      ensures linkActive == ActiveAfter(navHrefs, old(linkActive), sections, scrollY)
    {
      UpdateHeaderOnScroll(scrollY);
      UpdateBackToTopButton(scrollY);
      UpdateActiveNavLink(scrollY, sections);
    }

    // ---- Exit-intent modal ----

    /** `showExitModal`: without a modal element nothing happens; otherwise
        open it and lock the body's scrolling, then focus the first button and
        attach one more keydown listener. Without a button the focus call
        throws, and the handler stops with the modal open and no listener
        added. */
    method ShowExitModal()
      requires Valid()
      modifies this`isModalOpen, this`modalDisplayed, this`bodyScrollLocked, this`modalKeyListeners
      ensures Valid()
      ensures hasExitModal ==> isModalOpen && modalDisplayed && bodyScrollLocked
      ensures hasExitModal ==> modalKeyListeners == old(modalKeyListeners) + (if modalHasButton then 1 else 0)
      ensures !hasExitModal ==> isModalOpen == old(isModalOpen) && modalKeyListeners == old(modalKeyListeners)
    {
      if !hasExitModal {
        return;
      }
      isModalOpen := true;
      modalDisplayed := true;
      bodyScrollLocked := true;
      if !modalHasButton {
        return;
      }
      modalKeyListeners := modalKeyListeners + 1;
    }

    /** `closeExitModal`: hide the modal and unlock scrolling; the listeners
        stay attached. */
    method CloseExitModal()
      requires Valid()
      modifies this`isModalOpen, this`modalDisplayed, this`bodyScrollLocked
      ensures Valid()
      ensures !isModalOpen && !modalDisplayed && !bodyScrollLocked
    {
      if !hasExitModal {
        return;
      }
      isModalOpen := false;
      modalDisplayed := false;
      bodyScrollLocked := false;
    }

    /** `handleExitIntent`: the pointer leaving through the top edge opens the
        modal, unless it is already open. */
    method HandleExitIntent(clientY: real)
      requires Valid()
      modifies this`isModalOpen, this`modalDisplayed, this`bodyScrollLocked, this`modalKeyListeners
      ensures Valid()
      ensures old(isModalOpen) ==> isModalOpen && modalKeyListeners == old(modalKeyListeners)
      ensures clientY > 0.0 ==> isModalOpen == old(isModalOpen) && modalKeyListeners == old(modalKeyListeners)
      ensures isModalOpen <==> old(isModalOpen) || (clientY <= 0.0 && hasExitModal)
      ensures modalKeyListeners == old(modalKeyListeners) +
        (if clientY <= 0.0 && !old(isModalOpen) && hasExitModal && modalHasButton then 1 else 0)
    {
      if clientY <= 0.0 && !isModalOpen {
        ShowExitModal();
      }
    }

    /** The modal's keydown listeners: each one closes the modal on `Escape`
        (case-sensitive here, unlike the document shortcut). */
    method HandleModalKeydown(key: string)
      requires Valid()
      modifies this`isModalOpen, this`modalDisplayed, this`bodyScrollLocked
      ensures Valid()
      ensures modalKeyListeners > 0 && key == "Escape" ==> !isModalOpen
      ensures !(modalKeyListeners > 0 && key == "Escape") ==> isModalOpen == old(isModalOpen)
    {
      var k := 0;
      while k < modalKeyListeners
        invariant 0 <= k <= modalKeyListeners
        invariant Valid()
        invariant k > 0 && key == "Escape" ==> !isModalOpen
        invariant !(k > 0 && key == "Escape") ==> isModalOpen == old(isModalOpen)
      {
        if key == "Escape" {
          CloseExitModal();
        }
        k := k + 1;
      }
    }

    /** A click on the theme toggle: its own listener runs `toggleTheme`,
        then the click bubbles to the document listener, which closes the
        menu when the toggle lies outside it. */
    method HandleThemeToggleClick()
      requires Valid() && hasThemeToggle
      modifies this`dark, this`light, this`themeTransition, this`themeIcon, this`storedTheme
      modifies this`ariaExpanded, this`navOpen, this`hamburgerCross
      ensures Valid()
      ensures dark == !old(dark) && light == !old(light)
      ensures storedTheme == Some(NextTheme(old(dark)))
      ensures themeIcon == (if NextTheme(old(dark)) == Dark then Sun else Moon) && themeTransition
      ensures hasNav && !themeToggleInNav ==> !navOpen && !ariaExpanded
      ensures !(hasNav && !themeToggleInNav) ==> navOpen == old(navOpen) && ariaExpanded == old(ariaExpanded)
    {
      ToggleTheme();
      if hasNav {
        HandleDocumentClick(themeToggleInNav);
      }
    }

    // ---- Keyboard shortcuts ----

    /** `handleKeyboardShortcuts`: decide with `Shortcut`, then carry the
        command out. The synthetic click on the theme toggle is a full
        `HandleThemeToggleClick`, bubbling included. A click on a nav link runs that
        link's own listener, which closes the menu; its anchor listener only
        closes the menu too, and the scroll it starts is not page state here. */
    method HandleKeyboardShortcut(key: string, ctrl: bool, focusTag: string) returns (r: Response)
      requires Valid()
      modifies this`dark, this`light, this`themeTransition, this`themeIcon, this`storedTheme
      modifies this`isModalOpen, this`modalDisplayed, this`bodyScrollLocked
      modifies this`ariaExpanded, this`navOpen, this`hamburgerCross
      ensures Valid()
      ensures r == Shortcut(key, ctrl, focusTag, hasThemeToggle, old(isModalOpen))
      ensures r.command == ClickThemeToggle ==>
        && dark == !old(dark) && light == !old(light)
        && storedTheme == Some(NextTheme(old(dark)))
        && themeIcon == (if NextTheme(old(dark)) == Dark then Sun else Moon) && themeTransition
      ensures r.command != ClickThemeToggle ==>
        && dark == old(dark) && light == old(light) && storedTheme == old(storedTheme)
        && themeIcon == old(themeIcon) && themeTransition == old(themeTransition)
      ensures r.command == CloseModal ==> !isModalOpen
      ensures r.command != CloseModal ==> isModalOpen == old(isModalOpen)
      ensures CloseMenuAfter(r.command) ==> !navOpen && !ariaExpanded
      ensures !CloseMenuAfter(r.command) ==> navOpen == old(navOpen) && ariaExpanded == old(ariaExpanded)
    {
      r := Shortcut(key, ctrl, focusTag, hasThemeToggle, isModalOpen);
      match r.command {
        case NoCommand =>
        case ClickThemeToggle =>
          HandleThemeToggleClick();
        case CloseModal =>
          CloseExitModal();
        case ClickNavLink(href) =>
          if hasNav && href in navHrefs {
            CloseMobileNav();
          }
      }
    }
  }
}
