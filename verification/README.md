# Portfolio page script — a Dafny model

This project models the logic of `script.js`, the script behind a one-page
portfolio site. It leaves out the DOM and canvas glue and covers:

- **The hero-canvas particle field.**
  - The number of particles for a canvas size, and how each particle is created from its random draws.
  - The per-frame move with sign-forcing edge bounces.
  - The rule that joins every pair of particles closer than 100 units by a line whose opacity is `1 - d/100`.
- **The page state its event handlers change.**
  - The body's theme classes and the stored theme preference.
  - The mobile navigation: `aria-expanded`, `is-open` and the hamburger cross.
  - The header's `scrolled` class, the back-to-top button and the active navigation link.
  - The exit-intent modal.
- **The pure decision rules behind those handlers.**
  - The keyboard-shortcut dispatch.
  - The scroll thresholds.
  - Active-section matching.
  - The in-page anchor filter and its scroll offset.

Modules:

| file | module | what |
|---|---|---|
| `dom.dfy` | `Dom` | `Option`, ASCII lower-casing, `startsWith` |
| `particles.dfy` | `Particles` | particle record, creation, `Step` and the imperative `Update`, the soft-bound invariant |
| `connections.dfy` | `Connections` | the pair loop as a specification, opacity, soundness, completeness and order of the drawn lines |
| `particle_field.dfy` | `ParticleField` | class holding the canvas size and the particle sequence: creation loop, resize, one animation frame, the nested connection loop |
| `scroll.dfy` | `Scroll` | thresholds, sections and the active link, anchor clicks |
| `shortcuts.dfy` | `Shortcuts` | `handleKeyboardShortcuts` as a decision function |
| `page.dfy` | `PageUi` | class `Page`: every handler that changes page state |

Inputs the script reads from the browser become parameters:

- **`Math.random()`** is a stream `random: nat -> Draw`. The k-th particle consumes the k-th group of six draws, each in [0, 1).
- **`Math.sqrt`** is a function parameter `sqrt`. Facts that need a true square root assume `IsSqrt(sqrt)`.
- **Layout values** (`scrollY`, `offsetTop`, `offsetHeight`, `innerWidth`, `clientY`) are numbers passed to the handlers.
- **DOM lookups** become optional values or flags:
  - `querySelector(href)` is an `Option` of the target's top.
  - Whether an optional element exists is a `has…` constant of the page.
  - The tag name of the focused element is a string.

Behaviour of the code worth knowing:

- **Resize does not recount.** A window resize gives the canvas its new size but neither recounts nor moves the particles (`ParticleField.ParticleField.Resize`).
- **Theme classes flip independently.** `toggleTheme` toggles the `dark` and `light` classes separately. A body with neither class would get both; one with exactly one of them keeps exactly one.
- **Modal listeners accumulate.** Every `showExitModal` call attaches one more keydown listener to the modal (`modalKeyListeners`). None is ever removed. A modal without any button is opened and locks the body, but the focus call then throws, so no listener is attached (`modalHasButton`).
- **Escape differs by listener.** The modal's own listener compares `e.key === 'Escape'` case-sensitively. The document shortcut lower-cases the key first.

## Model

| member | source | states |
|---|---|---|
| Dom.ToLower | script.js:632 | the key is lower-cased character by character, same length, only `A`–`Z` change |
| Dom.ToLowerIdempotent | script.js:632 | lower-casing an already lower-cased key changes nothing |
| Particles.Scale | script.js:410-411 | a random fraction of a canvas extent lies in [0, extent], strictly below the extent when it is positive |
| Particles.NewParticle | script.js:409-418 | a new particle lies on the canvas (strictly inside when the extent is positive), has radius in [0.5, 2.5), speeds in [-0.25, 0.25), alpha in [0.1, 0.6) and the theme's colour |
| Particles.ThemeColor | script.js:415-417 | dark theme particles are (78, 154, 241), light ones (59, 130, 246), with the drawn alpha |
| Particles.Bounce | script.js:425-428 | the edge rule forces the sign without changing the magnitude: past the far edge the speed is ≤ 0, before the near edge ≥ 0, inside it is unchanged |
| Particles.Step | script.js:420-428 | one frame adds the speed to the position, keeps size, colour and both speed magnitudes, forces the speed back towards the canvas on each axis and leaves it alone when the new position is inside |
| Particles.Update | script.js:420-428 | the field-by-field update the script performs computes exactly `Step` |
| Particles.OnCanvasIsSoftBounded | script.js:410-411 | a freshly placed particle satisfies the soft-bound invariant |
| Particles.AxisStepKeepsSoftBound | script.js:421-428 | one axis of one frame keeps the position within one speed of [0, extent] with the speed pointing back when outside |
| Particles.StepKeepsSoftBound | script.js:420-428 | one frame preserves the soft-bound invariant on both axes |
| Particles.SoftBoundAfterFrames | script.js:516-519 | after any number of frames on a fixed canvas a particle stays soft-bounded and keeps both speed magnitudes |
| Connections.Opacity | script.js:466-467 | for distances in [0, 100) the opacity is in (0, 1]; distance 0 gives 1 and distance 100 gives 0 |
| Connections.OpacityDecreasing | script.js:467 | opacity strictly decreases as the distance grows |
| Connections.InRangeIffSquared | script.js:462-466 | with a true square root the distance is non-negative and below 100 exactly when the squared distance is below 10000 |
| Connections.RowPairsAt | script.js:461 | row `i` of the inner loop visits (i, i+1) … (i, j-1) in order |
| Connections.PairsBeforeShape | script.js:460-461 | the first `i` rows visit, in increasing order, exactly pairs (a, b) with a < i and a < b < n |
| Connections.PairsVisitedOnce | script.js:460-461 | the nested loop visits exactly the pairs i < j < n, in strictly increasing order, so each once and never a particle with itself |
| Connections.LinksUpToSound | script.js:460-476 | every line emitted up to a loop position belongs to an already visited pair in range and carries that pair's opacity |
| Connections.LinksUpToComplete | script.js:460-476 | every already visited pair in range has its line among those emitted |
| Connections.LinksUpToIncreasing | script.js:460-476 | lines are emitted in strictly increasing pair order |
| Connections.ConnectionsSound | script.js:459-479 | every line drawn joins i < j closer than 100 with opacity `1 - d/100` |
| Connections.ConnectionsComplete | script.js:459-479 | every pair i < j closer than 100 gets its line |
| Connections.ConnectionsOrdered | script.js:459-479 | no pair is drawn twice: lines come out in row-major pair order |
| Connections.LinkOpacityInRange | script.js:464-467 | with a true square root every drawn line has opacity in (0, 1] |
| ParticleField.ParticleCount | script.js:451 | the count is `min(100, floor(w*h/10000))` characterised by bounds: at most 100, at most the area quota, the quota's floor when below 100, exactly 100 iff the area reaches 1000000, and zero for a zero-area canvas |
| ParticleField.ParticleCountExamples | script.js:451 | 800×600 gives 48, 0×600 gives 0, 1920×1080 is capped at 100 |
| ParticleField.ParticleField.constructor | script.js:399-456 | the canvas takes its layout size and holds exactly `ParticleCount` particles, the k-th built from the k-th draws, all soft-bounded |
| ParticleField.ParticleField.Resize | script.js:399-405 | a resize changes the canvas size only; the particles are untouched |
| ParticleField.ParticleField.DrawConnections | script.js:459-479 | the nested loop visits exactly `Pairs(n)` and emits exactly `Links(particles)` |
| ParticleField.ParticleField.Tick | script.js:509-525 | one frame steps every particle once in order, keeps soft-boundedness and then draws the lines of the moved particles |
| Scroll.ThresholdsNested | script.js:224-237 | the back-to-top button shows only when the header is scrolled, and both states are monotone in the scroll position |
| Scroll.LastCovering | script.js:242-247 | finds nothing iff no section covers the position, otherwise the id of a covering section with no covering section after it |
| Scroll.ActiveUpToLast | script.js:242-255 | after the first n sections the link states are those of the last covering one among them, or unchanged |
| Scroll.ActiveNavLinkChosen | script.js:239-256 | with no covering section the links keep their states; otherwise a link is active iff its href is `#` plus the last covering section's id |
| Scroll.ActiveLinksAgree | script.js:248-253 | when some section matches, all active links share one href |
| Scroll.SmoothScroll | script.js:182-197 | `#`, `#!` and non-fragment hrefs are ignored; other clicks prevent the default, and scroll iff the target exists, to the target's top minus the header height |
| Scroll.FragmentLinkScrolls | script.js:185-197 | a link to a named fragment whose target exists always scrolls, landing the target just below the header |
| Shortcuts.Shortcut | script.js:626-660 | nothing while typing in INPUT/TEXTAREA/SELECT; `t` with Ctrl clicks the theme toggle iff it exists; `escape` closes an open modal; `1`/`2` with Ctrl click the `#hero`/`#projects` link; the default is prevented exactly for the Ctrl shortcuts that fire |
| Shortcuts.ShortcutIgnoresCase | script.js:632 | a key and its lower-cased spelling select the same shortcut |
| Shortcuts.WithoutCtrlOnlyEscape | script.js:633-658 | without Ctrl only Escape can act, and it never prevents the default |
| Shortcuts.EscapeClosesOpenModal | script.js:640-644 | `Escape` in any capitalisation closes an open modal and does nothing when it is closed |
| PageUi.NextTheme | script.js:137-138 | the new theme is dark exactly when the body is not dark |
| PageUi.Page.constructor | script.js:41-54 | the page starts with its markup's theme classes, label, header and back-to-top state and active links, whatever theme storage already holds, with navigation and modal closed |
| PageUi.Page.ToggleTheme | script.js:136-151 | both theme classes flip, the stored preference and the button label follow the new theme, and a body with exactly one theme class keeps exactly one |
| PageUi.Page.ToggleThemeTwice | script.js:136-151 | two toggles restore both classes, leave the original theme stored and label the button with the original theme's icon |
| PageUi.Page.ToggleMobileNav | script.js:108-124 | `aria-expanded` and `is-open` both flip and the hamburger shows a cross exactly when the menu was closed |
| PageUi.Page.CloseMobileNav | script.js:126-133 | afterwards the menu is closed whatever its state before, so closing is idempotent |
| PageUi.Page.HandleDocumentClick | script.js:68-72 | a click outside the toggle and the list closes the menu; one inside leaves it |
| PageUi.Page.HandleResize | script.js:670-673 | on a page with a menu a window at least 860 wide closes it; otherwise the menu is left as it was |
| PageUi.Page.HandleSmoothScroll | script.js:182-197 | the outcome is `SmoothScroll`'s, with header height 0 when there is no header, and the menu closes exactly when the page scrolls; only the scrolling path needs the menu's elements |
| PageUi.Page.UpdateHeaderOnScroll | script.js:224-229 | with a header, `scrolled` is set iff the scroll position exceeds 50 |
| PageUi.Page.UpdateBackToTopButton | script.js:231-237 | with the button, it shows iff the scroll position exceeds 300 |
| PageUi.Page.UpdateActiveNavLink | script.js:239-256 | the nested loop leaves the link states `ActiveAfter` describes |
| PageUi.Page.HandleScroll | script.js:216-222 | one scroll updates the header, the back-to-top button and the active link |
| PageUi.Page.ShowExitModal | script.js:571-604 | with a modal element the modal opens and the body stops scrolling, and one listener is added when the modal holds a button; without the element nothing changes |
| PageUi.Page.CloseExitModal | script.js:606-612 | afterwards the modal is closed and the body scrolls again |
| PageUi.Page.HandleExitIntent | script.js:565-569 | the modal opens iff the pointer left through the top edge, it was not open and the element exists; a listener is added only on opening a modal that holds a button |
| PageUi.Page.HandleModalKeydown | script.js:585-589 | once any listener is attached, exactly `Escape` closes the modal |
| PageUi.Page.HandleThemeToggleClick | script.js:68-78 | a click on the theme toggle flips the theme as `toggleTheme` does, then closes the menu exactly when the toggle lies outside it |
| PageUi.Page.HandleKeyboardShortcut | script.js:626-660 | the response is `Shortcut`'s; only the theme shortcut changes the theme classes, label, transition class and stored theme; only Escape closes the modal; the menu closes exactly when the shortcut's click lands outside it or finds its nav link |

## Left out

- **Canvas drawing.** `draw`, `drawFloatingName`, `clearRect`, stroke colours and widths, gradients and `requestAnimationFrame` are rendering side effects. The model computes which lines are drawn and their opacity. It does not model the `* 0.2` factor applied to the stroke alpha.
- **Pointer repulsion** in `Particle.update` (script.js:431-439) uses `atan2`, `cos` and `sin` on floating point. `Step` and the soft-bound invariant cover the bounce part only. With repulsion included the soft bound does not hold: a particle near the pointer's point is pushed out 0.5 per frame, faster than the bounce (under 0.25 per frame) brings it back, so it can drift well off the canvas.
- **Float and randomness substitutions.** Numbers are exact reals and `Math.random` is a parameter stream. Floating-point rounding is not modelled.
- **The colour string** is a record, not the formatted `rgba(...)` text.
- **The particle array** is held as a sequence field that the methods reassign. Aliasing of particle objects between the array and other code is not modelled; the script has none.
- **Timers** are not modelled: the 300 ms removal of `theme-transition`, the tabindex cleanup, `debounce`, `throttle`, and the form's simulated send.
- **The modal's Tab focus trap and `focus()`** are not modelled. Focus is browser state.
- **`history.pushState`, `window.scrollTo` and the scroll they start** are not modelled. `SmoothScroll` returns the requested top instead.
- **A nav-link shortcut that finds its link** only closes the menu. The anchor-click scroll that the synthetic click also triggers is left to `HandleSmoothScroll`.
- **Click bubbling** is composed only for clicks on the theme toggle (`HandleThemeToggleClick`). A nav-toggle click lands inside the menu; nav links are taken to lie inside the nav list, so the document listener does nothing for their clicks either.
- **Missing nav elements.** `CloseMobileNav`, `ToggleMobileNav` and `HandleDocumentClick` require `hasNav`, both nav elements present; the script only reaches them then, except through `handleSmoothScroll`, whose scrolling path therefore also requires it. `HandleResize` treats `hasNav` as its guard. On a page lacking either nav element, a click on an anchor whose target exists throws a TypeError in `closeMobileNav`, which reads the toggle and then the list; the default was already prevented, so the link neither navigates nor scrolls. On a page with the nav list but no toggle, `handleResize` on a wide window throws the same way. These failures are not modelled.
- **Hamburger lines.** The nav toggle is taken to hold three `.nav__toggle-line` elements (`hamburgerCross` follows `navOpen`). With fewer, `toggleMobileNav` and `closeMobileNav` throw after `aria-expanded` and the `is-open` class have changed; that partial update is not modelled.
- **A missing `href` attribute** on a nav link is represented by the empty string. It never equals `#` followed by an id, just as `null` does not.
- **`querySelector(href)`** is abstracted to "finds an element or not". An invalid selector that throws is not modelled.
- **Other parts of the script** are not part of this model:
  - `updateParticlesForTheme`;
  - `updateScrollProgress`, the hero parallax and the card tilt and shine (float math producing CSS strings);
  - the reveal `IntersectionObserver`;
  - the contact form;
  - WebGL detection, service-worker registration and analytics;
  - `continueAction` and `leaveSite`;
  - `updateCurrentYear` and `checkReducedMotion`.
- **Non-ASCII lower-casing.** `Dom.ToLower` maps only ASCII letters. No other character lower-cases to one of the key names the shortcut compares against.
