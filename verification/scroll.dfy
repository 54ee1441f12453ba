/** The scroll-driven rules of the page: the header and back-to-top
    thresholds, which navigation link is marked active for a scroll
    position, and what a click on an in-page anchor does. Positions are the
    layout values the script reads (`scrollY`, `offsetTop`, `offsetHeight`),
    passed in as numbers. */
module Scroll {
  import opened Dom

  /** The header gets its `scrolled` class past this many pixels. */
  const HeaderThreshold: real := 50.0

  /** The back-to-top button shows past this many pixels. */
  const BackToTopThreshold: real := 300.0

  /** The active-link test looks this far below the top of the viewport. */
  const ActiveOffset: real := 100.0

  predicate HeaderScrolled(scrollY: real)
  {
    scrollY > HeaderThreshold
  }

  predicate BackToTopShown(scrollY: real)
  {
    scrollY > BackToTopThreshold
  }

  /** The two thresholds are nested: whenever the back-to-top button shows,
      the header is already in its scrolled state, and both states are
      monotone in the scroll position. */
  lemma ThresholdsNested(scrollY: real, further: real)
    requires scrollY <= further
    ensures BackToTopShown(scrollY) ==> HeaderScrolled(scrollY)
    ensures HeaderScrolled(scrollY) ==> HeaderScrolled(further)
    ensures BackToTopShown(scrollY) ==> BackToTopShown(further)
    ensures !HeaderScrolled(scrollY) ==> !BackToTopShown(scrollY)
  {
  }

  // ---- Active navigation link ----

  /** A `main section[id]` element with its layout box. */
  datatype Section = Section(id: string, top: int, height: int)

  /** The section's box covers the position: `top <= pos < top + height`. */
  predicate Covers(s: Section, pos: real)
  {
    s.top as real <= pos < (s.top + s.height) as real
  }

  /** The id of the last section in document order that covers `pos`. */
  function LastCovering(sections: seq<Section>, pos: real): (r: Option<string>)
    ensures r == None <==> forall k :: 0 <= k < |sections| ==> !Covers(sections[k], pos)
    ensures r.Some? ==> exists k :: 0 <= k < |sections| && Covers(sections[k], pos) && sections[k].id == r.value &&
                                     forall m :: k < m < |sections| ==> !Covers(sections[m], pos)
    decreases |sections|
  {
    if |sections| == 0 then None
    else if Covers(sections[|sections| - 1], pos) then Some(sections[|sections| - 1].id)
    else LastCovering(sections[..|sections| - 1], pos)
  }

  /** The link states after one section matched: a link is active exactly
      when its href is `#` followed by the section's id. */
  function Marked(hrefs: seq<string>, id: string): (m: seq<bool>)
    ensures |m| == |hrefs|
    ensures forall k :: 0 <= k < |hrefs| ==> (m[k] <==> hrefs[k] == "#" + id)
  {
    seq(|hrefs|, k requires 0 <= k < |hrefs| => hrefs[k] == "#" + id)
  }

  /** The link states after the section loop has looked at the first `n`
      sections: each covering section re-marks every link. */
  function ActiveUpTo(hrefs: seq<string>, active: seq<bool>, sections: seq<Section>, pos: real, n: nat): (r: seq<bool>)
    requires n <= |sections|
    ensures |active| == |hrefs| ==> |r| == |hrefs|
    decreases n
  {
    if n == 0 then active
    else if Covers(sections[n - 1], pos) then Marked(hrefs, sections[n - 1].id)
    else ActiveUpTo(hrefs, active, sections, pos, n - 1)
  }

  /** The link states after `updateActiveNavLink` at scroll position `scrollY`. */
  function ActiveAfter(hrefs: seq<string>, active: seq<bool>, sections: seq<Section>, scrollY: real): (r: seq<bool>)
    ensures |active| == |hrefs| ==> |r| == |hrefs|
  {
    ActiveUpTo(hrefs, active, sections, scrollY + ActiveOffset, |sections|)
  }

  lemma {:induction false} ActiveUpToLast(hrefs: seq<string>, active: seq<bool>, sections: seq<Section>, pos: real, n: nat)
    requires n <= |sections|
    ensures ActiveUpTo(hrefs, active, sections, pos, n) ==
      match LastCovering(sections[..n], pos)
      case None => active
      case Some(id) => Marked(hrefs, id)
    decreases n
  {
    if n > 0 {
      assert sections[..n][..n - 1] == sections[..n - 1];
      ActiveUpToLast(hrefs, active, sections, pos, n - 1);
    }
  }

  /** `updateActiveNavLink`: when no section covers `scrollY + 100` the links
      keep their states; otherwise exactly the links pointing at the last
      covering section are active. */
  lemma ActiveNavLinkChosen(hrefs: seq<string>, active: seq<bool>, sections: seq<Section>, scrollY: real)
    requires |active| == |hrefs|
    ensures (forall k :: 0 <= k < |sections| ==> !Covers(sections[k], scrollY + ActiveOffset)) ==>
      ActiveAfter(hrefs, active, sections, scrollY) == active
    ensures LastCovering(sections, scrollY + ActiveOffset).Some? ==>
      forall k :: 0 <= k < |hrefs| ==>
        (ActiveAfter(hrefs, active, sections, scrollY)[k] <==>
         hrefs[k] == "#" + LastCovering(sections, scrollY + ActiveOffset).value)
  {
    assert sections[..|sections|] == sections;
    ActiveUpToLast(hrefs, active, sections, scrollY + ActiveOffset, |sections|);
  }

  /** If some section matches, at most one distinct href is active: all active
      links point at the same section. */
  lemma ActiveLinksAgree(hrefs: seq<string>, active: seq<bool>, sections: seq<Section>, scrollY: real, a: nat, b: nat)
    requires |active| == |hrefs|
    requires LastCovering(sections, scrollY + ActiveOffset).Some?
    requires a < |hrefs| && b < |hrefs|
    requires ActiveAfter(hrefs, active, sections, scrollY)[a] && ActiveAfter(hrefs, active, sections, scrollY)[b]
    ensures hrefs[a] == hrefs[b]
  {
    ActiveNavLinkChosen(hrefs, active, sections, scrollY);
  }

  // ---- In-page anchors ----

  /** What a click on an `a[href^="#"]` anchor does. */
  datatype AnchorOutcome =
    | Ignored                   // the handler returns at once; the browser follows the link
    | Prevented                 // default prevented, but no element matches the selector
    | ScrollTo(top: int)        // default prevented, nav closed, window scrolled to `top`

  /** `handleSmoothScroll`, given the `offsetTop` of the element `href`
      selects (if any) and the header's `offsetHeight` (0 without a header). */
  function SmoothScroll(href: string, targetTop: Option<int>, headerHeight: nat): (r: AnchorOutcome)
    ensures r == Ignored <==> href == "#" || href == "#!" || !StartsWith(href, "#")
    ensures r.ScrollTo? <==> r != Ignored && targetTop.Some?
    ensures r == Prevented <==> r != Ignored && targetTop == None
    ensures r.ScrollTo? ==> r.top + headerHeight == targetTop.value
  {
    if href == "#" || href == "#!" then Ignored
    else if !StartsWith(href, "#") then Ignored
    else match targetTop
      case None => Prevented
      case Some(top) => ScrollTo(top - headerHeight)
  }

  /** A link to a named fragment (`#` and at least one character other than
      the `#!` placeholder) whose target exists always scrolls, and without a
      header it scrolls the target exactly to the top of the window. */
  lemma FragmentLinkScrolls(name: string, top: int, headerHeight: nat)
    requires name != "" && name != "!"
    ensures SmoothScroll("#" + name, Some(top), headerHeight) == ScrollTo(top - headerHeight)
    ensures SmoothScroll("#" + name, Some(top), 0) == ScrollTo(top)
  {
    var href := "#" + name;
    assert href[..1] == "#";
    assert href != "#" by { assert |href| > 1; }
    assert href != "#!" by { if |name| == 1 { assert href[1] == name[0]; assert name == [name[0]]; } }
  }
}
