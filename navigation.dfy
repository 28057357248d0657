/** The navigation and scroll rules of script.js: the mobile menu's pair of
    classes, which nav link is marked active on scroll and on click, the sticky
    header and scroll-to-top thresholds, and the creation of the scroll progress
    bar. Listeners are methods the page calls directly with what the DOM answers. */
module Navigation {
  import opened Options

  const StickyThreshold := 120
  const ScrollTopThreshold := 300
  const HeaderOffset := 80
  const SectionLead := 100
  const HeaderShadow := "0 4px 20px rgba(0, 0, 0, 0.1)"

  // ---------------------------------------------------------------- sticky header and scroll-to-top

  /** The header's 'sticky' class and box shadow. */
  datatype HeaderStyle = HeaderStyle(sticky: bool, boxShadow: string)

  /** initStickyHeader's scroll listener (the progress-bar width it also sets is not modelled).
      window.scrollY is a double: it is fractional on zoomed and high-DPI pages. */
  function StickyHeader(scrollY: real): (h: HeaderStyle)
    ensures h.sticky <==> scrollY > StickyThreshold as real
    ensures h.boxShadow == (if h.sticky then HeaderShadow else "none")
  {
    var scrolled := scrollY > 120.0;
    HeaderStyle(scrolled, if scrolled then HeaderShadow else "none")
  }

  /** A fractional offset is judged as the page judges it: 120.5 px makes the header sticky,
      while a section whose lead edge is at 121 px does not cover it yet. */
  lemma SubPixelOffset()
    ensures StickyHeader(120.5).sticky
    ensures !Covers(Element(None, 221, 50), 120.5)
  {
  }

  /** The .scroll-top button's opacity and pointer-events. */
  datatype ButtonStyle = ButtonStyle(opacity: string, pointerEvents: string)

  /** initScrollToTop's scroll listener: shown and clickable exactly past 300 px. */
  function ScrollTopButton(pageYOffset: real): (b: ButtonStyle)
    ensures b == ButtonStyle("1", "auto") || b == ButtonStyle("0", "none")
    ensures b.opacity == "1" <==> pageYOffset > ScrollTopThreshold as real
  {
    if pageYOffset > 300.0 then ButtonStyle("1", "auto") else ButtonStyle("0", "none")
  }

  // ---------------------------------------------------------------- scroll progress bar

  /** initScrollProgress, on the number of .scroll-progress elements in the document:
      one is created only when there is none. */
  function InitScrollProgress(bars: nat): (r: nat)
    ensures r >= 1
    ensures bars > 0 ==> r == bars
  {
    if bars == 0 then 1 else bars
  }

  function InitScrollProgressTimes(bars: nat, k: nat): nat
    decreases k
  {
    if k == 0 then bars else InitScrollProgressTimes(InitScrollProgress(bars), k - 1)
  }

  /** Calling it any positive number of times is calling it once: on a page without a bar
      exactly one exists afterwards. */
  lemma {:induction false} InitScrollProgressIdempotent(bars: nat, k: nat)
    requires k >= 1
    ensures InitScrollProgressTimes(bars, k) == InitScrollProgress(bars)
    ensures bars == 0 ==> InitScrollProgressTimes(bars, k) == 1
    decreases k
  {
    if k > 1 {
      InitScrollProgressIdempotent(InitScrollProgress(bars), k - 1);
    }
  }

  /** What page load leaves of the progress bar: how many bars exist, and whether the sticky
      header's scroll listener holds one to update. */
  datatype ProgressWiring = ProgressWiring(bars: nat, headerUpdatesBar: bool)

  /** The DOMContentLoaded listener as written: initStickyHeader looks the bar up before
      initScrollProgress has created it. */
  function LoadAsWritten(bars: nat): ProgressWiring {
    var headerHasBar := bars > 0;
    ProgressWiring(InitScrollProgress(bars), headerHasBar)
  }

  /** On a page without a bar, load creates one that the scroll listener never updates. */
  lemma AsWrittenCreatesIdleBar()
    ensures LoadAsWritten(0).bars == 1 && !LoadAsWritten(0).headerUpdatesBar
  {
  }

  /** The same listener with the bar created before the header looks it up. */
  function LoadBarFirst(bars: nat): ProgressWiring {
    var created := InitScrollProgress(bars);
    ProgressWiring(created, created > 0)
  }

  /** With the bar created first, there is always a bar and the scroll listener always updates it;
      on a page that already has one both orders agree. */
  lemma BarFirstAlwaysUpdated(bars: nat)
    ensures LoadBarFirst(bars).bars >= 1 && LoadBarFirst(bars).headerUpdatesBar
    ensures bars > 0 ==> LoadBarFirst(bars) == LoadAsWritten(bars)
  {
  }

  // ---------------------------------------------------------------- mobile menu

  class MobileMenu {
    const present: bool           // both #menu-icon and .navlist were found
    var menuIconOpen: bool        // #menu-icon has the class 'bx-x'
    var navlistActive: bool       // .navlist has the class 'active'

    /** The icon shows the close cross exactly when the list is open. */
    ghost predicate Synced()
      reads this
    {
      menuIconOpen == navlistActive
    }

    constructor (present: bool, menuIconOpen: bool, navlistActive: bool)
      ensures this.present == present
      ensures this.menuIconOpen == menuIconOpen && this.navlistActive == navlistActive
    {
      this.present := present;
      this.menuIconOpen, this.navlistActive := menuIconOpen, navlistActive;
    }

    /** menu.onclick, set only when both elements exist: toggles both classes. */
    method OnMenuClick()
      requires present
      modifies this
      ensures menuIconOpen == !old(menuIconOpen) && navlistActive == !old(navlistActive)
      ensures Synced() <==> old(Synced())
    {
      menuIconOpen := !menuIconOpen;
      navlistActive := !navlistActive;
    }

    /** The click listener on each .navlist link, added only when both elements exist. */
    method OnLinkClick()
      requires present
      modifies this
      ensures !menuIconOpen && !navlistActive
      ensures Synced()
    {
      menuIconOpen := false;
      navlistActive := false;
    }

    /** window.onscroll: closes the menu when both elements exist. */
    method OnScroll()
      modifies this
      ensures present ==> !menuIconOpen && !navlistActive
      ensures !present ==> menuIconOpen == old(menuIconOpen) && navlistActive == old(navlistActive)
      ensures old(Synced()) ==> Synced()
    {
      if present {
        menuIconOpen := false;
        navlistActive := false;
      }
    }
  }

  // ---------------------------------------------------------------- active nav link

  /** An element of the document: its id attribute (null when absent), offsetTop and clientHeight
      (both whole pixels in the DOM). The page offset compared with them is a real. */
  datatype Element = Element(id: Option<string>, offsetTop: int, clientHeight: int)

  /** The scroll listener's test: the page offset lies in the section, taken 100 px early. */
  predicate Covers(section: Element, pageYOffset: real) {
    var sectionTop := section.offsetTop - SectionLead;
    sectionTop as real <= pageYOffset < (sectionTop + section.clientHeight) as real
  }

  /** The position of the last section, in document order, that covers the offset. */
  function LastCovering(sections: seq<Element>, pageYOffset: real): (r: Option<nat>)
    ensures r.Some? ==> r.value < |sections| && Covers(sections[r.value], pageYOffset)
    ensures r.Some? ==> forall k :: r.value < k < |sections| ==> !Covers(sections[k], pageYOffset)
    ensures r.None? ==> forall k :: 0 <= k < |sections| ==> !Covers(sections[k], pageYOffset)
    decreases |sections|
  {
    if sections == [] then None
    else if Covers(sections[|sections| - 1], pageYOffset) then Some(|sections| - 1)
    else LastCovering(sections[..|sections| - 1], pageYOffset)
  }

  /** The value of `current` after the scan: '' when no section covers the offset, otherwise
      the id of the last covering one (null when it has none). */
  function ScrollCurrent(sections: seq<Element>, pageYOffset: real): (current: Option<string>)
    ensures (forall k :: 0 <= k < |sections| ==> !Covers(sections[k], pageYOffset)) ==> current == Some("")
    ensures (exists k :: 0 <= k < |sections| && Covers(sections[k], pageYOffset)) ==>
      exists k :: 0 <= k < |sections| && Covers(sections[k], pageYOffset) && current == sections[k].id
                  && forall j :: k < j < |sections| ==> !Covers(sections[j], pageYOffset)
  {
    match LastCovering(sections, pageYOffset)
    case None => Some("")
    case Some(k) => sections[k].id
  }

  /** The href the scroll listener marks active: `#${current}`, where null prints as "null". */
  function LinkTarget(current: Option<string>): (href: string)
    ensures |href| > 0 && href[0] == '#'
    ensures current.Some? ==> href[1..] == current.value
    ensures current.None? ==> href == "#null"
  {
    "#" + match current case None => "null" case Some(s) => s
  }

  /** The scroll listener's first loop over the sections. */
  method CurrentSection(sections: seq<Element>, pageYOffset: real) returns (current: Option<string>)
    ensures current == ScrollCurrent(sections, pageYOffset)
  {
    current := Some("");
    var i := 0;
    while i < |sections|
      invariant 0 <= i <= |sections|
      invariant current == ScrollCurrent(sections[..i], pageYOffset)
    {
      var section := sections[i];
      var sectionTop := section.offsetTop - 100;
      var sectionHeight := section.clientHeight;
      if pageYOffset >= sectionTop as real && pageYOffset < (sectionTop + sectionHeight) as real {
        current := section.id;
      }
      assert sections[..i + 1][..i] == sections[..i];
      i := i + 1;
    }
    assert sections[..i] == sections;
  }

  /** document.getElementById: the first element in document order with that id; the empty
      id matches nothing. */
  function GetElementById(document: seq<Element>, id: string): (r: Option<nat>)
    ensures r.Some? ==> r.value < |document| && document[r.value].id == Some(id) && id != ""
    ensures r.Some? ==> forall k :: 0 <= k < r.value ==> document[k].id != Some(id)
    ensures r.None? ==> id == "" || forall k :: 0 <= k < |document| ==> document[k].id != Some(id)
    decreases |document|
  {
    if id == "" || document == [] then None
    else if document[0].id == Some(id) then Some(0)
    else match GetElementById(document[1..], id)
         case None => None
         case Some(k) => Some(k + 1)
  }

  /** The links `a[href^="#"]` of initSmoothScroll and which of them have the class 'active'. */
  class NavLinks {
    const hrefs: seq<string>
    const active: array<bool>

    ghost predicate Valid()
      reads this
    {
      && active.Length == |hrefs|
      && forall i :: 0 <= i < |hrefs| ==> |hrefs[i]| > 0 && hrefs[i][0] == '#'
    }

    constructor (hrefs: seq<string>, initiallyActive: seq<bool>)
      requires |initiallyActive| == |hrefs|
      requires forall i :: 0 <= i < |hrefs| ==> |hrefs[i]| > 0 && hrefs[i][0] == '#'
      ensures Valid() && fresh(active)
      ensures this.hrefs == hrefs && active[..] == initiallyActive
    {
      this.hrefs := hrefs;
      active := new bool[|hrefs|](i requires 0 <= i < |hrefs| => initiallyActive[i]);
    }

    /** The scroll listener: afterwards exactly the links whose href is `#${current}` are active. */
    method OnScroll(sections: seq<Element>, pageYOffset: real)
      requires Valid()
      modifies active
      ensures forall i :: 0 <= i < active.Length ==>
        (active[i] <==> hrefs[i] == LinkTarget(ScrollCurrent(sections, pageYOffset)))
    {
      var current := CurrentSection(sections, pageYOffset);
      var target := LinkTarget(current);
      var i := 0;
      while i < active.Length
        invariant 0 <= i <= active.Length
        invariant forall j :: 0 <= j < i ==> (active[j] <==> hrefs[j] == target)
      {
        active[i] := false;
        if hrefs[i] == target {
          active[i] := true;
        }
        i := i + 1;
      }
    }

    /** The click listener of link k: when the target exists it answers the smooth-scroll
        position, 80 px above the target, and leaves exactly link k active; otherwise it
        answers nothing and changes nothing. */
    method OnClick(k: nat, document: seq<Element>) returns (scrollTo: Option<int>)
      requires Valid() && k < |hrefs|
      modifies active
      ensures var target := GetElementById(document, hrefs[k][1..]);
        && (target.None? ==> scrollTo.None? && active[..] == old(active[..]))
        && (target.Some? ==> scrollTo == Some(document[target.value].offsetTop - HeaderOffset)
                             && forall i :: 0 <= i < active.Length ==> (active[i] <==> i == k))
    {
      var targetId := hrefs[k][1..];
      var targetSection := GetElementById(document, targetId);
      scrollTo := None;
      if targetSection.Some? {
        scrollTo := Some(document[targetSection.value].offsetTop - 80);
        var i := 0;
        while i < active.Length
          invariant 0 <= i <= active.Length
          invariant forall j :: 0 <= j < i ==> !active[j]
        {
          active[i] := false;
          i := i + 1;
        }
        active[k] := true;
      }
    }
  }
}
