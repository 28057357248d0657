/** The theme manager of theme.js as values: what the page, the theme key in
    local storage and the themechange listeners look like, and how each
    operation and event handler changes them. The class ThemeManager in
    theme.dfy is proved against these functions. */
module ThemeSpec {
  import opened Options

  const Dark := "dark"
  const Light := "light"
  const SunIcon := "ri-sun-line"
  const MoonIcon := "ri-moon-line"
  const CardBackground := "var(--card-bg)"
  const PageBackground := "var(--bg-color)"
  const MainColor := "var(--main-color)"
  const StorageKey := "theme"
  const InitialTooltip := "Toggle theme (Ctrl+Shift+T)"

  /** getTheme: the root's data-theme attribute, or "dark" when it is unset or empty. */
  function GetTheme(dataTheme: Option<string>): (t: string)
    ensures t != ""
    ensures Truthy(dataTheme) ==> Some(t) == dataTheme
    ensures !Truthy(dataTheme) ==> t == Dark
  {
    Or(dataTheme, Dark)
  }

  /** isDarkMode. */
  function IsDarkMode(dataTheme: Option<string>): (b: bool)
    ensures b <==> dataTheme.None? || dataTheme == Some("") || dataTheme == Some(Dark)
  {
    GetTheme(dataTheme) == Dark
  }

  /** The theme toggleTheme switches to from the current one. */
  function OppositeTheme(t: string): (r: string)
    ensures r == Light || r == Dark
    ensures r == Light <==> t == Dark
  {
    if t == Dark then Light else Dark
  }

  /** updateIcon: the sun is offered in dark mode, the moon otherwise. */
  function IconClass(t: string): (c: string)
    ensures c == SunIcon || c == MoonIcon
    ensures c == SunIcon <==> t == Dark
  {
    if t == Dark then SunIcon else MoonIcon
  }

  /** updateThemeToggle: the toggle's background colour. */
  function ToggleBackground(t: string): (c: string)
    ensures c == CardBackground || c == PageBackground
    ensures c == CardBackground <==> t == Dark
  {
    if t == Dark then CardBackground else PageBackground
  }

  /** addTimeBasedTheme: light from 6:00 up to (not including) 18:00. */
  function TimeBasedTheme(hour: int): (t: string)
    ensures t == Light || t == Dark
    ensures t == Light <==> 6 <= hour < 18
  {
    if hour >= 6 && hour < 18 then Light else Dark
  }

  /** The tooltip the themechange listener of addThemeTooltips writes. */
  function TooltipText(t: string): (s: string)
    ensures s == "Switch to " + OppositeTheme(t) + " mode (Ctrl+Shift+T)"
  {
    "Switch to " + (if t == Dark then Light else Dark) + " mode (Ctrl+Shift+T)"
  }

  /** The keydown listener's test for Ctrl/Cmd + Shift + T: the key must be the capital "T"
      that Shift produces, with Shift and at least one of Ctrl and Meta held. */
  predicate IsToggleShortcut(ctrlKey: bool, metaKey: bool, shiftKey: bool, key: string): (b: bool)
    ensures b ==> shiftKey && key == "T" && (ctrlKey || metaKey)
    ensures shiftKey && key == "T" && (ctrlKey || metaKey) ==> b
  {
    (ctrlKey || metaKey) && shiftKey && key == "T"
  }

  /** Which optional parts of the page exist: #themeToggle, #themeIcon and window.matchMedia. */
  datatype Page = Page(hasToggle: bool, hasIcon: bool, hasMatchMedia: bool)

  /** What the theme manager reads and writes. */
  datatype View = View(
    dataTheme: Option<string>,   // data-theme on the root element
    stored: Option<string>,      // localStorage 'theme'
    iconClass: string,           // className of #themeIcon
    background: string,          // style.background of #themeToggle
    borderColor: string,         // style.borderColor of #themeToggle
    title: Option<string>,       // the manager's title, written by the tooltip feature
    tooltips: bool,              // the tooltip themechange listener is registered
    events: seq<string>)         // detail.theme of every themechange dispatched, oldest first

  /** setTheme: no validation; every call writes the attribute and storage and dispatches one event,
      which the tooltip listener (when registered) handles synchronously. */
  function SetTheme(p: Page, v: View, t: string): (w: View)
    ensures w.dataTheme == Some(t) && w.stored == Some(t)
    ensures w.events == v.events + [t]
    ensures Consistent(p, w)
  {
    v.(dataTheme := Some(t),
       stored := Some(t),
       iconClass := if p.hasIcon then IconClass(t) else v.iconClass,
       background := if p.hasToggle then ToggleBackground(t) else v.background,
       borderColor := if p.hasToggle then MainColor else v.borderColor,
       title := if v.tooltips then Some(TooltipText(t)) else v.title,
       events := v.events + [t])
  }

  /** toggleTheme: no reentrancy guard. */
  function ToggleTheme(p: Page, v: View): (w: View)
    ensures GetTheme(w.dataTheme) == OppositeTheme(GetTheme(v.dataTheme))
    ensures Persisted(w) && Consistent(p, w) && |w.events| == |v.events| + 1
  {
    SetTheme(p, v, OppositeTheme(GetTheme(v.dataTheme)))
  }

  /** The constructor's init: the saved theme, or "dark". */
  function Init(p: Page, v: View): (w: View)
    ensures Persisted(w) && Consistent(p, w)
    ensures Persisted(v) ==> w.stored == v.stored
    ensures !Persisted(v) ==> GetTheme(w.dataTheme) == Dark
  {
    SetTheme(p, v, Or(v.stored, Dark))
  }

  /** The prefers-color-scheme change listener. */
  function SystemChange(p: Page, v: View, matchesDark: bool): (w: View)
    ensures Persisted(v) ==> w == v
    ensures !Persisted(v) ==> GetTheme(w.dataTheme) == (if matchesDark then Dark else Light) && Consistent(p, w)
  {
    if !Truthy(v.stored) then SetTheme(p, v, if matchesDark then Dark else Light) else v
  }

  /** addSystemThemeDetection, run once on load. */
  function SystemDefault(p: Page, v: View, prefersDark: bool): (w: View)
    ensures Persisted(v) || !p.hasMatchMedia ==> w == v
    ensures !Persisted(v) && p.hasMatchMedia ==>
      GetTheme(w.dataTheme) == (if prefersDark then Dark else Light) && Consistent(p, w)
  {
    if p.hasMatchMedia && !Truthy(v.stored) then SetTheme(p, v, if prefersDark then Dark else Light) else v
  }

  /** addTimeBasedTheme, run once on load. */
  function TimeDefault(p: Page, v: View, hour: int): (w: View)
    ensures Persisted(v) ==> w == v
    ensures !Persisted(v) ==> GetTheme(w.dataTheme) == TimeBasedTheme(hour) && Consistent(p, w)
  {
    if !Truthy(v.stored) then SetTheme(p, v, TimeBasedTheme(hour)) else v
  }

  /** addThemeTooltips: only when the toggle exists. */
  function AddTooltips(p: Page, v: View): (w: View)
    ensures w.dataTheme == v.dataTheme && w.stored == v.stored && w.events == v.events
    ensures Consistent(p, v) ==> Consistent(p, w)
    ensures w.tooltips <==> v.tooltips || p.hasToggle
    ensures !p.hasToggle ==> w == v
  {
    if p.hasToggle then v.(title := Some(InitialTooltip), tooltips := true) else v
  }

  /** The keydown listener. */
  function KeyDown(p: Page, v: View, ctrlKey: bool, metaKey: bool, shiftKey: bool, key: string): (w: View)
    ensures IsToggleShortcut(ctrlKey, metaKey, shiftKey, key) ==>
      GetTheme(w.dataTheme) == OppositeTheme(GetTheme(v.dataTheme)) && |w.events| == |v.events| + 1
    ensures !IsToggleShortcut(ctrlKey, metaKey, shiftKey, key) ==> w == v
  {
    if IsToggleShortcut(ctrlKey, metaKey, shiftKey, key) then ToggleTheme(p, v) else v
  }

  /** ThemeSync's storage listener: it writes storage again through setTheme. */
  function StorageChange(p: Page, v: View, key: Option<string>, newValue: Option<string>): (w: View)
    ensures key == Some(StorageKey) ==>
      GetTheme(w.dataTheme) == Or(newValue, Dark) && w.stored == w.dataTheme && Persisted(w)
    ensures key != Some(StorageKey) ==> w == v
  {
    if key == Some(StorageKey) then SetTheme(p, v, Or(newValue, Dark)) else v
  }

  /** DOMContentLoaded: new ThemeManager, then AdvancedThemeFeatures (system default,
      time default, tooltips), then ThemeSync (which only registers a listener). */
  function Boot(p: Page, v: View, prefersDark: bool, hour: int): (w: View)
    ensures Persisted(w) && Consistent(p, w)
    ensures GetTheme(w.dataTheme) == Or(v.stored, Dark)
  {
    AddTooltips(p, TimeDefault(p, SystemDefault(p, Init(p, v), prefersDark), hour))
  }

  /** The events the page reacts to after it has loaded. */
  datatype Input =
    | Toggle   // a click on #themeToggle, or a direct call of window.themeManager.toggleTheme()
    | KeyPress(ctrlKey: bool, metaKey: bool, shiftKey: bool, key: string)
    | SchemeChange(matchesDark: bool)
    | StorageEvent(storageKey: Option<string>, newValue: Option<string>)

  function Handle(p: Page, v: View, e: Input): View {
    match e
    case Toggle => ToggleTheme(p, v)
    case KeyPress(c, m, s, k) => KeyDown(p, v, c, m, s, k)
    case SchemeChange(d) => if p.hasMatchMedia then SystemChange(p, v, d) else v
    case StorageEvent(k, n) => StorageChange(p, v, k, n)
  }

  function Run(p: Page, v: View, es: seq<Input>): View
    decreases |es|
  {
    if es == [] then v else Run(p, Handle(p, v, es[0]), es[1..])
  }

  /** Local storage holds a theme: the condition every "no saved preference" guard tests. */
  predicate Persisted(v: View) {
    Truthy(v.stored)
  }

  /** The page shows the theme the last setTheme applied. */
  predicate Consistent(p: Page, v: View) {
    && v.dataTheme.Some?
    && v.stored == v.dataTheme
    && |v.events| > 0
    && v.events[|v.events| - 1] == v.dataTheme.value
    && (p.hasIcon ==> v.iconClass == IconClass(v.dataTheme.value))
    && (p.hasToggle ==> v.background == ToggleBackground(v.dataTheme.value) && v.borderColor == MainColor)
  }

  /** setTheme applies any string: attribute and storage hold it, getTheme reports it when it is
      not empty, exactly one event carrying it is dispatched, and the storage guard is closed
      exactly when it is not empty. */
  lemma SetThemeApplies(p: Page, v: View, t: string)
    ensures var w := SetTheme(p, v, t);
      && w.dataTheme == Some(t) && w.stored == Some(t)
      && (t != "" ==> GetTheme(w.dataTheme) == t)
      && w.events == v.events + [t]
      && Consistent(p, w)
      && (Persisted(w) <==> t != "")
  {
  }

  /** setTheme("") is accepted: the icon then offers the moon while getTheme and isDarkMode report dark. */
  lemma EmptyThemeShowsMoonInDarkMode(p: Page, v: View)
    requires p.hasIcon
    ensures var w := SetTheme(p, v, "");
      w.iconClass == MoonIcon && GetTheme(w.dataTheme) == Dark && IsDarkMode(w.dataTheme)
  {
  }

  /** With the tooltip listener on, setTheme("") writes a title offering dark mode, while the
      next toggle applies light. */
  lemma EmptyThemeTooltipMisnamesToggle(p: Page, v: View)
    requires v.tooltips
    ensures var w := SetTheme(p, v, "");
      && w.title == Some("Switch to dark mode (Ctrl+Shift+T)")
      && GetTheme(ToggleTheme(p, w).dataTheme) == Light
  {
    assert "Switch to " + Dark + " mode (Ctrl+Shift+T)" == "Switch to dark mode (Ctrl+Shift+T)";
  }

  /** Every toggle applies the opposite of the theme it found and dispatches one event. */
  lemma ToggleFlips(p: Page, v: View)
    ensures var w := ToggleTheme(p, v);
      && GetTheme(w.dataTheme) == OppositeTheme(GetTheme(v.dataTheme))
      && GetTheme(w.dataTheme) != GetTheme(v.dataTheme)
      && |w.events| == |v.events| + 1
  {
  }

  /** Two toggles restore the theme exactly when it was "dark" or "light"; any other value is
      replaced by "light" after two toggles. */
  lemma ToggleTwice(p: Page, v: View)
    ensures var w := ToggleTheme(p, ToggleTheme(p, v));
      && (GetTheme(w.dataTheme) == GetTheme(v.dataTheme) <==> GetTheme(v.dataTheme) in {Dark, Light})
      && (GetTheme(v.dataTheme) !in {Dark, Light} ==> GetTheme(w.dataTheme) == Light)
  {
  }

  /** init always writes storage: the saved theme when there is one, otherwise "dark". */
  lemma InitPersists(p: Page, v: View)
    ensures var w := Init(p, v);
      && Persisted(w) && Consistent(p, w)
      && (Persisted(v) ==> w.stored == v.stored)
      && (!Persisted(v) ==> GetTheme(w.dataTheme) == Dark)
  {
  }

  /** While storage holds a theme, the system-preference listener and the on-load system and
      time-of-day defaults change nothing. */
  lemma PersistedGuardsAreDead(p: Page, v: View, matchesDark: bool, prefersDark: bool, hour: int)
    requires Persisted(v)
    ensures SystemChange(p, v, matchesDark) == v
    ensures SystemDefault(p, v, prefersDark) == v
    ensures TimeDefault(p, v, hour) == v
  {
  }

  /** Loading the page: the saved theme (or "dark") wins over the system preference and the clock. */
  lemma BootIgnoresSystemAndClock(p: Page, v: View, prefersDark: bool, hour: int)
    ensures Boot(p, v, prefersDark, hour) == AddTooltips(p, Init(p, v))
    ensures Persisted(Boot(p, v, prefersDark, hour)) && Consistent(p, Boot(p, v, prefersDark, hour))
  {
    InitPersists(p, v);
    PersistedGuardsAreDead(p, Init(p, v), false, prefersDark, hour);
  }

  /** A storage event for the theme key applies its new value (or "dark" when it was removed or
      emptied) and writes it back; other keys change nothing. */
  lemma StorageChangeApplies(p: Page, v: View, key: Option<string>, newValue: Option<string>)
    ensures var w := StorageChange(p, v, key, newValue);
      && (key == Some(StorageKey) ==>
            GetTheme(w.dataTheme) == Or(newValue, Dark) && w.stored == w.dataTheme && Persisted(w)
            && |w.events| == |v.events| + 1)
      && (key != Some(StorageKey) ==> w == v)
  {
  }

  /** Once the tooltip listener is registered, after any setTheme with a non-empty theme the
      tooltip names the theme the next toggle would switch to. */
  lemma TooltipNamesNextToggle(p: Page, v: View, t: string)
    requires v.tooltips && t != ""
    ensures var w := SetTheme(p, v, t);
      w.title == Some("Switch to " + GetTheme(ToggleTheme(p, w).dataTheme) + " mode (Ctrl+Shift+T)")
  {
  }

  /** Each event handler keeps storage holding a theme and the page consistent with it. */
  lemma HandleKeepsPersisted(p: Page, v: View, e: Input)
    requires Persisted(v) && Consistent(p, v)
    ensures Persisted(Handle(p, v, e)) && Consistent(p, Handle(p, v, e))
  {
  }

  /** ... and so does any sequence of them. */
  lemma {:induction false} RunKeepsPersisted(p: Page, v: View, es: seq<Input>)
    requires Persisted(v) && Consistent(p, v)
    ensures Persisted(Run(p, v, es)) && Consistent(p, Run(p, v, es))
    decreases |es|
  {
    if es != [] {
      HandleKeepsPersisted(p, v, es[0]);
      RunKeepsPersisted(p, Handle(p, v, es[0]), es[1..]);
    }
  }

  /** After the page has loaded, whatever events follow, the "only if no stored theme" guards
      are dead: the system-preference listener and the two on-load defaults change nothing. */
  lemma NoStoredThemeGuardsDeadAfterBoot(p: Page, v0: View, prefersDark: bool, hour: int,
                                         es: seq<Input>, matchesDark: bool, prefersDark': bool, hour': int)
    ensures var v := Run(p, Boot(p, v0, prefersDark, hour), es);
      && SystemChange(p, v, matchesDark) == v
      && SystemDefault(p, v, prefersDark') == v
      && TimeDefault(p, v, hour') == v
  {
    BootIgnoresSystemAndClock(p, v0, prefersDark, hour);
    RunKeepsPersisted(p, Boot(p, v0, prefersDark, hour), es);
    PersistedGuardsAreDead(p, Run(p, Boot(p, v0, prefersDark, hour), es), matchesDark, prefersDark', hour');
  }
}
