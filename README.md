# Portfolio page behaviour in Dafny

A model of the client-side behaviour of a static portfolio site, in two parts.

**The theme manager** (`theme.js`). It keeps the root element's `data-theme`
attribute, the `theme` key in local storage, the toggle's icon and background,
the manager's tooltip title and the stream of `themechange` events in step.
It reacts to the toggle, the Ctrl/Cmd+Shift+T shortcut, system colour-scheme
changes and storage events from other tabs. It also applies on-load system
and time-of-day defaults.

- `theme_spec.dfy` (module `ThemeSpec`) gives each operation as a function
  on a `View` of that state, plus a `Page` saying which optional elements
  exist. The lemmas about the manager are proved there.
- `theme.dfy` (module `Theme`) gives the classes `ThemeManager`,
  `AdvancedThemeFeatures` and `ThemeSync`. Their fields are the state, and
  each method is proved to change it exactly as the matching `ThemeSpec`
  function does.

As written, the code:

- `setTheme` accepts any string, with no validation.
- `toggleTheme` has no reentrancy guard.
- The storage listener writes storage again through `setTheme`.
- The JavaScript `x || 'dark'` treats an empty string like `null`.

With working local storage, `init` always writes it (`ThemeSpec.InitPersists`). So every "only if
no theme is stored" guard is dead after load, whatever events follow
(`ThemeSpec.NoStoredThemeGuardsDeadAfterBoot`). Such a guard opens again
in the model only through a direct `setTheme("")`; writes by other tabs are
left out (see "## Left out"). In that state the icon shows the moon while
`getTheme` reports dark (`ThemeSpec.EmptyThemeShowsMoonInDarkMode`). With
tooltips on, the title then offers "dark" mode although the next toggle
applies "light" (`ThemeSpec.EmptyThemeTooltipMisnamesToggle`). The tooltip
text is written to a `title` property of the manager object, not to the
toggle element's `title` attribute, and nothing in the code reads it back.

**Three UI rules of `script.js`.**

- `typing_spec.dfy` / `typing.dfy`: the typing-text looper is a step
  function over `textIndex`, `charIndex` and `isDeleting`. The class
  `TypingAnimation` is proved against it. Proved: the bounds, the displayed
  prefix, the delays, and a full type-and-delete cycle per word.
- `navigation.dfy`: the mobile menu's two classes, the nav link marked
  active on scroll and on click, the sticky-header and scroll-to-top
  thresholds, and the creation of the scroll progress bar.

On scroll, `current` starts as `''`. It becomes the `id` of each covering
section, and that `id` is `null` when the section has none. So the link
compared is `#` when no section covers the offset, and `#null` when the
covering section has no id.

## Model

| member | source | states |
|---|---|---|
| ThemeSpec.GetTheme | theme.js:83-85 | the result is never empty; it is the attribute when that is set and non-empty, and "dark" when the attribute is unset or empty |
| ThemeSpec.IsDarkMode | theme.js:94-96 | dark mode holds exactly when the attribute is unset, empty or "dark" |
| ThemeSpec.OppositeTheme | theme.js:55-56 | toggling yields "light" or "dark", and "light" exactly when the current theme is "dark" |
| ThemeSpec.IconClass | theme.js:68-72 | the icon is one of the two classes, and the sun exactly in dark mode |
| ThemeSpec.ToggleBackground | theme.js:74-81 | the toggle background is one of the two colours, and the card colour exactly in dark mode |
| ThemeSpec.TimeBasedTheme | theme.js:150-155 | the time rule picks "light" exactly when 6 <= hour < 18, otherwise "dark" |
| ThemeSpec.TooltipText | theme.js:239-242 | the tooltip names the theme a toggle switches to |
| ThemeSpec.SetThemeApplies | theme.js:38-52 | after setTheme(t), attribute and storage hold t for any t, getTheme returns t when t is non-empty, one event carrying t is appended, the page is consistent, and storage holds a theme exactly when t is non-empty |
| ThemeSpec.EmptyThemeTooltipMisnamesToggle | theme.js:239-242 | with tooltips on, after setTheme("") the title offers dark mode while the next toggle applies "light" |
| ThemeSpec.EmptyThemeShowsMoonInDarkMode | theme.js:38-41 | setTheme("") is accepted; the icon then shows the moon while getTheme and isDarkMode report dark |
| ThemeSpec.ToggleFlips | theme.js:54-57 | every toggle applies the opposite of the effective theme and dispatches exactly one event |
| ThemeSpec.ToggleTwice | theme.js:54-57 | two toggles restore the effective theme exactly when it was "dark" or "light"; any other theme ends as "light" |
| ThemeSpec.InitPersists | theme.js:10-13 | init always leaves a theme in storage: the saved one when present, otherwise "dark"; the page is consistent with it |
| ThemeSpec.PersistedGuardsAreDead | theme.js:20-26 | while storage holds a theme, the system-preference listener and the on-load system and time defaults change nothing |
| ThemeSpec.BootIgnoresSystemAndClock | theme.js:270-273 | on load the saved theme (or "dark") wins over the system preference and the clock |
| ThemeSpec.StorageChangeApplies | theme.js:256-260 | a storage event for 'theme' applies its new value, or "dark" when that is null or empty, and writes it to storage again; other keys change nothing |
| ThemeSpec.TooltipNamesNextToggle | theme.js:234-244 | once tooltips are on, after any non-empty setTheme the title names the theme the next toggle applies |
| ThemeSpec.HandleKeepsPersisted | theme.js:20-35 | each listener (toggle, shortcut, system change, storage) keeps a stored theme and a consistent page |
| ThemeSpec.RunKeepsPersisted | theme.js:15-35 | any sequence of listener events keeps a stored theme and a consistent page |
| ThemeSpec.NoStoredThemeGuardsDeadAfterBoot | theme.js:140-157 | after load and any later events, the system listener and both on-load defaults are no-ops |
| ThemeSpec.IsToggleShortcut | theme.js:31 | the shortcut matches exactly when Shift is held, the key is "T", and Ctrl or Meta is held |
| ThemeSpec.SetTheme | theme.js:38-52 | attribute and storage both hold the given theme, exactly one event carrying it is appended, and the page is consistent with it |
| ThemeSpec.ToggleTheme | theme.js:54-57 | the effective theme becomes the opposite of the previous one, storage holds it, the page is consistent and one event is appended |
| ThemeSpec.Init | theme.js:10-13 | storage holds a theme and the page is consistent; a stored theme is kept, and without one the effective theme is "dark" |
| ThemeSpec.SystemChange | theme.js:22-26 | with a theme stored nothing changes; otherwise the effective theme is "dark" or "light" as the system prefers and the page is consistent |
| ThemeSpec.SystemDefault | theme.js:140-146 | with a theme stored or without matchMedia nothing changes; otherwise the system's theme is applied |
| ThemeSpec.TimeDefault | theme.js:148-157 | with a theme stored nothing changes; otherwise the time-of-day theme is applied |
| ThemeSpec.AddTooltips | theme.js:234-244 | theme, storage and events are unchanged and consistency is kept; the tooltip listener is on afterwards exactly when it was before or the toggle exists; without the toggle nothing changes |
| ThemeSpec.KeyDown | theme.js:30-35 | on the shortcut the effective theme flips and one event is appended; any other key changes nothing |
| ThemeSpec.StorageChange | theme.js:256-260 | for the key 'theme' the effective theme is the new value or "dark" and storage holds it; any other key changes nothing |
| ThemeSpec.Boot | theme.js:270-273 | after load storage holds a theme, the page is consistent and the effective theme is the saved one or "dark" |
| Theme.ThemeManager.GetTheme | theme.js:83-85 | the manager's getTheme answers ThemeSpec.GetTheme of its attribute |
| Theme.ThemeManager.IsDarkMode | theme.js:94-96 | the manager's isDarkMode answers ThemeSpec.IsDarkMode of its attribute |
| Theme.ThemeManager.constructor | theme.js:2-13 | the new manager's state is init applied to the page as found |
| Theme.ThemeManager.Init | theme.js:10-13 | init is setTheme of the saved theme or "dark" |
| Theme.ThemeManager.SetTheme | theme.js:38-52 | writes attribute, storage, icon, toggle style and event log as ThemeSpec.SetTheme does; the tooltip listener runs during the dispatch |
| Theme.ThemeManager.ToggleTheme | theme.js:54-57 | the new state is setTheme of the opposite of the effective theme |
| Theme.ThemeManager.UpdateIcon | theme.js:68-72 | the icon class is set by the theme when the icon exists; otherwise it is unchanged |
| Theme.ThemeManager.UpdateThemeToggle | theme.js:74-81 | background and border colour are set when the toggle exists; otherwise they are unchanged |
| Theme.ThemeManager.OnSystemSchemeChange | theme.js:21-27 | applies the system's theme only when no theme is stored |
| Theme.ThemeManager.OnKeyDown | theme.js:30-35 | calls preventDefault and toggles exactly for (Ctrl or Meta) + Shift + "T"; otherwise the state is unchanged |
| Theme.AdvancedThemeFeatures.constructor | theme.js:128-138 | runs the system default, the time default and the tooltip set-up, in that order |
| Theme.AdvancedThemeFeatures.AddSystemThemeDetection | theme.js:140-146 | applies the system preference only when matchMedia exists and no theme is stored |
| Theme.AdvancedThemeFeatures.AddTimeBasedTheme | theme.js:148-157 | applies the time-of-day theme only when no theme is stored |
| Theme.AdvancedThemeFeatures.AddThemeTooltips | theme.js:234-244 | when the toggle exists, sets the initial title and turns the tooltip listener on; otherwise changes nothing |
| Theme.ThemeSync.constructor | theme.js:249-252 | the sync holds the manager it was given |
| Theme.ThemeSync.OnStorage | theme.js:256-260 | the new state is ThemeSpec.StorageChange of the event's key and new value |
| Theme.OnContentLoaded | theme.js:270-273 | builds manager, features and sync; storage then holds a theme and the page is consistent |
| TypingSpec.Substring | script.js:148 | substring(0, end) is the prefix of length end, clamped to the string |
| TypingSpec.Step | script.js:144-164 | one call of typeText keeps textIndex a valid word index |
| TypingSpec.StartInRange | script.js:139-141 | the initial closure variables satisfy the bounds |
| TypingSpec.StepShowsPrefix | script.js:145-164 | after every step 0 <= textIndex < 4, 0 <= charIndex <= the word's length, and the element shows the word's first charIndex characters |
| TypingSpec.TypingStep | script.js:151-159 | typing adds one character; reaching the end switches to deleting with 2000 ms, otherwise the delay is 100 ms |
| TypingSpec.DeletingStep | script.js:147-150 | deleting removes one character; reaching 0 stops deleting, advances textIndex modulo 4 and waits 500 ms, otherwise the delay is 50 ms |
| TypingSpec.TypesToEnd | script.js:151-159 | typing runs to the end of the word and then starts deleting |
| TypingSpec.DeletesToStart | script.js:147-163 | deleting runs to the empty text and moves to the next word |
| TypingSpec.WordCycle | script.js:144-166 | from the start of a word, twice its length in steps types it, deletes it and reaches the start of the next word |
| Typing.TypingAnimation.constructor | script.js:138-169 | initialisation runs typeText once; afterwards the bounds hold and a prefix is shown |
| Typing.TypingAnimation.TypeText | script.js:144-167 | the new state is one TypingSpec step and the bounds and prefix hold; the answer is the delay before the next call |
| Navigation.StickyHeader | script.js:23-41 | the header is sticky exactly when scrollY > 120, with the shadow exactly then |
| Navigation.SubPixelOffset | script.js:395-398 | offsets are compared as fractions: 120.5 px makes the header sticky, and a section whose lead edge is at 121 px does not yet cover it |
| Navigation.ScrollTopButton | script.js:417-425 | the scroll-to-top button is visible and clickable exactly when pageYOffset > 300 |
| Navigation.InitScrollProgress | script.js:278-285 | afterwards at least one bar exists, and an existing bar count is unchanged |
| Navigation.InitScrollProgressIdempotent | script.js:278-285 | any positive number of calls equals one call; on a page without a bar exactly one exists |
| Navigation.AsWrittenCreatesIdleBar | script.js:1-16 | load order as written: on a page without a bar, one is created that the scroll listener never updates |
| Navigation.BarFirstAlwaysUpdated | script.js:19-33 | if the bar is created before the header looks it up, a bar always exists and is updated; with a bar already present both orders agree |
| Navigation.MobileMenu.constructor | script.js:45-50 | the menu starts with the classes the page has |
| Navigation.MobileMenu.OnMenuClick | script.js:51-59 | flips both bx-x and active, so "bx-x iff active" is kept both ways |
| Navigation.MobileMenu.OnLinkClick | script.js:62-66 | removes both classes |
| Navigation.MobileMenu.OnScroll | script.js:71-76 | removes both classes when the elements exist; otherwise changes nothing |
| Navigation.LastCovering | script.js:394-401 | finds the last section in document order with top-100 <= y < top-100+height, and none when no section covers y |
| Navigation.ScrollCurrent | script.js:391-401 | current is '' when no section covers the offset; otherwise it is the id of a covering section after which no section covers it |
| Navigation.LinkTarget | script.js:405 | the compared href is '#' followed by current, and "#null" when current is null |
| Navigation.CurrentSection | script.js:391-401 | the scan's current is '' when no section covers the offset, otherwise the id of the last covering section |
| Navigation.GetElementById | script.js:371-372 | finds the first element in document order with the id; the empty id matches nothing |
| Navigation.NavLinks.constructor | script.js:365 | the links with an in-page href and their initial active classes |
| Navigation.NavLinks.OnScroll | script.js:390-409 | afterwards exactly the links whose href is '#' + current are active |
| Navigation.NavLinks.OnClick | script.js:368-386 | with an existing target, scrolls to offsetTop - 80 and leaves exactly the clicked link active; with no target, changes nothing |

## Findings

| source | as written | input that shows it | evidently intended | confidence | as-written member | corrected member |
|---|---|---|---|---|---|---|
| script.js:3-10 | initStickyHeader looks up `.scroll-progress` (line 21) before initScrollProgress creates it (line 10) | a page whose HTML has no `.scroll-progress` element | the created bar is updated as the page scrolls | medium, not executed | Navigation.AsWrittenCreatesIdleBar | Navigation.BarFirstAlwaysUpdated |

## Left out

- Timers are not modelled. This covers the `theme-transition` class and its removal after 300 ms, and the toggle's rotate animation. It also covers the `setTimeout` that re-runs typeText (its delay is only returned), the loading screen, the skill-bar counters, the contact form's delay and message, and `debounce`.
- The particle and ripple effects of addThemeAnimations, and initParticles, are not modelled. They use `Math.random` and timers.
- getColor and addThemeAwareAnimations are not modelled. They use computed styles and injected CSS text.
- The `beforeunload` save is not modelled.
- DOM lookups and listener registration are not modelled. Whether an element was found becomes a flag (`hasToggle`, `hasIcon`, `hasMatchMedia`, `present`). A listener that exists only with its element `requires` that flag. A page without `.typing-subtitle` has no TypingAnimation. Navigation.StickyHeader: the `header` element is assumed present; without one, script.js throws on every scroll before setting the class or the shadow.
- ThemeSpec.SetTheme, ThemeSpec.Init, Theme.OnContentLoaded: local storage is assumed to work. In the source, `getItem` and `setItem` throw when storage is blocked (SecurityError) or full (QuotaExceededError), and nothing catches that. If `getItem` throws in init, the manager is never built and the load listener stops before the features and the tab sync exist. If `setItem` throws in setTheme, the attribute is already set but the icon, the toggle style and the event are not. The model's setTheme always completes, and its Persisted and Consistent results hold only with working storage.
- Writes to local storage by other tabs, including `clear()`, are not modelled. The storage listener is a method given the event's key and new value. The stored theme in the model is what this page wrote.
- The `preventDefault` calls of the smooth-scroll and scroll-to-top clicks are not modelled. Only the shortcut's is returned.
- ThemeSpec.RunKeepsPersisted: only the page's listeners are covered. A direct `setTheme("")` through `window.themeManager` empties the stored theme, and SetThemeApplies states that.
- StickyHeader, ScrollTopButton, Covers: scroll offsets are exact reals and element offsets whole numbers. Rounding of doubles is not modelled, which matters only at offsets no double represents exactly.
- Other floating-point rules are not modelled. This covers the progress bar width, parallax, the magnetic hover transform and the card hover gradient.
- IntersectionObserver effects are not modelled: scroll animations, scroll reveal and skill bars.
- The mobile menu's slide-in animation strings on its links are not modelled.
- The scroll-to-top click is not modelled. It only scrolls smoothly to 0 and changes no modelled state.
- `window.scrollTo` is not modelled as scrolling. The click listener only returns the target offset.
- TypingSpec.Step: the four words are fixed as in the source. The bounds rely on every word being non-empty.
