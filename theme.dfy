/** The three classes of theme.js. Their fields are the parts of the page they
    write; every method is proved against the matching function of ThemeSpec,
    where the properties of the theme manager are proved. Event listeners are
    methods that the page calls directly. */
module Theme {
  import opened Options
  import S = ThemeSpec

  class ThemeManager {
    const hasToggle: bool        // document.getElementById('themeToggle') found
    const hasIcon: bool          // document.getElementById('themeIcon') found
    const hasMatchMedia: bool    // window.matchMedia exists

    var dataTheme: Option<string>
    var storedTheme: Option<string>
    var iconClass: string
    var toggleBackground: string
    var toggleBorderColor: string
    var title: Option<string>
    var tooltipListener: bool
    var themeChanges: seq<string>

    function Page(): S.Page {
      S.Page(hasToggle, hasIcon, hasMatchMedia)
    }

    function View(): S.View
      reads this
    {
      S.View(dataTheme, storedTheme, iconClass, toggleBackground, toggleBorderColor,
             title, tooltipListener, themeChanges)
    }

    /** The constructor looks the elements up and runs init. */
    constructor (hasToggle: bool, hasIcon: bool, hasMatchMedia: bool,
                 dataTheme: Option<string>, storedTheme: Option<string>,
                 iconClass: string, toggleBackground: string, toggleBorderColor: string)
      ensures Page() == S.Page(hasToggle, hasIcon, hasMatchMedia)
      ensures View() == S.Init(Page(), S.View(dataTheme, storedTheme, iconClass, toggleBackground,
                                              toggleBorderColor, None, false, []))
    {
      this.hasToggle, this.hasIcon, this.hasMatchMedia := hasToggle, hasIcon, hasMatchMedia;
      this.dataTheme, this.storedTheme := dataTheme, storedTheme;
      this.iconClass, this.toggleBackground, this.toggleBorderColor := iconClass, toggleBackground, toggleBorderColor;
      title, tooltipListener, themeChanges := None, false, [];
      new;
      Init();
    }

    method Init()
      modifies this
      ensures View() == S.Init(Page(), old(View()))
    {
      var savedTheme := Or(storedTheme, S.Dark);
      SetTheme(savedTheme);
    }

    method SetTheme(theme: string)
      modifies this
      ensures View() == S.SetTheme(Page(), old(View()), theme)
    {
      dataTheme := Some(theme);
      storedTheme := Some(theme);
      UpdateIcon(theme);
      UpdateThemeToggle(theme);
      // dispatchEvent runs the registered themechange listeners before it returns
      themeChanges := themeChanges + [theme];
      if tooltipListener {
        title := Some(S.TooltipText(theme));
      }
    }

    method ToggleTheme()
      modifies this
      ensures View() == S.ToggleTheme(Page(), old(View()))
    {
      var currentTheme := GetTheme();
      var newTheme := if currentTheme == S.Dark then S.Light else S.Dark;
      SetTheme(newTheme);
    }

    method UpdateIcon(theme: string)
      modifies this`iconClass
      ensures iconClass == if hasIcon then S.IconClass(theme) else old(iconClass)
    {
      if hasIcon {
        iconClass := S.IconClass(theme);
      }
    }

    method UpdateThemeToggle(theme: string)
      modifies this`toggleBackground, this`toggleBorderColor
      ensures toggleBackground == if hasToggle then S.ToggleBackground(theme) else old(toggleBackground)
      ensures toggleBorderColor == if hasToggle then S.MainColor else old(toggleBorderColor)
    {
      if hasToggle {
        toggleBackground := S.ToggleBackground(theme);
        toggleBorderColor := S.MainColor;
      }
    }

    function GetTheme(): (t: string)
      reads this
      ensures t == S.GetTheme(dataTheme)
    {
      S.GetTheme(dataTheme)
    }

    function IsDarkMode(): (b: bool)
      reads this
      ensures b == S.IsDarkMode(dataTheme)
    {
      GetTheme() == S.Dark
    }

    /** The prefers-color-scheme listener, registered only when matchMedia exists. */
    method OnSystemSchemeChange(matchesDark: bool)
      requires hasMatchMedia
      modifies this
      ensures View() == S.SystemChange(Page(), old(View()), matchesDark)
    {
      if !Truthy(storedTheme) {
        SetTheme(if matchesDark then S.Dark else S.Light);
      }
    }

    /** The document keydown listener; it answers whether it called preventDefault. */
    method OnKeyDown(ctrlKey: bool, metaKey: bool, shiftKey: bool, key: string) returns (defaultPrevented: bool)
      modifies this
      ensures defaultPrevented == S.IsToggleShortcut(ctrlKey, metaKey, shiftKey, key)
      ensures View() == S.KeyDown(Page(), old(View()), ctrlKey, metaKey, shiftKey, key)
    {
      defaultPrevented := false;
      if (ctrlKey || metaKey) && shiftKey && key == "T" {
        defaultPrevented := true;
        ToggleTheme();
      }
    }
  }

  class AdvancedThemeFeatures {
    const themeManager: ThemeManager

    /** Runs addSystemThemeDetection, addTimeBasedTheme and addThemeTooltips, in that order;
        the system preference and the hour are what matchMedia and the clock answer. */
    constructor (themeManager: ThemeManager, prefersDark: bool, hour: int)
      modifies themeManager
      ensures this.themeManager == themeManager
      ensures themeManager.View() ==
        S.AddTooltips(themeManager.Page(),
          S.TimeDefault(themeManager.Page(),
            S.SystemDefault(themeManager.Page(), old(themeManager.View()), prefersDark), hour))
    {
      this.themeManager := themeManager;
      new;
      AddSystemThemeDetection(prefersDark);
      AddTimeBasedTheme(hour);
      AddThemeTooltips();
    }

    method AddSystemThemeDetection(prefersDark: bool)
      modifies themeManager
      ensures themeManager.View() == S.SystemDefault(themeManager.Page(), old(themeManager.View()), prefersDark)
    {
      if themeManager.hasMatchMedia && !Truthy(themeManager.storedTheme) {
        themeManager.SetTheme(if prefersDark then S.Dark else S.Light);
      }
    }

    method AddTimeBasedTheme(hour: int)
      modifies themeManager
      ensures themeManager.View() == S.TimeDefault(themeManager.Page(), old(themeManager.View()), hour)
    {
      var isDayTime := hour >= 6 && hour < 18;
      if !Truthy(themeManager.storedTheme) {
        themeManager.SetTheme(if isDayTime then S.Light else S.Dark);
      }
    }

    method AddThemeTooltips()
      modifies themeManager
      ensures themeManager.View() == S.AddTooltips(themeManager.Page(), old(themeManager.View()))
    {
      if themeManager.hasToggle {
        themeManager.title := Some(S.InitialTooltip);
        themeManager.tooltipListener := true;
      }
    }
  }

  class ThemeSync {
    const themeManager: ThemeManager

    constructor (themeManager: ThemeManager)
      ensures this.themeManager == themeManager
    {
      this.themeManager := themeManager;
    }

    /** The window storage listener; key and newValue are the event's. */
    method OnStorage(key: Option<string>, newValue: Option<string>)
      modifies themeManager
      ensures themeManager.View() == S.StorageChange(themeManager.Page(), old(themeManager.View()), key, newValue)
    {
      if key == Some(S.StorageKey) {
        themeManager.SetTheme(Or(newValue, S.Dark));
      }
    }
  }

  /** The DOMContentLoaded listener: builds the manager, its features and the tab sync. */
  method OnContentLoaded(hasToggle: bool, hasIcon: bool, hasMatchMedia: bool,
                         dataTheme: Option<string>, storedTheme: Option<string>,
                         iconClass: string, toggleBackground: string, toggleBorderColor: string,
                         prefersDark: bool, hour: int)
    returns (themeManager: ThemeManager, themeSync: ThemeSync)
    ensures fresh(themeManager) && fresh(themeSync) && themeSync.themeManager == themeManager
    ensures themeManager.Page() == S.Page(hasToggle, hasIcon, hasMatchMedia)
    ensures themeManager.View() ==
      S.Boot(themeManager.Page(), S.View(dataTheme, storedTheme, iconClass, toggleBackground,
                                         toggleBorderColor, None, false, []), prefersDark, hour)
    ensures S.Persisted(themeManager.View()) && S.Consistent(themeManager.Page(), themeManager.View())
  {
    themeManager := new ThemeManager(hasToggle, hasIcon, hasMatchMedia, dataTheme, storedTheme,
                                     iconClass, toggleBackground, toggleBorderColor);
    var advancedFeatures := new AdvancedThemeFeatures(themeManager, prefersDark, hour);
    themeSync := new ThemeSync(themeManager);
    S.BootIgnoresSystemAndClock(themeManager.Page(),
      S.View(dataTheme, storedTheme, iconClass, toggleBackground, toggleBorderColor, None, false, []),
      prefersDark, hour);
  }
}
