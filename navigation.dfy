/**
 * The navigation bar (src/components/Navigation.tsx): its own dark-mode
 * flag and language toggle, the transient notification they raise, the
 * mobile menu and the CV viewer.
 *
 * `localStorage` is a string map field; `matchMedia('(prefers-color-scheme:
 * dark)')` is the parameter `systemDark`; the i18n language is a field. The
 * 3-second timer of a notification is a count of pending clears, and
 * `ClearFires` is one of them firing.
 */
module Navigation {
  import opened Wrappers

  const ThemeKey: string := "theme"
  const LanguageKey: string := "language"

  /** The icon shown beside a notification. */
  datatype Icon = LanguageIcon | ThemeIcon

  /** The theme the load effect starts with: a saved `dark`, or nothing (or an empty value) saved and a dark system. */
  predicate InitialDark(saved: Option<string>, systemDark: bool) {
    saved == Some("dark") || ((saved == None || saved == Some("")) && systemDark)
  }

  /** The value the dark-mode effect stores. */
  function ThemeText(dark: bool): (s: string)
    ensures s == "dark" || s == "light"
    ensures s == "dark" <==> dark
  {
    if dark then "dark" else "light"
  }

  /** A stored theme is restored on reload whatever the system prefers. */
  lemma ThemeRoundTrip(dark: bool, systemDark: bool)
    ensures InitialDark(Some(ThemeText(dark)), systemDark) == dark
  {
  }

  /** With nothing saved, the theme follows the system; a saved `light` overrides it. */
  lemma InitialDarkCases(systemDark: bool)
    ensures InitialDark(None, systemDark) == systemDark
    ensures !InitialDark(Some("light"), systemDark)
    ensures InitialDark(Some("dark"), systemDark)
  {
  }

  /** The language the toggle switches to: `es` from `en`, `en` from anything else. */
  function NextLanguage(language: string): (r: string)
    ensures r == "es" || r == "en"
    ensures r == "es" <==> language == "en"
  {
    if language == "en" then "es" else "en"
  }

  /** Toggling twice returns to a supported language; any other language becomes `en` for good. */
  lemma ToggleTwice(language: string)
    ensures language == "en" || language == "es" ==> NextLanguage(NextLanguage(language)) == language
    ensures language != "en" && language != "es" ==> NextLanguage(NextLanguage(language)) == "es"
  {
  }

  /** The notification announcing a newly selected language. */
  function LanguageMessage(newLanguage: string): (m: string)
    ensures m != ""
    ensures m == "English language selected" <==> newLanguage == "en"
  {
    if newLanguage == "en" then "English language selected" else "Idioma español seleccionado"
  }

  /** The notification announcing a theme change, given whether the theme was dark. */
  function ThemeMessage(wasDark: bool): (m: string)
    ensures m != ""
    ensures m == "Light mode enabled" <==> wasDark
  {
    if wasDark then "Light mode enabled" else "Dark mode enabled"
  }

  /** The component's state, the document root, the i18n language and the storage. */
  class NavBar {
    var isMenuOpen: bool
    var darkMode: bool
    /** `notification`; the empty string shows nothing. */
    var notification: string
    var notificationIcon: Option<Icon>
    var isPDFOpen: bool
    /** `i18n.language`. */
    var language: string
    var storage: map<string, string>
    /** Whether the root element has class `dark`. */
    var rootDark: bool
    /** Clear timers scheduled and not yet fired. */
    var pendingClears: nat

    /** The root and the storage agree with `darkMode`, as the dark-mode effect leaves them. */
    ghost predicate Applied()
      reads this
    {
      rootDark == darkMode && ThemeKey in storage && storage[ThemeKey] == ThemeText(darkMode)
    }

    /** Whether the notification is on screen. */
    predicate NotificationShown()
      reads this
    {
      notification != ""
    }

    /** The initial state over the page's storage and i18n language. */
    constructor (saved: map<string, string>, currentLanguage: string)
      ensures !isMenuOpen && !darkMode && !isPDFOpen
      ensures notification == "" && notificationIcon == None && pendingClears == 0
      ensures language == currentLanguage && storage == saved && !rootDark
    {
      isMenuOpen := false;
      darkMode := false;
      notification := "";
      notificationIcon := None;
      isPDFOpen := false;
      language := currentLanguage;
      storage := saved;
      rootDark := false;
      pendingClears := 0;
    }

    /** The dark-mode effect: the `dark` class and the stored theme. */
    method ApplyDark()
      modifies this
      ensures Applied()
      ensures storage == old(storage)[ThemeKey := ThemeText(darkMode)]
      ensures darkMode == old(darkMode) && language == old(language)
      ensures notification == old(notification) && notificationIcon == old(notificationIcon)
      ensures pendingClears == old(pendingClears)
      ensures isMenuOpen == old(isMenuOpen) && isPDFOpen == old(isPDFOpen)
    {
      rootDark := darkMode;
      storage := storage[ThemeKey := ThemeText(darkMode)];
    }

    /**
     * Mounting: the load effect reads the storage, then the dark-mode effect
     * writes it back. The load effect only ever turns dark mode on; from the
     * constructor's state it ends as `InitialDark`.
     */
    method Mount(systemDark: bool)
      modifies this
      ensures var saved := if ThemeKey in old(storage) then Some(old(storage)[ThemeKey]) else None;
        darkMode == (old(darkMode) || InitialDark(saved, systemDark))
      ensures LanguageKey in old(storage) && old(storage)[LanguageKey] != "" ==> language == old(storage)[LanguageKey]
      ensures !(LanguageKey in old(storage) && old(storage)[LanguageKey] != "") ==> language == old(language)
      ensures Applied()
      ensures storage == old(storage)[ThemeKey := ThemeText(darkMode)]
      ensures isMenuOpen == old(isMenuOpen) && isPDFOpen == old(isPDFOpen)
      ensures notification == old(notification) && notificationIcon == old(notificationIcon)
      ensures pendingClears == old(pendingClears)
    {
      var saved := if ThemeKey in storage then Some(storage[ThemeKey]) else None;
      if InitialDark(saved, systemDark) {
        darkMode := true;
      }
      if LanguageKey in storage && storage[LanguageKey] != "" {
        language := storage[LanguageKey];
      }
      ApplyDark();
    }

    /** `showNotification`: show a message and schedule its clearing. */
    method ShowNotification(message: string, icon: Icon)
      modifies this
      ensures notification == message && notificationIcon == Some(icon)
      ensures pendingClears == old(pendingClears) + 1
      ensures darkMode == old(darkMode) && language == old(language) && storage == old(storage)
      ensures rootDark == old(rootDark) && isMenuOpen == old(isMenuOpen) && isPDFOpen == old(isPDFOpen)
    {
      notification := message;
      notificationIcon := Some(icon);
      pendingClears := pendingClears + 1;
    }

    /** A scheduled clear fires: it empties the notification, whichever one is on screen. */
    method ClearFires()
      requires pendingClears > 0
      modifies this
      ensures !NotificationShown() && notificationIcon == None
      ensures pendingClears == old(pendingClears) - 1
      ensures darkMode == old(darkMode) && language == old(language) && storage == old(storage)
      ensures rootDark == old(rootDark) && isMenuOpen == old(isMenuOpen) && isPDFOpen == old(isPDFOpen)
    {
      notification := "";
      notificationIcon := None;
      pendingClears := pendingClears - 1;
    }

    /** `toggleLanguage`. */
    method ToggleLanguage()
      modifies this
      ensures language == NextLanguage(old(language))
      ensures storage == old(storage)[LanguageKey := language]
      ensures notification == LanguageMessage(language) && notificationIcon == Some(LanguageIcon)
      ensures pendingClears == old(pendingClears) + 1
      ensures darkMode == old(darkMode) && rootDark == old(rootDark)
      ensures isMenuOpen == old(isMenuOpen) && isPDFOpen == old(isPDFOpen)
    {
      var newLanguage := NextLanguage(language);
      language := newLanguage;
      storage := storage[LanguageKey := newLanguage];
      ShowNotification(LanguageMessage(newLanguage), LanguageIcon);
    }

    /** `toggleTheme`, followed by the dark-mode effect. */
    method ToggleTheme()
      modifies this
      ensures darkMode == !old(darkMode)
      ensures Applied()
      ensures storage == old(storage)[ThemeKey := ThemeText(darkMode)]
      ensures notification == ThemeMessage(old(darkMode)) && notificationIcon == Some(ThemeIcon)
      ensures pendingClears == old(pendingClears) + 1
      ensures language == old(language) && isMenuOpen == old(isMenuOpen) && isPDFOpen == old(isPDFOpen)
    {
      var wasDark := darkMode;
      darkMode := !darkMode;
      ShowNotification(ThemeMessage(wasDark), ThemeIcon);
      ApplyDark();
    }

    /** The burger button. */
    method ToggleMenu()
      modifies this
      ensures isMenuOpen == !old(isMenuOpen)
      ensures isPDFOpen == old(isPDFOpen) && darkMode == old(darkMode) && language == old(language)
      ensures notification == old(notification) && storage == old(storage)
      ensures notificationIcon == old(notificationIcon) && rootDark == old(rootDark)
      ensures pendingClears == old(pendingClears)
    {
      isMenuOpen := !isMenuOpen;
    }

    /** A link of the mobile menu. */
    method FollowMobileLink()
      modifies this
      ensures !isMenuOpen
      ensures isPDFOpen == old(isPDFOpen) && darkMode == old(darkMode) && language == old(language)
      ensures notification == old(notification) && storage == old(storage)
      ensures notificationIcon == old(notificationIcon) && rootDark == old(rootDark)
      ensures pendingClears == old(pendingClears)
    {
      isMenuOpen := false;
    }

    /** The CV button; the one in the mobile menu also closes the menu. */
    method OpenCv(mobile: bool)
      modifies this
      ensures isPDFOpen
      ensures isMenuOpen == (old(isMenuOpen) && !mobile)
      ensures darkMode == old(darkMode) && language == old(language)
      ensures notification == old(notification) && storage == old(storage)
      ensures notificationIcon == old(notificationIcon) && rootDark == old(rootDark)
      ensures pendingClears == old(pendingClears)
    {
      isPDFOpen := true;
      if mobile {
        isMenuOpen := false;
      }
    }

    /** The viewer's `onClose`. */
    method CloseCv()
      modifies this
      ensures !isPDFOpen
      ensures isMenuOpen == old(isMenuOpen) && darkMode == old(darkMode) && language == old(language)
      ensures notification == old(notification) && storage == old(storage)
      ensures notificationIcon == old(notificationIcon) && rootDark == old(rootDark)
      ensures pendingClears == old(pendingClears)
    {
      isPDFOpen := false;
    }
  }

  /** A theme toggle announces the mode it switches to. */
  lemma ThemeMessageNamesNewMode(wasDark: bool)
    ensures ThemeText(!wasDark) == "dark" <==> ThemeMessage(wasDark) == "Dark mode enabled"
  {
  }
}
