/**
 * The theme hook (src/hooks/useTheme.ts): eight colour themes, a dark-mode
 * flag, the load effect that restores both from storage, and the apply
 * effect that writes them to the document root and back to storage.
 *
 * `localStorage` is a string map field; `matchMedia('(prefers-color-scheme:
 * dark)')` is the parameter `systemDark`. An effect that follows a state
 * change runs inside the method that changes the state.
 */
module Theme {
  import opened Wrappers

  /** `Theme`, in the key order of the `themes` table. */
  datatype ThemeName = Light | Dark | Emerald | Blue | Purple | Orange | Pink | Cyan

  /** The table key of a theme. */
  function Key(t: ThemeName): string {
    match t
    case Light => "light"
    case Dark => "dark"
    case Emerald => "emerald"
    case Blue => "blue"
    case Purple => "purple"
    case Orange => "orange"
    case Pink => "pink"
    case Cyan => "cyan"
  }

  /** The theme whose own table key is `s`, if any. */
  function Parse(s: string): Option<ThemeName> {
    if s == "light" then Some(Light)
    else if s == "dark" then Some(Dark)
    else if s == "emerald" then Some(Emerald)
    else if s == "blue" then Some(Blue)
    else if s == "purple" then Some(Purple)
    else if s == "orange" then Some(Orange)
    else if s == "pink" then Some(Pink)
    else if s == "cyan" then Some(Cyan)
    else None
  }

  /** Every theme's key parses back to the theme. */
  lemma ParseKey(t: ThemeName)
    ensures Parse(Key(t)) == Some(t)
  {
  }

  /** Only a theme's key parses, and it parses to that theme. */
  lemma KeyOfParse(s: string)
    ensures Parse(s).Some? ==> Key(Parse(s).value) == s
  {
  }

  /** `Object.keys(themes)`. */
  const Themes: seq<ThemeName> := [Light, Dark, Emerald, Blue, Purple, Orange, Pink, Cyan]

  /** The exposed list holds every theme exactly once. */
  lemma ThemesComplete()
    ensures |Themes| == 8
    ensures forall t: ThemeName :: t in Themes
    ensures forall i, j :: 0 <= i < j < |Themes| ==> Themes[i] != Themes[j]
  {
    forall t: ThemeName
      ensures t in Themes
    {
      var i := match t
        case Light => 0 case Dark => 1 case Emerald => 2 case Blue => 3
        case Purple => 4 case Orange => 5 case Pink => 6 case Cyan => 7;
      assert Themes[i] == t;
    }
  }

  datatype Colors = Colors(
    primary: string, secondary: string, accent: string,
    background: string, surface: string, text: string, textSecondary: string)

  datatype Config = Config(name: string, colors: Colors, gradients: seq<string>)

  /** The `themes` table entry of a theme. */
  function ConfigOf(t: ThemeName): Config {
    match t
    case Light => Config("Light",
      Colors("#10b981", "#059669", "#34d399", "#ffffff", "#f9fafb", "#111827", "#6b7280"),
      ["from-emerald-500 to-emerald-600", "from-emerald-400 to-emerald-500", "from-gray-50 to-emerald-50"])
    case Dark => Config("Dark",
      Colors("#10b981", "#059669", "#34d399", "#111827", "#1f2937", "#f9fafb", "#d1d5db"),
      ["from-emerald-500 to-emerald-600", "from-emerald-400 to-emerald-500", "from-gray-900 to-gray-800"])
    case Emerald => Config("Emerald",
      Colors("#10b981", "#059669", "#34d399", "#064e3b", "#065f46", "#ecfdf5", "#a7f3d0"),
      ["from-emerald-400 to-emerald-600", "from-emerald-300 to-emerald-500", "from-emerald-900 to-emerald-800"])
    case Blue => Config("Ocean",
      Colors("#3b82f6", "#2563eb", "#60a5fa", "#1e3a8a", "#1e40af", "#dbeafe", "#93c5fd"),
      ["from-blue-500 to-blue-600", "from-blue-400 to-blue-500", "from-blue-900 to-blue-800"])
    case Purple => Config("Purple",
      Colors("#8b5cf6", "#7c3aed", "#a78bfa", "#581c87", "#6b21a8", "#f3e8ff", "#c4b5fd"),
      ["from-purple-500 to-purple-600", "from-purple-400 to-purple-500", "from-purple-900 to-purple-800"])
    case Orange => Config("Sunset",
      Colors("#f97316", "#ea580c", "#fb923c", "#9a3412", "#c2410c", "#fff7ed", "#fed7aa"),
      ["from-orange-500 to-orange-600", "from-orange-400 to-orange-500", "from-orange-900 to-orange-800"])
    case Pink => Config("Pink",
      Colors("#ec4899", "#db2777", "#f472b6", "#831843", "#be185d", "#fdf2f8", "#f9a8d4"),
      ["from-pink-500 to-pink-600", "from-pink-400 to-pink-500", "from-pink-900 to-pink-800"])
    case Cyan => Config("Cyan",
      Colors("#06b6d4", "#0891b2", "#22d3ee", "#164e63", "#155e75", "#ecfeff", "#a5f3fc"),
      ["from-cyan-500 to-cyan-600", "from-cyan-400 to-cyan-500", "from-cyan-900 to-cyan-800"])
  }

  /** The CSS custom properties the apply effect sets for a theme. */
  function StyleOf(c: Colors): map<string, string> {
    map[
      "--color-primary" := c.primary,
      "--color-secondary" := c.secondary,
      "--color-accent" := c.accent,
      "--color-background" := c.background,
      "--color-surface" := c.surface,
      "--color-text" := c.text,
      "--color-text-secondary" := c.textSecondary]
  }

  const ThemeKey: string := "portfolio-theme"
  const DarkKey: string := "portfolio-dark-mode"

  /** `isDark.toString()`. */
  function BoolText(b: bool): string {
    if b then "true" else "false"
  }

  /**
   * The names of the properties every plain JavaScript object inherits
   * from `Object.prototype`; each of them has a truthy value.
   */
  const PrototypeKeys: seq<string> := [
    "constructor", "hasOwnProperty", "isPrototypeOf", "propertyIsEnumerable",
    "toLocaleString", "toString", "valueOf", "__proto__",
    "__defineGetter__", "__defineSetter__", "__lookupGetter__", "__lookupSetter__"]

  /**
   * The saved-theme test as written, `savedTheme && themes[savedTheme]`:
   * true for a theme key, but also for any inherited property name.
   */
  predicate AdoptedAsWritten(saved: Option<string>) {
    saved.Some? && saved.value != "" && (Parse(saved.value).Some? || saved.value in PrototypeKeys)
  }

  /** A saved `toString` passes the test though no theme has that key, so no table entry exists for it. */
  lemma ToStringAdopted()
    ensures AdoptedAsWritten(Some("toString"))
    ensures Parse("toString") == None
  {
    assert PrototypeKeys[5] == "toString";
  }

  /** The saved-theme test as intended: only one of the eight theme keys is adopted. */
  function Adopted(saved: Option<string>): (t: Option<ThemeName>)
    ensures t.Some? <==> saved.Some? && saved.value in KeysOf(Themes)
    ensures t.Some? ==> Key(t.value) == saved.value
  {
    if saved.Some? then Parse(saved.value) else None
  }

  function KeysOf(ts: seq<ThemeName>): seq<string> {
    if ts == [] then [] else [Key(ts[0])] + KeysOf(ts[1..])
  }

  /** The state the load effect leaves, from the initial `light` and not dark. */
  function Load(storage: map<string, string>, systemDark: bool): (r: (ThemeName, bool))
    ensures r.1 <==> (DarkKey in storage && storage[DarkKey] == "true") || systemDark
  {
    var saved := if ThemeKey in storage then Some(storage[ThemeKey]) else None;
    var theme := match Adopted(saved) case Some(t) => t case None => Light;
    var savedDark := DarkKey in storage && storage[DarkKey] == "true";
    (theme, if savedDark then true else systemDark)
  }

  /** A saved theme is adopted exactly when it is one of the eight keys; otherwise the theme stays `light`. */
  lemma LoadTheme(storage: map<string, string>, systemDark: bool)
    ensures ThemeKey in storage && storage[ThemeKey] in KeysOf(Themes) ==>
      Key(Load(storage, systemDark).0) == storage[ThemeKey]
    ensures !(ThemeKey in storage && storage[ThemeKey] in KeysOf(Themes)) ==>
      Load(storage, systemDark).0 == Light
  {
  }

  /** The storage the apply effect leaves. */
  function Persist(storage: map<string, string>, theme: ThemeName, dark: bool): (r: map<string, string>)
    ensures r.Keys == storage.Keys + {ThemeKey, DarkKey}
    ensures forall k :: k in storage && k != ThemeKey && k != DarkKey ==> r[k] == storage[k]
  {
    storage[ThemeKey := Key(theme)][DarkKey := BoolText(dark)]
  }

  /**
   * Reloading after a change restores the theme, and restores dark mode
   * whenever it was on or the system does not prefer dark.
   */
  lemma ReloadRestores(storage: map<string, string>, theme: ThemeName, dark: bool, systemDark: bool)
    ensures Load(Persist(storage, theme, dark), systemDark) == (theme, dark || systemDark)
  {
    ParseKey(theme);
  }

  /** With nothing saved, the theme stays `light` and dark mode follows the system. */
  lemma FirstVisit(systemDark: bool)
    ensures Load(map[], systemDark) == (Light, systemDark)
  {
  }

  /** The hook's state, the document root and the storage. */
  class ThemeState {
    var currentTheme: ThemeName
    var isDark: bool
    var storage: map<string, string>
    /** Whether the root element has class `dark`. */
    var rootDark: bool
    /** The root element's CSS custom properties. */
    var style: map<string, string>

    /** The root and the storage agree with the state, as the apply effect leaves them. */
    ghost predicate Applied()
      reads this
    {
      && rootDark == isDark
      && style == StyleOf(ConfigOf(currentTheme).colors)
      && ThemeKey in storage && storage[ThemeKey] == Key(currentTheme)
      && DarkKey in storage && storage[DarkKey] == BoolText(isDark)
    }

    /** `getThemeConfig()` and `themeConfig`. */
    function ThemeConfig(): (c: Config)
      reads this
      ensures Applied() ==> style == StyleOf(c.colors)
      ensures |c.gradients| == 3
    {
      ConfigOf(currentTheme)
    }

    /** `useState('light')` and `useState(false)`, over the page's storage and root. */
    constructor (saved: map<string, string>)
      ensures currentTheme == Light && !isDark
      ensures storage == saved && !rootDark && style == map[]
    {
      currentTheme := Light;
      isDark := false;
      storage := saved;
      rootDark := false;
      style := map[];
    }

    /** The apply effect: the CSS properties, the `dark` class and the two storage entries. */
    method Apply()
      modifies this
      ensures Applied()
      ensures currentTheme == old(currentTheme) && isDark == old(isDark)
      ensures storage == Persist(old(storage), currentTheme, isDark)
    {
      style := StyleOf(ConfigOf(currentTheme).colors);
      rootDark := isDark;
      storage := Persist(storage, currentTheme, isDark);
    }

    /** Mounting: the load effect, then the apply effect on the loaded state. */
    method Mount(systemDark: bool)
      modifies this
      ensures (currentTheme, isDark) == Load(old(storage), systemDark)
      ensures Applied()
      ensures storage == Persist(old(storage), currentTheme, isDark)
    {
      var loaded := Load(storage, systemDark);
      currentTheme := loaded.0;
      isDark := loaded.1;
      Apply();
    }

    /** `changeTheme`. */
    method ChangeTheme(t: ThemeName)
      modifies this
      ensures currentTheme == t && isDark == old(isDark)
      ensures Applied()
      ensures storage == Persist(old(storage), currentTheme, isDark)
    {
      currentTheme := t;
      Apply();
    }

    /** `toggleDarkMode`. */
    method ToggleDarkMode()
      modifies this
      ensures isDark == !old(isDark) && currentTheme == old(currentTheme)
      ensures Applied()
      ensures storage == Persist(old(storage), currentTheme, isDark)
    {
      isDark := !isDark;
      Apply();
    }
  }
}
