/**
 * The colour mode shared by `useColorMode` (src/web/color-mode.ts) and
 * `useDark` (src/web/dark.ts): the `isDark` memo's switch and the option
 * defaults.
 */
module Theme {
  import opened Wrappers

  datatype ColorMode = Auto | Light | Dark

  /** The `isDark` memo: 'auto' follows the preference, 'light' is false, 'dark' is true. */
  function IsDark(mode: ColorMode, preferredDark: bool): (dark: bool)
    ensures dark <==> mode == Dark || (mode == Auto && preferredDark)
    ensures mode == Light ==> !dark
  {
    match mode
    case Auto => preferredDark
    case Light => false
    case Dark => true
  }

  lemma IsDarkCases(preferredDark: bool)
    ensures IsDark(Auto, preferredDark) == preferredDark
    ensures !IsDark(Light, preferredDark)
    ensures IsDark(Dark, preferredDark)
  {
  }

  /** The name written to the element: 'dark' or 'light'. */
  function ModeName(isDark: bool): (name: string)
    ensures name == "dark" <==> isDark
    ensures name == "light" <==> !isDark
  {
    if isDark then "dark" else "light"
  }

  /** The options both hooks read; an absent field takes its default. */
  datatype ThemeOptions = ThemeOptions(
    initialMode: Option<ColorMode>,
    selector: Option<string>,
    attribute: Option<string>,
    disableTransition: Option<bool>,
    colorScheme: bool)

  datatype Settings = Settings(
    initialMode: ColorMode,
    selector: string,
    attribute: string,
    disableTransition: bool,
    colorScheme: bool)

  /** Defaults: mode 'auto', selector 'html', attribute 'class', transitions disabled. */
  function Resolve(o: ThemeOptions): (s: Settings)
    ensures o.initialMode.None? ==> s.initialMode == Auto
    ensures o.selector.None? ==> s.selector == "html"
    ensures o.attribute.None? ==> s.attribute == "class"
    ensures o.disableTransition.None? ==> s.disableTransition
    ensures o.initialMode.Some? ==> s.initialMode == o.initialMode.value
    ensures o.selector.Some? ==> s.selector == o.selector.value
    ensures o.attribute.Some? ==> s.attribute == o.attribute.value
    ensures o.disableTransition.Some? ==> s.disableTransition == o.disableTransition.value
    ensures s.colorScheme == o.colorScheme
  {
    Settings(o.initialMode.GetOr(Auto), o.selector.GetOr("html"), o.attribute.GetOr("class"),
             o.disableTransition.GetOr(true), o.colorScheme)
  }
}
