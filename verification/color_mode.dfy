/**
 * `useColorMode(options)` (src/web/color-mode.ts): a mode signal, the
 * `isDark` memo over the mode and the system preference, and a render
 * effect that writes the theme to the element the selector finds.
 *
 * The runtime is replaced by explicit calls: the element `querySelector`
 * returns when the effect runs is a parameter (`null` when nothing matches),
 * the preference is a field updated by `SetPreferredDark`, and the value
 * handed to `onChanged` is returned.
 */
module ColorMode {
  import opened Wrappers
  import opened Dom
  import opened Theme

  /** The class list after the effect: 'light' and 'dark' removed, then the mode name added. */
  function ClassTheme(classes: set<string>, isDark: bool): (r: set<string>)
  {
    classes - {"light", "dark"} + {ModeName(isDark)}
  }

  /**
   * Exactly one of 'light' and 'dark' is present afterwards, the one naming
   * the mode; every other class is kept as it was.
   */
  lemma ClassThemeExact(classes: set<string>, isDark: bool)
    ensures ("dark" in ClassTheme(classes, isDark)) == isDark
    ensures ("light" in ClassTheme(classes, isDark)) == !isDark
    ensures forall c :: c != "light" && c != "dark" ==> (c in ClassTheme(classes, isDark) <==> c in classes)
  {
  }

  /** Applying one theme after another leaves the class list the last one gives. */
  lemma ClassThemeLastWins(classes: set<string>, first: bool, second: bool)
    ensures ClassTheme(ClassTheme(classes, first), second) == ClassTheme(classes, second)
  {
  }

  /** What one run of the effect leaves on `el`, relative to the state before it. */
  twostate predicate Themed(el: Element, attribute: string, colorScheme: bool, isDark: bool)
    reads el
  {
    && el.classList == (if attribute == "class" then ClassTheme(old(el.classList), isDark) else old(el.classList))
    && el.attributes == (if attribute == "class" then old(el.attributes) else old(el.attributes)[attribute := ModeName(isDark)])
    && el.colorScheme == (if colorScheme then ModeName(isDark) else old(el.colorScheme))
  }

  /**
   * The body of the render effect for the memo value `isDark`: without an
   * element it returns at once and `onChanged` is not called; otherwise the
   * class list (attribute 'class') or the named attribute, and with
   * `colorScheme` the style's colour scheme, are set to the mode name, and
   * `onChanged` receives `isDark`.
   */
  method Apply(el: Element?, attribute: string, colorScheme: bool, isDark: bool) returns (changed: Option<bool>)
    modifies el
    ensures el == null ==> changed == None
    ensures el != null ==> changed == Some(isDark) && Themed(el, attribute, colorScheme, isDark)
  {
    if el == null {
      return None;
    }
    var name := ModeName(isDark);
    if attribute == "class" {
      el.classList := el.classList - {"light", "dark"};
      el.classList := el.classList + {name};
    } else {
      el.attributes := el.attributes[attribute := name];
    }
    if colorScheme {
      el.colorScheme := name;
    }
    changed := Some(isDark);
  }

  class ColorModeHook {
    const settings: Settings
    /** The `mode` signal. */
    var mode: ColorMode
    /** The `prefers-color-scheme: dark` media query signal. */
    var preferredDark: bool
    /** The `isDark` memo's current value. */
    var isDark: bool

    predicate Valid()
      reads this
    {
      isDark == IsDark(mode, preferredDark)
    }

    /** The options with their defaults, the mode signal at `initialMode` and the memo evaluated. */
    constructor (options: ThemeOptions, preferredDark: bool)
      ensures Valid()
      ensures settings == Resolve(options) && mode == settings.initialMode
      ensures this.preferredDark == preferredDark
    {
      settings := Resolve(options);
      mode := Resolve(options).initialMode;
      this.preferredDark := preferredDark;
      isDark := IsDark(Resolve(options).initialMode, preferredDark);
    }

    /** One run of the effect on the element found now. */
    method RunEffect(el: Element?) returns (changed: Option<bool>)
      modifies el
      ensures el == null ==> changed == None
      ensures el != null ==> changed == Some(isDark) && Themed(el, settings.attribute, settings.colorScheme, isDark)
    {
      changed := Apply(el, settings.attribute, settings.colorScheme, isDark);
    }

    /**
     * `setMode(m)`: the memo is re-evaluated, and the effect runs again only
     * when `isDark` changed value.
     */
    method SetMode(m: ColorMode, el: Element?) returns (changed: Option<bool>)
      requires Valid()
      modifies this, el
      ensures Valid() && mode == m && preferredDark == old(preferredDark)
      ensures isDark == IsDark(m, old(preferredDark))
      ensures isDark == old(isDark) ==> changed == None && (el != null ==> unchanged(el))
      ensures isDark != old(isDark) && el == null ==> changed == None
      ensures isDark != old(isDark) && el != null ==>
                changed == Some(isDark) && Themed(el, settings.attribute, settings.colorScheme, isDark)
    {
      mode := m;
      var next := IsDark(m, preferredDark);
      if next == isDark {
        return None;
      }
      isDark := next;
      changed := RunEffect(el);
    }

    /**
     * The preference changes: it is tracked, so under 'auto' the memo
     * follows it and the effect runs when `isDark` changed value.
     */
    method SetPreferredDark(p: bool, el: Element?) returns (changed: Option<bool>)
      requires Valid()
      modifies this, el
      ensures Valid() && preferredDark == p && mode == old(mode)
      ensures isDark == old(isDark) ==> changed == None && (el != null ==> unchanged(el))
      ensures isDark != old(isDark) && el == null ==> changed == None
      ensures isDark != old(isDark) && el != null ==>
                changed == Some(isDark) && Themed(el, settings.attribute, settings.colorScheme, isDark)
    {
      preferredDark := p;
      var next := IsDark(mode, p);
      if next == isDark {
        return None;
      }
      isDark := next;
      changed := RunEffect(el);
    }
  }

  /** `useColorMode(options)`: the hook is created and its render effect runs once straight away. */
  method UseColorMode(options: ThemeOptions, preferredDark: bool, el: Element?) returns (h: ColorModeHook, changed: Option<bool>)
    modifies el
    ensures fresh(h) && h.Valid() && h.settings == Resolve(options)
    ensures h.mode == h.settings.initialMode && h.preferredDark == preferredDark
    ensures el == null ==> changed == None
    ensures el != null ==> changed == Some(h.isDark) && Themed(el, h.settings.attribute, h.settings.colorScheme, h.isDark)
  {
    h := new ColorModeHook(options, preferredDark);
    changed := h.RunEffect(el);
  }

  /**
   * With the defaults and a dark preference: the root element gets 'dark' in
   * place of 'light', keeps its other classes, and `onChanged` sees true;
   * switching to 'light' swaps the class back.
   */
  method DefaultTrace() returns (first: Option<bool>, second: Option<bool>, classes: set<string>)
    ensures first == Some(true) && second == Some(false)
    ensures classes == {"app", "light"}
  {
    var root := new Element({"app", "light"}, map[]);
    var h;
    h, first := UseColorMode(ThemeOptions(None, None, None, None, false), true, root);
    second := h.SetMode(Light, root);
    classes := root.classList;
  }
}
