/**
 * `useDark(options)` (src/web/dark.ts): like `useColorMode`, but the memo
 * reads the preference untracked, the effect only adds or removes 'dark',
 * and another attribute is always set to 'dark'.
 *
 * As in the `ColorMode` module, the element found when the effect runs is a
 * parameter and the value handed to `onChanged` is returned.
 */
module Dark {
  import opened Wrappers
  import opened Dom
  import opened Theme

  /** The class list after the effect: 'dark' added when dark, removed when light. */
  function DarkClasses(classes: set<string>, value: bool): (r: set<string>)
  {
    if value then classes + {"dark"} else classes - {"dark"}
  }

  /** 'dark' is present exactly when the value is true; every other class, 'light' included, is kept. */
  lemma DarkClassesExact(classes: set<string>, value: bool)
    ensures ("dark" in DarkClasses(classes, value)) == value
    ensures forall c :: c != "dark" ==> (c in DarkClasses(classes, value) <==> c in classes)
  {
  }

  /** The attributes after the effect: a non-class attribute is set to 'dark'. */
  function DarkAttributes(attrs: map<string, string>, attribute: string, value: bool): (r: map<string, string>)
  {
    if attribute == "class" then attrs else attrs[attribute := "dark"]
  }

  /**
   * As written, the attribute branch does not depend on the value: light and
   * dark leave the same attributes, with the attribute reading 'dark'.
   */
  lemma AttributeIgnoresValue(attrs: map<string, string>, attribute: string)
    ensures DarkAttributes(attrs, attribute, true) == DarkAttributes(attrs, attribute, false)
    ensures attribute != "class" ==> DarkAttributes(attrs, attribute, false)[attribute] == "dark"
    ensures attribute == "class" ==> DarkAttributes(attrs, attribute, false) == attrs
  {
  }

  /** What one run of the effect leaves on `el`, relative to the state before it. */
  twostate predicate Darkened(el: Element, attribute: string, value: bool)
    reads el
  {
    && el.classList == (if attribute == "class" then DarkClasses(old(el.classList), value) else old(el.classList))
    && el.attributes == DarkAttributes(old(el.attributes), attribute, value)
    && el.colorScheme == old(el.colorScheme)
  }

  /**
   * The body of the effect for the memo value `value`: without an element
   * it returns at once and `onChanged` is not called; otherwise it updates
   * the class list or the attribute, and `onChanged` receives `value`.
   */
  method ApplyDark(el: Element?, attribute: string, value: bool) returns (changed: Option<bool>)
    modifies el
    ensures el == null ==> changed == None
    ensures el != null ==> changed == Some(value) && Darkened(el, attribute, value)
  {
    if el == null {
      return None;
    }
    if attribute == "class" {
      if value {
        el.classList := el.classList + {"dark"};
      } else {
        el.classList := el.classList - {"dark"};
      }
    } else {
      el.attributes := el.attributes[attribute := "dark"];
    }
    changed := Some(value);
  }

  class DarkHook {
    const settings: Settings
    /** The `mode` signal. */
    var mode: ColorMode
    /** The preference media query signal. */
    var preferredDark: bool
    /** The preference the memo read when it last ran. */
    var seenPreference: bool
    /** The `isDark` memo's current value. */
    var isDark: bool

    predicate Valid()
      reads this
    {
      isDark == IsDark(mode, seenPreference)
    }

    /**
     * The options with their defaults ('auto', 'html', 'class', transitions
     * disabled), the mode signal at `initialMode` and the memo evaluated.
     */
    constructor (options: ThemeOptions, preferredDark: bool)
      ensures Valid()
      ensures settings == Resolve(options.(colorScheme := false))
      ensures mode == settings.initialMode
      ensures this.preferredDark == preferredDark && seenPreference == preferredDark
      ensures isDark == IsDark(settings.initialMode, preferredDark)
    {
      settings := Resolve(options.(colorScheme := false));
      mode := Resolve(options).initialMode;
      this.preferredDark := preferredDark;
      seenPreference := preferredDark;
      isDark := IsDark(Resolve(options).initialMode, preferredDark);
    }

    /** One run of the effect on the element found now. */
    method RunEffect(el: Element?) returns (changed: Option<bool>)
      modifies el
      ensures el == null ==> changed == None
      ensures el != null ==> changed == Some(isDark) && Darkened(el, settings.attribute, isDark)
    {
      changed := ApplyDark(el, settings.attribute, isDark);
    }

    /**
     * `setMode(m)`: setting the current mode again notifies nobody.
     * Otherwise the memo re-runs, reading the preference as it is now, and
     * the effect runs when `isDark` changed value.
     */
    method SetMode(m: ColorMode, el: Element?) returns (changed: Option<bool>)
      requires Valid()
      modifies this, el
      ensures Valid() && mode == m && preferredDark == old(preferredDark)
      ensures m == old(mode) ==> isDark == old(isDark) && seenPreference == old(seenPreference)
      ensures m != old(mode) ==> isDark == IsDark(m, preferredDark) && seenPreference == preferredDark
      ensures isDark == old(isDark) ==> changed == None && (el != null ==> unchanged(el))
      ensures isDark != old(isDark) && el == null ==> changed == None
      ensures isDark != old(isDark) && el != null ==> changed == Some(isDark) && Darkened(el, settings.attribute, isDark)
    {
      if m == mode {
        return None;
      }
      mode := m;
      seenPreference := preferredDark;
      var next := IsDark(m, preferredDark);
      if next == isDark {
        return None;
      }
      isDark := next;
      changed := RunEffect(el);
    }

    /** The preference changes: it is read untracked, so neither the memo nor the effect runs. */
    method SetPreferredDark(p: bool)
      requires Valid()
      modifies this
      ensures Valid() && preferredDark == p
      ensures mode == old(mode) && isDark == old(isDark) && seenPreference == old(seenPreference)
    {
      preferredDark := p;
    }
  }

  /** `useDark(options)`: the hook is created and its effect runs once. */
  method UseDark(options: ThemeOptions, preferredDark: bool, el: Element?) returns (h: DarkHook, changed: Option<bool>)
    modifies el
    ensures fresh(h) && h.Valid() && h.settings == Resolve(options.(colorScheme := false))
    ensures h.mode == h.settings.initialMode && h.preferredDark == preferredDark
    ensures h.isDark == IsDark(h.settings.initialMode, preferredDark)
    ensures el == null ==> changed == None
    ensures el != null ==> changed == Some(h.isDark) && Darkened(el, h.settings.attribute, h.isDark)
  {
    h := new DarkHook(options, preferredDark);
    changed := h.RunEffect(el);
  }

  /**
   * Under 'auto' with a light preference, the preference turning dark is
   * not seen: `isDark` stays false until the mode itself changes.
   */
  method StalePreferenceTrace() returns (afterPreference: bool, afterDark: bool, afterAuto: bool)
    ensures !afterPreference && afterDark && afterAuto
  {
    var h := new DarkHook(ThemeOptions(None, None, None, None, false), false);
    h.SetPreferredDark(true);
    afterPreference := h.isDark;
    var _ := h.SetMode(Theme.Dark, null);
    afterDark := h.isDark;
    var _ := h.SetMode(Auto, null);
    afterAuto := h.isDark;
  }

  /** With a data attribute, switching to light still writes 'dark'. */
  method AttributeTrace() returns (value: string)
    ensures value == "dark"
  {
    var root := new Element({}, map[]);
    var h, _ := UseDark(ThemeOptions(Some(Theme.Dark), None, Some("data-theme"), None, false), false, root);
    var _ := h.SetMode(Light, root);
    value := root.attributes["data-theme"];
  }
}
