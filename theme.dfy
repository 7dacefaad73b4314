/** The theme provider (contexts/ThemeContext.tsx): the chosen mode, its
    resolution against the device's colour scheme, the toggle, and the
    saved preference. The mode is kept as text because a saved preference
    is taken as it is read back, whatever it says. Storage reads and writes
    are modelled as an input and a list of writes. */
module Theme {
  import opened JsValue

  const Light: string := "light"
  const Dark: string := "dark"
  const System: string := "system"

  /** `useColorScheme() || 'light'`. */
  function DeviceTheme(scheme: Option<string>): (r: string)
    ensures r != ""
    ensures scheme.Some? && scheme.value != "" ==> r == scheme.value
    ensures !(scheme.Some? && scheme.value != "") ==> r == Light
  {
    if scheme.Some? && scheme.value != "" then scheme.value else Light
  }

  /** `theme === 'system' ? deviceTheme : theme`. */
  function CurrentTheme(theme: string, deviceTheme: string): (r: string)
    ensures theme == System ==> r == deviceTheme
    ensures theme != System ==> r == theme
  {
    if theme == System then deviceTheme else theme
  }

  /** The mode `toggleTheme` sets: the opposite of the device theme from
      'system', the opposite of the mode otherwise (anything but 'light'
      counts as dark). */
  function Toggled(theme: string, deviceTheme: string): (r: string)
    ensures r == Light || r == Dark
    ensures r == (if CurrentTheme(theme, deviceTheme) == Light then Dark else Light)
  {
    if theme == System then (if deviceTheme == Light then Dark else Light)
    else (if theme == Light then Dark else Light)
  }

  /** The toggle never selects 'system', and the applied theme always
      changes. */
  lemma ToggleFlips(theme: string, deviceTheme: string)
    ensures Toggled(theme, deviceTheme) != System
    ensures CurrentTheme(Toggled(theme, deviceTheme), deviceTheme) != CurrentTheme(theme, deviceTheme)
  {
  }

  /** From an explicit light or dark mode, two toggles restore it; from
      'system' they leave the explicit mode matching the device. */
  lemma ToggleTwice(theme: string, deviceTheme: string)
    ensures theme == Light || theme == Dark ==> Toggled(Toggled(theme, deviceTheme), deviceTheme) == theme
    ensures theme == System && (deviceTheme == Light || deviceTheme == Dark) ==>
      Toggled(Toggled(theme, deviceTheme), deviceTheme) == deviceTheme
  {
  }

  class ThemeProvider {
    const deviceTheme: string
    var theme: string
    var isLoading: bool
    /** The values written to the 'theme' storage key, in order. */
    var writes: seq<string>

    constructor(scheme: Option<string>)
      ensures deviceTheme == DeviceTheme(scheme)
      ensures theme == System && isLoading && writes == []
    {
      deviceTheme := DeviceTheme(scheme);
      theme := System;
      isLoading := true;
      writes := [];
    }

    function Current(): string
      reads this
    {
      CurrentTheme(theme, deviceTheme)
    }

    /** The end of `loadTheme`: a non-empty saved value becomes the mode
        (`None` stands for no saved value or a failed read), loading ends,
        and the save effect writes the resulting mode back. */
    method LoadTheme(saved: Option<string>)
      modifies this
      ensures theme == (if saved.Some? && saved.value != "" then saved.value else old(theme))
      ensures !isLoading
      ensures old(isLoading) || theme != old(theme) ==> writes == old(writes) + [theme]
      ensures !(old(isLoading) || theme != old(theme)) ==> writes == old(writes)
    {
      var before := theme;
      var wasLoading := isLoading;
      if saved.Some? && saved.value != "" {
        theme := saved.value;
      }
      isLoading := false;
      SaveEffect(before, wasLoading);
    }

    /** The save effect, which runs when the mode or the loading flag
        changed and writes only once loading is over. */
    method SaveEffect(previousTheme: string, previousLoading: bool)
      modifies this
      ensures theme == old(theme) && isLoading == old(isLoading)
      ensures !isLoading && (theme != previousTheme || isLoading != previousLoading) ==> writes == old(writes) + [theme]
      ensures !(!isLoading && (theme != previousTheme || isLoading != previousLoading)) ==> writes == old(writes)
    {
      if !isLoading && (theme != previousTheme || isLoading != previousLoading) {
        writes := writes + [theme];
      }
    }

    method SetTheme(newTheme: string)
      modifies this
      ensures theme == newTheme && isLoading == old(isLoading)
      ensures !isLoading && newTheme != old(theme) ==> writes == old(writes) + [newTheme]
      ensures !(!isLoading && newTheme != old(theme)) ==> writes == old(writes)
    {
      var before := theme;
      theme := newTheme;
      SaveEffect(before, isLoading);
    }

    /** `toggleTheme`: the applied theme flips and the mode becomes
        explicit. */
    method ToggleTheme()
      modifies this
      ensures theme == Toggled(old(theme), deviceTheme)
      ensures theme != System && Current() != old(Current())
      ensures isLoading == old(isLoading)
      ensures !isLoading && theme != old(theme) ==> writes == old(writes) + [theme]
      ensures !(!isLoading && theme != old(theme)) ==> writes == old(writes)
    {
      ToggleFlips(theme, deviceTheme);
      if theme == System {
        SetTheme(if deviceTheme == Light then Dark else Light);
      } else {
        SetTheme(if theme == Light then Dark else Light);
      }
    }
  }
}
