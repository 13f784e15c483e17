/**
 * The About page's own light/dark test, written independently of the theme
 * registry as a hard-coded list of dark theme names, and the portrait it
 * selects. The OS dark-mode flag is a parameter.
 */
module About {
  import opened Themes

  /** The names the page treats as dark; "sunset" and "perpetuity" are not registry values. */
  const DarkLiterals: seq<string> := ["dark", "cyber", "forest", "amethyst", "sunset", "perpetuity"]

  const DarkPortrait := "/ysz-d.png"
  const LightPortrait := "/ysz-l.png"

  /** `isDarkTheme`: a listed dark name, or `system` while the OS reports dark. */
  function IsDarkTheme(theme: string, osPrefersDark: bool): (dark: bool)
    ensures dark <==> theme in DarkLiterals || (theme == SystemValue && osPrefersDark)
  {
    if theme == "dark" || theme == "cyber" || theme == "forest" || theme == "amethyst"
       || theme == "sunset" || theme == "perpetuity" then true
    else if theme == SystemValue then osPrefersDark
    else false
  }

  /** The portrait source on the About page. */
  function PortraitSrc(theme: string, osPrefersDark: bool): (src: string)
    ensures src == DarkPortrait || src == LightPortrait
    ensures src == DarkPortrait <==> IsDarkTheme(theme, osPrefersDark)
  {
    if IsDarkTheme(theme, osPrefersDark) then DarkPortrait else LightPortrait
  }

  /** The six listed names are dark whatever the OS says; `system` is dark exactly when the OS is. */
  lemma DarkLiteralsAreDark(osPrefersDark: bool)
    ensures forall v :: v in DarkLiterals ==> IsDarkTheme(v, osPrefersDark)
    ensures IsDarkTheme(SystemValue, osPrefersDark) == osPrefersDark
  {
  }

  /** Every other name, registered light themes and unknown strings alike, is not dark. */
  lemma OtherNamesNotDark(v: string, osPrefersDark: bool)
    requires v !in DarkLiterals && v != SystemValue
    ensures !IsDarkTheme(v, osPrefersDark)
  {
  }

  /** The two extra dark names are not registry values, so they matter only for unregistered input. */
  lemma ExtraDarkLiteralsUnregistered()
    ensures "sunset" !in AllThemeValues() && "perpetuity" !in AllThemeValues()
  {
    SunsetUnregistered();
    PerpetuityUnregistered();
  }

  lemma SunsetUnregistered()
    ensures "sunset" !in AllThemeValues()
  {
    AllThemeValuesListed();
  }

  lemma PerpetuityUnregistered()
    ensures "perpetuity" !in AllThemeValues()
  {
    AllThemeValuesListed();
  }

  /** Entry by entry, the hard-coded test matches the static type of every entry but `system`. */
  lemma RegistryEntryDarkness(i: nat, osPrefersDark: bool)
    requires i < |Registry| && i != 2
    ensures IsDarkTheme(Registry[i].value, osPrefersDark) <==> Registry[i].scheme == Dark
  {
    if i == 0 {} else if i == 1 {} else if i == 3 {} else if i == 4 {} else if i == 5 {}
    else if i == 6 {} else if i == 7 {} else if i == 8 {} else {}
  }

  /** The agreement, stated for the entry at index `i`. */
  lemma {:induction false} EntryAgrees(i: nat, osPrefersDark: bool)
    requires i < |Registry|
    ensures IsDarkTheme(Registry[i].value, osPrefersDark) <==> GetThemeType(Registry[i].value, osPrefersDark) == Dark
  {
    if i == 2 {
      SystemFollowsOs(osPrefersDark);
    } else {
      RegisteredThemeType(i, osPrefersDark);
      RegistryEntryDarkness(i, osPrefersDark);
    }
  }

  /**
   * The page's hard-coded list agrees with the registry: for every registered
   * value, `isDarkTheme` holds exactly when `getThemeType` says dark, under
   * the same OS flag.
   */
  lemma {:induction false} IsDarkAgreesWithRegistry(v: string, osPrefersDark: bool)
    requires v in AllThemeValues()
    ensures IsDarkTheme(v, osPrefersDark) <==> GetThemeType(v, osPrefersDark) == Dark
  {
    var i := RegisteredIndex(v);
    EntryAgrees(i, osPrefersDark);
  }

  /** Hence on registered themes the portrait is the dark one exactly for dark-typed themes. */
  lemma PortraitFollowsRegistry(v: string, osPrefersDark: bool)
    requires v in AllThemeValues()
    ensures PortraitSrc(v, osPrefersDark) == (if GetThemeType(v, osPrefersDark) == Dark then DarkPortrait else LightPortrait)
  {
    IsDarkAgreesWithRegistry(v, osPrefersDark);
  }
}
