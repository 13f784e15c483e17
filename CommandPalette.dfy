/**
 * The command palette's consumer: navigation, theme and language actions
 * that each end by closing the palette, the open-change callback of the
 * drawer or dialog, and the order and check marks of its theme and
 * language items. The router is modelled as an object holding the current
 * path; the theme provider as `ThemeStore`.
 */
module CommandPalette {
  import opened Wrappers
  import opened Counting
  import opened Themes
  import opened ThemeToggle
  import opened LanguageProvider
  import opened CommandMenu

  /** The router's location; `navigate(path)` replaces it. */
  class Router {
    var path: string

    constructor (path: string)
      ensures this.path == path
    {
      this.path := path;
    }

    method Navigate(p: string)
      modifies this
      ensures path == p
    {
      path := p;
    }
  }

  /** The targets of the Navigation group, in display order. */
  const NavPaths: seq<string> := ["/", "/about", "/projects", "/skills", "/experience", "/services", "/contact"]

  /** The Language group, in display order. */
  const LanguageItems: seq<Language> := [En, De, Es, Ja, Cn, Ru]

  class Palette {
    const menu: CommandMenuStore
    const router: Router
    const themes: ThemeStore
    const languages: LanguageProvider

    constructor (menu: CommandMenuStore, router: Router, themes: ThemeStore, languages: LanguageProvider)
      ensures this.menu == menu && this.router == router
      ensures this.themes == themes && this.languages == languages
    {
      this.menu := menu;
      this.router := router;
      this.themes := themes;
      this.languages := languages;
    }

    /** `handleNavigation`: go to `path`, then close. */
    method HandleNavigation(path: string)
      modifies router, menu
      ensures router.path == path && !menu.isOpen
      ensures themes.theme == old(themes.theme) && languages.language == old(languages.language)
    {
      router.Navigate(path);
      menu.Close();
    }

    /** `handleThemeChange`: set the theme to the chosen registry value, then close. */
    method HandleThemeChange(newTheme: string)
      requires newTheme in AllThemeValues()
      modifies themes, menu
      ensures themes.theme == newTheme && !menu.isOpen
      ensures router.path == old(router.path) && languages.language == old(languages.language)
    {
      themes.SetTheme(newTheme);
      menu.Close();
    }

    /** `handleLanguageChange`: set (and store) the language, then close. */
    method HandleLanguageChange(newLanguage: Language)
      modifies languages, languages.store, menu
      ensures languages.language == Code(newLanguage) && !menu.isOpen
      ensures languages.store.entries == old(languages.store.entries)[languages.storageKey := Code(newLanguage)]
      ensures router.path == old(router.path) && themes.theme == old(themes.theme)
    {
      languages.SetLanguage(newLanguage);
      menu.Close();
    }

    /** The drawer's and the dialog's `onOpenChange`: the requested state is ignored and the palette closes. */
    method OnOpenChange(open: bool)
      modifies menu
      ensures !menu.isOpen
    {
      menu.Close();
    }
  }

  /** The Theme group: the standard themes, a separator, then the custom ones. */
  function ThemeItems(): (r: seq<ThemeConfig>)
    ensures r == Registry
  {
    StandardThemes() + CustomThemes()
  }

  /** The check marks of the Theme group, in item order. */
  function ThemeChecks(theme: string): (r: seq<bool>)
    ensures |r| == |Registry|
    ensures forall i :: 0 <= i < |Registry| ==> (r[i] <==> Registry[i].value == theme)
  {
    MenuCheckMarks(theme);
    CheckMarks(StandardThemes(), theme) + CheckMarks(CustomThemes(), theme)
  }

  /** The check marks of the Language group, in item order. */
  function LanguageChecks(language: string): (r: seq<bool>)
    ensures |r| == |LanguageItems|
    ensures forall i :: 0 <= i < |LanguageItems| ==> (r[i] <==> Code(LanguageItems[i]) == language)
  {
    seq(|LanguageItems|, i requires 0 <= i < |LanguageItems| => Code(LanguageItems[i]) == language)
  }

  // ---------------------------------------------------------------- lemmas

  /** At most one theme item is checked, and one is exactly when the theme is a registry value. */
  lemma ThemeChecksAtMostOne(theme: string)
    ensures CountTrue(ThemeChecks(theme)) <= 1
    ensures (CountTrue(ThemeChecks(theme)) == 1) == (exists i :: 0 <= i < |Registry| && Registry[i].value == theme)
  {
    MenuChecksAtMostOne(theme);
    MenuCheckMarks(theme);
    RegistryValuesDistinct();
    CheckMarksAtMostOne(Registry, theme);
  }

  /** Every language has an item in the Language group. */
  lemma LanguageItemsComplete(l: Language)
    ensures l in LanguageItems
  {
    match l
    case En => assert LanguageItems[0] == En;
    case De => assert LanguageItems[1] == De;
    case Es => assert LanguageItems[2] == Es;
    case Ja => assert LanguageItems[3] == Ja;
    case Cn => assert LanguageItems[4] == Cn;
    case Ru => assert LanguageItems[5] == Ru;
  }

  /** For a language code exactly one language item is checked, the one with that code. */
  lemma {:induction false} LanguageCheckedOnce(l: Language)
    ensures CountTrue(LanguageChecks(Code(l))) == 1
  {
    var checks := LanguageChecks(Code(l));
    var k: nat := match l
      case En => 0 case De => 1 case Es => 2 case Ja => 3 case Cn => 4 case Ru => 5;
    assert LanguageItems[k] == l;
    forall i | 0 <= i < |checks| && i != k ensures !checks[i] {
      CodeRoundTrip(l);
      CodeRoundTrip(LanguageItems[i]);
    }
    CountTrueSingle(checks, k);
  }

  /** For any string that is not one of the six codes, no language item is checked. */
  lemma LanguageUncheckedOtherwise(language: string)
    requires ParseCode(language).None?
    ensures CountTrue(LanguageChecks(language)) == 0
  {
    var checks := LanguageChecks(language);
    forall i | 0 <= i < |checks| ensures !checks[i] {
      CodeRoundTrip(LanguageItems[i]);
    }
  }

  /** So exactly one language item is checked iff the language is one of the six codes. */
  lemma LanguageChecksExactlyOne(language: string)
    ensures CountTrue(LanguageChecks(language)) == 1 <==> ParseCode(language).Some?
  {
    match ParseCode(language)
    case Some(l) => LanguageCheckedOnce(l);
    case None => LanguageUncheckedOtherwise(language);
  }

  /** The navigation targets are distinct. */
  lemma NavPathsDistinct()
    ensures forall i, j :: 0 <= i < j < |NavPaths| ==> NavPaths[i] != NavPaths[j]
  {
  }
}
