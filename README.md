# Portfolio site logic, modelled in Dafny

This project models the decision logic of a React portfolio site. It covers:

- the theme registry and how a selected theme is resolved to light or dark;
- the theme toggle and the About page's own dark-theme test;
- the language preference kept in browser storage;
- the command palette: its open/closed store, its keyboard shortcut, and the actions that close it;
- the navigation bar's mobile menu and scroll lock;
- which routes show the toggles and the footer;
- the project-page registry and the `/projects/:slug` route;
- the projects listing;
- the MDX rendering rules;
- the cycling name in the greeting;
- the 404 page's terminal animation;
- the contact form's state.

There is one Dafny module per source file:

| module | source file | form |
|---|---|---|
| `Themes` | `src/config/themes.ts` | functions and lemmas |
| `About` | `src/pages/About.tsx` | functions and lemmas |
| `ThemeToggle` | `src/components/theme-toggle.tsx` | classes (`ThemeStore`, `ThemeToggle`) plus functions for what is rendered |
| `LanguageProvider` | `src/lib/language-provider.tsx` | classes (`Storage` for `localStorage`, `LanguageProvider`) |
| `CommandMenu` | `src/hooks/use-command-menu.tsx` | class `CommandMenuStore` |
| `CommandPalette` | `src/components/Command.tsx` | class `Palette` over the stores it drives |
| `Navigation` | `src/components/Navigation.tsx` | class `Navigation` |
| `Conditionals` | `src/components/Conditionals.tsx` | functions and lemmas |
| `ProjectsConfig` | `src/config/projects.ts` | data and lookup functions |
| `ProjectPageRenderer` | `src/pages/projects/ProjectPageRenderer.tsx` | functions and lemmas |
| `ProjectsPage` | `src/pages/Projects.tsx` | functions and lemmas |
| `MdxComponents` | `src/components/MDXComponents.tsx` | functions and lemmas |
| `NameMorpher` | `src/components/NameMorpher.tsx` | class `NameMorpher` for the index state |
| `NotFound` | `src/pages/NotFound.tsx` | class `Terminal` for the typing state |
| `Contact` | `src/pages/Contact.tsx` | class `ContactForm` |

Three helper modules support the others:

- `Wrappers` provides `Option` and `Result`.
- `JsStrings` gives the JavaScript semantics of `startsWith`, `includes`, first-occurrence `replace` and truthiness. An empty string is falsy.
- `Counting` counts `true` entries, for "at most one item is checked" statements.

Browser capabilities are parameters or fields:

- the `prefers-color-scheme` flag;
- `localStorage`, as a string map;
- timers, as explicit `Tick` calls;
- the outcome of the form POST;
- DOM `contains` tests, as booleans;
- the router location.

Two behaviours of the language provider are easy to miss:

- **Unrecognised stored language.** The provider casts the stored string and adopts it without checking that it is one of the six codes. `LanguageProvider.UncheckedStoredValue` shows this.
- **Unavailable storage.** The code reads and writes `localStorage` with no guard, so a browser with storage disabled throws. The model's storage always answers, and the throwing case is listed below.

## Model

| member | source | states |
|---|---|---|
| Themes.FilterByCustom | src/config/themes.ts:111-112 | every kept entry is of the requested kind, and the result is never longer than the input |
| Themes.Values | src/config/themes.ts:114 | one value per entry, position by position |
| Themes.Find | src/config/themes.ts:125 | a found entry is in the list and has the searched value; nothing is found exactly when no entry has that value |
| Themes.GetThemeType | src/config/themes.ts:117-128 | system is dark iff the OS prefers dark; any other value is dark iff a registry entry with that value is tagged dark, so unregistered values are light |
| Themes.FilterMembers | src/config/themes.ts:111-112 | an entry is in a filtered list iff it is in the input and of that kind |
| Themes.FilterPartition | src/config/themes.ts:111-112 | the standard and custom lists split the registry: lengths add up and the multisets sum to the input |
| Themes.FilterOfSortedList | src/config/themes.ts:111-112 | on a list ordered "standard, then custom" the two filters are exactly the two halves, in order |
| Themes.StandardThemes | src/config/themes.ts:111 | STANDARD_THEMES is the registry's first three entries (light, dark, system), in order |
| Themes.CustomThemes | src/config/themes.ts:112 | CUSTOM_THEMES is the other seven entries, in registry order |
| Themes.AllThemeValues | src/config/themes.ts:114 | one value per registry entry, position by position |
| Themes.RegistrySortedByKind | src/config/themes.ts:45-112 | the registry lists its three standard entries first and its seven custom ones after them |
| Themes.ThemeListsDisjoint | src/config/themes.ts:111-112 | each registry entry is in exactly one of the two lists |
| Themes.RegistryValuesDistinct | src/config/themes.ts:45-114 | theme values are pairwise distinct, and ALL_THEME_VALUES lists them in order |
| Themes.AllThemeValuesListed | src/config/themes.ts:45-114 | ALL_THEME_VALUES spelled out as the ten values |
| Themes.RegisteredIndex | src/config/themes.ts:114 | every registered value is the value of some entry |
| Themes.CustomEntry | src/config/themes.ts:61-112 | the i-th custom theme is registry entry i + 3 |
| Themes.NotLightOrDark | src/config/themes.ts:61-110 | no custom entry has the value light or dark |
| Themes.OnlySystemIsSystem | src/config/themes.ts:54-60 | only the third entry has the value system |
| Themes.FindDistinct | src/config/themes.ts:125 | with distinct values, find by an entry's value returns that entry |
| Themes.FindRegistered | src/config/themes.ts:125 | find by the value of any registry entry returns that entry |
| Themes.SystemFollowsOs | src/config/themes.ts:117-123 | system resolves to the OS scheme; its static light tag is never consulted |
| Themes.RegisteredThemeType | src/config/themes.ts:117-128 | every other registered theme resolves to its own static type, whatever the OS says |
| Themes.UnregisteredIsLight | src/config/themes.ts:125-127 | an unregistered value resolves to light |
| Themes.NoEntryHasValue | src/config/themes.ts:114 | a value missing from ALL_THEME_VALUES is not system and is the value of no registry entry |
| Themes.NonSystemIgnoresOs | src/config/themes.ts:117-128 | for every value other than system the OS flag has no effect |
| About.IsDarkTheme | src/pages/About.tsx:303-318 | dark iff the theme is one of the six listed names, or system while the OS prefers dark |
| About.PortraitSrc | src/pages/About.tsx:408 | the dark portrait is shown iff isDarkTheme holds, the light one otherwise |
| About.DarkLiteralsAreDark | src/pages/About.tsx:303-318 | the six listed names are dark for any OS flag; system is dark exactly when the OS is |
| About.OtherNamesNotDark | src/pages/About.tsx:303-318 | any other name is not dark |
| About.ExtraDarkLiteralsUnregistered | src/pages/About.tsx:309-310 | sunset and perpetuity are not registry values |
| About.SunsetUnregistered | src/pages/About.tsx:309 | sunset is not a registry value |
| About.PerpetuityUnregistered | src/pages/About.tsx:310 | perpetuity is not a registry value |
| About.RegistryEntryDarkness | src/pages/About.tsx:303-318 | for every entry but system, the hard-coded test agrees with the entry's static type |
| About.EntryAgrees | src/pages/About.tsx:303-318 | for every registry entry, isDarkTheme holds iff getThemeType says dark |
| About.IsDarkAgreesWithRegistry | src/pages/About.tsx:303-318 | for every registered value, the page's dark test and getThemeType agree under the same OS flag |
| About.PortraitFollowsRegistry | src/pages/About.tsx:408 | on registered themes the dark portrait appears exactly for dark-resolving themes |
| ThemeToggle.ThemeStore.constructor | src/components/theme-toggle.tsx:23 | the provider starts with the given theme |
| ThemeToggle.ThemeStore.SetTheme | src/components/theme-toggle.tsx:86 | setTheme makes the given value current |
| ThemeToggle.ResolvedTheme | src/components/theme-toggle.tsx:47 | in system mode the name of the OS scheme ("dark" iff the OS scheme is dark); otherwise the theme itself |
| ThemeToggle.CustomIconScales | src/components/theme-toggle.tsx:67-75 | one icon per custom theme, full-size iff it is the current theme |
| ThemeToggle.IconScales | src/components/theme-toggle.tsx:58-77 | system mode: Sun then Moon, full-size iff the OS scheme is light, dark respectively; otherwise Sun, Moon and one icon per custom theme in order, each full-size iff it is the current theme |
| ThemeToggle.FullSize | src/components/theme-toggle.tsx:60-72 | exactly the icons whose class is scale-100 |
| ThemeToggle.CheckMarks | src/components/theme-toggle.tsx:90 | an item is checked iff its value is the current theme |
| ThemeToggle.ThemeToggle.constructor | src/components/theme-toggle.tsx:24-25 | first render: not mounted, OS scheme assumed light |
| ThemeToggle.ThemeToggle.Mount | src/components/theme-toggle.tsx:28-32 | the mount effect sets mounted and reads the OS scheme |
| ThemeToggle.ThemeToggle.OnSchemeChange | src/components/theme-toggle.tsx:34-39 | a change event updates the scheme, but only once the listener exists (after mount) |
| ThemeToggle.ThemeToggle.SelectItem | src/components/theme-toggle.tsx:86 | clicking a standard or custom item sets the theme to its value |
| ThemeToggle.ThemeToggle.View | src/components/theme-toggle.tsx:43-45 | nothing is rendered until mounted |
| ThemeToggle.CheckMarksAtMostOne | src/components/theme-toggle.tsx:90 | over distinct values at most one item is checked, and one is exactly when the theme is listed |
| ThemeToggle.CustomIconsAtMostOne | src/components/theme-toggle.tsx:67-75 | at most one custom icon is full-size, and one is exactly when the theme is a custom theme |
| ThemeToggle.SystemModeShowsOneIcon | src/components/theme-toggle.tsx:58-62 | in system mode exactly one of Sun and Moon is full-size, matching the OS scheme |
| ThemeToggle.CustomThemesDistinct | src/config/themes.ts:61-112 | custom values are distinct and differ from light and dark |
| ThemeToggle.ExplicitModeAtMostOneIcon | src/components/theme-toggle.tsx:64-76 | with an explicit theme at most one icon is full-size, exactly one iff the theme is light, dark or custom |
| ThemeToggle.HeadAndCustomAtMostOne | src/components/theme-toggle.tsx:64-76 | for any custom list with distinct values other than light and dark, the explicit-mode row lights at most one icon, exactly one iff the theme is light, dark or one of the list |
| ThemeToggle.CustomThemeShowsOneIcon | src/components/theme-toggle.tsx:67-75 | a custom theme lights exactly one icon |
| ThemeToggle.RegisteredThemeShowsOneIcon | src/components/theme-toggle.tsx:58-77 | every registered theme lights exactly one trigger icon, whatever the OS scheme |
| ThemeToggle.MenuCheckMarks | src/components/theme-toggle.tsx:83-107 | the standard then custom items' marks are the registry's marks in order |
| ThemeToggle.MenuChecksAtMostOne | src/components/theme-toggle.tsx:83-107 | at most one menu item is checked, exactly one iff the theme is registered |
| LanguageProvider.ParseCode | src/lib/language-provider.tsx:11 | a parsed language has exactly the given code |
| LanguageProvider.CodeRoundTrip | src/lib/language-provider.tsx:11 | every language's code parses back to it, and codes are non-empty |
| LanguageProvider.Storage.GetItem | src/lib/language-provider.tsx:38 | getItem yields the stored string, or null when the key is absent |
| LanguageProvider.Storage.SetItem | src/lib/language-provider.tsx:44 | setItem stores the value under the key and leaves other keys alone |
| LanguageProvider.InitialLanguage | src/lib/language-provider.tsx:37-39 | a present, non-empty stored string is used; otherwise the default |
| LanguageProvider.LanguageProvider.constructor | src/lib/language-provider.tsx:31-39 | a provider starts with the stored language or the default |
| LanguageProvider.LanguageProvider.SetLanguage | src/lib/language-provider.tsx:43-46 | setLanguage writes storage under the provider's key and updates the in-memory language to the same code |
| LanguageProvider.SetThenReload | src/lib/language-provider.tsx:37-46 | after setLanguage(l), a new provider over that storage starts with l |
| LanguageProvider.UnsetUsesDefault | src/lib/language-provider.tsx:38 | a missing or empty stored value gives the default |
| LanguageProvider.UncheckedStoredValue | src/lib/language-provider.tsx:38 | a stored non-code ("xx") is adopted as the language |
| LanguageProvider.LastWriteWins | src/lib/language-provider.tsx:43-46 | after two setLanguage calls the later language is current in memory and is the one stored under the key; no other key changes |
| LanguageProvider.UseLanguage | src/lib/language-provider.tsx:56-62 | the provider's context, or English with a no-op setter outside a provider; the error is unreachable |
| CommandMenu.IsShortcut | src/hooks/use-command-menu.tsx:32 | the key must be exactly the one character "k", a modifier must be held, and "k" with either ⌘ or Ctrl suffices |
| CommandMenu.CommandMenuStore.constructor | src/hooks/use-command-menu.tsx:20 | the palette starts closed |
| CommandMenu.CommandMenuStore.Toggle | src/hooks/use-command-menu.tsx:21 | toggle flips isOpen |
| CommandMenu.CommandMenuStore.Open | src/hooks/use-command-menu.tsx:22 | open sets isOpen |
| CommandMenu.CommandMenuStore.Close | src/hooks/use-command-menu.tsx:23 | close clears isOpen |
| CommandMenu.CommandMenuStore.OnKeyDown | src/hooks/use-command-menu.tsx:31-36 | the default is prevented and the palette toggled iff the key is "k" with Meta or Ctrl |
| CommandMenu.AfterKey | src/hooks/use-command-menu.tsx:31-36 | the open flag changes iff the event is the shortcut |
| CommandMenu.ToggleTwiceRestores | src/hooks/use-command-menu.tsx:21 | two toggles restore the open flag |
| CommandMenu.ShortcutTwiceRestores | src/hooks/use-command-menu.tsx:32-35 | one shortcut press changes the flag; two restore it |
| CommandMenu.UpperCaseIsNotShortcut | src/hooks/use-command-menu.tsx:32 | "K" with modifiers is not the shortcut and changes nothing |
| CommandMenu.PlainKeyIsNotShortcut | src/hooks/use-command-menu.tsx:32 | no key without a modifier is the shortcut |
| CommandPalette.Router.constructor | src/components/Command.tsx:49 | the router starts at the given path |
| CommandPalette.Router.Navigate | src/components/Command.tsx:57 | navigate makes the path current |
| CommandPalette.Palette.constructor | src/components/Command.tsx:48-53 | the palette is wired to the given stores |
| CommandPalette.Palette.HandleNavigation | src/components/Command.tsx:56-59 | navigates to the path and closes the palette; theme and language unchanged |
| CommandPalette.Palette.HandleThemeChange | src/components/Command.tsx:62-65 | sets the chosen theme and closes; path and language unchanged |
| CommandPalette.Palette.HandleLanguageChange | src/components/Command.tsx:68-71 | sets and stores the language and closes; path and theme unchanged |
| CommandPalette.Palette.OnOpenChange | src/components/Command.tsx:202 | any open-change request closes the palette |
| CommandPalette.ThemeItems | src/components/Command.tsx:116-137 | the Theme group lists exactly the registry, in order |
| CommandPalette.ThemeChecks | src/components/Command.tsx:116-137 | theme item i is checked iff registry entry i is the current theme |
| CommandPalette.LanguageChecks | src/components/Command.tsx:142-173 | language item i is checked iff its code is the current language |
| CommandPalette.ThemeChecksAtMostOne | src/components/Command.tsx:116-137 | at most one theme item is checked, exactly one iff the theme is registered |
| CommandPalette.LanguageItemsComplete | src/components/Command.tsx:142-173 | every language has an item |
| CommandPalette.LanguageCheckedOnce | src/components/Command.tsx:142-173 | for a valid code exactly one language item is checked |
| CommandPalette.LanguageUncheckedOtherwise | src/components/Command.tsx:142-173 | for any other string no language item is checked |
| CommandPalette.LanguageChecksExactlyOne | src/components/Command.tsx:142-173 | exactly one language item is checked iff the language is one of the six codes |
| CommandPalette.NavPathsDistinct | src/components/Command.tsx:83-112 | the seven navigation targets are distinct |
| Navigation.Navigation.Valid | src/components/Navigation.tsx:245-258 | body overflow is "hidden" exactly while the mounted menu is open, and "" once unmounted; every method below keeps this |
| Navigation.Navigation.constructor | src/components/Navigation.tsx:194-195 | the menu starts closed with the body scrollable |
| Navigation.Navigation.SyncOverflow | src/components/Navigation.tsx:245-253 | body overflow is "hidden" iff the menu is open |
| Navigation.Navigation.ToggleMenu | src/components/Navigation.tsx:201 | the menu flips and the scroll lock follows |
| Navigation.Navigation.CloseMenu | src/components/Navigation.tsx:200 | the menu closes and scrolling is restored |
| Navigation.Navigation.OnMouseDown | src/components/Navigation.tsx:224-238 | an open menu closes iff menu and button exist and the target is in neither; otherwise nothing changes |
| Navigation.Navigation.RouteChange | src/components/Navigation.tsx:261-263 | a pathname change closes the menu; the same path leaves it as it was |
| Navigation.Navigation.Unmount | src/components/Navigation.tsx:254-257 | unmounting restores body scrolling |
| Navigation.IsActive | src/components/Navigation.tsx:215-220 | active only on exact equality: the same length and the same character at every position; no prefix matching |
| Navigation.ActiveFlags | src/components/Navigation.tsx:214-220 | an item is active iff its path equals the pathname exactly |
| Navigation.ItemPathsDistinct | src/components/Navigation.tsx:204-212 | the bar's item paths are distinct |
| Navigation.ActiveAtMostOne | src/components/Navigation.tsx:214-220 | at most one item is active, exactly one iff the pathname is an item's path |
| Navigation.ProjectPageActivatesNothing | src/components/Navigation.tsx:214-220 | a project detail page highlights no item |
| Conditionals.ShowToggles | src/components/Conditionals.tsx:22-24 | toggles render iff the path is neither "/a" nor "/404" and does not start with "/projects/" |
| Conditionals.ShowFooter | src/components/Conditionals.tsx:55-57 | the footer renders iff the path is none of "/", "*", "/404", "/a" and does not start with "/projects/" |
| Conditionals.IsProjectPage | src/components/Conditionals.tsx:23 | a project page iff the path starts with "/projects/"; the `!== "/projects"` conjunct never changes the outcome |
| Conditionals.FooterImpliesToggles | src/components/Conditionals.tsx:22-57 | wherever the footer renders, the toggles do |
| Conditionals.TogglesWithoutFooter | src/components/Conditionals.tsx:22-57 | toggles without footer happens exactly on "/" and "*" |
| Conditionals.ProjectsIndexAndPages | src/components/Conditionals.tsx:23-24 | "/projects" shows both; every "/projects/<slug>" shows neither |
| Conditionals.NoNormalisation | src/components/Conditionals.tsx:24 | a trailing slash escapes the hide list |
| ProjectsConfig.Keys | src/config/projects.ts:321 | the record's keys, in declaration order |
| ProjectsConfig.Lookup | src/config/projects.ts:317 | own-key lookup finds nothing exactly when the key is not a key |
| ProjectsConfig.GetAllProjectSlugs | src/config/projects.ts:320-322 | one slug per record entry, in order |
| ProjectsConfig.GetProjectConfig | src/config/projects.ts:316-318 | a config is returned iff the slug is a record key (corrected lookup) |
| ProjectsConfig.GetProjectConfigAsWritten | src/config/projects.ts:316-318 | the lookup as written is non-null for every key and every inherited built-in name, and agrees with the corrected lookup on keys |
| ProjectsConfig.LookupDistinct | src/config/projects.ts:317 | with distinct keys, an entry's key finds that entry |
| ProjectsConfig.SlugsListed | src/config/projects.ts:30-314 | the nine slugs in declaration order |
| ProjectsConfig.KeysDistinct | src/config/projects.ts:30-314 | the keys are distinct |
| ProjectsConfig.SlugResolves | src/config/projects.ts:316-322 | every enumerated slug resolves to the config declared under it |
| ProjectsConfig.SlugFieldMatchesKey | src/config/projects.ts:30-314 | every config's slug field equals its key except under "dietEcap" |
| ProjectsConfig.DietEcapSlugFieldUnregistered | src/config/projects.ts:188-213 | "dietEcap" resolves, but its slug field "dietEecap" does not |
| ProjectsConfig.RequiredFieldsPresent | src/config/projects.ts:9-28 | every config has a non-empty MDX path, title, description, date and colour |
| ProjectsConfig.AsWrittenAgreesOffPrototype | src/config/projects.ts:316-318 | away from inherited names the two lookups agree |
| ProjectsConfig.ConstructorIsNotNull | src/config/projects.ts:316-318 | "constructor" is no slug, yet the lookup as written returns non-null for it |
| ProjectPageRenderer.Decide | src/pages/projects/ProjectPageRenderer.tsx:32-40 | no slug redirects to /projects; an unknown slug to /404; a known slug renders its config |
| ProjectPageRenderer.DecideAsWritten | src/pages/projects/ProjectPageRenderer.tsx:36-40 | the route as written renders a broken page exactly for inherited built-in names |
| ProjectPageRenderer.LiveLabel | src/pages/projects/ProjectPageRenderer.tsx:119-126 | "Chrome Store" iff the URL contains "chromewebstore", else "Visit Site" |
| ProjectPageRenderer.LinkButtons | src/pages/projects/ProjectPageRenderer.tsx:112-163 | live, source and demo buttons appear iff their link is a non-empty string, each pointing at it, in the order live, source, demo (so each at most once) |
| ProjectPageRenderer.Without | src/pages/projects/ProjectPageRenderer.tsx:199 | an element is kept iff it differs from the slug; a list without the slug is returned unchanged |
| ProjectPageRenderer.Take | src/pages/projects/ProjectPageRenderer.tsx:200 | a prefix of length min(n, length) |
| ProjectPageRenderer.RelatedSlugs | src/pages/projects/ProjectPageRenderer.tsx:198-200 | always exactly two registered slugs, never the current one |
| ProjectPageRenderer.TechTags | src/pages/projects/ProjectPageRenderer.tsx:223-236 | a stack of at most three shows every tag and no "+N more"; a longer one shows its first three and "+N more" with N = length − 3 |
| ProjectPageRenderer.RelatedCards | src/pages/projects/ProjectPageRenderer.tsx:198-240 | one card per related slug linking to its page with its title and tags |
| ProjectPageRenderer.WithoutLength | src/pages/projects/ProjectPageRenderer.tsx:199 | on a distinct list the filter removes one element iff the value is present |
| ProjectPageRenderer.WithoutDistinct | src/pages/projects/ProjectPageRenderer.tsx:199 | on a duplicate-free list, dropping the element at index i leaves the others in their original order |
| ProjectPageRenderer.FirstTwoOthers | src/pages/projects/ProjectPageRenderer.tsx:198-200 | on any duplicate-free list of three or more, the first two elements other than the one at index i |
| ProjectPageRenderer.SlugCount | src/config/projects.ts:30-314 | there are nine project pages |
| ProjectPageRenderer.RelatedByIndex | src/pages/projects/ProjectPageRenderer.tsx:198-200 | for the key at index i the cards are keys 1 and 2 when i = 0, keys 0 and 2 when i = 1, and keys 0 and 1 otherwise |
| ProjectPageRenderer.RelatedForUnknownSlug | src/pages/projects/ProjectPageRenderer.tsx:198-200 | a slug that is not a key gets the first two keys |
| ProjectPageRenderer.RegisteredSlugRenders | src/pages/projects/ProjectPageRenderer.tsx:36-42 | every registered slug renders its own config |
| ProjectPageRenderer.ConstructorRouteBreaks | src/pages/projects/ProjectPageRenderer.tsx:36-40 | "/projects/constructor" breaks as written; the corrected route redirects to /404 |
| ProjectPageRenderer.DecisionsAgreeOffPrototype | src/pages/projects/ProjectPageRenderer.tsx:32-40 | away from inherited names both routes decide alike |
| ProjectPageRenderer.TechTagExamples | src/pages/projects/ProjectPageRenderer.tsx:223-236 | an eight-tag stack shows three and "+5 more"; a three-tag stack shows all |
| ProjectsPage.FilterFeatured | src/pages/Projects.tsx:309 | every kept project has the requested featured flag, and none is added |
| ProjectsPage.LinkRow | src/pages/Projects.tsx:412-469 | row present iff slug, GitHub or link; a slug gives only View Details; otherwise GitHub then Visit for the present URLs |
| ProjectsPage.FilterMembers | src/pages/Projects.tsx:309 | a project is listed iff it is in the array with that flag |
| ProjectsPage.FeaturedPartition | src/pages/Projects.tsx:499 | the featured and other sections together hold every project once |
| ProjectsPage.AllFeatured | src/pages/Projects.tsx:59-140 | when every project is featured, the featured section is the whole array and the other is empty |
| ProjectsPage.PublishedListing | src/pages/Projects.tsx:59-140 | on the published array the non-featured section is empty |
| ProjectsPage.ListedSlugRegistered | src/pages/Projects.tsx:59-140 | every listed slug is a project-page key |
| ProjectsPage.ViewDetailsResolves | src/pages/Projects.tsx:418-427 | every card's View Details link leads to a rendered project page |
| MdxComponents.RenderPre | src/components/MDXComponents.tsx:115-142 | a code block iff the first child's class starts with "language-", with class = "language-" + lang; otherwise the plain pre |
| MdxComponents.Anchor | src/components/MDXComponents.tsx:179-191 | target _blank with noopener noreferrer iff href starts with "http"; neither otherwise |
| MdxComponents.Caption | src/components/MDXComponents.tsx:169-173 | a caption is shown iff it is a non-empty string |
| MdxComponents.ImageWidthClass | src/components/MDXComponents.tsx:248-259 | large, full and normal (the default) widths |
| MdxComponents.GridClass | src/components/MDXComponents.tsx:309-314 | two and three columns are named; every other count gets four |
| MdxComponents.Gallery | src/components/MDXComponents.tsx:279-331 | single large layout iff one image and size large; otherwise a grid with every image and one caption slot each |
| MdxComponents.LanguageRoundTrip | src/components/MDXComponents.tsx:118-119 | class "language-" + l always yields language l |
| MdxComponents.LanguageDropsNineCharacters | src/components/MDXComponents.tsx:119 | the language is the class name minus its first nine characters |
| MdxComponents.PlainFallback | src/components/MDXComponents.tsx:130-141 | no class, another class or no child gives the plain pre |
| MdxComponents.AnchorExamples | src/components/MDXComponents.tsx:186-187 | an https URL opens a new tab; "/projects" and "#features" do not |
| MdxComponents.ImageWidthsDistinct | src/components/MDXComponents.tsx:253-258 | the three sizes differ and the default is normal |
| MdxComponents.GalleryLayoutExamples | src/components/MDXComponents.tsx:279-314 | two large images still use the grid; one image without size uses a two-column grid |
| NameMorpher.Next | src/components/NameMorpher.tsx:140-143 | with at least two names the next index stays in range; with fewer nothing changes |
| NameMorpher.NameMorpher.constructor | src/components/NameMorpher.tsx:122-127 | the first name is selected |
| NameMorpher.NameMorpher.CurrentName | src/components/NameMorpher.tsx:129-132 | the selected name, undefined only for an empty list |
| NameMorpher.NameMorpher.Tick | src/components/NameMorpher.tsx:142-144 | one interval callback advances the index modulo the count and keeps it in range |
| NameMorpher.Letters | src/components/NameMorpher.tsx:181 | one single-character string per character |
| NameMorpher.NextWraps | src/components/NameMorpher.tsx:143 | the index advances by one, wrapping from the last to the first |
| NameMorpher.StepsWithinRound | src/components/NameMorpher.tsx:139-147 | k callbacks (k ≤ count) advance by k, wrapping once |
| NameMorpher.FullCycleReturns | src/components/NameMorpher.tsx:139-147 | after as many callbacks as names, the original name is back |
| NameMorpher.Steps | src/components/NameMorpher.tsx:139-147 | after any number of callbacks the index still selects a name, and with at most one name it never moves |
| NameMorpher.LettersSpellName | src/components/NameMorpher.tsx:181-197 | the rendered letters, read in order, spell the name |
| NotFound.Prompt | src/pages/NotFound.tsx:21 | the prompt is the curl command followed by the path |
| NotFound.Terminal.Valid | src/pages/NotFound.tsx:30-64 | the typed prompt is a prefix of the prompt and the printed lines a prefix of the response; once the response has started the whole prompt is typed |
| NotFound.Terminal.Done | src/pages/NotFound.tsx:43-64 | when done, the typed prompt is the whole prompt and every response line is printed |
| NotFound.Terminal.Remaining | src/pages/NotFound.tsx:35-64 | no timeout is pending iff the animation is done |
| NotFound.Terminal.CursorShown | src/pages/NotFound.tsx:84 | the cursor shows during the delay and until the prompt is complete |
| NotFound.Terminal.constructor | src/pages/NotFound.tsx:30-33 | the terminal starts in the initial delay with nothing typed |
| NotFound.Terminal.Tick | src/pages/NotFound.tsx:35-64 | each timeout ends the delay, types the next character, starts the response, or prints the next line; typed text stays a prefix and one fewer timeout remains |
| NotFound.DoneMeansComplete | src/pages/NotFound.tsx:43-64 | once done, the whole prompt and all response lines are shown and the cursor is gone |
| NotFound.FreshTerminalTimeouts | src/pages/NotFound.tsx:35-64 | a fresh terminal finishes after prompt length + 2 + 5 timeouts |
| Contact.WithField | src/pages/Contact.tsx:149-192 | an edit sets its field and leaves the other three unchanged |
| Contact.OrEmpty | src/pages/Contact.tsx:45-46 | a non-empty parameter is used as is; a missing or empty one becomes "" |
| Contact.Prefilled | src/pages/Contact.tsx:37-59 | name and email are kept; with a non-empty subject or message both fields are replaced, else nothing changes |
| Contact.ContactForm.constructor | src/pages/Contact.tsx:27-35 | the form starts empty and not submitting |
| Contact.ContactForm.SubmitDisabled | src/pages/Contact.tsx:197 | the submit button is disabled exactly while a submission is in flight |
| Contact.ContactForm.Prefill | src/pages/Contact.tsx:37-48 | the prefill effect applies Prefilled and touches nothing else |
| Contact.ContactForm.OnChange | src/pages/Contact.tsx:149-192 | a field's onChange applies WithField |
| Contact.ContactForm.ClearForm | src/pages/Contact.tsx:61-76 | all fields empty; the location is replaced with /contact iff there was a query string |
| Contact.ContactForm.BeginSubmit | src/pages/Contact.tsx:78-82 | a submission starts iff the button is not disabled, and one is in flight afterwards |
| Contact.ContactForm.FinishSubmit | src/pages/Contact.tsx:96-108 | the form is cleared only on an ok response, the location replaced iff there was a query string; submitting ends in every case |
| Contact.PrefillIdempotent | src/pages/Contact.tsx:42-47 | prefilling twice equals prefilling once |
| Contact.SubjectOnlyClearsMessage | src/pages/Contact.tsx:45-46 | a subject-only link empties the message field |
| Contact.EmptyParameterIgnored | src/pages/Contact.tsx:42 | empty parameters leave the form unchanged |
| Contact.OnChangeUndo | src/pages/Contact.tsx:149-192 | restoring a field's old value restores the form |
| Contact.OnChangeCommutes | src/pages/Contact.tsx:149-192 | edits to different fields commute |

## Findings

| source | as written | input that shows it | evidently intended | confidence | as-written member | corrected member |
|---|---|---|---|---|---|---|
| src/config/projects.ts:316-318 | `projectPagesConfig[slug] \|\| null` reads any property, so names inherited from `Object.prototype` are non-null | the route `/projects/constructor` gets the `Object` constructor as its config and renders a broken page instead of redirecting | only the record's own keys resolve, so unknown slugs redirect to /404 | not executed | ProjectsConfig.GetProjectConfigAsWritten, ProjectPageRenderer.ConstructorRouteBreaks | ProjectsConfig.GetProjectConfig, ProjectPageRenderer.Decide |

## Left out

- Theme persistence. The theme provider (`theme-provider`) is not part of this model. `ThemeStore` holds only the current value and its setter.
- Translations.
  - `translations.ts` is not part of this model.
  - Titles and descriptions on the projects listing are the translation key.
  - Navigation item captions are dropped.
- Exceptions from `localStorage`. A throwing `getItem` or `setItem` (storage disabled) is not modelled; storage always answers.
- Non-decision fields of project configs: `overview`, `features` and the silk animation numbers.
- The lazily imported MDX module: the model stops at `mdxPath`.
- Icons, styling classes and animation variants, except where a class is the decision being modelled (scale-100, grid and width classes).
- Contact.ContactForm.Prefill: the 200 ms timeout that also writes the DOM inputs directly is left out. The model covers only the React state update.
- Contact.ContactForm.BeginSubmit: the guard reads the rendered `isSubmitting`. Two submits dispatched before a re-render would both pass it. The model applies the guard to the current state.
- Contact: the form POST is not modelled; its outcome is the `Outcome` input. The toasts are left out.
- MdxComponents.Anchor: a `target` or `rel` passed explicitly among the spread props overrides the computed one. This is not modelled.
- MdxComponents.RenderPre: the `String(code)` conversion of a non-string child is left out; the child's text is taken as given.
- NameMorpher.NameMorpher.CurrentName: an empty `names` list makes the source crash on `currentName.length`. The model reports this as None.
- NameMorpher: the container width (length times a per-character em width) is left out.
- NameMorpher.Letters: `split("")` splits by UTF-16 code units. The model splits by Dafny characters.
- React StrictMode's double effects, render scheduling and effect batching are left out. Each handler or effect is one atomic step.
- NotFound.Terminal.Tick: the real delays (1500, 50, 600 and 80 ms) are left out. Only their order is modelled.
- The decorative canvases (`Squares`, `Threads`, particles) and page transitions are not part of this model.
- ProjectPageRenderer.LiveLabel: no concrete Chrome Web Store URL is worked through. The contract states the `includes` rule for every URL.
