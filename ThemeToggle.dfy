/**
 * The theme toggle: a dropdown whose trigger shows the icon of the current
 * theme and whose items set the theme. The toggle keeps two pieces of state
 * of its own, `mounted` and `systemTheme`, set by a mount effect and by the
 * OS colour-scheme change event; everything it shows is derived from them
 * and from the current theme.
 *
 * The current theme itself belongs to a theme provider whose storage is not
 * part of this model; `ThemeStore` holds only the value and its setter.
 */
module ThemeToggle {
  import opened Wrappers
  import opened Counting
  import opened Themes

  /** The theme provider's state as the toggle and the command palette see it. */
  class ThemeStore {
    var theme: string

    constructor (initial: string)
      ensures theme == initial
    {
      theme := initial;
    }

    /** `setTheme` */
    method SetTheme(value: string)
      modifies this
      ensures theme == value
    {
      theme := value;
    }
  }

  datatype Icon = Sun | Moon | CustomIcon(value: string)

  /** An icon in the trigger button and whether it is shown full-size (`scale-100`) or shrunk to nothing. */
  datatype IconScale = IconScale(icon: Icon, full: bool)

  /** What the toggle renders once mounted: the trigger's icons and the menu items with their check marks. */
  datatype ToggleView = ToggleView(icons: seq<IconScale>, standardChecks: seq<bool>, customChecks: seq<bool>)

  function SchemeName(scheme: LightDark): string {
    if scheme == Light then "light" else "dark"
  }

  /** `resolvedTheme`: the OS scheme's name in system mode, otherwise the theme itself. */
  function ResolvedTheme(theme: string, systemTheme: LightDark): (r: string)
    ensures theme == SystemValue ==> (r == "dark" <==> systemTheme == Dark) && (r == "light" <==> systemTheme == Light)
    ensures theme != SystemValue ==> r == theme
  {
    if theme == SystemValue then SchemeName(systemTheme) else theme
  }

  /** One icon per custom theme, full-size when it is the current theme. */
  function CustomIconScales(ts: seq<ThemeConfig>, theme: string): (r: seq<IconScale>)
    ensures |r| == |ts|
    ensures forall i :: 0 <= i < |ts| ==> r[i] == IconScale(CustomIcon(ts[i].value), ts[i].value == theme)
  {
    if ts == [] then [] else [IconScale(CustomIcon(ts[0].value), ts[0].value == theme)] + CustomIconScales(ts[1..], theme)
  }

  /** The icons of the trigger button, in render order. */
  function IconScales(theme: string, systemTheme: LightDark): (r: seq<IconScale>)
    ensures if theme == SystemValue then r == [IconScale(Sun, systemTheme == Light), IconScale(Moon, systemTheme == Dark)]
            else
              && |r| == 2 + |CustomThemes()|
              && r[0] == IconScale(Sun, theme == "light") && r[1] == IconScale(Moon, theme == "dark")
              && r[2..] == CustomIconScales(CustomThemes(), theme)
  {
    if theme == SystemValue then
      var resolved := ResolvedTheme(theme, systemTheme);
      assert (resolved == "light") == (systemTheme == Light) && (resolved == "dark") == (systemTheme == Dark);
      [IconScale(Sun, resolved == "light"), IconScale(Moon, resolved == "dark")]
    else
      var head := [IconScale(Sun, theme == "light"), IconScale(Moon, theme == "dark")];
      var tail := CustomIconScales(CustomThemes(), theme);
      assert (head + tail)[2..] == tail;
      head + tail
  }

  /** The icons that are shown full-size, in render order. */
  function FullSize(s: seq<IconScale>): (r: seq<Icon>)
    ensures |r| <= |s|
    ensures forall ic :: ic in r <==> IconScale(ic, true) in s
  {
    if s == [] then []
    else if s[0].full then [s[0].icon] + FullSize(s[1..])
    else FullSize(s[1..])
  }

  /** `theme === option.value` for each menu item: where the check mark appears. */
  function CheckMarks(items: seq<ThemeConfig>, theme: string): (r: seq<bool>)
    ensures |r| == |items|
    ensures forall i :: 0 <= i < |items| ==> (r[i] <==> items[i].value == theme)
  {
    if items == [] then [] else [items[0].value == theme] + CheckMarks(items[1..], theme)
  }

  class ThemeToggle {
    var mounted: bool
    var systemTheme: LightDark

    /** First render: not mounted, and the OS scheme assumed light. */
    constructor ()
      ensures !mounted && systemTheme == Light
    {
      mounted := false;
      systemTheme := Light;
    }

    /** The mount effect: mark mounted and read the OS scheme once. */
    method Mount(osPrefersDark: bool)
      modifies this
      ensures mounted
      ensures systemTheme == (if osPrefersDark then Dark else Light)
    {
      mounted := true;
      systemTheme := if osPrefersDark then Dark else Light;
    }

    /** A `change` event of the colour-scheme query; the listener exists only after mounting. */
    method OnSchemeChange(matchesDark: bool)
      modifies this
      ensures mounted == old(mounted)
      ensures systemTheme == if old(mounted) then (if matchesDark then Dark else Light) else old(systemTheme)
    {
      if mounted {
        systemTheme := if matchesDark then Dark else Light;
      }
    }

    /** Clicking a menu item sets the theme to that item's value. */
    method SelectItem(store: ThemeStore, option: ThemeConfig)
      requires option in StandardThemes() || option in CustomThemes()
      modifies store
      ensures store.theme == option.value
    {
      store.SetTheme(option.value);
    }

    /** What is rendered for the current theme: nothing until mounted. */
    function View(theme: string): (r: Option<ToggleView>)
      reads this
      ensures r.None? <==> !mounted
    {
      if !mounted then None
      else
        Some(ToggleView(IconScales(theme, systemTheme),
                        CheckMarks(StandardThemes(), theme), CheckMarks(CustomThemes(), theme)))
    }
  }

  // ---------------------------------------------------------------- lemmas

  lemma {:induction false} CheckMarksAppend(a: seq<ThemeConfig>, b: seq<ThemeConfig>, theme: string)
    ensures CheckMarks(a + b, theme) == CheckMarks(a, theme) + CheckMarks(b, theme)
  {
    if a == [] {
      assert a + b == b;
    } else {
      assert (a + b)[1..] == a[1..] + b;
      CheckMarksAppend(a[1..], b, theme);
    }
  }

  lemma CheckMarksSplit(ts: seq<ThemeConfig>, k: nat, theme: string)
    requires k <= |ts|
    ensures CheckMarks(ts[..k], theme) + CheckMarks(ts[k..], theme) == CheckMarks(ts, theme)
  {
    CheckMarksAppend(ts[..k], ts[k..], theme);
    assert ts[..k] + ts[k..] == ts;
  }

  lemma {:induction false} FullSizeAppend(a: seq<IconScale>, b: seq<IconScale>)
    ensures FullSize(a + b) == FullSize(a) + FullSize(b)
  {
    if a == [] {
      assert a + b == b;
    } else {
      assert (a + b)[1..] == a[1..] + b;
      FullSizeAppend(a[1..], b);
    }
  }

  /**
   * Over items with distinct values at most one check mark is shown, and one
   * is shown exactly when the theme is among the items' values.
   */
  lemma {:induction false} CheckMarksAtMostOne(items: seq<ThemeConfig>, theme: string)
    requires DistinctValues(items)
    ensures CountTrue(CheckMarks(items, theme)) <= 1
    ensures CountTrue(CheckMarks(items, theme)) == 1 <==> exists i :: 0 <= i < |items| && items[i].value == theme
  {
    if items != [] {
      assert DistinctValues(items[1..]);
      CheckMarksAtMostOne(items[1..], theme);
      assert CheckMarks(items, theme)[1..] == CheckMarks(items[1..], theme);
      if items[0].value == theme {
        assert forall i :: 0 <= i < |items[1..]| ==> items[1..][i].value != theme by {
          forall i | 0 <= i < |items[1..]| ensures items[1..][i].value != theme {
            assert items[1..][i] == items[i + 1];
          }
        }
      } else {
        assert forall i :: 1 <= i < |items| && items[i].value == theme ==> items[1..][i - 1].value == theme;
      }
    }
  }

  /** Over custom themes with distinct values, at most one custom icon is full-size: the current theme's. */
  lemma {:induction false} CustomIconsAtMostOne(ts: seq<ThemeConfig>, theme: string)
    requires DistinctValues(ts)
    ensures |FullSize(CustomIconScales(ts, theme))| <= 1
    ensures |FullSize(CustomIconScales(ts, theme))| == 1 <==> exists i :: 0 <= i < |ts| && ts[i].value == theme
  {
    if ts != [] {
      assert DistinctValues(ts[1..]);
      CustomIconsAtMostOne(ts[1..], theme);
      assert CustomIconScales(ts, theme)[1..] == CustomIconScales(ts[1..], theme);
      if ts[0].value == theme {
        assert forall i :: 0 <= i < |ts[1..]| ==> ts[1..][i].value != theme by {
          forall i | 0 <= i < |ts[1..]| ensures ts[1..][i].value != theme {
            assert ts[1..][i] == ts[i + 1];
          }
        }
      } else {
        assert forall i :: 1 <= i < |ts| && ts[i].value == theme ==> ts[1..][i - 1].value == theme;
      }
    }
  }

  /** In system mode exactly one of Sun and Moon is full-size, and it is Sun exactly when the OS scheme is light. */
  lemma SystemModeShowsOneIcon(systemTheme: LightDark)
    ensures FullSize(IconScales(SystemValue, systemTheme)) == [if systemTheme == Light then Sun else Moon]
  {
  }

  /** The custom themes have values distinct from each other and from "light" and "dark". */
  lemma CustomThemesDistinct()
    ensures DistinctValues(CustomThemes())
    ensures forall i :: 0 <= i < |CustomThemes()| ==> CustomThemes()[i].value != "light" && CustomThemes()[i].value != "dark"
  {
    RegistryValuesDistinct();
    DistinctSuffix(Registry, 3);
    forall i | 0 <= i < |CustomThemes()|
      ensures CustomThemes()[i].value != "light" && CustomThemes()[i].value != "dark"
    {
      CustomEntry(i);
      NotLightOrDark(i + 3);
    }
  }

  /**
   * With an explicit theme at most one icon is full-size; exactly one when the
   * theme is light, dark or a custom theme, and none for an unknown value.
   */
  lemma {:induction false} ExplicitModeAtMostOneIcon(theme: string, systemTheme: LightDark)
    requires theme != SystemValue
    ensures |FullSize(IconScales(theme, systemTheme))| <= 1
    ensures |FullSize(IconScales(theme, systemTheme))| == 1 <==>
              theme == "light" || theme == "dark" || exists i :: 0 <= i < |CustomThemes()| && CustomThemes()[i].value == theme
  {
    CustomThemesDistinct();
    HeadAndCustomAtMostOne(CustomThemes(), theme);
  }

  /** The explicit-mode icon row over any custom list with distinct values other than "light" and "dark". */
  lemma HeadAndCustomAtMostOne(cs: seq<ThemeConfig>, theme: string)
    requires DistinctValues(cs)
    requires forall i :: 0 <= i < |cs| ==> cs[i].value != "light" && cs[i].value != "dark"
    ensures var row := [IconScale(Sun, theme == "light"), IconScale(Moon, theme == "dark")] + CustomIconScales(cs, theme);
            && |FullSize(row)| <= 1
            && (|FullSize(row)| == 1 <==> theme == "light" || theme == "dark" || exists i :: 0 <= i < |cs| && cs[i].value == theme)
  {
    CustomIconsAtMostOne(cs, theme);
    var head := [IconScale(Sun, theme == "light"), IconScale(Moon, theme == "dark")];
    var tail := CustomIconScales(cs, theme);
    FullSizeAppend(head, tail);
    if theme == "light" || theme == "dark" {
      assert |FullSize(head)| == 1;
      assert |FullSize(tail)| == 0;
    } else {
      assert FullSize(head) == [];
    }
  }

  /** A custom theme lights exactly one icon: its own. */
  lemma CustomThemeShowsOneIcon(j: nat, systemTheme: LightDark)
    requires j < |CustomThemes()|
    ensures |FullSize(IconScales(CustomThemes()[j].value, systemTheme))| == 1
  {
    CustomEntry(j);
    OnlySystemIsSystem(j + 3);
    ExplicitModeAtMostOneIcon(CustomThemes()[j].value, systemTheme);
  }

  /** Every registered theme lights exactly one icon of the trigger, whatever the OS scheme. */
  lemma {:induction false} RegisteredThemeShowsOneIcon(i: nat, systemTheme: LightDark)
    requires i < |Registry|
    ensures |FullSize(IconScales(Registry[i].value, systemTheme))| == 1
  {
    if i == 0 {
      assert Registry[0].value == "light";
      ExplicitModeAtMostOneIcon("light", systemTheme);
    } else if i == 1 {
      assert Registry[1].value == "dark";
      ExplicitModeAtMostOneIcon("dark", systemTheme);
    } else if i == 2 {
      assert Registry[2].value == SystemValue;
      SystemModeShowsOneIcon(systemTheme);
    } else {
      CustomEntry(i - 3);
      CustomThemeShowsOneIcon(i - 3, systemTheme);
    }
  }

  /** The menu lists the standard items and then the custom ones; their check marks together are those of the registry. */
  lemma MenuCheckMarks(theme: string)
    ensures CheckMarks(StandardThemes(), theme) + CheckMarks(CustomThemes(), theme) == CheckMarks(Registry, theme)
  {
    CheckMarksSplit(Registry, 3, theme);
  }

  /** In the menu, at most one item is checked, and exactly one when the theme is registered. */
  lemma MenuChecksAtMostOne(theme: string)
    ensures CountTrue(CheckMarks(StandardThemes(), theme) + CheckMarks(CustomThemes(), theme)) <= 1
    ensures (CountTrue(CheckMarks(StandardThemes(), theme) + CheckMarks(CustomThemes(), theme)) == 1)
              == (exists i :: 0 <= i < |Registry| && Registry[i].value == theme)
  {
    MenuCheckMarks(theme);
    RegistryValuesDistinct();
    CheckMarksAtMostOne(Registry, theme);
  }
}
