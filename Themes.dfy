/**
 * The theme registry: a fixed catalogue of named themes, each tagged as light
 * or dark, split into standard and custom lists, and `GetThemeType`, which
 * resolves a selected theme to its colour-scheme family. The `system` entry
 * is resolved against the operating system's dark-mode flag, passed in as
 * `osPrefersDark` (the source queries `prefers-color-scheme` at call time).
 */
module Themes {
  import opened Wrappers

  datatype LightDark = Light | Dark

  /** A registry entry; the icon component is presentation and is left out. */
  datatype ThemeConfig = ThemeConfig(value: string, name: string, isCustom: bool, scheme: LightDark)

  const SystemValue := "system"

  /** The catalogue, in declaration order. */
  const Registry: seq<ThemeConfig> := [
    ThemeConfig("light", "Light", false, Light),
    ThemeConfig("dark", "Dark", false, Dark),
    ThemeConfig("system", "System", false, Light),
    ThemeConfig("life", "Solarpunk", true, Light),
    ThemeConfig("cyber", "Cyberpunk", true, Dark),
    ThemeConfig("cloud", "Cloud", true, Light),
    ThemeConfig("forest", "Forest", true, Dark),
    ThemeConfig("amethyst", "Amethyst", true, Dark),
    ThemeConfig("vintage", "Vintage", true, Light),
    ThemeConfig("coffee", "Coffee", true, Light)
  ]

  /** `ts.filter(t => t.isCustom == custom)`: the entries of one kind, in order. */
  function FilterByCustom(ts: seq<ThemeConfig>, custom: bool): (r: seq<ThemeConfig>)
    ensures |r| <= |ts|
    ensures forall i :: 0 <= i < |r| ==> r[i].isCustom == custom
  {
    if ts == [] then []
    else if ts[0].isCustom == custom then [ts[0]] + FilterByCustom(ts[1..], custom)
    else FilterByCustom(ts[1..], custom)
  }

  /** `STANDARD_THEMES`: the registry's first three entries, in order. */
  function StandardThemes(): (r: seq<ThemeConfig>)
    ensures r == Registry[..3]
  {
    RegistrySortedByKind();
    FilterByCustom(Registry, false)
  }

  /** `CUSTOM_THEMES`: the other seven entries, in order. */
  function CustomThemes(): (r: seq<ThemeConfig>)
    ensures r == Registry[3..]
  {
    RegistrySortedByKind();
    FilterByCustom(Registry, true)
  }

  /** `ts.map(t => t.value)` */
  function Values(ts: seq<ThemeConfig>): (r: seq<string>)
    ensures |r| == |ts|
    ensures forall i :: 0 <= i < |ts| ==> r[i] == ts[i].value
  {
    if ts == [] then [] else [ts[0].value] + Values(ts[1..])
  }

  /** `ALL_THEME_VALUES`: one value per registry entry, in registry order. */
  function AllThemeValues(): (r: seq<string>)
    ensures |r| == |Registry|
    ensures forall i :: 0 <= i < |Registry| ==> r[i] == Registry[i].value
  {
    Values(Registry)
  }

  /** `THEMES.find(t => t.value === v)`: the first entry with that value. */
  function Find(ts: seq<ThemeConfig>, v: string): (r: Option<ThemeConfig>)
    ensures r.Some? ==> r.value in ts && r.value.value == v
    ensures r.None? <==> forall t :: t in ts ==> t.value != v
  {
    if ts == [] then None
    else if ts[0].value == v then Some(ts[0])
    else Find(ts[1..], v)
  }

  /**
   * `getThemeType`: the colour-scheme family of the selected theme. `system`
   * follows the OS flag; any other value is dark exactly when a registry
   * entry with that value is tagged dark.
   */
  function GetThemeType(currentTheme: string, osPrefersDark: bool): (r: LightDark)
    ensures currentTheme == SystemValue ==> (r == Dark <==> osPrefersDark)
    ensures currentTheme != SystemValue ==>
              (r == Dark <==> exists i :: 0 <= i < |Registry| && Registry[i].value == currentTheme && Registry[i].scheme == Dark)
  {
    FindRegistered();
    if currentTheme == SystemValue then
      (if osPrefersDark then Dark else Light)
    else
      match Find(Registry, currentTheme)
      case Some(cfg) => cfg.scheme
      case None => Light
  }

  /** The values of `ts` are pairwise distinct. */
  predicate DistinctValues(ts: seq<ThemeConfig>) {
    forall i, j :: 0 <= i < j < |ts| ==> ts[i].value != ts[j].value
  }

  // ---------------------------------------------------------------- lemmas

  /** The filter keeps exactly the entries of the requested kind. */
  lemma {:induction false} FilterMembers(ts: seq<ThemeConfig>, custom: bool)
    ensures forall t :: t in FilterByCustom(ts, custom) <==> t in ts && t.isCustom == custom
  {
    if ts != [] {
      FilterMembers(ts[1..], custom);
      assert ts == [ts[0]] + ts[1..];
    }
  }

  /** Filtering by kind splits a list into two parts that together hold every entry once. */
  lemma {:induction false} FilterPartition(ts: seq<ThemeConfig>)
    ensures |FilterByCustom(ts, false)| + |FilterByCustom(ts, true)| == |ts|
    ensures multiset(FilterByCustom(ts, false)) + multiset(FilterByCustom(ts, true)) == multiset(ts)
  {
    if ts != [] {
      FilterPartition(ts[1..]);
      assert ts == [ts[0]] + ts[1..];
    }
  }

  /** On a list whose kinds are "all standard, then all custom", the filters give the two halves. */
  lemma {:induction false} FilterOfSortedList(ts: seq<ThemeConfig>, k: nat)
    requires k <= |ts|
    requires forall i :: 0 <= i < k ==> !ts[i].isCustom
    requires forall i :: k <= i < |ts| ==> ts[i].isCustom
    ensures FilterByCustom(ts, false) == ts[..k]
    ensures FilterByCustom(ts, true) == ts[k..]
  {
    if ts != [] {
      var rest := ts[1..];
      assert [ts[0]] + rest == ts;
      if k == 0 {
        assert forall i :: 0 <= i < |rest| ==> rest[i] == ts[i + 1];
        FilterOfSortedList(rest, 0);
        assert FilterByCustom(ts, false) == FilterByCustom(rest, false);
        assert FilterByCustom(ts, true) == [ts[0]] + FilterByCustom(rest, true);
      } else {
        assert forall i :: 0 <= i < |rest| ==> rest[i] == ts[i + 1];
        FilterOfSortedList(rest, k - 1);
        assert FilterByCustom(ts, false) == [ts[0]] + FilterByCustom(rest, false);
        assert FilterByCustom(ts, true) == FilterByCustom(rest, true);
        assert ts[..k] == [ts[0]] + rest[..k - 1];
        assert ts[k..] == rest[k - 1..];
      }
    }
  }

  /** The registry lists its three standard entries first and its seven custom ones after them. */
  lemma RegistrySortedByKind()
    ensures FilterByCustom(Registry, false) == Registry[..3]
    ensures FilterByCustom(Registry, true) == Registry[3..]
  {
    assert forall i :: 0 <= i < 3 ==> !Registry[i].isCustom;
    assert forall i :: 3 <= i < |Registry| ==> Registry[i].isCustom;
    FilterOfSortedList(Registry, 3);
  }

  /** No registry entry is in both lists, and each is in one of them. */
  lemma ThemeListsDisjoint()
    ensures forall t :: t in Registry ==> (t in StandardThemes() <==> t !in CustomThemes())
  {
    FilterMembers(Registry, false);
    FilterMembers(Registry, true);
  }

  /** The registry's values are pairwise distinct and `ALL_THEME_VALUES` lists one per entry, in order. */
  lemma RegistryValuesDistinct()
    ensures DistinctValues(Registry)
    ensures |AllThemeValues()| == |Registry|
    ensures forall i :: 0 <= i < |Registry| ==> AllThemeValues()[i] == Registry[i].value
  {
    forall i, j | 0 <= i < j < |Registry|
      ensures Registry[i].value != Registry[j].value
    {
      var a, b := Registry[i].value, Registry[j].value;
      assert |a| != |b| || a[0] != b[0] || a[1] != b[1];
    }
  }

  /** `ALL_THEME_VALUES` spelled out. */
  lemma AllThemeValuesListed()
    ensures AllThemeValues() == ["light", "dark", "system", "life", "cyber", "cloud", "forest", "amethyst", "vintage", "coffee"]
  {
    var vs := AllThemeValues();
    assert |vs| == 10;
    assert vs[0] == "light" && vs[1] == "dark" && vs[2] == "system" && vs[3] == "life" && vs[4] == "cyber";
    assert vs[5] == "cloud" && vs[6] == "forest" && vs[7] == "amethyst" && vs[8] == "vintage" && vs[9] == "coffee";
  }

  /** A registered value is the value of some entry. */
  lemma RegisteredIndex(v: string) returns (i: nat)
    requires v in AllThemeValues()
    ensures i < |Registry| && Registry[i].value == v
  {
    i :| 0 <= i < |AllThemeValues()| && AllThemeValues()[i] == v;
  }

  /** A suffix of a list with distinct values has distinct values. */
  lemma DistinctSuffix(ts: seq<ThemeConfig>, k: nat)
    requires k <= |ts| && DistinctValues(ts)
    ensures DistinctValues(ts[k..])
  {
    forall i, j | 0 <= i < j < |ts[k..]|
      ensures ts[k..][i].value != ts[k..][j].value
    {
      assert ts[k..][i] == ts[k + i] && ts[k..][j] == ts[k + j];
    }
  }

  /** The `i`-th custom theme is the registry's entry `i + 3`. */
  lemma CustomEntry(i: nat)
    requires i < |CustomThemes()|
    ensures |CustomThemes()| == 7 && CustomThemes()[i] == Registry[i + 3]
  {
    var c := Registry[3..];
    assert |c| == 7;
    assert c[i] == Registry[i + 3];
  }

  /** Entries after the first two have values other than "light" and "dark". */
  lemma NotLightOrDark(i: nat)
    requires 3 <= i < |Registry|
    ensures Registry[i].value != "light" && Registry[i].value != "dark"
  {
    RegistryValuesDistinct();
    assert Registry[i].value != Registry[0].value && Registry[i].value != Registry[1].value;
  }

  /** Only the entry at index 2 has the value `system`. */
  lemma OnlySystemIsSystem(i: nat)
    requires i < |Registry|
    ensures Registry[i].value == SystemValue <==> i == 2
  {
    RegistryValuesDistinct();
    assert Registry[2].value == SystemValue;
  }

  /** In a list with distinct values, `Find` of an entry's value yields that entry. */
  lemma {:induction false} FindDistinct(ts: seq<ThemeConfig>, i: nat)
    requires DistinctValues(ts)
    requires i < |ts|
    ensures Find(ts, ts[i].value) == Some(ts[i])
  {
    if i > 0 {
      FindDistinct(ts[1..], i - 1);
    }
  }

  /** In the registry, `Find` of an entry's value yields that entry. */
  lemma FindRegistered()
    ensures forall i :: 0 <= i < |Registry| ==> Find(Registry, Registry[i].value) == Some(Registry[i])
  {
    forall i | 0 <= i < |Registry|
      ensures Find(Registry, Registry[i].value) == Some(Registry[i])
    {
      RegistryValuesDistinct();
      FindDistinct(Registry, i);
    }
  }

  /** `system` follows the OS flag; the static "light" tag of the system entry is ignored. */
  lemma SystemFollowsOs(osPrefersDark: bool)
    ensures GetThemeType(SystemValue, osPrefersDark) == (if osPrefersDark then Dark else Light)
    ensures Find(Registry, SystemValue).Some? && Find(Registry, SystemValue).value.scheme == Light
  {
    RegistryValuesDistinct();
    assert Registry[2].value == SystemValue && Registry[2].scheme == Light;
    FindDistinct(Registry, 2);
  }

  /** Every entry but `system` (index 2) resolves to its own static type, whatever the OS says. */
  lemma RegisteredThemeType(i: nat, osPrefersDark: bool)
    requires i < |Registry| && i != 2
    ensures Registry[i].value != SystemValue
    ensures GetThemeType(Registry[i].value, osPrefersDark) == Registry[i].scheme
  {
    RegistryValuesDistinct();
    assert Registry[2].value == SystemValue;
    FindDistinct(Registry, i);
  }

  /** An unregistered value resolves to light, whatever the OS says. */
  lemma UnregisteredIsLight(v: string, osPrefersDark: bool)
    requires v !in AllThemeValues()
    ensures GetThemeType(v, osPrefersDark) == Light
  {
    NoEntryHasValue(AllThemeValues(), v);
  }

  /** A value missing from `ALL_THEME_VALUES` is the value of no entry, `system` included. */
  lemma NoEntryHasValue(vs: seq<string>, v: string)
    requires vs == AllThemeValues() && v !in vs
    ensures v != SystemValue
    ensures forall i :: 0 <= i < |Registry| ==> Registry[i].value != v
  {
    assert vs[2] == SystemValue;
    forall i | 0 <= i < |Registry|
      ensures Registry[i].value != v
    {
      assert vs[i] == Registry[i].value;
    }
  }

  /** For every value except `system` the result is independent of the OS flag. */
  lemma NonSystemIgnoresOs(v: string)
    requires v != SystemValue
    ensures GetThemeType(v, true) == GetThemeType(v, false)
  {
  }
}
