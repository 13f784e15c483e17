/**
 * The project-page registry: nine configurations stored under string keys
 * in declaration order, looked up by key and enumerated by `Object.keys`.
 *
 * The lookup as written, `record[key] || null`, also finds the properties a
 * plain object inherits from `Object.prototype`; `GetProjectConfigAsWritten`
 * models that, and `GetProjectConfig`, the own-key lookup, is what the rest
 * of the model uses.
 */
module ProjectsConfig {
  import opened Wrappers

  /** The optional outbound links of a project page. */
  datatype Links = Links(live: Option<string>, github: Option<string>, demo: Option<string>)

  /** One project page. The animation floats, the overview and the feature list are not modelled. */
  datatype ProjectPageConfig = ProjectPageConfig(
    slug: string,
    title: string,
    description: string,
    date: string,
    silkColor: string,
    techStack: seq<string>,
    links: Links,
    mdxPath: string)

  const ExpertLocation := ProjectPageConfig(
    "expertLocation", "Expert Location & Communication",
    "Modern portfolio website built with React and TypeScript",
    "February 2025 - Present", "#FFF0F0",
    ["React", "Express Js", "Socket.IO", "Gemini Api", "Firebase Storage", "MongoDB", "TypeScript"],
    Links(Some("https://expert-location-and-communication.onrender.com/"),
          Some("https://github.com/suryasarisa99/expert-location-and-communication"), None),
    "expertLocation")

  const Mitmui := ProjectPageConfig(
    "mitmui", "MITMUI", "A modern, responsive UI for mitm using Flutter",
    "August 2025 - Present", "#FF7474",
    ["Flutter", "Dart", "mitmproxy", "Websockets"],
    Links(None, Some("https://github.com/suryasarisa99/mitmui"), None),
    "mitmui")

  const Netmirror := ProjectPageConfig(
    "netmirror", "Netmirror", "Unoffical Netmirror client, with modern interface",
    "May 2025 - Present", "#1a202c",
    ["Flutter", "Dart", "SQFLite", "MediaKit", "RiverPod"],
    Links(None, Some("https://github.com/suryasarisa99/netmirror"), None),
    "netmirror")

  const Typingss := ProjectPageConfig(
    "typingss", "Typingss", "Customizable advanced typing practice app",
    "March 2025 - Present", "#181A21",
    ["React", "PWA", "speech-js"],
    Links(Some("https://typingss.vercel.app"), Some("https://github.com/suryasarisa99/type"), None),
    "typingss")

  const Auth := ProjectPageConfig(
    "auth", "2FA", "Customizable advanced typing practice app",
    "March 2025 - Present", "#289DFA",
    ["React", "Express.Js", "Firebase", "MongoDB", "speakeasy", "PWA"],
    Links(Some("https://2fa-surya.vercel.app/"), Some("https://github.com/suryasarisa99/auth"), None),
    "auth")

  /** Stored under the key "dietEcap", though its own slug field reads "dietEecap". */
  const DietEcap := ProjectPageConfig(
    "dietEecap", "Diet Ecap", "Flutter mobile client for ECAP website.",
    "January 2025 - Present", "#f0f4f8",
    ["Flutter", "Dart", "html", "Riverpod"],
    Links(None, Some("https://github.com/suryasarisa99/diet-ecap"), None),
    "diet-ecap")

  const Applicare := ProjectPageConfig(
    "applicare", "AppliCare", "Manage your job applications with ease.",
    "Dec 2024 - Feb 2025", "#007bff",
    ["React (Vite)", "Spring Boot", "Ant Design", "MongoDB", "Java", "JavaScript", "Docker", "SEO"],
    Links(Some("https://applicare.app"), Some("https://github.com/lyfe691/AppliCare"), None),
    "applicare")

  const CodeExtractor := ProjectPageConfig(
    "code-extractor", "Website Code Extractor",
    "Chrome extension for extracting and downloading website source code",
    "November 2024", "#f59e0b",
    ["Chrome Extension", "JSZip", "HTML", "CSS", "JavaScript"],
    Links(Some("https://chromewebstore.google.com/detail/website-code-extractor/foppgeakfpkdghmmmflmblcidoofpohm"),
          Some("https://github.com/lyfe691/Website-Code-Extractor"), None),
    "code-extractor")

  const Onenovel := ProjectPageConfig(
    "onenovel", "One Novel",
    "A customizable Windows system information display tool inspired by Neofetch",
    "May 2025", "#E5EBEB",
    ["React", "Express.Js", "MongoDB", "Firebase", "TypeScript", "nodemailer"],
    Links(None, Some("https://github.com/suryasarisa99/one-novel"), None),
    "onenovel")

  /** `projectPagesConfig` as (key, config) pairs in declaration order, which is `Object.keys` order here. */
  const ProjectPagesConfig: seq<(string, ProjectPageConfig)> := [
    ("expertLocation", ExpertLocation),
    ("mitmui", Mitmui),
    ("netmirror", Netmirror),
    ("typingss", Typingss),
    ("auth", Auth),
    ("dietEcap", DietEcap),
    ("applicare", Applicare),
    ("code-extractor", CodeExtractor),
    ("onenovel", Onenovel)
  ]

  /** The names every plain object inherits from `Object.prototype`, all of them truthy. */
  const ObjectPrototypeMembers: seq<string> := [
    "constructor", "__proto__", "hasOwnProperty", "isPrototypeOf", "propertyIsEnumerable",
    "toString", "valueOf", "toLocaleString",
    "__defineGetter__", "__defineSetter__", "__lookupGetter__", "__lookupSetter__"
  ]

  /** The keys of an entry list, in order. */
  function Keys(entries: seq<(string, ProjectPageConfig)>): (r: seq<string>)
    ensures |r| == |entries|
    ensures forall i :: 0 <= i < |entries| ==> r[i] == entries[i].0
  {
    if entries == [] then [] else [entries[0].0] + Keys(entries[1..])
  }

  predicate DistinctKeys(entries: seq<(string, ProjectPageConfig)>) {
    forall i, j :: 0 <= i < j < |entries| ==> entries[i].0 != entries[j].0
  }

  /** Own-property lookup: the config stored under `key`, if any. */
  function Lookup(entries: seq<(string, ProjectPageConfig)>, key: string): (r: Option<ProjectPageConfig>)
    ensures r.None? <==> key !in Keys(entries)
  {
    if entries == [] then None
    else if entries[0].0 == key then Some(entries[0].1)
    else Lookup(entries[1..], key)
  }

  /** `getAllProjectSlugs`: the record's keys. */
  function GetAllProjectSlugs(): (r: seq<string>)
    ensures |r| == |ProjectPagesConfig|
    ensures forall i :: 0 <= i < |r| ==> r[i] == ProjectPagesConfig[i].0
  {
    Keys(ProjectPagesConfig)
  }

  /** `getProjectConfig` with the lookup restricted to the record's own keys. */
  function GetProjectConfig(key: string): (r: Option<ProjectPageConfig>)
    ensures r.Some? <==> key in GetAllProjectSlugs()
  {
    Lookup(ProjectPagesConfig, key)
  }

  /** What a property read on the record can produce: an own config or an inherited built-in. */
  datatype PropertyValue = OwnConfig(config: ProjectPageConfig) | Inherited(name: string)

  /**
   * `getProjectConfig` as written: a property read, which falls through to
   * `Object.prototype`, followed by `|| null`, which keeps every truthy value.
   */
  function GetProjectConfigAsWritten(key: string): (r: Option<PropertyValue>)
    ensures r.None? <==> key !in GetAllProjectSlugs() && key !in ObjectPrototypeMembers
    ensures key in GetAllProjectSlugs() ==> r == Some(OwnConfig(GetProjectConfig(key).value))
  {
    match Lookup(ProjectPagesConfig, key)
    case Some(c) => Some(OwnConfig(c))
    case None => if key in ObjectPrototypeMembers then Some(Inherited(key)) else None
  }

  // ---------------------------------------------------------------- lemmas

  /** In a list with distinct keys, looking up entry i's key finds entry i. */
  lemma {:induction false} LookupDistinct(entries: seq<(string, ProjectPageConfig)>, i: nat)
    requires DistinctKeys(entries)
    requires i < |entries|
    ensures Lookup(entries, entries[i].0) == Some(entries[i].1)
  {
    if i > 0 {
      assert entries[0].0 != entries[i].0;
      assert DistinctKeys(entries[1..]) by {
        forall a, b | 0 <= a < b < |entries[1..]| ensures entries[1..][a].0 != entries[1..][b].0 {
          assert entries[1..][a] == entries[a + 1] && entries[1..][b] == entries[b + 1];
        }
      }
      LookupDistinct(entries[1..], i - 1);
      assert entries[1..][i - 1] == entries[i];
    }
  }

  /** The nine keys, in declaration order. */
  lemma SlugsListed()
    ensures GetAllProjectSlugs() == ["expertLocation", "mitmui", "netmirror", "typingss", "auth",
                                     "dietEcap", "applicare", "code-extractor", "onenovel"]
  {
    var s := GetAllProjectSlugs();
    assert s[0] == "expertLocation" && s[1] == "mitmui" && s[2] == "netmirror";
    assert s[3] == "typingss" && s[4] == "auth" && s[5] == "dietEcap";
    assert s[6] == "applicare" && s[7] == "code-extractor" && s[8] == "onenovel";
  }

  /** The keys are pairwise distinct. */
  lemma KeysDistinct()
    ensures DistinctKeys(ProjectPagesConfig)
    ensures forall i, j :: 0 <= i < j < |GetAllProjectSlugs()| ==> GetAllProjectSlugs()[i] != GetAllProjectSlugs()[j]
  {
  }

  /** Every enumerated slug resolves, to the config declared under it. */
  lemma SlugResolves(i: nat)
    requires i < |ProjectPagesConfig|
    ensures GetProjectConfig(GetAllProjectSlugs()[i]) == Some(ProjectPagesConfig[i].1)
  {
    KeysDistinct();
    LookupDistinct(ProjectPagesConfig, i);
  }

  /** Lookup is by key: each config's slug field equals its key, except under "dietEcap". */
  lemma SlugFieldMatchesKey(i: nat)
    requires i < |ProjectPagesConfig|
    ensures ProjectPagesConfig[i].1.slug == ProjectPagesConfig[i].0 <==> ProjectPagesConfig[i].0 != "dietEcap"
  {
    if i == 5 {
      assert ProjectPagesConfig[i].1.slug == "dietEecap";
    }
  }

  /** The slug field of the "dietEcap" entry is not itself a key, so it does not resolve. */
  lemma DietEcapSlugFieldUnregistered()
    ensures GetProjectConfig("dietEcap") == Some(DietEcap)
    ensures GetProjectConfig(DietEcap.slug).None?
  {
    SlugResolves(5);
    SlugsListed();
  }

  /** Every config names an MDX file, a title, a description, a date and a colour. */
  lemma RequiredFieldsPresent(i: nat)
    requires i < |ProjectPagesConfig|
    ensures var c := ProjectPagesConfig[i].1;
      c.mdxPath != "" && c.title != "" && c.description != "" && c.date != "" && c.silkColor != ""
  {
  }

  /** The two lookups agree on every key except the inherited built-in names. */
  lemma AsWrittenAgreesOffPrototype(key: string)
    requires key !in ObjectPrototypeMembers
    ensures GetProjectConfigAsWritten(key).None? <==> GetProjectConfig(key).None?
    ensures GetProjectConfig(key).Some? ==> GetProjectConfigAsWritten(key) == Some(OwnConfig(GetProjectConfig(key).value))
  {
  }

  /** "constructor" is no project, yet the lookup as written returns a non-null value for it. */
  lemma ConstructorIsNotNull()
    ensures "constructor" !in GetAllProjectSlugs()
    ensures GetProjectConfig("constructor").None?
    ensures GetProjectConfigAsWritten("constructor") == Some(Inherited("constructor"))
  {
    SlugsListed();
    assert ObjectPrototypeMembers[0] == "constructor";
  }
}
