/**
 * The rules the MDX component map applies while rendering project pages:
 * which `pre` blocks become highlighted code and in which language, which
 * links open in a new tab, the width of a project image, the layout of a
 * gallery, and when captions appear.
 */
module MdxComponents {
  import opened Wrappers
  import opened JsStrings

  const LanguagePrefix := "language-"

  // ------------------------------------------------------------ code blocks

  /** The first child of a `pre`, when it is an element: its class name, if any, and its text. */
  datatype CodeChild = CodeChild(className: Option<string>, code: string)

  /** What a `pre` renders: the highlighted block with its language, or the plain fallback. */
  datatype PreView = CodeBlock(code: string, lang: string) | PlainPre

  predicate HasLanguageClass(firstChild: Option<CodeChild>) {
    firstChild.Some? && firstChild.value.className.Some?
    && StartsWith(firstChild.value.className.value, LanguagePrefix)
  }

  /**
   * The `pre` override: a first child whose class starts with "language-"
   * becomes a code block whose language is that class with the first
   * "language-" replaced by nothing; anything else falls back to a plain `pre`.
   */
  function RenderPre(firstChild: Option<CodeChild>): (r: PreView)
    ensures r.CodeBlock? <==> HasLanguageClass(firstChild)
    ensures r.CodeBlock? ==> r.code == firstChild.value.code
    ensures r.CodeBlock? ==> firstChild.value.className.value == LanguagePrefix + r.lang
  {
    if HasLanguageClass(firstChild) then
      var cls := firstChild.value.className.value;
      var lang := ReplaceFirst(cls, LanguagePrefix, "");
      ReplacePrefixDropsPrefix(cls, LanguagePrefix);
      assert cls == LanguagePrefix + cls[|LanguagePrefix|..];
      CodeBlock(firstChild.value.code, lang)
    else PlainPre
  }

  // ------------------------------------------------------------------ links

  /** The attributes the `a` override sets. */
  datatype AnchorAttrs = AnchorAttrs(href: Option<string>, target: Option<string>, rel: Option<string>)

  /** External links (href starting with "http") open in a new tab without opener or referrer; others get neither attribute. */
  function Anchor(href: Option<string>): (r: AnchorAttrs)
    ensures r.href == href
    ensures r.target.Some? <==> href.Some? && StartsWith(href.value, "http")
    ensures r.target.Some? ==> r.target.value == "_blank" && r.rel == Some("noopener noreferrer")
    ensures r.target.None? ==> r.rel.None?
  {
    if href.Some? && StartsWith(href.value, "http") then
      AnchorAttrs(href, Some("_blank"), Some("noopener noreferrer"))
    else AnchorAttrs(href, None, None)
  }

  // --------------------------------------------------------------- captions

  /** A caption (or an `img`'s alt text) is shown only when it is a non-empty string. */
  function Caption(text: Option<string>): (r: Option<string>)
    ensures r.Some? <==> Truthy(text)
    ensures r.Some? ==> r == text
  {
    if Truthy(text) then text else None
  }

  // ---------------------------------------------------------- project image

  datatype ImageSize = Normal | Large | Full

  /** The width class of `ProjectImage`; the size defaults to normal. */
  function ImageWidthClass(size: Option<ImageSize>): (r: string)
    ensures size == Some(Large) ==> r == "max-w-4xl mx-auto"
    ensures size == Some(Full) ==> r == "w-full"
    ensures size.None? || size == Some(Normal) ==> r == "max-w-2xl mx-auto"
  {
    var s := size.GetOr(Normal);
    if s == Large then "max-w-4xl mx-auto"
    else if s == Full then "w-full"
    else "max-w-2xl mx-auto"
  }

  // -------------------------------------------------------- project gallery

  datatype GalleryImage = GalleryImage(src: string, alt: string, caption: Option<string>)

  datatype GallerySize = GalleryNormal | GalleryLarge

  /** A gallery renders as one large centred image, or as a grid with one caption slot per image. */
  datatype GalleryView =
    | SingleLarge(image: GalleryImage, caption: Option<string>)
    | Grid(gridClass: string, images: seq<GalleryImage>, captions: seq<Option<string>>)

  /** The grid class for a column count: two and three are named, every other count gets four. */
  function GridClass(columns: int): (r: string)
    ensures columns == 2 ==> r == "sm:grid-cols-2"
    ensures columns == 3 ==> r == "sm:grid-cols-2 lg:grid-cols-3"
    ensures columns != 2 && columns != 3 ==> r == "sm:grid-cols-2 lg:grid-cols-4"
  {
    if columns == 2 then "sm:grid-cols-2"
    else if columns == 3 then "sm:grid-cols-2 lg:grid-cols-3"
    else "sm:grid-cols-2 lg:grid-cols-4"
  }

  /** `ProjectGallery`; columns default to 2 and size to normal. */
  function Gallery(images: seq<GalleryImage>, columns: Option<int>, size: Option<GallerySize>): (r: GalleryView)
    ensures r.SingleLarge? <==> |images| == 1 && size == Some(GalleryLarge)
    ensures r.SingleLarge? ==> r.image == images[0] && r.caption == Caption(images[0].caption)
    ensures r.Grid? ==> r.gridClass == GridClass(columns.GetOr(2)) && r.images == images
    ensures r.Grid? ==> |r.captions| == |images|
                        && forall i :: 0 <= i < |images| ==> r.captions[i] == Caption(images[i].caption)
  {
    if |images| == 1 && size.GetOr(GalleryNormal) == GalleryLarge then
      SingleLarge(images[0], Caption(images[0].caption))
    else
      Grid(GridClass(columns.GetOr(2)), images,
           seq(|images|, i requires 0 <= i < |images| => Caption(images[i].caption)))
  }

  // ---------------------------------------------------------------- lemmas

  /** Round trip: a class written as "language-" + l yields language l, for every l. */
  lemma LanguageRoundTrip(lang: string, code: string)
    ensures RenderPre(Some(CodeChild(Some(LanguagePrefix + lang), code))) == CodeBlock(code, lang)
  {
    assert StartsWith(LanguagePrefix + lang, LanguagePrefix) by {
      assert (LanguagePrefix + lang)[..|LanguagePrefix|] == LanguagePrefix;
    }
  }

  /** The language is the class name minus its first nine characters. */
  lemma LanguageDropsNineCharacters(cls: string, code: string)
    requires StartsWith(cls, LanguagePrefix)
    ensures |LanguagePrefix| == 9
    ensures RenderPre(Some(CodeChild(Some(cls), code))) == CodeBlock(code, cls[9..])
  {
    var r := RenderPre(Some(CodeChild(Some(cls), code)));
    assert cls == LanguagePrefix + r.lang;
    assert cls[9..] == r.lang;
  }

  /** A child without a class, or with another class, renders the plain fallback. */
  lemma PlainFallback(cls: Option<string>, code: string)
    requires cls.None? || !StartsWith(cls.value, LanguagePrefix)
    ensures RenderPre(Some(CodeChild(cls, code))) == PlainPre
    ensures RenderPre(None) == PlainPre
  {
  }

  /** An https URL is external; a site path and an in-page anchor are not. */
  lemma AnchorExamples()
    ensures Anchor(Some("https://github.com/suryasarisa99")).target == Some("_blank")
    ensures Anchor(Some("/projects")).target.None?
    ensures Anchor(Some("#features")).target.None?
    ensures Anchor(None) == AnchorAttrs(None, None, None)
  {
    assert StartsWith("https://github.com/suryasarisa99", "http") by {
      assert "https://github.com/suryasarisa99"[..4] == "http";
    }
    assert "/projects"[0] != "http"[0];
    assert "#features"[0] != "http"[0];
  }

  /** The three image sizes give three different widths. */
  lemma ImageWidthsDistinct()
    ensures ImageWidthClass(Some(Large)) != ImageWidthClass(Some(Full))
    ensures ImageWidthClass(Some(Large)) != ImageWidthClass(Some(Normal))
    ensures ImageWidthClass(Some(Full)) != ImageWidthClass(Some(Normal))
    ensures ImageWidthClass(None) == ImageWidthClass(Some(Normal))
  {
  }

  /** A large gallery of two images still uses the grid; a single image without a size does too. */
  lemma GalleryLayoutExamples(a: GalleryImage, b: GalleryImage)
    ensures Gallery([a, b], None, Some(GalleryLarge)).Grid?
    ensures Gallery([a], None, None) == Grid("sm:grid-cols-2", [a], [Caption(a.caption)])
    ensures Gallery([a], Some(4), Some(GalleryLarge)) == SingleLarge(a, Caption(a.caption))
  {
    assert Gallery([a], None, None).captions == [Caption(a.caption)];
  }
}
