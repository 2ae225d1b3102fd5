/**
 * `BlogDetailContent`: the body of a blog post, a list of typed content
 * items (headings, paragraphs, bullet lists and images), each rendered by
 * a dispatch on its type.
 */
module BlogDetailContent {
  import opened Wrappers
  import opened JsStrings
  import opened ImagePath

  /** One content item as the data gives it; its type is any string. */
  datatype ContentItem = ContentItem(
    itemType: string,
    content: Option<string>,
    level: Option<int>,
    items: Option<seq<string>>,
    image: Option<string>,
    imageAlt: Option<string>)

  datatype HeadingTag = H2 | H3 | H4

  /** What one item renders to. */
  datatype Rendered =
    | Heading(tag: HeadingTag, text: Option<string>)
    | Paragraph(text: Option<string>)
    | BulletList(entries: seq<string>)
    | Figure(src: string, alt: string)
    | Nothing

  const ImageAltFallback: string := "Blog content image"

  /** Level 3 is an h3, level 4 an h4, and anything else (missing included) an h2. */
  function HeadingTagFor(level: Option<int>): (t: HeadingTag)
    ensures t == H3 <==> level == Some(3)
    ensures t == H4 <==> level == Some(4)
    ensures t == H2 <==> level != Some(3) && level != Some(4)
  {
    if level == Some(3) then H3 else if level == Some(4) then H4 else H2
  }

  /** The image source of an item whose trimmed path is `t`. */
  function ImageSrc(t: string): string {
    if IsExternal(t) then t else Rooted(t)
  }

  /** The item renderer's own path rule agrees with the shared image normaliser on every non-blank path. */
  lemma ImageSrcIsNormalised(path: string, fallback: string)
    requires !IsBlank(Some(path))
    ensures ImageSrc(Trim(path)) == NormalizeImagePath(Some(path), fallback)
    ensures IsNormalImagePath(ImageSrc(Trim(path)))
  {
  }

  /** `renderContentItem`. */
  function RenderItem(item: ContentItem): (r: Rendered)
    ensures item.itemType == "heading" ==> r == Heading(HeadingTagFor(item.level), item.content)
    ensures item.itemType == "paragraph" ==> r == Paragraph(item.content)
    ensures item.itemType == "list" ==> r == BulletList(item.items.GetOr([]))
    ensures item.itemType == "image" && IsBlank(item.image) ==> r == Nothing
    ensures item.itemType == "image" && !IsBlank(item.image) ==>
              r.Figure? && IsNormalImagePath(r.src) && r.alt == Or(item.imageAlt, ImageAltFallback)
    ensures item.itemType == "image" && !IsBlank(item.image) ==>
              r.Figure? && r.src == NormalizeImagePath(item.image, "")
    ensures item.itemType !in {"heading", "paragraph", "list", "image"} ==> r == Nothing
  {
    match item.itemType
    case "heading" => Heading(HeadingTagFor(item.level), item.content)
    case "paragraph" => Paragraph(item.content)
    case "list" => BulletList(if item.items.Some? then item.items.value else [])
    case "image" =>
      if IsBlank(item.image) then Nothing
      else Figure(ImageSrc(Trim(item.image.value)), Or(item.imageAlt, ImageAltFallback))
    case _ => Nothing
  }

  /** The whole body: a placeholder without sections, else one result per section, in order. */
  datatype Body = NoDataPlaceholder | Items(results: seq<Rendered>)

  function Render(sections: Option<seq<ContentItem>>): (b: Body)
    ensures b.NoDataPlaceholder? <==> sections.GetOr([]) == []
    ensures b.Items? ==> |b.results| == |sections.value|
    ensures b.Items? ==> forall i :: 0 <= i < |b.results| ==> b.results[i] == RenderItem(sections.value[i])
  {
    var s := sections.GetOr([]);
    if |s| == 0 then NoDataPlaceholder
    else Items(seq(|s|, i requires 0 <= i < |s| => RenderItem(s[i])))
  }

  /** Rendering sections one after another is rendering each part in turn. */
  lemma RenderConcat(a: seq<ContentItem>, b: seq<ContentItem>)
    requires a != [] && b != []
    ensures Render(Some(a + b)).results == Render(Some(a)).results + Render(Some(b)).results
  {
  }
}
