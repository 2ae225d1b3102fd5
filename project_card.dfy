/**
 * `ProjectCard`: a project's card, linking to the project and showing its
 * normalised image, year, title and one chip per tag.
 */
module ProjectCard {
  import opened Wrappers
  import opened JsStrings
  import opened ImagePath

  datatype Project = Project(
    image: Option<string>,
    year: string,
    title: string,
    tags: seq<string>,
    link: Option<string>)

  const ProjectImageFallback: string := "/images/pro1.png"

  /** `normalizeImagePath` with the project fallback image. */
  function NormalizeProjectImage(path: Option<string>): (r: string)
    ensures r != []
    ensures IsNormalImagePath(r)
    ensures IsBlank(path) ==> r == ProjectImageFallback
    ensures !IsBlank(path) && IsExternal(Trim(path.value)) ==> r == Trim(path.value)
    ensures !IsBlank(path) && !IsExternal(Trim(path.value)) ==>
              r == Rooted(Trim(path.value))
  {
    NormalizeImagePath(path, ProjectImageFallback)
  }

  /** Normalising a normalised image changes nothing. */
  lemma ProjectImageIdempotent(path: Option<string>)
    ensures NormalizeProjectImage(Some(NormalizeProjectImage(path))) == NormalizeProjectImage(path)
  {
    NormalizeIdempotent(path, ProjectImageFallback);
  }

  /**
   * `link = "#"`: a destructuring default, which replaces only a missing
   * link; an empty link is kept.
   */
  function CardHref(link: Option<string>): (href: string)
    ensures link.Some? ==> href == link.value
    ensures link.None? ==> href == "#"
  {
    link.GetOr("#")
  }

  /** The rendered card. */
  datatype CardView = CardView(href: string, image: Option<string>, alt: string, year: string, title: string, chips: seq<string>)

  /** The card: the image block always renders, and the tag chips are the tags in order. */
  function Render(p: Project): (v: CardView)
    ensures v.image.Some? && v.image.value == NormalizeProjectImage(p.image)
    ensures v.href == CardHref(p.link)
    ensures v.alt == p.title && v.title == p.title && v.year == p.year
    ensures |v.chips| == |p.tags| && forall i :: 0 <= i < |v.chips| ==> v.chips[i] == p.tags[i]
  {
    var img := NormalizeProjectImage(p.image);
    CardView(CardHref(p.link), if img != "" then Some(img) else None, p.title, p.year, p.title,
      seq(|p.tags|, i requires 0 <= i < |p.tags| => p.tags[i]))
  }
}
