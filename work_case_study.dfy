/**
 * `WorkCaseStudy`: a project's case study, one block per section, each with
 * a heading, a title, a description and an image area laid out as one
 * large image beside two stacked ones, a grid, or a single image.
 */
module WorkCaseStudy {
  import opened Wrappers
  import opened JsStrings

  datatype CaseStudySection = CaseStudySection(
    heading: string,
    title: string,
    description: string,
    image: Option<string>,
    images: Option<seq<string>>,
    imageLayout: Option<string>)

  const LeftOneRightTwo: string := "left-one-right-two"

  datatype Figure = Figure(src: string, alt: string)

  /** What a section's image area shows. */
  datatype Area =
    | NoImages
    | SideBySide(large: Figure, stacked: seq<Figure>)
    | Grid(figures: seq<Figure>)
    | Single(figure: Figure)

  /** The image area is drawn when the section has a non-empty image list or a non-empty single image. */
  predicate HasImages(s: CaseStudySection) {
    (s.images.Some? && |s.images.value| > 0) || Truthy(s.image)
  }

  /** The one-beside-two layout is used only when asked for and there are at least three images. */
  predicate UsesSideBySide(s: CaseStudySection) {
    s.imageLayout == Some(LeftOneRightTwo) && s.images.Some? && |s.images.value| >= 3
  }

  /** The alt text of the image at `index` (0-based): the heading and the 1-based position. */
  function NumberedAlt(heading: string, index: nat): (alt: string)
    ensures StartsWith(alt, heading + " ")
    ensures alt[|heading| + 1..] == NatToString(index + 1)
  {
    heading + " " + NatToString(index + 1)
  }

  /** Images of one section get pairwise distinct alt texts. */
  lemma NumberedAltsDistinct(heading: string, i: nat, j: nat)
    requires i != j
    ensures NumberedAlt(heading, i) != NumberedAlt(heading, j)
  {
    if NumberedAlt(heading, i) == NumberedAlt(heading, j) {
      NatToStringInjective(i + 1, j + 1);
    }
  }

  /** Every image of a list, in order, with its numbered alt text. */
  function NumberedFigures(heading: string, images: seq<string>): (r: seq<Figure>)
    ensures |r| == |images|
    ensures forall i :: 0 <= i < |r| ==> r[i] == Figure(images[i], NumberedAlt(heading, i))
  {
    seq(|images|, i requires 0 <= i < |images| => Figure(images[i], NumberedAlt(heading, i)))
  }

  /**
   * The image area as the component draws it: a present image list takes
   * the grid even when it is empty, so a section with an empty list and a
   * single image draws an empty grid.
   */
  function ImageAreaAsWritten(s: CaseStudySection): (a: Area)
    ensures a.NoImages? <==> !HasImages(s)
    ensures a.SideBySide? <==> UsesSideBySide(s)
    ensures a.Single? <==> s.images.None? && Truthy(s.image)
  {
    if !HasImages(s) then NoImages
    else if UsesSideBySide(s) then
      var figs := NumberedFigures(s.heading, s.images.value);
      SideBySide(figs[0], figs[1..3])
    else if s.images.Some? then Grid(NumberedFigures(s.heading, s.images.value))
    else if Truthy(s.image) then Single(Figure(s.image.value, s.heading))
    else NoImages
  }

  /** The image area with an empty image list treated as absent, so the single image shows. */
  function ImageArea(s: CaseStudySection): (a: Area)
    ensures a.NoImages? <==> !HasImages(s)
    ensures a.SideBySide? <==> UsesSideBySide(s)
    ensures a.Single? <==> (s.images.None? || s.images == Some([])) && Truthy(s.image)
  {
    if !HasImages(s) then NoImages
    else if UsesSideBySide(s) then
      var figs := NumberedFigures(s.heading, s.images.value);
      SideBySide(figs[0], figs[1..3])
    else if s.images.Some? && |s.images.value| > 0 then Grid(NumberedFigures(s.heading, s.images.value))
    else Single(Figure(s.image.value, s.heading))
  }

  /** The figures an image area shows, in reading order. */
  function Figures(area: Area): seq<Figure> {
    match area
    case NoImages => []
    case SideBySide(large, stacked) => [large] + stacked
    case Grid(figures) => figures
    case Single(figure) => [figure]
  }

  /** An empty image list beside a single image draws no figure at all, although the area is drawn. */
  lemma EmptyImagesHideImage(s: CaseStudySection)
    requires s.images == Some([]) && Truthy(s.image)
    ensures HasImages(s)
    ensures ImageAreaAsWritten(s) == Grid([]) && Figures(ImageAreaAsWritten(s)) == []
    ensures ImageArea(s) == Single(Figure(s.image.value, s.heading))
  {
  }

  /** The corrected area differs from the drawn one only for an empty image list. */
  lemma ImageAreaAgrees(s: CaseStudySection)
    requires s.images != Some([])
    ensures ImageArea(s) == ImageAreaAsWritten(s)
  {
  }

  /** The corrected area shows a figure exactly when the section has an image, and shows the list's images in order. */
  lemma ImageAreaShowsImages(s: CaseStudySection)
    ensures |Figures(ImageArea(s))| > 0 <==> HasImages(s)
    ensures UsesSideBySide(s) ==>
              Figures(ImageArea(s)) == NumberedFigures(s.heading, s.images.value[..3])
    ensures !UsesSideBySide(s) && s.images.Some? && |s.images.value| > 0 ==>
              Figures(ImageArea(s)) == NumberedFigures(s.heading, s.images.value)
    ensures (s.images.None? || s.images == Some([])) && Truthy(s.image) ==>
              Figures(ImageArea(s)) == [Figure(s.image.value, s.heading)]
  {
    if UsesSideBySide(s) {
      var figs := NumberedFigures(s.heading, s.images.value);
      assert [figs[0]] + figs[1..3] == figs[..3];
    }
  }

  /** One rendered section. */
  datatype SectionView = SectionView(heading: string, title: string, description: string, area: Area)

  /** One block per section, in order, with the image area as drawn; absent sections are none. */
  function Render(sections: Option<seq<CaseStudySection>>): (r: seq<SectionView>)
    ensures |r| == |sections.GetOr([])|
    ensures forall i :: 0 <= i < |r| ==>
              var s := sections.GetOr([])[i];
              r[i] == SectionView(s.heading, s.title, s.description, ImageAreaAsWritten(s))
  {
    var ss := sections.GetOr([]);
    seq(|ss|, i requires 0 <= i < |ss| => SectionView(ss[i].heading, ss[i].title, ss[i].description, ImageAreaAsWritten(ss[i])))
  }

  /** The blocks with the corrected image area, in which an empty image list lets the single image show. */
  function RenderCorrected(sections: Option<seq<CaseStudySection>>): (r: seq<SectionView>)
    ensures |r| == |sections.GetOr([])|
    ensures forall i :: 0 <= i < |r| ==>
              var s := sections.GetOr([])[i];
              r[i] == SectionView(s.heading, s.title, s.description, ImageArea(s))
  {
    var ss := sections.GetOr([]);
    seq(|ss|, i requires 0 <= i < |ss| => SectionView(ss[i].heading, ss[i].title, ss[i].description, ImageArea(ss[i])))
  }

  /** The drawn and the corrected blocks are the same unless some section has an empty image list. */
  lemma RenderAgreesWithoutEmptyLists(sections: seq<CaseStudySection>)
    requires forall i :: 0 <= i < |sections| ==> sections[i].images != Some([])
    ensures Render(Some(sections)) == RenderCorrected(Some(sections))
  {
    var r, c := Render(Some(sections)), RenderCorrected(Some(sections));
    forall i | 0 <= i < |sections|
      ensures r[i] == c[i]
    {
      ImageAreaAgrees(sections[i]);
    }
  }
}
