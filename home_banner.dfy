/**
 * `HomeBanner`: the home page's slide carousel, with a preview of the next
 * slide. Its image helper differs from the other widgets: an external URL
 * normalises to "" and is never previewed.
 */
module HomeBanner {
  import opened Wrappers
  import opened JsStrings
  import opened ImagePath

  datatype Slide = Slide(
    title: string,
    link: string,
    backgroundImage: Option<string>,
    thumbnail: Option<string>)

  /**
   * `getNextSlideIndex`: the slide after the carousel's current one, wrapping
   * round; 0 when there is no carousel yet (`realIndex` absent) or no slide.
   */
  function NextSlideIndex(realIndex: Option<nat>, count: nat): (r: nat)
    ensures count > 0 ==> r < count
    ensures realIndex.None? || count == 0 ==> r == 0
    ensures realIndex.Some? && count > 0 && realIndex.value + 1 < count ==> r == realIndex.value + 1
    ensures realIndex.Some? && count > 0 && realIndex.value == count - 1 ==> r == 0
  {
    if realIndex.None? || count == 0 then 0 else (realIndex.value + 1) % count
  }

  /** Stepping through the next indices from slide 0 visits every slide in order, then comes back to 0. */
  lemma {:induction false} NextIndexCycles(count: nat, steps: nat)
    requires 0 < count && steps <= count
    ensures steps < count ==> IterateNext(count, steps) == steps
    ensures steps == count ==> IterateNext(count, steps) == 0
  {
    if steps > 0 {
      NextIndexCycles(count, steps - 1);
    }
  }

  /** The slide index reached from slide 0 after `steps` moves to the next slide. */
  function IterateNext(count: nat, steps: nat): nat
    requires count > 0
  {
    if steps == 0 then 0 else NextSlideIndex(Some(IterateNext(count, steps - 1)), count)
  }

  /** `nextSlide?.thumbnail || nextSlide?.backgroundImage`: the preview prefers the thumbnail. */
  function ThumbnailSrc(s: Slide): (src: Option<string>)
    ensures Truthy(s.thumbnail) ==> src == s.thumbnail
    ensures !Truthy(s.thumbnail) ==> src == s.backgroundImage
  {
    if Truthy(s.thumbnail) then s.thumbnail else s.backgroundImage
  }

  /** `isThumbnailExternal`: a missing source counts as external; a present one is external when its trimmed form is an http(s) URL. */
  function IsThumbnailExternal(src: Option<string>): (b: bool)
    ensures b <==> !Truthy(src) || IsExternal(Trim(src.value))
  {
    if Truthy(src) then IsExternalUrl(src) else true
  }

  /** `localThumbnailPath`. */
  function LocalThumbnailPath(src: Option<string>): (p: string)
    ensures p != [] ==> StartsWith(p, "/")
  {
    if Truthy(src) then NormalizeLocalImagePath(src, "") else ""
  }

  /** The preview image shows exactly when its source is present, not blank and not external. */
  function HasThumbnailImage(src: Option<string>): (b: bool)
    ensures b <==> !IsBlank(src) && !IsExternalUrl(src)
    ensures b ==> IsNormalImagePath(LocalThumbnailPath(src))
  {
    !IsThumbnailExternal(src) && LocalThumbnailPath(src) != ""
  }

  /**
   * A slide's CSS `backgroundImage`: `url(<path>)` for a local image through
   * the banner's own normaliser, and `none` for a blank or external one.
   */
  function SlideBackground(s: Slide): (css: string)
    ensures IsBlank(s.backgroundImage) || IsExternalUrl(s.backgroundImage) ==> css == "none"
    ensures !IsBlank(s.backgroundImage) && !IsExternalUrl(s.backgroundImage) ==>
              css == "url(" + NormalizeImagePath(s.backgroundImage, "") + ")"
  {
    LocalVariantAgrees(s.backgroundImage, "");
    var b := NormalizeLocalImagePath(s.backgroundImage, "");
    if b == "" then "none" else "url(" + b + ")"
  }

  /** An external background draws no image, although every other widget would keep the URL. */
  lemma ExternalBackgroundIsNone(s: Slide)
    requires Truthy(s.backgroundImage) && IsExternal(Trim(s.backgroundImage.value))
    ensures SlideBackground(s) == "none"
    ensures NormalizeImagePath(s.backgroundImage, "") == Trim(s.backgroundImage.value)
  {
  }

  /** What the banner renders when it has slides. */
  datatype BannerView = BannerView(slides: seq<Slide>, backgrounds: seq<string>, next: Slide, preview: Option<string>)

  /** The banner: nothing without slides; otherwise the slides and the next slide's preview. */
  function Render(bannerslides: Option<seq<Slide>>, realIndex: Option<nat>): (v: Option<BannerView>)
    ensures v.None? <==> bannerslides.GetOr([]) == []
    ensures v.Some? ==> v.value.slides == bannerslides.value
    ensures v.Some? ==> |v.value.backgrounds| == |v.value.slides|
    ensures v.Some? ==> forall i :: 0 <= i < |v.value.slides| ==>
              v.value.backgrounds[i] == SlideBackground(v.value.slides[i])
    ensures v.Some? ==> v.value.next == bannerslides.value[NextSlideIndex(realIndex, |bannerslides.value|)]
    ensures v.Some? ==> (v.value.preview.Some? <==> HasThumbnailImage(ThumbnailSrc(v.value.next)))
    ensures v.Some? && v.value.preview.Some? ==>
              v.value.preview.value == LocalThumbnailPath(ThumbnailSrc(v.value.next)) &&
              IsNormalImagePath(v.value.preview.value)
  {
    var slides := bannerslides.GetOr([]);
    if |slides| == 0 then None
    else
      var next := slides[NextSlideIndex(realIndex, |slides|)];
      var src := ThumbnailSrc(next);
      var backgrounds := seq(|slides|, i requires 0 <= i < |slides| => SlideBackground(slides[i]));
      Some(BannerView(slides, backgrounds, next, if HasThumbnailImage(src) then Some(LocalThumbnailPath(src)) else None))
  }

  /** An external thumbnail is never previewed, even when a local background image exists. */
  lemma ExternalThumbnailHidesPreview(s: Slide)
    requires Truthy(s.thumbnail) && IsExternal(Trim(s.thumbnail.value))
    ensures !HasThumbnailImage(ThumbnailSrc(s))
  {
  }
}
