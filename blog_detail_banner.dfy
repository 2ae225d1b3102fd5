/**
 * `BlogDetailBanner`: the header of a blog post, with its tags, its main
 * image and a row of share buttons. Each share button links to a fixed
 * share template that carries the percent-encoded page URL (section 2.1 of
 * RFC 3986); the encoder is a parameter.
 */
module BlogDetailBanner {
  import opened Wrappers
  import opened JsStrings
  import opened ImagePath

  datatype BannerData = BannerData(
    title: Option<string>,
    description: Option<string>,
    categories: Option<seq<string>>,
    tags: Option<seq<string>>,
    mainImage: Option<string>,
    author: Option<string>,
    date: Option<string>,
    sharePlatforms: Option<seq<string>>)

  const MainImageFallback: string := "/images/blog1.png"
  const DefaultPlatforms: seq<string> := ["facebook", "twitter", "linkedin", "copy"]

  /** `data?.field`. */
  function TitleOf(data: Option<BannerData>): Option<string> {
    if data.Some? then data.value.title else None
  }

  /** The main image: the post's image normalised, or the blog fallback; never empty. */
  function MainImage(data: Option<BannerData>): (r: string)
    ensures r != []
    ensures IsNormalImagePath(r)
    ensures data.None? || IsBlank(data.value.mainImage) ==> r == MainImageFallback
  {
    NormalizeImagePath(if data.Some? then data.value.mainImage else None, MainImageFallback)
  }

  /** Tags when there are some, else categories, else nothing. */
  function DisplayTags(data: Option<BannerData>): (r: seq<string>)
    ensures data.Some? && data.value.tags.Some? && data.value.tags.value != [] ==> r == data.value.tags.value
    ensures data.Some? && data.value.tags.GetOr([]) == [] ==> r == data.value.categories.GetOr([])
    ensures data.None? ==> r == []
  {
    if data.Some? && data.value.tags.Some? && |data.value.tags.value| > 0 then data.value.tags.value
    else if data.Some? then data.value.categories.GetOr([])
    else []
  }

  /** `data?.sharePlatforms || [...]`: an empty list is kept, since an empty array is truthy. */
  function Platforms(data: Option<BannerData>): (r: seq<string>)
    ensures data.None? || data.value.sharePlatforms.None? ==> r == DefaultPlatforms
    ensures data.Some? && data.value.sharePlatforms.Some? ==> r == data.value.sharePlatforms.value
  {
    if data.Some? && data.value.sharePlatforms.Some? then data.value.sharePlatforms.value else DefaultPlatforms
  }

  /** The platforms that have a share template. */
  predicate HasTemplate(platform: string) {
    platform in {"facebook", "twitter", "linkedin", "whatsapp", "email"}
  }

  /** `getShareUrl`: the platform's template filled with the encoded URL and title, or "" without one. */
  function ShareUrl(platform: string, url: string, title: string, encode: string -> string): (r: string)
    ensures r == "" <==> !HasTemplate(platform)
  {
    var u := encode(url);
    var t := encode(title);
    match platform
    case "facebook" => "https://www.facebook.com/sharer/sharer.php?u=" + u
    case "twitter" => "https://twitter.com/intent/tweet?url=" + u + "&text=" + t
    case "linkedin" => "https://www.linkedin.com/sharing/share-offsite/?url=" + u
    case "whatsapp" => "https://wa.me/?text=" + t + "%20" + u
    case "email" => "mailto:?subject=" + t + "&body=" + t + "%20" + u
    case _ => ""
  }

  /** A piece placed between a prefix and a suffix occurs right after the prefix. */
  lemma OccursBetween(p: string, x: string, q: string)
    ensures OccursAt(p + x + q, x, |p|)
  {
    assert (p + x + q)[|p|..|p| + |x|] == x;
  }

  /** Every share link carries the encoded page URL, and ends with it except on twitter. */
  lemma ShareUrlCarriesUrl(platform: string, url: string, title: string, encode: string -> string)
    requires HasTemplate(platform)
    ensures var r := ShareUrl(platform, url, title, encode);
            exists i: nat :: OccursAt(r, encode(url), i)
    ensures platform != "twitter" ==>
              var r := ShareUrl(platform, url, title, encode);
              OccursAt(r, encode(url), |r| - |encode(url)|)
  {
    var r := ShareUrl(platform, url, title, encode);
    var u := encode(url);
    var t := encode(title);
    if platform == "twitter" {
      var p := "https://twitter.com/intent/tweet?url=";
      assert r == p + u + ("&text=" + t);
      OccursBetween(p, u, "&text=" + t);
    } else {
      var p := r[..|r| - |u|];
      assert r == p + u + [];
      OccursBetween(p, u, []);
    }
  }

  /** Twitter, WhatsApp and email also carry the encoded title; the others do not use it. */
  lemma ShareUrlCarriesTitle(platform: string, url: string, title: string, encode: string -> string)
    ensures platform in {"twitter", "whatsapp", "email"} ==>
              var r := ShareUrl(platform, url, title, encode);
              exists i: nat :: OccursAt(r, encode(title), i)
    ensures platform in {"facebook", "linkedin"} ==>
              forall title2 :: ShareUrl(platform, url, title, encode) == ShareUrl(platform, url, title2, encode)
  {
    var r := ShareUrl(platform, url, title, encode);
    var u := encode(url);
    var t := encode(title);
    if platform == "twitter" {
      var p := "https://twitter.com/intent/tweet?url=" + u + "&text=";
      assert r == p + t + [];
      OccursBetween(p, t, []);
    } else if platform == "whatsapp" {
      var p := "https://wa.me/?text=";
      assert r == p + t + ("%20" + u);
      OccursBetween(p, t, "%20" + u);
    } else if platform == "email" {
      var p := "mailto:?subject=";
      assert r == p + t + ("&body=" + t + "%20" + u);
      OccursBetween(p, t, "&body=" + t + "%20" + u);
    }
  }

  /**
   * `getPlatformLabel`: a fixed name per platform, "Copied!" or "Copy Link"
   * for copy, else "". The copy branch is never reached while rendering,
   * since the copy button sets its own label (see `ShareItems`).
   */
  function PlatformLabel(platform: string, copied: bool): (r: string)
    ensures r == "" <==> !HasTemplate(platform) && platform != "copy"
    ensures platform == "copy" ==> r == if copied then "Copied!" else "Copy Link"
    ensures platform == "facebook" ==> r == "Facebook"
    ensures platform == "twitter" ==> r == "Twitter"
    ensures platform == "linkedin" ==> r == "LinkedIn"
    ensures platform == "whatsapp" ==> r == "WhatsApp"
    ensures platform == "email" ==> r == "Email"
  {
    match platform
    case "facebook" => "Facebook"
    case "twitter" => "Twitter"
    case "linkedin" => "LinkedIn"
    case "whatsapp" => "WhatsApp"
    case "email" => "Email"
    case "copy" => if copied then "Copied!" else "Copy Link"
    case _ => ""
  }

  /** Different known platforms never share a label, so every control is told apart by its label. */
  lemma PlatformLabelsDistinct(p: string, q: string, copied: bool)
    requires p != q
    requires HasTemplate(p) || p == "copy"
    requires HasTemplate(q) || q == "copy"
    ensures PlatformLabel(p, copied) != PlatformLabel(q, copied)
  {
  }

  /** One share control: the copy button, or a link to a share URL. */
  datatype ShareItem =
    | CopyButton(ariaLabel: string)
    | ShareLink(platform: string, href: string, ariaLabel: string)

  /** The share row: one control per platform, in order. */
  function ShareItems(platforms: seq<string>, url: string, title: string, copied: bool, encode: string -> string)
    : (r: seq<ShareItem>)
    ensures |r| == |platforms|
    ensures forall i :: 0 <= i < |r| ==> (r[i].CopyButton? <==> platforms[i] == "copy")
    ensures forall i :: 0 <= i < |r| && r[i].CopyButton? ==>
              r[i].ariaLabel == if copied then "Link copied!" else "Copy link"
    ensures forall i :: 0 <= i < |r| && r[i].ShareLink? ==>
              r[i].platform == platforms[i] && r[i].href == ShareUrl(platforms[i], url, title, encode)
              && r[i].ariaLabel == PlatformLabel(platforms[i], copied)
  {
    seq(|platforms|, i requires 0 <= i < |platforms| =>
      if platforms[i] == "copy" then CopyButton(if copied then "Link copied!" else "Copy link")
      else ShareLink(platforms[i], ShareUrl(platforms[i], url, title, encode), PlatformLabel(platforms[i], copied)))
  }

  /** The banner's text column and share row: the title heading, the description paragraph and the share controls. */
  datatype HeaderView = HeaderView(heading: Option<string>, description: Option<string>, share: seq<ShareItem>)

  /**
   * The heading and the description show exactly when truthy. The share row
   * uses the platforms with `data?.title || ''` as the share title.
   */
  function RenderHeader(data: Option<BannerData>, url: string, copied: bool, encode: string -> string): (v: HeaderView)
    ensures v.heading.Some? <==> Truthy(TitleOf(data))
    ensures v.heading.Some? ==> v.heading.value == data.value.title.value
    ensures v.description.Some? <==> data.Some? && Truthy(data.value.description)
    ensures v.description.Some? ==> v.description.value == data.value.description.value
    ensures Truthy(TitleOf(data)) ==> v.share == ShareItems(Platforms(data), url, data.value.title.value, copied, encode)
    ensures !Truthy(TitleOf(data)) ==> v.share == ShareItems(Platforms(data), url, "", copied, encode)
  {
    var shareTitle := Or(TitleOf(data), "");
    HeaderView(
      if Truthy(TitleOf(data)) then TitleOf(data) else None,
      if data.Some? && Truthy(data.value.description) then data.value.description else None,
      ShareItems(Platforms(data), url, shareTitle, copied, encode))
  }

  /** Without a title, the title-carrying share links carry the encoding of "". */
  lemma UntitledShareCarriesEmptyTitle(data: Option<BannerData>, url: string, copied: bool, encode: string -> string, i: nat)
    requires !Truthy(TitleOf(data))
    requires i < |Platforms(data)| && Platforms(data)[i] == "whatsapp"
    ensures RenderHeader(data, url, copied, encode).share[i] ==
            ShareLink("whatsapp", "https://wa.me/?text=" + encode("") + "%20" + encode(url), "WhatsApp")
  {
  }

  /** With the default platforms every link has a non-empty href. */
  lemma DefaultLinksNonEmpty(url: string, title: string, copied: bool, encode: string -> string)
    ensures var items := ShareItems(DefaultPlatforms, url, title, copied, encode);
            |items| == 4 && items[3].CopyButton? &&
            forall i :: 0 <= i < 3 ==> items[i].ShareLink? && items[i].href != ""
  {
  }

  /**
   * The main image's alt text as written: `data.title || 'Blog Image'`,
   * evaluated whenever the (never empty) main image renders. Without data
   * this reads a property of `undefined` and the render throws, shown
   * here as `None`.
   */
  function ImageAltAsWritten(data: Option<BannerData>): (r: Option<string>)
    ensures r.None? <==> data.None?
    ensures r.Some? && Truthy(data.value.title) ==> r.value == data.value.title.value
    ensures r.Some? && !Truthy(data.value.title) ==> r.value == "Blog Image"
  {
    if data.None? then None
    else Some(Or(data.value.title, "Blog Image"))
  }

  /** A banner given no data throws while rendering its image. */
  lemma AltThrowsWithoutData()
    ensures MainImage(None) != ""
    ensures ImageAltAsWritten(None) == None
  {
  }

  /** The alt text with optional chaining, as the rest of the component reads `data`. */
  function ImageAlt(data: Option<BannerData>): (r: string)
    ensures r != []
    ensures Truthy(TitleOf(data)) ==> r == TitleOf(data).value
    ensures !Truthy(TitleOf(data)) ==> r == "Blog Image"
  {
    Or(TitleOf(data), "Blog Image")
  }

  /** Where the code as written does not throw, the corrected alt text agrees with it. */
  lemma ImageAltAgrees(data: Option<BannerData>)
    requires data.Some?
    ensures ImageAltAsWritten(data) == Some(ImageAlt(data))
  {
  }
}
