/**
 * `AboutSection`: the "about" block, with a main image, a checklist, an
 * optional button and a row of partner logos. Every image path goes
 * through the shared normaliser, each with its own fallback.
 */
module AboutSection {
  import opened Wrappers
  import opened JsStrings
  import opened ImagePath

  datatype Partner = Partner(image: Option<string>, alt: Option<string>)

  datatype AboutData = AboutData(
    title: Option<string>,
    description: Option<string>,
    aboutItems: Option<seq<string>>,
    buttonText: Option<string>,
    buttonLink: Option<string>,
    mainImage: Option<string>,
    clientImages: Option<seq<string>>,
    partners: Option<seq<Partner>>,
    partnerCount: Option<string>,
    partnerText: Option<string>)

  const MainImageFallback: string := "/images/6.jpg"
  const PartnerImageFallback: string := "/assets/img/partner-img/1.png"

  const DefaultAboutItems: seq<string> := [
    "Simplicity The Biggest Idea A Looked",
    "Mastering The Art Of Conversion",
    "Keeping Advertising Standards High"
  ]

  const DefaultPartners: seq<Partner> := [
    Partner(Some("/assets/img/partner-img/1.png"), Some("Partner 1")),
    Partner(Some("/assets/img/partner-img/2.png"), Some("Partner 2")),
    Partner(Some("/assets/img/partner-img/3.png"), Some("Partner 3")),
    Partner(Some("/assets/img/partner-img/4.png"), Some("Partner 4")),
    Partner(Some("/assets/img/partner-img/3.png"), Some("Partner 5")),
    Partner(Some("/assets/img/partner-img/5.png"), Some("Partner 6"))
  ]

  const DefaultClientImages: seq<string> := [
    "/assets/img/bg-img/5.jpg",
    "/assets/img/bg-img/4.jpg",
    "/assets/img/bg-img/3.jpg",
    "/assets/img/bg-img/2.jpg"
  ]

  /** The main image: normalised, or "/images/6.jpg" when missing or blank. */
  function MainImage(data: Option<AboutData>): (r: string)
    ensures IsNormalImagePath(r)
    ensures data.None? || IsBlank(data.value.mainImage) ==> r == MainImageFallback
  {
    NormalizeImagePath(if data.Some? then data.value.mainImage else None, MainImageFallback)
  }

  /** The checklist: the given items (an empty list is kept), else the three defaults. */
  function AboutItems(data: Option<AboutData>): (r: seq<string>)
    ensures data.None? || data.value.aboutItems.None? ==> r == DefaultAboutItems
    ensures data.Some? && data.value.aboutItems.Some? ==> r == data.value.aboutItems.value
  {
    if data.Some? && data.value.aboutItems.Some? then data.value.aboutItems.value else DefaultAboutItems
  }

  const DefaultDescription: string :=
    "If you ask our clients what it's like working with 36, they'll talk about how much we care about their success. For us, real relationships fuel real success."

  /** The heading and the paragraph beside the main image, each with its fixed fallback. */
  function HeadingTexts(data: Option<AboutData>): (r: (string, string))
    ensures data.Some? && Truthy(data.value.title) ==> r.0 == data.value.title.value
    ensures !(data.Some? && Truthy(data.value.title)) ==> r.0 == "Passionate About Quality Design"
    ensures data.Some? && Truthy(data.value.description) ==> r.1 == data.value.description.value
    ensures !(data.Some? && Truthy(data.value.description)) ==> r.1 == DefaultDescription
  {
    (Or(if data.Some? then data.value.title else None, "Passionate About Quality Design"),
     Or(if data.Some? then data.value.description else None, DefaultDescription))
  }

  /** The partner row's heading: the highlighted count, then the text, each with its fixed fallback. */
  function PartnerHeading(data: Option<AboutData>): (r: (string, string))
    ensures data.Some? && Truthy(data.value.partnerCount) ==> r.0 == data.value.partnerCount.value
    ensures !(data.Some? && Truthy(data.value.partnerCount)) ==> r.0 == "2337+"
    ensures data.Some? && Truthy(data.value.partnerText) ==> r.1 == data.value.partnerText.value
    ensures !(data.Some? && Truthy(data.value.partnerText)) ==> r.1 == "Our Trusted & Valuable Clients"
  {
    (Or(if data.Some? then data.value.partnerCount else None, "2337+"),
     Or(if data.Some? then data.value.partnerText else None, "Our Trusted & Valuable Clients"))
  }

  /**
   * The client avatars: the given list, else the four defaults. The list is
   * computed but never drawn: the markup shows no client avatars.
   */
  function ClientImages(data: Option<AboutData>): (r: seq<string>)
    ensures data.None? || data.value.clientImages.None? ==> r == DefaultClientImages
    ensures data.Some? && data.value.clientImages.Some? ==> r == data.value.clientImages.value
  {
    if data.Some? && data.value.clientImages.Some? then data.value.clientImages.value else DefaultClientImages
  }

  /** The button shows only with a link; its text falls back to "MORE ABOUT US". */
  function Button(data: Option<AboutData>): (b: Option<(string, string)>)
    ensures b.Some? <==> data.Some? && Truthy(data.value.buttonLink)
    ensures b.Some? ==> b.value.1 == data.value.buttonLink.value && b.value.0 != []
    ensures b.Some? && Truthy(data.value.buttonText) ==> b.value.0 == data.value.buttonText.value
    ensures b.Some? && !Truthy(data.value.buttonText) ==> b.value.0 == "MORE ABOUT US"
  {
    if data.Some? && Truthy(data.value.buttonLink) then
      Some((Or(data.value.buttonText, "MORE ABOUT US"), data.value.buttonLink.value))
    else None
  }

  /** One partner with its image normalised and its alt kept. */
  function NormalizePartner(p: Partner): (r: Partner)
    ensures r.alt == p.alt
    ensures r.image == Some(NormalizeImagePath(p.image, PartnerImageFallback))
  {
    p.(image := Some(NormalizeImagePath(p.image, PartnerImageFallback)))
  }

  /** The partners: the given list, else the six defaults, each with its image normalised. */
  function Partners(data: Option<AboutData>): (r: seq<Partner>)
    ensures var src := if data.Some? && data.value.partners.Some? then data.value.partners.value else DefaultPartners;
            |r| == |src| && forall i :: 0 <= i < |r| ==> r[i] == NormalizePartner(src[i])
  {
    var src := if data.Some? && data.value.partners.Some? then data.value.partners.value else DefaultPartners;
    seq(|src|, i requires 0 <= i < |src| => NormalizePartner(src[i]))
  }

  /** Partner normalisation changes only images: length, order and alt texts are kept. */
  lemma PartnersKeepAlts(data: Option<AboutData>, i: nat)
    requires data.Some? && data.value.partners.Some? && i < |data.value.partners.value|
    ensures |Partners(data)| == |data.value.partners.value|
    ensures Partners(data)[i].alt == data.value.partners.value[i].alt
    ensures Partners(data)[i].image.Some? && IsNormalImagePath(Partners(data)[i].image.value)
  {
    FallbackIsNormal();
  }

  lemma FallbackIsNormal()
    ensures IsNormalImagePath(PartnerImageFallback)
  {
    assert PartnerImageFallback[|PartnerImageFallback| - 1] == 'g';
  }

  /** A partner list whose images are already normal passes through normalisation unchanged. */
  lemma NormalPartnersUnchanged(partners: seq<Partner>)
    requires forall i :: 0 <= i < |partners| ==>
               partners[i].image.Some? && IsNormalImagePath(partners[i].image.value)
    ensures Partners(Some(AboutData(None, None, None, None, None, None, None, Some(partners), None, None))) == partners
  {
    var r := Partners(Some(AboutData(None, None, None, None, None, None, None, Some(partners), None, None)));
    forall i | 0 <= i < |partners|
      ensures r[i] == partners[i]
    {
      FallbackIsNormal();
      NormalizeFixpoints(partners[i].image.value, PartnerImageFallback);
    }
  }

  /** A partner's alt text: its own, else "Partner" and its 1-based position. */
  function PartnerAlt(p: Partner, index: nat): (r: string)
    ensures Truthy(p.alt) ==> r == p.alt.value
    ensures !Truthy(p.alt) ==> r == "Partner " + NatToString(index + 1)
  {
    Or(p.alt, "Partner " + NatToString(index + 1))
  }

  /** Partners without alt text get pairwise distinct labels. */
  lemma UnlabelledPartnersDistinct(p: Partner, q: Partner, i: nat, j: nat)
    requires !Truthy(p.alt) && !Truthy(q.alt) && i != j
    ensures PartnerAlt(p, i) != PartnerAlt(q, j)
  {
    var prefix := "Partner ";
    if PartnerAlt(p, i) == PartnerAlt(q, j) {
      assert (prefix + NatToString(i + 1))[|prefix|..] == NatToString(i + 1);
      assert (prefix + NatToString(j + 1))[|prefix|..] == NatToString(j + 1);
      NatToStringInjective(i + 1, j + 1);
    }
  }
}
