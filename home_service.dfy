/**
 * `HomeService`: the home page's services block: a header, a grid of
 * service cards, each linking to its own page, a static service panel with
 * a checklist, and a call to action. Every text has a fixed fallback, and
 * some fields are also accepted under a hyphenated key.
 */
module HomeService {
  import opened Wrappers
  import opened JsStrings

  datatype ServiceEntry = ServiceEntry(
    title: string,
    description: string,
    image: Option<string>,
    link: Option<string>,
    slug: Option<string>)

  /** One entry of the static panel's checklist; the panel shows its name. */
  datatype ChecklistItem = ChecklistItem(name: string)

  /**
   * The block's data. The `...Hyphenated` fields are the same settings under
   * the keys `service-title`, `service-description` and `services-items`.
   */
  datatype HomeServiceData = HomeServiceData(
    sectionLabel: Option<string>,
    title: Option<string>,
    description: Option<string>,
    services: Option<seq<ServiceEntry>>,
    serviceTitle: Option<string>,
    serviceTitleHyphenated: Option<string>,
    serviceDescription: Option<string>,
    serviceDescriptionHyphenated: Option<string>,
    servicesItems: Option<seq<ChecklistItem>>,
    servicesItemsHyphenated: Option<seq<ChecklistItem>>,
    ctaTitle: Option<string>,
    ctaDescription: Option<string>,
    ctaButtonText: Option<string>,
    ctaButtonLink: Option<string>,
    ctaImage: Option<string>)

  const DefaultServiceTitle: string := "Brand & Identity Design"
  const DefaultServiceDescription: string :=
    "We create memorable brand identities that resonate with your audience and stand out in the market."
  const DefaultCtaButtonLink: string := "/contact"
  const DefaultCtaImage: string := "/images/cta-cube.png"
  const ServicesPrefix: string := "/services/"

  /** `data?.field` on an optional data object. */
  function Field(data: Option<HomeServiceData>, get: HomeServiceData -> Option<string>): Option<string> {
    if data.Some? then get(data.value) else None
  }

  /** `a || b || fallback` on two optional strings: the first non-empty one wins. */
  function Or2(a: Option<string>, b: Option<string>, fallback: string): (r: string)
    ensures Truthy(a) ==> r == a.value
    ensures !Truthy(a) && Truthy(b) ==> r == b.value
    ensures !Truthy(a) && !Truthy(b) ==> r == fallback
  {
    Or(a, Or(b, fallback))
  }

  /** `a || b || []` on two optional arrays: any present array, even an empty one, wins. */
  function ArrayOr2<T>(a: Option<seq<T>>, b: Option<seq<T>>): (r: seq<T>)
    ensures a.Some? ==> r == a.value
    ensures a.None? && b.Some? ==> r == b.value
    ensures a.None? && b.None? ==> r == []
  {
    if a.Some? then a.value else if b.Some? then b.value else []
  }

  /** The static panel's title: the camel-case key, then the hyphenated key, then the default. */
  function ServiceTitle(data: Option<HomeServiceData>): (r: string)
    ensures r != []
    ensures !(data.Some? && (Truthy(data.value.serviceTitle) || Truthy(data.value.serviceTitleHyphenated))) ==>
              r == DefaultServiceTitle
    ensures data.Some? && Truthy(data.value.serviceTitle) ==> r == data.value.serviceTitle.value
    ensures data.Some? && !Truthy(data.value.serviceTitle) && Truthy(data.value.serviceTitleHyphenated) ==>
              r == data.value.serviceTitleHyphenated.value
  {
    Or2(Field(data, (d: HomeServiceData) => d.serviceTitle), Field(data, (d: HomeServiceData) => d.serviceTitleHyphenated), DefaultServiceTitle)
  }

  /** The static panel's description, by the same rule as its title. */
  function ServiceDescription(data: Option<HomeServiceData>): (r: string)
    ensures r != []
    ensures !(data.Some? && (Truthy(data.value.serviceDescription) || Truthy(data.value.serviceDescriptionHyphenated))) ==>
              r == DefaultServiceDescription
    ensures data.Some? && Truthy(data.value.serviceDescription) ==> r == data.value.serviceDescription.value
    ensures data.Some? && !Truthy(data.value.serviceDescription) && Truthy(data.value.serviceDescriptionHyphenated) ==>
              r == data.value.serviceDescriptionHyphenated.value
  {
    Or2(Field(data, (d: HomeServiceData) => d.serviceDescription), Field(data, (d: HomeServiceData) => d.serviceDescriptionHyphenated), DefaultServiceDescription)
  }

  /** The checklist: the camel-case list if present, else the hyphenated one, else none. */
  function ServicesItems(data: Option<HomeServiceData>): (r: seq<ChecklistItem>)
    ensures data.None? ==> r == []
    ensures data.Some? && data.value.servicesItems.Some? ==> r == data.value.servicesItems.value
    ensures data.Some? && data.value.servicesItems.None? ==> r == data.value.servicesItemsHyphenated.GetOr([])
  {
    if data.Some? then ArrayOr2(data.value.servicesItems, data.value.servicesItemsHyphenated) else []
  }

  /**
   * `s.replace(/\s+/g, '-')`: every maximal run of whitespace becomes one
   * hyphen; every other character is kept.
   */
  function HyphenateSpaces(s: string): (r: string)
    ensures |r| <= |s|
    ensures forall i :: 0 <= i < |r| ==> !IsSpace(r[i])
    ensures forall i :: 0 <= i < |r| ==> r[i] == '-' || r[i] in s
    decreases |s|
  {
    if s == [] then []
    else if IsSpace(s[0]) then
      var t := TrimStart(s);
      assert t == [] || t[0] == s[|s| - |t|];
      "-" + HyphenateSpaces(t)
    else [s[0]] + HyphenateSpaces(s[1..])
  }

  /** A text without whitespace is not changed. */
  lemma {:induction false} HyphenateKeepsPlain(s: string)
    requires forall i :: 0 <= i < |s| ==> !IsSpace(s[i])
    ensures HyphenateSpaces(s) == s
  {
    if s != [] {
      HyphenateKeepsPlain(s[1..]);
    }
  }

  /** Stripping the leading whitespace of a run of whitespace followed by a word leaves the word. */
  lemma TrimStartAfterSpaces(ws: string, b: string)
    requires AllSpace(ws)
    requires b == [] || !IsSpace(b[0])
    ensures TrimStart(ws + b) == b
  {
    var s := ws + b;
    var r := TrimStart(s);
    assert r == [] || r[0] == s[|s| - |r|];
    assert b == [] || s[|ws|] == b[0];
  }

  /** A word, a run of whitespace and the rest become the word, one hyphen and the rest's slug. */
  lemma {:induction false} HyphenateJoinsWords(a: string, ws: string, b: string)
    requires forall i :: 0 <= i < |a| ==> !IsSpace(a[i])
    requires ws != [] && AllSpace(ws)
    requires b == [] || !IsSpace(b[0])
    ensures HyphenateSpaces(a + ws + b) == a + "-" + HyphenateSpaces(b)
  {
    if a == [] {
      assert a + ws + b == ws + b;
      TrimStartAfterSpaces(ws, b);
    } else {
      assert (a + ws + b)[1..] == a[1..] + ws + b;
      HyphenateJoinsWords(a[1..], ws, b);
    }
  }

  /** `title.toLowerCase().replace(/\s+/g, '-')`. */
  function Slugify(title: string): (r: string)
    ensures forall i :: 0 <= i < |r| ==> !IsSpace(r[i])
  {
    HyphenateSpaces(Lower(title))
  }

  lemma LowerOfLower(s: string)
    requires forall i :: 0 <= i < |s| ==> ToLower(s[i]) == s[i]
    ensures Lower(s) == s
  {
  }

  /** A generated slug is its own slug. */
  lemma SlugifyIdempotent(title: string)
    ensures Slugify(Slugify(title)) == Slugify(title)
  {
    var u := Slugify(title);
    forall i | 0 <= i < |u|
      ensures ToLower(u[i]) == u[i]
    {
      if u[i] != '-' {
        var j :| 0 <= j < |Lower(title)| && Lower(title)[j] == u[i];
      }
    }
    LowerOfLower(u);
    HyphenateKeepsPlain(u);
  }

  /** A two-word title becomes its lower-cased words joined by a hyphen. */
  lemma SlugifyTwoWords(a: string, b: string)
    requires forall i :: 0 <= i < |a| ==> !IsSpace(a[i])
    requires forall i :: 0 <= i < |b| ==> !IsSpace(b[i])
    ensures Slugify(a + " " + b) == Lower(a) + "-" + Lower(b)
  {
    var la, lb := Lower(a), Lower(b);
    LowerOfSpaced(a, b);
    LowerKeepsNonSpace(a);
    LowerKeepsNonSpace(b);
    assert AllSpace(" ");
    HyphenateJoinsWords(la, " ", lb);
    HyphenateKeepsPlain(lb);
  }

  lemma LowerConcat(x: string, y: string)
    ensures Lower(x + y) == Lower(x) + Lower(y)
  {
    var l, r := Lower(x + y), Lower(x) + Lower(y);
    forall i | 0 <= i < |l|
      ensures l[i] == r[i]
    {
      if i >= |x| {
        assert (x + y)[i] == y[i - |x|];
      }
    }
  }

  lemma LowerOfSpaced(a: string, b: string)
    ensures Lower(a + " " + b) == Lower(a) + " " + Lower(b)
  {
    LowerConcat(a + " ", b);
    LowerConcat(a, " ");
    assert Lower(" ") == " ";
  }

  lemma LowerKeepsNonSpace(s: string)
    requires forall i :: 0 <= i < |s| ==> !IsSpace(s[i])
    ensures forall i :: 0 <= i < |Lower(s)| ==> !IsSpace(Lower(s)[i])
  {
  }

  /** A card's target: its link, else its slug, else a page under `/services/` named after its title. */
  function ServiceLink(e: ServiceEntry): (href: string)
    ensures Truthy(e.link) ==> href == e.link.value
    ensures !Truthy(e.link) && Truthy(e.slug) ==> href == e.slug.value
    ensures !Truthy(e.link) && !Truthy(e.slug) ==>
              StartsWith(href, ServicesPrefix) && href[|ServicesPrefix|..] == Slugify(e.title)
  {
    Or2(e.link, e.slug, ServicesPrefix + Slugify(e.title))
  }

  /** A generated link has no whitespace, whatever the title. */
  lemma GeneratedLinkHasNoSpaces(e: ServiceEntry)
    requires !Truthy(e.link) && !Truthy(e.slug)
    ensures forall i :: 0 <= i < |ServiceLink(e)| ==> !IsSpace(ServiceLink(e)[i])
  {
    var slug := Slugify(e.title);
    var href := ServiceLink(e);
    assert href == ServicesPrefix + slug;
    forall i | 0 <= i < |href|
      ensures !IsSpace(href[i])
    {
      if i < |ServicesPrefix| {
        assert href[i] == ServicesPrefix[i];
      } else {
        assert href[i] == slug[i - |ServicesPrefix|];
      }
    }
  }

  /** One rendered service card. */
  datatype CardView = CardView(href: string, title: string, description: string, image: Option<(string, string)>)

  function RenderCard(e: ServiceEntry): (v: CardView)
    ensures v.href == ServiceLink(e) && v.title == e.title && v.description == e.description
    ensures v.image.Some? <==> Truthy(e.image)
    ensures v.image.Some? ==> v.image.value == (e.image.value, e.title)
  {
    CardView(ServiceLink(e), e.title, e.description,
      if Truthy(e.image) then Some((e.image.value, e.title)) else None)
  }

  /** The rendered block. */
  datatype HomeServiceView = HomeServiceView(
    cards: seq<CardView>,
    panelTitle: string,
    panelDescription: string,
    checklist: Option<seq<string>>,
    ctaLink: string,
    ctaImage: string)

  function Render(data: Option<HomeServiceData>): (v: HomeServiceView)
    ensures var services := if data.Some? then data.value.services.GetOr([]) else [];
            |v.cards| == |services| && forall i :: 0 <= i < |v.cards| ==> v.cards[i] == RenderCard(services[i])
    ensures v.checklist.Some? <==> |ServicesItems(data)| > 0
    ensures v.checklist.Some? ==> |v.checklist.value| == |ServicesItems(data)|
    ensures v.checklist.Some? ==>
              forall i :: 0 <= i < |v.checklist.value| ==> v.checklist.value[i] == ServicesItems(data)[i].name
    ensures v.panelTitle == ServiceTitle(data) && v.panelDescription == ServiceDescription(data)
    ensures v.ctaLink != [] && v.ctaImage != []
    ensures data.Some? && Truthy(data.value.ctaButtonLink) ==> v.ctaLink == data.value.ctaButtonLink.value
    ensures !(data.Some? && Truthy(data.value.ctaButtonLink)) ==> v.ctaLink == DefaultCtaButtonLink
    ensures data.Some? && Truthy(data.value.ctaImage) ==> v.ctaImage == data.value.ctaImage.value
    ensures !(data.Some? && Truthy(data.value.ctaImage)) ==> v.ctaImage == DefaultCtaImage
  {
    var services := if data.Some? then data.value.services.GetOr([]) else [];
    var items := ServicesItems(data);
    HomeServiceView(
      seq(|services|, i requires 0 <= i < |services| => RenderCard(services[i])),
      ServiceTitle(data),
      ServiceDescription(data),
      if |items| > 0 then Some(seq(|items|, i requires 0 <= i < |items| => items[i].name)) else None,
      Or(Field(data, (d: HomeServiceData) => d.ctaButtonLink), DefaultCtaButtonLink),
      Or(Field(data, (d: HomeServiceData) => d.ctaImage), DefaultCtaImage))
  }
}
