/**
 * `ContactPage`: the contact page, with a controlled form, a profile card,
 * `mailto:` and `tel:` links, and a list of social links.
 */
module ContactPage {
  import opened Wrappers
  import opened JsStrings
  import opened ImagePath

  datatype Profile = Profile(
    image: Option<string>,
    name: Option<string>,
    role: Option<string>,
    description: Option<string>,
    buttonText: Option<string>,
    buttonLink: Option<string>)

  datatype ReachOut = ReachOut(heading: Option<string>, email: Option<string>, phone: Option<string>)

  datatype SocialLink = SocialLink(platform: string, url: string)

  datatype Socials = Socials(heading: Option<string>, links: Option<seq<SocialLink>>)

  /** The form's configurable texts: heading, submit button and terms line. */
  datatype FormTexts = FormTexts(
    heading: Option<string>,
    submitButtonText: Option<string>,
    termsText: Option<string>,
    termsLink: Option<string>)

  datatype ContactData = ContactData(
    headerLabel: Option<string>,
    title: Option<string>,
    description: Option<string>,
    profile: Option<Profile>,
    reachOut: Option<ReachOut>,
    socials: Option<Socials>,
    contactForm: Option<FormTexts>)

  const ProfileImageFallback: string := "/images/team1.png"
  const DefaultDescription: string :=
    "Reach out today and let's explore how our expertise can bring your vision to life. We're just a call away from turning ideas into impact."

  const DefaultProfileDescription: string :=
    "If you'd rather talk it through than type it out, I'm here and ready to chat anytime"

  /** The names of the form's inputs. */
  const FieldNames: set<string> := {"firstName", "lastName", "email", "message"}

  /** The form's state, keyed by input name. */
  class ContactForm {
    var formData: map<string, string>

    /** All four fields start empty. */
    constructor ()
      ensures formData.Keys == FieldNames
      ensures forall k :: k in formData ==> formData[k] == ""
    {
      formData := map["firstName" := "", "lastName" := "", "email" := "", "message" := ""];
    }

    /** `handleChange`: the field named by the input takes the input's value; every other field is kept. */
    method HandleChange(name: string, value: string)
      modifies this
      ensures formData == old(formData)[name := value]
      ensures name in FieldNames && old(formData).Keys == FieldNames ==> formData.Keys == FieldNames
      ensures forall k :: k in old(formData) && k != name ==> k in formData && formData[k] == old(formData)[k]
    {
      formData := formData[name := value];
    }
  }

  /**
   * The header texts, each with its fixed fallback. The label is computed
   * but never drawn: only the title and the description reach the markup.
   */
  function HeaderTexts(data: Option<ContactData>): (r: (string, string, string))
    ensures r.0 != [] && r.1 != [] && r.2 != []
    ensures data.Some? && Truthy(data.value.headerLabel) ==> r.0 == data.value.headerLabel.value
    ensures !(data.Some? && Truthy(data.value.headerLabel)) ==> r.0 == "Book A Call"
    ensures data.Some? && Truthy(data.value.title) ==> r.1 == data.value.title.value
    ensures !(data.Some? && Truthy(data.value.title)) ==> r.1 == "Your Next Big Move Starts Here"
    ensures data.Some? && Truthy(data.value.description) ==> r.2 == data.value.description.value
    ensures !(data.Some? && Truthy(data.value.description)) ==> r.2 == DefaultDescription
  {
    var d := data;
    (Or(if d.Some? then d.value.headerLabel else None, "Book A Call"),
     Or(if d.Some? then d.value.title else None, "Your Next Big Move Starts Here"),
     Or(if d.Some? then d.value.description else None, DefaultDescription))
  }

  /** The texts drawn around the form; `terms` is the terms sentence and its optional link. */
  datatype FormView = FormView(heading: string, submit: string, terms: Option<(string, Option<string>)>)

  /**
   * The form's heading ("Contact Us"), its submit button ("Submit"), and
   * the terms sentence, drawn only when given and linked only when a link
   * is given.
   */
  function RenderFormTexts(data: Option<ContactData>): (v: FormView)
    ensures var f := if data.Some? then data.value.contactForm else None;
            && (f.Some? && Truthy(f.value.heading) ==> v.heading == f.value.heading.value)
            && (!(f.Some? && Truthy(f.value.heading)) ==> v.heading == "Contact Us")
            && (f.Some? && Truthy(f.value.submitButtonText) ==> v.submit == f.value.submitButtonText.value)
            && (!(f.Some? && Truthy(f.value.submitButtonText)) ==> v.submit == "Submit")
            && (v.terms.Some? <==> f.Some? && Truthy(f.value.termsText))
            && (v.terms.Some? ==> v.terms.value.0 == f.value.termsText.value)
            && (v.terms.Some? ==> (v.terms.value.1.Some? <==> Truthy(f.value.termsLink)))
            && (v.terms.Some? && v.terms.value.1.Some? ==> v.terms.value.1.value == f.value.termsLink.value)
  {
    var f := if data.Some? then data.value.contactForm else None;
    var heading := if f.Some? then f.value.heading else None;
    var submit := if f.Some? then f.value.submitButtonText else None;
    FormView(
      Or(heading, "Contact Us"),
      Or(submit, "Submit"),
      if f.Some? && Truthy(f.value.termsText) then
        Some((f.value.termsText.value, if Truthy(f.value.termsLink) then Some(f.value.termsLink.value) else None))
      else None)
  }

  /** The profile picture: the given image normalised, or the team fallback. */
  function ProfileImage(data: Option<ContactData>): (r: string)
    ensures IsNormalImagePath(r)
    ensures data.None? || data.value.profile.None? || IsBlank(data.value.profile.value.image) ==>
              r == ProfileImageFallback
  {
    var p := if data.Some? && data.value.profile.Some? then data.value.profile.value.image else None;
    NormalizeImagePath(p, ProfileImageFallback)
  }

  /**
   * A `mailto:` link (RFC 6068) built from the address as given: the
   * component does not percent-encode any of its characters.
   */
  function MailtoHref(email: string): (href: string)
    ensures StartsWith(href, "mailto:")
    ensures href[|"mailto:"|..] == email
  {
    "mailto:" + email
  }

  /**
   * The `tel:` link: every whitespace character is removed, since
   * section 3 of RFC 3966 does not allow it as a visual separator.
   */
  function TelHref(phone: string): (href: string)
    ensures StartsWith(href, "tel:")
    ensures forall i :: 4 <= i < |href| ==> !IsSpace(href[i])
  {
    "tel:" + RemoveSpaces(phone)
  }

  /** A number without whitespace is used as it is. */
  lemma {:induction false} RemoveSpacesKeepsPlain(s: string)
    requires forall i :: 0 <= i < |s| ==> !IsSpace(s[i])
    ensures RemoveSpaces(s) == s
  {
    if s != [] {
      RemoveSpacesKeepsPlain(s[1..]);
    }
  }

  /** Whitespace removal works piece by piece. */
  lemma {:induction false} RemoveSpacesConcat(a: string, b: string)
    ensures RemoveSpaces(a + b) == RemoveSpaces(a) + RemoveSpaces(b)
  {
    if a != [] {
      assert (a + b)[1..] == a[1..] + b;
      RemoveSpacesConcat(a[1..], b);
    } else {
      assert a + b == b;
    }
  }

  /** Spaces between groups of digits disappear and the groups are joined in order. */
  lemma TelJoinsGroups(a: string, b: string)
    requires forall i :: 0 <= i < |a| ==> !IsSpace(a[i])
    requires forall i :: 0 <= i < |b| ==> !IsSpace(b[i])
    ensures TelHref(a + " " + b) == "tel:" + a + b
  {
    RemoveSpacesConcat(a + " ", b);
    RemoveSpacesConcat(a, " ");
    RemoveSpacesKeepsPlain(a);
    RemoveSpacesKeepsPlain(b);
  }

  /** Removing whitespace twice is the same as once. */
  lemma TelNormalised(phone: string)
    ensures TelHref(RemoveSpaces(phone)) == TelHref(phone)
  {
    RemoveSpacesKeepsPlain(RemoveSpaces(phone));
  }

  /** The rendered "Reach Out" block. */
  datatype ReachOutView = ReachOutView(heading: string, emailHref: Option<string>, telHref: Option<string>)

  function RenderReachOut(r: Option<ReachOut>): (v: Option<ReachOutView>)
    ensures v.Some? <==> r.Some?
    ensures v.Some? ==> v.value.heading == Or(r.value.heading, "Reach Out")
    ensures v.Some? ==> (v.value.emailHref.Some? <==> Truthy(r.value.email))
    ensures v.Some? ==> (v.value.telHref.Some? <==> Truthy(r.value.phone))
    ensures v.Some? && v.value.emailHref.Some? ==> v.value.emailHref.value == MailtoHref(r.value.email.value)
    ensures v.Some? && v.value.telHref.Some? ==> v.value.telHref.value == TelHref(r.value.phone.value)
  {
    match r
    case None => None
    case Some(ro) =>
      Some(ReachOutView(
        Or(ro.heading, "Reach Out"),
        if Truthy(ro.email) then Some(MailtoHref(ro.email.value)) else None,
        if Truthy(ro.phone) then Some(TelHref(ro.phone.value)) else None))
  }

  /** The rendered socials block: its heading and one link per entry, in order. */
  function RenderSocials(s: Option<Socials>): (v: Option<(string, seq<SocialLink>)>)
    ensures v.Some? <==> s.Some? && s.value.links.Some? && |s.value.links.value| > 0
    ensures v.Some? ==> v.value.1 == s.value.links.value && v.value.0 != []
    ensures v.Some? ==> v.value.0 == Or(s.value.heading, "Socials")
  {
    if s.Some? && s.value.links.Some? && |s.value.links.value| > 0 then
      Some((Or(s.value.heading, "Socials"), s.value.links.value))
    else None
  }

  /** The rendered profile card. */
  datatype ProfileView = ProfileView(
    image: string, alt: string, name: string, role: string, description: string, button: Option<(string, string)>)

  function RenderProfile(data: Option<ContactData>): (v: Option<ProfileView>)
    ensures v.Some? <==> data.Some? && data.value.profile.Some?
    ensures v.Some? ==> v.value.image == ProfileImage(data)
    ensures v.Some? ==> (v.value.button.Some? <==> Truthy(data.value.profile.value.buttonLink))
    ensures v.Some? && v.value.button.Some? ==> v.value.button.value.1 == data.value.profile.value.buttonLink.value
    ensures v.Some? && v.value.button.Some? ==> v.value.button.value.0 == Or(data.value.profile.value.buttonText, "Talk Directly To Me")
    ensures v.Some? ==> v.value.alt == Or(data.value.profile.value.name, "Profile")
    ensures v.Some? ==> v.value.name == Or(data.value.profile.value.name, "Hana Suzuki")
    ensures v.Some? ==> v.value.role == Or(data.value.profile.value.role, "Client Success Manager")
    ensures v.Some? ==> v.value.description == Or(data.value.profile.value.description, DefaultProfileDescription)
  {
    if data.None? || data.value.profile.None? then None
    else
      var p := data.value.profile.value;
      Some(ProfileView(
        ProfileImage(data),
        Or(p.name, "Profile"),
        Or(p.name, "Hana Suzuki"),
        Or(p.role, "Client Success Manager"),
        Or(p.description, DefaultProfileDescription),
        if Truthy(p.buttonLink) then Some((Or(p.buttonText, "Talk Directly To Me"), p.buttonLink.value)) else None))
  }
}
