/**
 * `FAQSection`: an accordion in which at most one question is open. The
 * first question starts open; clicking the open question closes it, and
 * clicking any other question opens it instead.
 */
module FaqSection {
  import opened Wrappers
  import opened JsStrings

  /** `openIndex` when every question is closed. */
  const Closed: int := -1

  datatype FaqItem = FaqItem(question: string, answer: string)

  /** The section's texts after their fallbacks. */
  datatype FaqTexts = FaqTexts(
    sectionLabel: string,
    title: string,
    description: string,
    faqs: seq<FaqItem>,
    ctaTitle: string,
    ctaDescription: string,
    ctaButtonText: string,
    ctaButtonLink: string)

  /** The content as given; every field may be absent. */
  datatype FaqData = FaqData(
    sectionLabel: Option<string>,
    title: Option<string>,
    description: Option<string>,
    faqs: Option<seq<FaqItem>>,
    ctaTitle: Option<string>,
    ctaDescription: Option<string>,
    ctaButtonText: Option<string>,
    ctaButtonLink: Option<string>)

  const DefaultDescription: string :=
    "Explore our FAQs for clarity on our approach, services, and results. And if you don't see your answer, we're just a call away."
  const DefaultCtaDescription: string :=
    "We'd love to help. Book a call with our team and get answers tailored to your specific needs."

  /** Each field falls back to its fixed default when absent or empty; absent questions are none. */
  function Texts(data: FaqData): (t: FaqTexts)
    ensures t.faqs == data.faqs.GetOr([])
    ensures Truthy(data.ctaButtonLink) ==> t.ctaButtonLink == data.ctaButtonLink.value
    ensures !Truthy(data.ctaButtonLink) ==> t.ctaButtonLink == "/contact"
    ensures t.sectionLabel != [] && t.title != [] && t.description != []
    ensures !Truthy(data.sectionLabel) ==> t.sectionLabel == "FAQ"
    ensures !Truthy(data.title) ==> t.title == "Everything You Need To Know"
    ensures !Truthy(data.description) ==> t.description == DefaultDescription
    ensures !Truthy(data.ctaTitle) ==> t.ctaTitle == "Didn't Find Your Answer?"
    ensures !Truthy(data.ctaDescription) ==> t.ctaDescription == DefaultCtaDescription
    ensures !Truthy(data.ctaButtonText) ==> t.ctaButtonText == "Contact Us"
    ensures Truthy(data.sectionLabel) ==> t.sectionLabel == data.sectionLabel.value
    ensures Truthy(data.title) ==> t.title == data.title.value
    ensures Truthy(data.description) ==> t.description == data.description.value
    ensures Truthy(data.ctaTitle) ==> t.ctaTitle == data.ctaTitle.value
    ensures Truthy(data.ctaDescription) ==> t.ctaDescription == data.ctaDescription.value
    ensures Truthy(data.ctaButtonText) ==> t.ctaButtonText == data.ctaButtonText.value
    ensures t.ctaTitle != [] && t.ctaDescription != [] && t.ctaButtonText != [] && t.ctaButtonLink != []
  {
    FaqTexts(
      Or(data.sectionLabel, "FAQ"),
      Or(data.title, "Everything You Need To Know"),
      Or(data.description, DefaultDescription),
      data.faqs.GetOr([]),
      Or(data.ctaTitle, "Didn't Find Your Answer?"),
      Or(data.ctaDescription, DefaultCtaDescription),
      Or(data.ctaButtonText, "Contact Us"),
      Or(data.ctaButtonLink, "/contact"))
  }

  /** The `openIndex` after `toggleFAQ(index)`. */
  function ToggledIndex(openIndex: int, index: int): (r: int)
    ensures openIndex == index ==> r == Closed
    ensures openIndex != index ==> r == index
  {
    if openIndex == index then Closed else index
  }

  /** Which questions are expanded, one flag per question. */
  function Expanded(openIndex: int, count: nat): (flags: seq<bool>)
    ensures |flags| == count
    ensures forall i :: 0 <= i < count ==> (flags[i] <==> i == openIndex)
  {
    seq(count, i requires 0 <= i < count => i == openIndex)
  }

  /** At most one question is ever expanded. */
  lemma AtMostOneExpanded(openIndex: int, count: nat, i: nat, j: nat)
    requires i < count && j < count
    requires Expanded(openIndex, count)[i] && Expanded(openIndex, count)[j]
    ensures i == j
  {
  }

  /** Clicking a question always leaves that question expanded or everything closed. */
  lemma ToggleOpensOrCloses(openIndex: int, count: nat, index: nat)
    requires index < count
    ensures var e := Expanded(ToggledIndex(openIndex, index), count);
            (e[index] <==> openIndex != index) &&
            (forall j :: 0 <= j < count && j != index ==> !e[j])
  {
  }

  /**
   * Clicking the same question twice restores the state when it started
   * closed; starting from another open question it ends with all closed.
   */
  lemma ToggleTwice(openIndex: int, index: int)
    ensures ToggledIndex(ToggledIndex(openIndex, index), index) ==
            if openIndex == index then index else Closed
  {
  }

  /** The accordion's state. */
  class Accordion {
    var openIndex: int

    /** The first question starts open. */
    constructor ()
      ensures openIndex == 0
    {
      openIndex := 0;
    }

    /** `toggleFAQ`. */
    method ToggleFaq(index: int)
      modifies this
      ensures openIndex == ToggledIndex(old(openIndex), index)
    {
      if openIndex == index {
        openIndex := Closed;
      } else {
        openIndex := index;
      }
    }
  }
}
