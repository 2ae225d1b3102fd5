/**
 * `Block` and `setComponent`: a widget's `widget_type` picks its renderer
 * from a closed table of 22 widgets, with `DefaultComponent` (the
 * "Unknown Widget" placeholder) for every other value, and the whole widget
 * record is passed to the chosen renderer as its props.
 */
module WidgetBlock {
  import opened Wrappers
  import opened JsStrings

  /** A widget's `id`, which the content may give as a string or a number. */
  datatype WidgetId = StrId(s: string) | NumId(n: int)

  /**
   * A widget descriptor: its declared type, its optional id, and the rest of
   * its fields, which the dispatcher never inspects.
   */
  datatype Widget<P> = Widget(widgetType: Option<string>, id: Option<WidgetId>, payload: P)

  datatype Component =
    | HomeBanner | TwoColumnSection | AboutSection | CTASection | HomeProject | HomeBlog
    | FAQSection | HomeService | HomeProcess | InnerBanner | AboutGrid | AboutTeam
    | ServiceList | ImpactStats | ProjectList | WorkDetailBanner | WorkCaseStudy
    | ContactPage | BlogList | BlogDetailBanner | BlogDetailContent | ServiceDetailAbout
    | DefaultComponent

  /** The lookup table of `setComponent`. */
  const Components: map<string, Component> := map[
    "HomeBanner" := HomeBanner,
    "TwoColumnSection" := TwoColumnSection,
    "AboutSection" := AboutSection,
    "CTASection" := CTASection,
    "HomeProject" := HomeProject,
    "HomeBlog" := HomeBlog,
    "FAQSection" := FAQSection,
    "HomeService" := HomeService,
    "HomeProcess" := HomeProcess,
    "InnerBanner" := InnerBanner,
    "AboutGrid" := AboutGrid,
    "AboutTeam" := AboutTeam,
    "ServiceList" := ServiceList,
    "ImpactStats" := ImpactStats,
    "ProjectList" := ProjectList,
    "WorkDetailBanner" := WorkDetailBanner,
    "WorkCaseStudy" := WorkCaseStudy,
    "ContactPage" := ContactPage,
    "BlogList" := BlogList,
    "BlogDetailBanner" := BlogDetailBanner,
    "BlogDetailContent" := BlogDetailContent,
    "ServiceDetailAbout" := ServiceDetailAbout
  ]

  /** The name under which a renderer is registered; the placeholder has none. */
  function RegisteredName(c: Component): Option<string> {
    match c
    case HomeBanner => Some("HomeBanner")
    case TwoColumnSection => Some("TwoColumnSection")
    case AboutSection => Some("AboutSection")
    case CTASection => Some("CTASection")
    case HomeProject => Some("HomeProject")
    case HomeBlog => Some("HomeBlog")
    case FAQSection => Some("FAQSection")
    case HomeService => Some("HomeService")
    case HomeProcess => Some("HomeProcess")
    case InnerBanner => Some("InnerBanner")
    case AboutGrid => Some("AboutGrid")
    case AboutTeam => Some("AboutTeam")
    case ServiceList => Some("ServiceList")
    case ImpactStats => Some("ImpactStats")
    case ProjectList => Some("ProjectList")
    case WorkDetailBanner => Some("WorkDetailBanner")
    case WorkCaseStudy => Some("WorkCaseStudy")
    case ContactPage => Some("ContactPage")
    case BlogList => Some("BlogList")
    case BlogDetailBanner => Some("BlogDetailBanner")
    case BlogDetailContent => Some("BlogDetailContent")
    case ServiceDetailAbout => Some("ServiceDetailAbout")
    case DefaultComponent => None
  }

  /** The key `setComponent` looks up: `widget.widget_type || ''`. */
  function LookupKey<P>(w: Widget<P>): string {
    Or(w.widgetType, "")
  }

  /** `setComponent`: the registered renderer for the widget's type, else the placeholder. */
  function SetComponent<P>(w: Widget<P>): (c: Component)
    ensures LookupKey(w) in Components ==> c == Components[LookupKey(w)]
    ensures LookupKey(w) !in Components ==> c == DefaultComponent
  {
    var key := LookupKey(w);
    if key in Components then Components[key] else DefaultComponent
  }

  /** Every table entry is the renderer registered under that very name, never the placeholder. */
  lemma TableSelectsOwnComponent(name: string)
    requires name in Components
    ensures Components[name] != DefaultComponent
    ensures RegisteredName(Components[name]) == Some(name)
  {
  }

  /** Distinct renderers are registered under distinct names. */
  lemma RegisteredNameInjective(c: Component, d: Component)
    requires RegisteredName(c) == RegisteredName(d)
    ensures c == d
  {
  }

  /** Every real renderer's name is a table key. */
  lemma RegisteredNameIsKey(c: Component)
    requires c != DefaultComponent
    ensures RegisteredName(c).Some? && RegisteredName(c).value in Components
  {
  }

  /** Every real renderer is reachable through its registered name. */
  lemma EveryComponentRegistered(c: Component)
    requires c != DefaultComponent
    ensures RegisteredName(c).Some?
    ensures RegisteredName(c).value in Components && Components[RegisteredName(c).value] == c
  {
    RegisteredNameIsKey(c);
    var name := RegisteredName(c).value;
    TableSelectsOwnComponent(name);
    RegisteredNameInjective(Components[name], c);
  }

  /** Distinct table keys select distinct renderers. */
  lemma TableInjective(k1: string, k2: string)
    requires k1 in Components && k2 in Components && k1 != k2
    ensures Components[k1] != Components[k2]
  {
    TableSelectsOwnComponent(k1);
    TableSelectsOwnComponent(k2);
  }

  /** A widget falls back to the placeholder exactly when its type is not a table key. */
  lemma FallbackExactlyWhenUnknown<P>(w: Widget<P>)
    ensures SetComponent(w) == DefaultComponent <==> LookupKey(w) !in Components
  {
    if LookupKey(w) in Components {
      TableSelectsOwnComponent(LookupKey(w));
    }
  }

  /** A missing or empty `widget_type` is looked up as "" and selects the placeholder. */
  lemma MissingTypeSelectsDefault<P>(w: Widget<P>)
    requires !Truthy(w.widgetType)
    ensures SetComponent(w) == DefaultComponent
  {
  }

  /** Only `widget_type` matters: the id and the payload never affect the choice. */
  lemma SelectionDependsOnlyOnType<P>(w1: Widget<P>, w2: Widget<P>)
    requires w1.widgetType == w2.widgetType
    ensures SetComponent(w1) == SetComponent(w2)
  {
  }

  /** What `Block` renders: the selected component, given the widget itself as props. */
  datatype Element<P> = Element(component: Component, props: Widget<P>)

  function Block<P>(w: Widget<P>): (e: Element<P>)
    ensures e.props == w
    ensures e.component == SetComponent(w)
  {
    Element(SetComponent(w), w)
  }
}
