/**
 * The estimate records shared by the client services, the server handler and the views
 * (src/types.ts): line items, insights, grounding sources and the project the user describes.
 */
module EstimateTypes {
  import opened Wrappers

  /** The closed set of line-item categories. */
  datatype Category = Material | Labor | Permit | Sub | Equipment

  function CategoryName(c: Category): string {
    match c
    case Material => "Material"
    case Labor => "Labor"
    case Permit => "Permit"
    case Sub => "Sub"
    case Equipment => "Equipment"
  }

  /** Exact-match parse of a category name: no trimming and no case folding. */
  function ParseCategory(s: string): (r: Option<Category>)
    ensures r.Some? ==> CategoryName(r.value) == s
  {
    if s == "Material" then Some(Material)
    else if s == "Labor" then Some(Labor)
    else if s == "Permit" then Some(Permit)
    else if s == "Sub" then Some(Sub)
    else if s == "Equipment" then Some(Equipment)
    else None
  }

  lemma ParseCategoryInverse(c: Category)
    ensures ParseCategory(CategoryName(c)) == Some(c)
  {
  }

  /** The closed set of insight kinds (the `type` field). */
  datatype InsightKind = Risk | Market | Compliance

  function InsightKindName(k: InsightKind): string {
    match k
    case Risk => "risk"
    case Market => "market"
    case Compliance => "compliance"
  }

  function ParseInsightKind(s: string): (r: Option<InsightKind>)
    ensures r.Some? ==> InsightKindName(r.value) == s
  {
    if s == "risk" then Some(Risk)
    else if s == "market" then Some(Market)
    else if s == "compliance" then Some(Compliance)
    else None
  }

  lemma ParseInsightKindInverse(k: InsightKind)
    ensures ParseInsightKind(InsightKindName(k)) == Some(k)
  {
  }

  /** The closed set of insight impacts; the names are lower case. */
  datatype Impact = Low | Medium | High

  function ImpactName(i: Impact): string {
    match i
    case Low => "low"
    case Medium => "medium"
    case High => "high"
  }

  function ParseImpact(s: string): (r: Option<Impact>)
    ensures r.Some? ==> ImpactName(r.value) == s
  {
    if s == "low" then Some(Low)
    else if s == "medium" then Some(Medium)
    else if s == "high" then Some(High)
    else None
  }

  lemma ParseImpactInverse(i: Impact)
    ensures ParseImpact(ImpactName(i)) == Some(i)
  {
  }

  /** One priced line of an estimate; `logic` is the optional reasoning note. */
  datatype LineItem = LineItem(
    id: string, name: string, qty: real, unit: string, rate: real, total: real,
    category: Category, csiDivision: string, retailerName: string, storeLink: string,
    logic: Option<string>)

  datatype Insight = Insight(kind: InsightKind, title: string, text: string, impact: Impact)

  /** A web reference attached to an estimate; `uri` is absent when the provider gave none. */
  datatype Source = Source(title: string, uri: Option<string>)

  /** A validated estimate. `groundingSources` is absent on what the schema yields (the schema strips
      the key) and set by the services that attach sources. */
  datatype EstimateResult = EstimateResult(
    projectSummary: string, paymentTerms: string, items: seq<LineItem>, insights: seq<Insight>,
    marketConfidence: real, regionalMultiplier: real, suggestedAgenda: Option<seq<string>>,
    groundingSources: Option<seq<Source>>)

  /** The fields of the project form that the core reads. */
  datatype ProjectData = ProjectData(scope: string, location: string, size: string, description: string)
}
