/**
 * The estimate schema both client services validate the model's reply against (zod, in
 * src/geminiService.ts and geminiService.ts). Parsing follows zod: every issue is collected, in
 * schema key order and element order; enums match exactly; an optional key may be absent but not
 * `null`; keys the schema does not name are dropped from the result.
 */
module Schema {
  import opened Wrappers
  import opened Json
  import opened EstimateTypes

  /** One step of an issue path: an object key or an array index. */
  datatype Seg = Key(name: string) | Index(i: nat)
  type Path = seq<Seg>

  /** zod's outcome: the parsed value, or at least one issue (given by its path). */
  datatype Parsed<T> = Valid(value: T) | Invalid(first: Path, rest: seq<Path>) {
    function Issues(): (r: seq<Path>)
      ensures r == [] <==> Valid?
    {
      if Valid? then [] else [first] + rest
    }
  }

  /** A failure carrying the given (non-empty) issues. */
  function Fail<T>(issues: seq<Path>): (r: Parsed<T>)
    requires issues != []
    ensures r.Issues() == issues
  {
    Invalid(issues[0], issues[1..])
  }

  // Field parsers: each reads key `k` of the object fields `f` found at path `at`.

  function Str(f: map<string, Json>, k: string, at: Path): Parsed<string> {
    if k in f && f[k].JStr? then Valid(f[k].s) else Invalid(at + [Key(k)], [])
  }

  function Num(f: map<string, Json>, k: string, at: Path): Parsed<real> {
    if k in f && f[k].JNum? then Valid(f[k].n) else Invalid(at + [Key(k)], [])
  }

  function OptStr(f: map<string, Json>, k: string, at: Path): Parsed<Option<string>> {
    if k !in f then Valid(None)
    else if f[k].JStr? then Valid(Some(f[k].s))
    else Invalid(at + [Key(k)], [])
  }

  function Cat(f: map<string, Json>, k: string, at: Path): Parsed<Category> {
    if k in f && f[k].JStr? && ParseCategory(f[k].s).Some? then Valid(ParseCategory(f[k].s).value)
    else Invalid(at + [Key(k)], [])
  }

  function Kind(f: map<string, Json>, k: string, at: Path): Parsed<InsightKind> {
    if k in f && f[k].JStr? && ParseInsightKind(f[k].s).Some? then Valid(ParseInsightKind(f[k].s).value)
    else Invalid(at + [Key(k)], [])
  }

  function Imp(f: map<string, Json>, k: string, at: Path): Parsed<Impact> {
    if k in f && f[k].JStr? && ParseImpact(f[k].s).Some? then Valid(ParseImpact(f[k].s).value)
    else Invalid(at + [Key(k)], [])
  }

  /** `z.array(p)`: every element is parsed; the issues of all failing elements are kept, in order. */
  function Each<T>(es: seq<Json>, at: Path, p: (Json, Path) -> Parsed<T>, from: nat): (r: Parsed<seq<T>>)
    decreases |es| - from
  {
    if from >= |es| then Valid([])
    else
      var h := p(es[from], at + [Index(from)]);
      var t := Each(es, at, p, from + 1);
      if h.Valid? && t.Valid? then Valid([h.value] + t.value) else Fail(h.Issues() + t.Issues())
  }

  function Arr<T>(f: map<string, Json>, k: string, at: Path, p: (Json, Path) -> Parsed<T>): Parsed<seq<T>> {
    if k in f && f[k].JArr? then Each(f[k].elems, at + [Key(k)], p, 0) else Invalid(at + [Key(k)], [])
  }

  function OptArr<T>(f: map<string, Json>, k: string, at: Path, p: (Json, Path) -> Parsed<T>): Parsed<Option<seq<T>>> {
    if k !in f then Valid(None)
    else if f[k].JArr? then
      var r := Each(f[k].elems, at + [Key(k)], p, 0);
      if r.Valid? then Valid(Some(r.value)) else Fail(r.Issues())
    else Invalid(at + [Key(k)], [])
  }

  function StrElem(v: Json, at: Path): Parsed<string> {
    if v.JStr? then Valid(v.s) else Invalid(at, [])
  }

  /** One line item (src/geminiService.ts:9-21). */
  function ParseItem(v: Json, at: Path): Parsed<LineItem> {
    if !v.JObj? then Invalid(at, [])
    else
      var f := v.fields;
      var id := Str(f, "id", at);
      var name := Str(f, "name", at);
      var qty := Num(f, "qty", at);
      var unit := Str(f, "unit", at);
      var rate := Num(f, "rate", at);
      var total := Num(f, "total", at);
      var category := Cat(f, "category", at);
      var csi := Str(f, "csi_division", at);
      var retailer := Str(f, "retailerName", at);
      var link := Str(f, "storeLink", at);
      var logic := OptStr(f, "logic", at);
      if id.Valid? && name.Valid? && qty.Valid? && unit.Valid? && rate.Valid? && total.Valid?
        && category.Valid? && csi.Valid? && retailer.Valid? && link.Valid? && logic.Valid? then
        Valid(LineItem(id.value, name.value, qty.value, unit.value, rate.value, total.value,
          category.value, csi.value, retailer.value, link.value, logic.value))
      else Fail(id.Issues() + name.Issues() + qty.Issues() + unit.Issues() + rate.Issues()
        + total.Issues() + category.Issues() + csi.Issues() + retailer.Issues() + link.Issues()
        + logic.Issues())
  }

  /** One insight (src/geminiService.ts:22-27). */
  function ParseInsight(v: Json, at: Path): Parsed<Insight> {
    if !v.JObj? then Invalid(at, [])
    else
      var f := v.fields;
      var kind := Kind(f, "type", at);
      var title := Str(f, "title", at);
      var text := Str(f, "text", at);
      var impact := Imp(f, "impact", at);
      if kind.Valid? && title.Valid? && text.Valid? && impact.Valid? then
        Valid(Insight(kind.value, title.value, text.value, impact.value))
      else Fail(kind.Issues() + title.Issues() + text.Issues() + impact.Issues())
  }

  /** The issues of the top-level fields, in schema key order. */
  function EstimateIssues(f: map<string, Json>): seq<Path> {
    Str(f, "projectSummary", []).Issues() + Str(f, "paymentTerms", []).Issues()
    + Arr(f, "items", [], ParseItem).Issues() + Arr(f, "insights", [], ParseInsight).Issues()
    + Num(f, "marketConfidence", []).Issues() + Num(f, "regionalMultiplier", []).Issues()
    + OptArr(f, "suggestedAgenda", [], StrElem).Issues()
  }

  /** `EstimateResultSchema.parse` (src/geminiService.ts:6-31), the reply schema: a non-object fails at the root; a parsed estimate takes the model's own texts
      and numbers, and never has sources (the schema does not name them). */
  function ParseEstimate(v: Json): (r: Parsed<EstimateResult>)
    ensures !v.JObj? ==> r == Invalid([], [])
    ensures r.Valid? ==> r.value.groundingSources.None?
    ensures r.Valid? ==> (v.JObj? && HasStr(v.fields, "projectSummary") && r.value.projectSummary == v.fields["projectSummary"].s
      && HasStr(v.fields, "paymentTerms") && r.value.paymentTerms == v.fields["paymentTerms"].s)
    ensures r.Valid? ==> (v.JObj? && HasNum(v.fields, "marketConfidence") && r.value.marketConfidence == v.fields["marketConfidence"].n
      && HasNum(v.fields, "regionalMultiplier") && r.value.regionalMultiplier == v.fields["regionalMultiplier"].n)
  {
    if !v.JObj? then Invalid([], [])
    else
      var f := v.fields;
      var summary := Str(f, "projectSummary", []);
      var terms := Str(f, "paymentTerms", []);
      var items := Arr(f, "items", [], ParseItem);
      var insights := Arr(f, "insights", [], ParseInsight);
      var confidence := Num(f, "marketConfidence", []);
      var multiplier := Num(f, "regionalMultiplier", []);
      var agenda := OptArr(f, "suggestedAgenda", [], StrElem);
      if summary.Valid? && terms.Valid? && items.Valid? && insights.Valid? && confidence.Valid?
        && multiplier.Valid? && agenda.Valid? then
        Valid(EstimateResult(summary.value, terms.value, items.value, insights.value,
          confidence.value, multiplier.value, agenda.value, None))
      else Fail(EstimateIssues(f))
  }

  // ---------------------------------------------------------------------------------------------
  // An independent, declarative statement of what the schema accepts.

  predicate HasStr(f: map<string, Json>, k: string) { k in f && f[k].JStr? }
  predicate HasNum(f: map<string, Json>, k: string) { k in f && f[k].JNum? }
  predicate OptionalStr(f: map<string, Json>, k: string) { k in f ==> f[k].JStr? }
  predicate NamedIn(f: map<string, Json>, k: string, names: set<string>) { k in f && f[k].JStr? && f[k].s in names }

  predicate ItemShape(v: Json) {
    v.JObj? && HasStr(v.fields, "id") && HasStr(v.fields, "name") && HasNum(v.fields, "qty")
    && HasStr(v.fields, "unit") && HasNum(v.fields, "rate") && HasNum(v.fields, "total")
    && NamedIn(v.fields, "category", {"Material", "Labor", "Permit", "Sub", "Equipment"})
    && HasStr(v.fields, "csi_division") && HasStr(v.fields, "retailerName")
    && HasStr(v.fields, "storeLink") && OptionalStr(v.fields, "logic")
  }

  predicate InsightShape(v: Json) {
    v.JObj? && NamedIn(v.fields, "type", {"risk", "market", "compliance"})
    && HasStr(v.fields, "title") && HasStr(v.fields, "text")
    && NamedIn(v.fields, "impact", {"low", "medium", "high"})
  }

  predicate AllItems(es: seq<Json>) { forall i :: 0 <= i < |es| ==> ItemShape(es[i]) }
  predicate AllInsights(es: seq<Json>) { forall i :: 0 <= i < |es| ==> InsightShape(es[i]) }
  predicate AllStrings(es: seq<Json>) { forall i :: 0 <= i < |es| ==> es[i].JStr? }

  predicate EstimateShape(v: Json) {
    v.JObj? && HasStr(v.fields, "projectSummary") && HasStr(v.fields, "paymentTerms")
    && "items" in v.fields && v.fields["items"].JArr? && AllItems(v.fields["items"].elems)
    && "insights" in v.fields && v.fields["insights"].JArr? && AllInsights(v.fields["insights"].elems)
    && HasNum(v.fields, "marketConfidence") && HasNum(v.fields, "regionalMultiplier")
    && ("suggestedAgenda" in v.fields ==>
          v.fields["suggestedAgenda"].JArr? && AllStrings(v.fields["suggestedAgenda"].elems))
  }

  lemma CategoryNames(s: string)
    ensures ParseCategory(s).Some? <==> s in {"Material", "Labor", "Permit", "Sub", "Equipment"}
  {
  }

  lemma KindAndImpactNames(s: string)
    ensures ParseInsightKind(s).Some? <==> s in {"risk", "market", "compliance"}
    ensures ParseImpact(s).Some? <==> s in {"low", "medium", "high"}
  {
  }

  lemma ItemAccepted(v: Json, at: Path)
    ensures ParseItem(v, at).Valid? <==> ItemShape(v)
  {
    if v.JObj? && "category" in v.fields && v.fields["category"].JStr? {
      CategoryNames(v.fields["category"].s);
    }
  }

  lemma InsightAccepted(v: Json, at: Path)
    ensures ParseInsight(v, at).Valid? <==> InsightShape(v)
  {
    if v.JObj? {
      if "type" in v.fields && v.fields["type"].JStr? { KindAndImpactNames(v.fields["type"].s); }
      if "impact" in v.fields && v.fields["impact"].JStr? { KindAndImpactNames(v.fields["impact"].s); }
    }
  }

  /** Element `i` of `es` passes `p`. */
  predicate ElemValid<T>(es: seq<Json>, at: Path, p: (Json, Path) -> Parsed<T>, i: nat)
    requires i < |es|
  {
    p(es[i], at + [Index(i)]).Valid?
  }

  /** An array parses exactly when each of its elements does. */
  lemma {:induction false} EachValid<T>(es: seq<Json>, at: Path, p: (Json, Path) -> Parsed<T>, from: nat)
    requires from <= |es|
    ensures Each(es, at, p, from).Valid? <==> forall i :: from <= i < |es| ==> ElemValid(es, at, p, i)
    decreases |es| - from
  {
    if from < |es| {
      EachValid(es, at, p, from + 1);
      var h := p(es[from], at + [Index(from)]);
      assert h.Valid? <==> ElemValid(es, at, p, from);
    }
  }

  /** A parsed array holds one value per element, in order. */
  lemma {:induction false} EachValues<T>(es: seq<Json>, at: Path, p: (Json, Path) -> Parsed<T>, from: nat, i: nat)
    requires from <= i < |es| && Each(es, at, p, from).Valid?
    ensures |Each(es, at, p, from).value| == |es| - from
    ensures p(es[i], at + [Index(i)]).Valid? && Each(es, at, p, from).value[i - from] == p(es[i], at + [Index(i)]).value
    decreases |es| - from
  {
    var h := p(es[from], at + [Index(from)]);
    var t := Each(es, at, p, from + 1);
    assert Each(es, at, p, from).value == [h.value] + t.value;
    if from + 1 < |es| {
      EachValues(es, at, p, from + 1, if i > from then i else from + 1);
    } else {
      assert t.value == [];
    }
  }

  /** Every issue of every element is reported by the array. */
  lemma {:induction false} EachReports<T>(es: seq<Json>, at: Path, p: (Json, Path) -> Parsed<T>, from: nat, i: nat, q: Path)
    requires from <= i < |es| && q in p(es[i], at + [Index(i)]).Issues()
    ensures q in Each(es, at, p, from).Issues()
    decreases |es| - from
  {
    var h := p(es[from], at + [Index(from)]);
    var t := Each(es, at, p, from + 1);
    if i > from {
      EachReports(es, at, p, from + 1, i, q);
      assert q in h.Issues() + t.Issues();
    } else {
      assert q in h.Issues() + t.Issues();
    }
  }

  lemma ItemsAccepted(es: seq<Json>, at: Path)
    ensures Each(es, at, ParseItem, 0).Valid? <==> AllItems(es)
  {
    EachValid(es, at, ParseItem, 0);
    forall i | 0 <= i < |es| ensures ElemValid(es, at, ParseItem, i) <==> ItemShape(es[i]) {
      ItemAccepted(es[i], at + [Index(i)]);
    }
  }

  lemma InsightsAccepted(es: seq<Json>, at: Path)
    ensures Each(es, at, ParseInsight, 0).Valid? <==> AllInsights(es)
  {
    EachValid(es, at, ParseInsight, 0);
    forall i | 0 <= i < |es| ensures ElemValid(es, at, ParseInsight, i) <==> InsightShape(es[i]) {
      InsightAccepted(es[i], at + [Index(i)]);
    }
  }

  lemma StringsAccepted(es: seq<Json>, at: Path)
    ensures Each(es, at, StrElem, 0).Valid? <==> AllStrings(es)
  {
    EachValid(es, at, StrElem, 0);
    forall i | 0 <= i < |es| ensures ElemValid(es, at, StrElem, i) <==> es[i].JStr? {
    }
  }

  /** The schema accepts exactly the values of the declarative shape. */
  lemma EstimateAccepted(v: Json)
    ensures ParseEstimate(v).Valid? <==> EstimateShape(v)
  {
    if v.JObj? {
      var f := v.fields;
      if "items" in f && f["items"].JArr? {
        ItemsAccepted(f["items"].elems, [] + [Key("items")]);
      }
      if "insights" in f && f["insights"].JArr? {
        InsightsAccepted(f["insights"].elems, [] + [Key("insights")]);
      }
      if "suggestedAgenda" in f && f["suggestedAgenda"].JArr? {
        StringsAccepted(f["suggestedAgenda"].elems, [] + [Key("suggestedAgenda")]);
      }
      assert Arr(f, "items", [], ParseItem).Valid? <==> "items" in f && f["items"].JArr? && AllItems(f["items"].elems);
      assert Arr(f, "insights", [], ParseInsight).Valid? <==>
        "insights" in f && f["insights"].JArr? && AllInsights(f["insights"].elems);
      assert OptArr(f, "suggestedAgenda", [], StrElem).Valid? <==>
        ("suggestedAgenda" in f ==> f["suggestedAgenda"].JArr? && AllStrings(f["suggestedAgenda"].elems));
    }
  }

  /** A required top-level key that is missing or of the wrong type is reported under its own name,
      whatever else is wrong. */
  lemma RequiredKeyReported(v: Json, k: string)
    requires v.JObj?
    requires k in {"projectSummary", "paymentTerms", "items", "insights", "marketConfidence", "regionalMultiplier"}
    requires k !in v.fields || (k in {"items", "insights"} && !v.fields[k].JArr?)
      || (k in {"projectSummary", "paymentTerms"} && !v.fields[k].JStr?)
      || (k in {"marketConfidence", "regionalMultiplier"} && !v.fields[k].JNum?)
    ensures ParseEstimate(v).Invalid? && [Key(k)] in ParseEstimate(v).Issues()
  {
    var f := v.fields;
    assert [] + [Key(k)] == [Key(k)];
    var own: seq<Path>;
    if k == "projectSummary" || k == "paymentTerms" {
      own := Str(f, k, []).Issues();
    } else if k == "items" {
      own := Arr(f, k, [], ParseItem).Issues();
    } else if k == "insights" {
      own := Arr(f, k, [], ParseInsight).Issues();
    } else {
      own := Num(f, k, []).Issues();
    }
    assert own == [[Key(k)]];
    assert [Key(k)] in EstimateIssues(f);
  }

  /** A line item whose category is not one of the five names (a lower-case "material", say) is
      reported at that item's `category`, and the estimate is rejected. */
  lemma UnknownCategoryReported(v: Json, i: nat)
    requires v.JObj? && "items" in v.fields && v.fields["items"].JArr?
    requires i < |v.fields["items"].elems|
    requires var item := v.fields["items"].elems[i];
      item.JObj? && "category" in item.fields && item.fields["category"].JStr?
      && item.fields["category"].s !in {"Material", "Labor", "Permit", "Sub", "Equipment"}
    ensures ParseEstimate(v).Invalid? && [Key("items"), Index(i), Key("category")] in ParseEstimate(v).Issues()
  {
    var f := v.fields;
    var es := f["items"].elems;
    var item := es[i];
    CategoryNames(item.fields["category"].s);
    var at := [Key("items")] + [Index(i)];
    var q := [Key("items"), Index(i), Key("category")];
    assert at + [Key("category")] == q;
    assert Cat(item.fields, "category", at).Issues() == [q];
    assert q in ParseItem(item, at).Issues();
    assert [] + [Key("items")] == [Key("items")];
    EachReports(es, [Key("items")], ParseItem, 0, i, q);
    assert q in Arr(f, "items", [], ParseItem).Issues();
    assert q in EstimateIssues(f);
  }

  /** The top-level keys the schema names. */
  const EstimateKeys: set<string> :=
    {"projectSummary", "paymentTerms", "items", "insights", "marketConfidence", "regionalMultiplier", "suggestedAgenda"}

  /** Keys the schema does not name change nothing: they are neither checked nor kept. */
  lemma UnknownKeysIgnored(f: map<string, Json>, extra: map<string, Json>)
    requires forall k :: k in extra ==> k !in EstimateKeys
    ensures ParseEstimate(JObj(f + extra)) == ParseEstimate(JObj(f))
  {
    var g := f + extra;
    forall k | k in EstimateKeys ensures (k in g <==> k in f) && (k in f ==> g[k] == f[k]) {
    }
    assert Str(g, "projectSummary", []) == Str(f, "projectSummary", []);
    assert Str(g, "paymentTerms", []) == Str(f, "paymentTerms", []);
    assert Arr(g, "items", [], ParseItem) == Arr(f, "items", [], ParseItem);
    assert Arr(g, "insights", [], ParseInsight) == Arr(f, "insights", [], ParseInsight);
    assert Num(g, "marketConfidence", []) == Num(f, "marketConfidence", []);
    assert Num(g, "regionalMultiplier", []) == Num(f, "regionalMultiplier", []);
    assert OptArr(g, "suggestedAgenda", [], StrElem) == OptArr(f, "suggestedAgenda", [], StrElem);
    assert EstimateIssues(g) == EstimateIssues(f);
  }

  // ---------------------------------------------------------------------------------------------
  // The JSON form of a validated estimate, and the round trip through the schema.

  function OptField(k: string, v: Option<Json>): map<string, Json> {
    if v.Some? then map[k := v.value] else map[]
  }

  function ItemJson(it: LineItem): Json {
    var f := map["id" := JStr(it.id), "name" := JStr(it.name), "qty" := JNum(it.qty), "unit" := JStr(it.unit),
      "rate" := JNum(it.rate), "total" := JNum(it.total), "category" := JStr(CategoryName(it.category)),
      "csi_division" := JStr(it.csiDivision), "retailerName" := JStr(it.retailerName),
      "storeLink" := JStr(it.storeLink)];
    JObj(if it.logic.Some? then f["logic" := JStr(it.logic.value)] else f)
  }

  function InsightJson(x: Insight): Json {
    JObj(map["type" := JStr(InsightKindName(x.kind)), "title" := JStr(x.title), "text" := JStr(x.text),
      "impact" := JStr(ImpactName(x.impact))])
  }

  function StringsJson(ss: seq<string>): (r: seq<Json>)
    ensures |r| == |ss| && forall i :: 0 <= i < |ss| ==> r[i] == JStr(ss[i])
  {
    seq(|ss|, i requires 0 <= i < |ss| => JStr(ss[i]))
  }

  function ItemsJson(items: seq<LineItem>): (r: seq<Json>)
    ensures |r| == |items| && forall i :: 0 <= i < |items| ==> r[i] == ItemJson(items[i])
  {
    seq(|items|, i requires 0 <= i < |items| => ItemJson(items[i]))
  }

  function InsightsJson(xs: seq<Insight>): (r: seq<Json>)
    ensures |r| == |xs| && forall i :: 0 <= i < |xs| ==> r[i] == InsightJson(xs[i])
  {
    seq(|xs|, i requires 0 <= i < |xs| => InsightJson(xs[i]))
  }

  /** The JSON object of an estimate's schema fields (sources are not part of the schema). */
  function EstimateJson(e: EstimateResult): Json {
    var f := map["projectSummary" := JStr(e.projectSummary), "paymentTerms" := JStr(e.paymentTerms),
      "items" := JArr(ItemsJson(e.items)), "insights" := JArr(InsightsJson(e.insights)),
      "marketConfidence" := JNum(e.marketConfidence), "regionalMultiplier" := JNum(e.regionalMultiplier)];
    JObj(if e.suggestedAgenda.Some? then f["suggestedAgenda" := JArr(StringsJson(e.suggestedAgenda.value))] else f)
  }

  lemma ItemRoundTrip(it: LineItem, at: Path)
    ensures ParseItem(ItemJson(it), at) == Valid(it)
  {
    ParseCategoryInverse(it.category);
    var f := ItemJson(it).fields;
    assert Str(f, "id", at) == Valid(it.id);
    assert Str(f, "name", at) == Valid(it.name);
    assert Num(f, "qty", at) == Valid(it.qty);
    assert Str(f, "unit", at) == Valid(it.unit);
    assert Num(f, "rate", at) == Valid(it.rate);
    assert Num(f, "total", at) == Valid(it.total);
    assert Cat(f, "category", at) == Valid(it.category);
    assert Str(f, "csi_division", at) == Valid(it.csiDivision);
    assert Str(f, "retailerName", at) == Valid(it.retailerName);
    assert Str(f, "storeLink", at) == Valid(it.storeLink);
    assert OptStr(f, "logic", at) == Valid(it.logic);
  }

  lemma InsightRoundTrip(x: Insight, at: Path)
    ensures ParseInsight(InsightJson(x), at) == Valid(x)
  {
    ParseInsightKindInverse(x.kind);
    ParseImpactInverse(x.impact);
  }

  /** Parsing an array with a parser that inverts `enc` on every element gives back the elements. */
  lemma {:induction false} EachRoundTrip<T>(xs: seq<T>, es: seq<Json>, at: Path, p: (Json, Path) -> Parsed<T>, from: nat)
    requires |es| == |xs| && from <= |xs|
    requires forall i :: from <= i < |xs| ==> p(es[i], at + [Index(i)]) == Valid(xs[i])
    ensures Each(es, at, p, from) == Valid(xs[from..])
    decreases |xs| - from
  {
    if from < |xs| {
      EachRoundTrip(xs, es, at, p, from + 1);
      assert [xs[from]] + xs[from + 1..] == xs[from..];
    }
  }

  lemma ItemsRoundTrip(items: seq<LineItem>, at: Path)
    ensures Each(ItemsJson(items), at, ParseItem, 0) == Valid(items)
  {
    var js := ItemsJson(items);
    forall i | 0 <= i < |items| ensures ParseItem(js[i], at + [Index(i)]) == Valid(items[i]) {
      ItemRoundTrip(items[i], at + [Index(i)]);
    }
    EachRoundTrip(items, js, at, ParseItem, 0);
    assert items[0..] == items;
  }

  lemma InsightsRoundTrip(xs: seq<Insight>, at: Path)
    ensures Each(InsightsJson(xs), at, ParseInsight, 0) == Valid(xs)
  {
    var js := InsightsJson(xs);
    forall i | 0 <= i < |xs| ensures ParseInsight(js[i], at + [Index(i)]) == Valid(xs[i]) {
      InsightRoundTrip(xs[i], at + [Index(i)]);
    }
    EachRoundTrip(xs, js, at, ParseInsight, 0);
    assert xs[0..] == xs;
  }

  lemma StringsRoundTrip(ss: seq<string>, at: Path)
    ensures Each(StringsJson(ss), at, StrElem, 0) == Valid(ss)
  {
    EachRoundTrip(ss, StringsJson(ss), at, StrElem, 0);
    assert ss[0..] == ss;
  }

  lemma ArrayFieldsRoundTrip(e: EstimateResult)
    ensures Arr(EstimateJson(e).fields, "items", [], ParseItem) == Valid(e.items)
    ensures Arr(EstimateJson(e).fields, "insights", [], ParseInsight) == Valid(e.insights)
    ensures OptArr(EstimateJson(e).fields, "suggestedAgenda", [], StrElem) == Valid(e.suggestedAgenda)
  {
    var f := EstimateJson(e).fields;
    assert f["items"] == JArr(ItemsJson(e.items)) && f["insights"] == JArr(InsightsJson(e.insights));
    ItemsRoundTrip(e.items, [] + [Key("items")]);
    InsightsRoundTrip(e.insights, [] + [Key("insights")]);
    AgendaFieldRoundTrip(e);
  }

  lemma AgendaFieldRoundTrip(e: EstimateResult)
    ensures OptArr(EstimateJson(e).fields, "suggestedAgenda", [], StrElem) == Valid(e.suggestedAgenda)
  {
    var f := EstimateJson(e).fields;
    if e.suggestedAgenda.Some? {
      assert f["suggestedAgenda"] == JArr(StringsJson(e.suggestedAgenda.value));
      StringsRoundTrip(e.suggestedAgenda.value, [] + [Key("suggestedAgenda")]);
    } else {
      assert "suggestedAgenda" !in f;
    }
  }

  lemma ScalarFieldsRoundTrip(e: EstimateResult)
    ensures Str(EstimateJson(e).fields, "projectSummary", []) == Valid(e.projectSummary)
    ensures Str(EstimateJson(e).fields, "paymentTerms", []) == Valid(e.paymentTerms)
    ensures Num(EstimateJson(e).fields, "marketConfidence", []) == Valid(e.marketConfidence)
    ensures Num(EstimateJson(e).fields, "regionalMultiplier", []) == Valid(e.regionalMultiplier)
  {
  }

  /** Validating the JSON form of an estimate gives back the estimate, without its sources. */
  lemma EstimateRoundTrip(e: EstimateResult)
    ensures ParseEstimate(EstimateJson(e)) == Valid(e.(groundingSources := None))
  {
    ArrayFieldsRoundTrip(e);
    ScalarFieldsRoundTrip(e);
  }
}
