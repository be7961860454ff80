/**
 * The browser-side estimate service (src/geminiService.ts): build the request from the project and
 * an optional blueprint, call the model, validate its JSON against the schema, recompute every line
 * total, and attach the web sources the model cited (or a placeholder when it cited none).
 */
module ClientEstimate {
  import opened Wrappers
  import opened Json
  import opened EstimateTypes
  import Text
  import Schema
  import ErrorHandler

  /** A grounding citation's web part; either field may be missing. */
  datatype Web = Web(uri: Option<string>, title: Option<string>)
  datatype Chunk = Chunk(web: Option<Web>)

  /** What the model returned: its text (possibly missing) and the grounding chunks of the first
      candidate (missing when there is no candidate, metadata or chunk list). */
  datatype Reply = Reply(text: Option<string>, chunks: Option<seq<Chunk>>)

  /** The model call either throws or answers. */
  datatype ModelOutcome = Threw(error: ErrorHandler.Thrown) | Answered(reply: Reply)

  datatype ImagePart = ImagePart(mimeType: string, data: string)

  /** The request sent to the model: the prompt text, the optional image, and the location the system
      instruction names. */
  datatype Request = Request(text: string, image: Option<ImagePart>, location: string)

  /** Why a call fails. */
  datatype Failure =
    | ConfigMissing                          // no API key configured
    | MalformedJson                          // the reply text is not JSON
    | SchemaRejected(issues: seq<Schema.Path>)
    | ProviderFailed(cause: ErrorHandler.Thrown)

  const ConfigMessage: string := "API Key configuration error."
  const MalformedMessage: string := "AI returned malformed data. Please retry."
  const PlaceholderSource: Source := Source("AI Market Reasoning (General)", Some("#"))

  /** Truthiness of an optional text. */
  predicate Present(s: Option<string>) { s.Some? && s.value != "" }

  function PromptText(p: ProjectData): string {
    "COMMAND: Generate industrial estimate for " + p.scope + " in " + p.location + ".\nNARRATIVE: " + p.description
  }

  /** The image part for a blueprint data URL: the text after its first comma, or the whole text when
      that part is missing or empty; no part for a missing or empty blueprint. */
  function BlueprintPart(blueprint: Option<string>): (r: Option<ImagePart>)
    ensures r.Some? <==> Present(blueprint)
    ensures r.Some? ==> r.value.mimeType == "image/jpeg"
  {
    if !Present(blueprint) then None
    else
      var after := Text.SecondField(blueprint.value, ',');
      Some(ImagePart("image/jpeg", if after.Some? && after.value != "" then after.value else blueprint.value))
  }

  /** A data URL `header,payload` with a comma-free header and a non-empty comma-free payload sends
      exactly the payload. */
  lemma DataUrlSendsPayload(header: string, payload: string)
    requires ',' !in header && ',' !in payload && payload != ""
    ensures BlueprintPart(Some(header + "," + payload)) == Some(ImagePart("image/jpeg", payload))
  {
    var s := header + "," + payload;
    assert s[|header|] == ',';
    Text.SecondFieldOfPair(header, payload, ',');
  }

  /** Text without a comma is sent whole. */
  lemma NoCommaSendsWhole(blueprint: string)
    requires blueprint != "" && ',' !in blueprint
    ensures BlueprintPart(Some(blueprint)) == Some(ImagePart("image/jpeg", blueprint))
  {
  }

  function BuildRequest(p: ProjectData, blueprint: Option<string>): Request {
    Request(PromptText(p), BlueprintPart(blueprint), p.location)
  }

  // ---------------------------------------------------------------------------------------------
  // Totals

  /** Every total equals quantity times rate. */
  predicate TotalsConsistent(items: seq<LineItem>) {
    forall i :: 0 <= i < |items| ==> items[i].total == items[i].qty * items[i].rate
  }

  /** Overwrite each item's total with quantity times rate. */
  function RecomputeTotals(items: seq<LineItem>): (r: seq<LineItem>)
    ensures |r| == |items| && TotalsConsistent(r)
    ensures forall i :: 0 <= i < |items| ==> r[i].(total := 0.0) == items[i].(total := 0.0)
  {
    seq(|items|, i requires 0 <= i < |items| => items[i].(total := items[i].qty * items[i].rate))
  }

  /** Items whose totals are already consistent are returned unchanged. */
  lemma RecomputeKeepsConsistent(items: seq<LineItem>)
    requires TotalsConsistent(items)
    ensures RecomputeTotals(items) == items
  {
    var r := RecomputeTotals(items);
    forall i | 0 <= i < |items| ensures r[i] == items[i] {
      assert r[i].(total := 0.0) == items[i].(total := 0.0);
    }
  }

  lemma RecomputeIdempotent(items: seq<LineItem>)
    ensures RecomputeTotals(RecomputeTotals(items)) == RecomputeTotals(items)
  {
    RecomputeKeepsConsistent(RecomputeTotals(items));
  }

  // ---------------------------------------------------------------------------------------------
  // Sources

  /** A chunk is cited when its web part has both a non-empty uri and a non-empty title. */
  predicate Usable(c: Chunk) {
    c.web.Some? && Present(c.web.value.uri) && Present(c.web.value.title)
  }

  function CitedSources(cs: seq<Chunk>): (r: seq<Source>)
    ensures |r| <= |cs|
    ensures forall k :: 0 <= k < |r| ==> r[k].title != "" && r[k].uri.Some? && r[k].uri.value != ""
  {
    if cs == [] then []
    else
      var rest := CitedSources(cs[1..]);
      if Usable(cs[0]) then [Source(cs[0].web.value.title.value, cs[0].web.value.uri)] + rest else rest
  }

  /** The sources attached to a result: the cited ones, or the placeholder alone. */
  function SourcesOf(chunks: Option<seq<Chunk>>): (r: seq<Source>)
    ensures r != []
  {
    var cited := if chunks.Some? then CitedSources(chunks.value) else [];
    if cited == [] then [PlaceholderSource] else cited
  }

  /** Citations keep chunk order: those of a concatenation are those of each part, in turn. */
  lemma {:induction false} CitedSourcesAppend(a: seq<Chunk>, b: seq<Chunk>)
    ensures CitedSources(a + b) == CitedSources(a) + CitedSources(b)
  {
    if a != [] {
      assert (a + b)[1..] == a[1..] + b;
      CitedSourcesAppend(a[1..], b);
    } else {
      assert a + b == b;
    }
  }

  /** One source per usable chunk: there is none exactly when no chunk is usable. */
  lemma {:induction false} CitedSourcesEmpty(cs: seq<Chunk>)
    ensures CitedSources(cs) == [] <==> forall i :: 0 <= i < |cs| ==> !Usable(cs[i])
  {
    if cs != [] {
      CitedSourcesEmpty(cs[1..]);
      if !Usable(cs[0]) {
        forall i | 1 <= i < |cs| ensures Usable(cs[i]) == Usable(cs[1..][i - 1]) { }
      }
    }
  }

  /** The placeholder stands in exactly when no chunk is usable; otherwise the cited sources are
      returned as they are. */
  lemma PlaceholderIffNothingCited(chunks: Option<seq<Chunk>>)
    ensures (chunks.None? || forall i :: 0 <= i < |chunks.value| ==> !Usable(chunks.value[i])) ==>
      SourcesOf(chunks) == [PlaceholderSource]
    ensures (chunks.Some? && !(forall i :: 0 <= i < |chunks.value| ==> !Usable(chunks.value[i]))) ==>
      SourcesOf(chunks) == CitedSources(chunks.value)
  {
    if chunks.Some? {
      CitedSourcesEmpty(chunks.value);
    }
  }

  // ---------------------------------------------------------------------------------------------
  // The call

  /** `response.text || "{}"`: the reply text, with an empty or missing one read as "{}". */
  function ReplyText(reply: Reply): (t: string)
    ensures t != ""
    ensures Present(reply.text) ==> t == reply.text.value
  {
    if Present(reply.text) then reply.text.value else "{}"
  }

  /** `generateFullEstimate`. `model` is the generative model and `parse` is `JSON.parse` (None when it
      throws). */
  function Generate(apiKey: Option<string>, p: ProjectData, blueprint: Option<string>,
                    model: Request -> ModelOutcome, parse: string -> Option<Json>): (r: Result<EstimateResult, Failure>)
    ensures !Present(apiKey) ==> r == Err(ConfigMissing)
    ensures Present(apiKey) && model(BuildRequest(p, blueprint)).Threw? ==>
      r == Err(ProviderFailed(model(BuildRequest(p, blueprint)).error))
    ensures Present(apiKey) && model(BuildRequest(p, blueprint)).Answered? ==>
      (parse(ReplyText(model(BuildRequest(p, blueprint)).reply)).None? ==> r == Err(MalformedJson))
    ensures r.Ok? ==> TotalsConsistent(r.value.items) && r.value.groundingSources.Some? && r.value.groundingSources.value != []
  {
    if !Present(apiKey) then Err(ConfigMissing)
    else
      match model(BuildRequest(p, blueprint))
      case Threw(e) => Err(ProviderFailed(e))
      case Answered(reply) =>
        var text := ReplyText(reply);
        match parse(text)
        case None => Err(MalformedJson)
        case Some(raw) =>
          match Schema.ParseEstimate(raw)
          case Invalid(first, rest) => Err(SchemaRejected([first] + rest))
          case Valid(v) => Ok(v.(items := RecomputeTotals(v.items), groundingSources := Some(SourcesOf(reply.chunks))))
  }

  /** The error the function throws for a failure: a fresh `Error` carrying the handled message.
      A schema rejection carries the validator's own text, `zodText`. */
  function ThrownError(f: Failure, zodText: seq<Schema.Path> -> string): (e: ErrorHandler.Thrown)
    ensures e.JsError? && e.name == "Error"
    ensures f == ConfigMissing ==> e.message == ConfigMessage
    ensures f == MalformedJson ==> e.message == MalformedMessage
    ensures f.ProviderFailed? ==> e.message == ErrorHandler.HandleError(f.cause)
  {
    match f
    case ConfigMissing => ErrorHandler.JsError("Error", ConfigMessage)
    case MalformedJson => ErrorHandler.JsError("Error", ErrorHandler.HandleError(ErrorHandler.JsError("Error", MalformedMessage)))
    case SchemaRejected(issues) => ErrorHandler.JsError("Error", zodText(issues))
    case ProviderFailed(cause) => ErrorHandler.JsError("Error", ErrorHandler.HandleError(cause))
  }

  /** Reply text that `JSON.parse` rejects ends the call with the error "AI returned malformed data.
      Please retry.", whatever the schema would have said. */
  lemma MalformedReplyFails(apiKey: Option<string>, p: ProjectData, blueprint: Option<string>,
                            model: Request -> ModelOutcome, parse: string -> Option<Json>, zodText: seq<Schema.Path> -> string)
    requires Present(apiKey) && model(BuildRequest(p, blueprint)).Answered?
    requires parse(ReplyText(model(BuildRequest(p, blueprint)).reply)).None?
    ensures Generate(apiKey, p, blueprint, model, parse) == Err(MalformedJson)
    ensures ThrownError(Generate(apiKey, p, blueprint, model, parse).error, zodText)
      == ErrorHandler.JsError("Error", MalformedMessage)
  {
  }

  /** Without a key the model is never consulted: the outcome is the same whatever it would answer. */
  lemma NoKeyNoCall(apiKey: Option<string>, p: ProjectData, blueprint: Option<string>,
                    m1: Request -> ModelOutcome, m2: Request -> ModelOutcome, parse: string -> Option<Json>)
    requires !Present(apiKey)
    ensures Generate(apiKey, p, blueprint, m1, parse) == Generate(apiKey, p, blueprint, m2, parse) == Err(ConfigMissing)
  {
  }

  /** A successful result is the validated reply with recomputed totals and the sources attached:
      item count, order and every other field are as the model sent them. */
  lemma SuccessShape(apiKey: Option<string>, p: ProjectData, blueprint: Option<string>,
                     model: Request -> ModelOutcome, parse: string -> Option<Json>)
    requires Generate(apiKey, p, blueprint, model, parse).Ok?
    ensures var reply := model(BuildRequest(p, blueprint)).reply;
      var text := ReplyText(reply);
      var r := Generate(apiKey, p, blueprint, model, parse).value;
      model(BuildRequest(p, blueprint)).Answered? && parse(text).Some?
      && Schema.ParseEstimate(parse(text).value).Valid?
      && var v := Schema.ParseEstimate(parse(text).value).value;
         |r.items| == |v.items|
         && (forall i :: 0 <= i < |v.items| ==> r.items[i].(total := 0.0) == v.items[i].(total := 0.0))
         && r.(items := v.items, groundingSources := None) == v
         && r.groundingSources == Some(SourcesOf(reply.chunks))
  {
  }

  /** A category, insight type or impact outside its closed set fails the whole call. */
  lemma OutOfSetFails(apiKey: Option<string>, p: ProjectData, blueprint: Option<string>,
                      model: Request -> ModelOutcome, parse: string -> Option<Json>, raw: Json)
    requires Present(apiKey) && model(BuildRequest(p, blueprint)).Answered?
    requires var reply := model(BuildRequest(p, blueprint)).reply;
      parse(ReplyText(reply)) == Some(raw)
    requires !Schema.EstimateShape(raw)
    ensures Generate(apiKey, p, blueprint, model, parse).Err?
    ensures Generate(apiKey, p, blueprint, model, parse).error.SchemaRejected?
  {
    Schema.EstimateAccepted(raw);
  }

  /** An empty or missing reply text is read as "{}", which the schema rejects with a missing
      `projectSummary` among its issues. */
  lemma EmptyTextRejected(apiKey: Option<string>, p: ProjectData, blueprint: Option<string>,
                          model: Request -> ModelOutcome, parse: string -> Option<Json>)
    requires Present(apiKey) && model(BuildRequest(p, blueprint)).Answered?
    requires !Present(model(BuildRequest(p, blueprint)).reply.text)
    requires parse("{}") == Some(JObj(map[]))
    ensures var r := Generate(apiKey, p, blueprint, model, parse);
      r.Err? && r.error.SchemaRejected? && [Schema.Key("projectSummary")] in r.error.issues
  {
    Schema.RequiredKeyReported(JObj(map[]), "projectSummary");
  }
}
